/** A documented misuse: its identity (project, version and misuse ids, and the
    path of its directory) and the lazily read, cached attributes of its
    description file. The parsed description file and the list of correct-usage
    sources are fixed inputs of the object, standing for what `yaml.load` and the
    directory walk return; the object reads them on first use and caches the
    result in the attribute the source uses, except `is_apis_are_internal`,
    which has no cache of its own and looks the key up in the cached document
    on every call. */
module MisuseData {
  import opened Wrappers
  import opened Text

  const MisuseFile := "misuse.yml"
  /** `Project.MISUSES_DIR`. */
  const MisusesDir := "misuses"
  const CorrectUsagesDir := "correct-usages"

  // ---------------------------------------------------------------------------
  // YAML values and Python's operations on them
  // ---------------------------------------------------------------------------

  /** A value as `yaml.load` returns it; mappings keep their key order. */
  datatype Value =
    | Null
    | Bool(b: bool)
    | Int(i: int)
    | Str(s: string)
    | List(items: seq<Value>)
    | Dict(entries: seq<Entry>)

  datatype Entry = Entry(key: string, value: Value)

  /** The exceptions the accessors can raise. */
  datatype Error = KeyError(key: string) | TypeError | AttributeError(name: string)

  /** The value bound to `key`; a key given twice keeps its last value. */
  function Lookup(entries: seq<Entry>, key: string): (r: Option<Value>)
    ensures r.Some? <==> exists i :: 0 <= i < |entries| && entries[i].key == key
  {
    if entries == [] then None
    else if entries[|entries| - 1].key == key then Some(entries[|entries| - 1].value)
    else Lookup(entries[..|entries| - 1], key)
  }

  /** `v[key]`: a missing key raises `KeyError`, a value that is not a mapping
      `TypeError`. */
  function Subscript(v: Value, key: string): (r: Result<Value, Error>)
    ensures r.Failure? <==> !v.Dict? || Lookup(v.entries, key).None?
    ensures v.Dict? && r.Failure? ==> r.error == KeyError(key)
  {
    match v
    case Dict(entries) =>
      (match Lookup(entries, key)
       case Some(x) => Success(x)
       case None => Failure(KeyError(key)))
    case _ => Failure(TypeError)
  }

  /** `v.get(key, default)`: only a mapping has `get`. */
  function Get(v: Value, key: string, default: Value): (r: Result<Value, Error>)
    ensures v.Dict? && Lookup(v.entries, key).Some? ==> r == Success(Lookup(v.entries, key).value)
    ensures v.Dict? && (forall i :: 0 <= i < |v.entries| ==> v.entries[i].key != key) ==> r == Success(default)
    ensures !v.Dict? ==> r == Failure(AttributeError("get"))
  {
    match v
    case Dict(entries) => Success(Lookup(entries, key).GetOr(default))
    case _ => Failure(AttributeError("get"))
  }

  function IntToString(n: int): string {
    if n < 0 then "-" + NatToString(-n) else NatToString(n)
  }

  /** `str(v)`; list elements, keys and values are rendered with `repr`. */
  function PyStr(v: Value): string {
    match v
    case Str(s) => s
    case _ => PyRepr(v)
  }

  function PyRepr(v: Value): string
    decreases v, 1
  {
    match v
    case Null => "None"
    case Bool(b) => if b then "True" else "False"
    case Int(i) => IntToString(i)
    case Str(s) => "'" + s + "'"
    case List(items) => "[" + ReprItems(v, items) + "]"
    case Dict(entries) => "{" + ReprEntries(v, entries) + "}"
  }

  function ReprItems(ghost parent: Value, items: seq<Value>): string
    requires forall x :: x in items ==> x < parent
    decreases parent, 0, |items|
  {
    if items == [] then ""
    else
      assert items[0] in items;
      var head := PyRepr(items[0]);
      if |items| == 1 then head
      else
        assert forall x :: x in items[1..] ==> x in items;
        head + ", " + ReprItems(parent, items[1..])
  }

  function ReprEntries(ghost parent: Value, entries: seq<Entry>): string
    requires forall e :: e in entries ==> e.value < parent
    decreases parent, 0, |entries|
  {
    if entries == [] then ""
    else
      var head := "'" + entries[0].key + "': " + PyRepr(entries[0].value);
      if |entries| == 1 then head else head + ", " + ReprEntries(parent, entries[1..])
  }

  // ---------------------------------------------------------------------------
  // Location and Fix
  // ---------------------------------------------------------------------------

  datatype Location = Location(file: Value, methodName: Value, line: Value)

  /** `Location.__eq__`: all three fields are compared. */
  predicate LocationEquals(a: Location, b: Location) {
    a.file == b.file && a.methodName == b.methodName && a.line == b.line
  }

  /** `Location.__str__`, which leaves the line out. */
  function LocationStr(l: Location): string {
    "Location(" + PyStr(l.file) + ", " + PyStr(l.methodName) + ")"
  }

  lemma LocationEqualsIsEquality(a: Location, b: Location)
    ensures LocationEquals(a, b) <==> a == b
  {
  }

  /** Two locations that print alike yet differ, because the line is compared
      but not printed. */
  lemma LocationStrOmitsLine()
    ensures var a, b := Location(Str("a"), Str("m()"), Int(1)), Location(Str("a"), Str("m()"), Int(2));
      LocationStr(a) == LocationStr(b) && !LocationEquals(a, b)
  {
  }

  datatype Fix = Fix(description: Value, commit: Value, revision: string)

  /** `location`: `yaml["location"]` must exist; its missing fields default to
      "", "" and -1. */
  function LocationOf(yaml: Value): (r: Result<Location, Error>)
    ensures Subscript(yaml, "location").Failure? ==> r == Failure(Subscript(yaml, "location").error)
    ensures Subscript(yaml, "location") == Success(Dict([])) ==> r == Success(Location(Str(""), Str(""), Int(-1)))
    ensures r.Failure? <==> Subscript(yaml, "location").Failure? || !Subscript(yaml, "location").value.Dict?
    ensures Subscript(yaml, "location").Success? && !Subscript(yaml, "location").value.Dict? ==>
      r == Failure(AttributeError("get"))
  {
    var location :- Subscript(yaml, "location");
    if location.Dict? then
      var fields := location.entries;
      Success(Location(Lookup(fields, "file").GetOr(Str("")), Lookup(fields, "method").GetOr(Str("")),
                       Lookup(fields, "line").GetOr(Int(-1))))
    else
      Failure(AttributeError("get"))
  }

  /** `fix`: an absent `fix` reads as an empty mapping, every field defaults to ""
      and the revision is always passed through `str`. */
  function FixOf(yaml: Value): (r: Result<Fix, Error>)
    ensures yaml.Dict? && Lookup(yaml.entries, "fix").None? ==> r == Success(Fix(Str(""), Str(""), ""))
    ensures r.Failure? <==> !yaml.Dict? || !Lookup(yaml.entries, "fix").GetOr(Dict([])).Dict?
    ensures r.Failure? ==> r.error == AttributeError("get")
  {
    var fix :- Get(yaml, "fix", Dict([]));
    if fix.Dict? then
      var fields := fix.entries;
      Success(Fix(Lookup(fields, "description").GetOr(Str("")), Lookup(fields, "commit").GetOr(Str("")),
                  PyStr(Lookup(fields, "revision").GetOr(Str("")))))
    else
      Failure(AttributeError("get"))
  }

  /** A location mapping's fields are taken as they are, and a missing one takes
      its default. */
  lemma LocationFields(yaml: Value, fields: seq<Entry>)
    requires Subscript(yaml, "location") == Success(Dict(fields))
    ensures LocationOf(yaml).Success?
    ensures Lookup(fields, "file").Some? ==> LocationOf(yaml).value.file == Lookup(fields, "file").value
    ensures Lookup(fields, "file").None? ==> LocationOf(yaml).value.file == Str("")
    ensures Lookup(fields, "method").Some? ==> LocationOf(yaml).value.methodName == Lookup(fields, "method").value
    ensures Lookup(fields, "method").None? ==> LocationOf(yaml).value.methodName == Str("")
    ensures Lookup(fields, "line").Some? ==> LocationOf(yaml).value.line == Lookup(fields, "line").value
    ensures Lookup(fields, "line").None? ==> LocationOf(yaml).value.line == Int(-1)
  {
  }

  /** The location of the misuse the run tests build: file and method as given,
      and the line defaulted to -1. */
  lemma LocationWithoutLine()
    ensures var location := Dict([Entry("file", Str("a")), Entry("method", Str("m()"))]);
      LocationOf(Dict([Entry("location", location)])) == Success(Location(Str("a"), Str("m()"), Int(-1)))
  {
    var location := Dict([Entry("file", Str("a")), Entry("method", Str("m()"))]);
    assert Lookup(location.entries, "line") == None by {
      assert location.entries[..1] == [Entry("file", Str("a"))];
    }
  }

  /** A fix mapping's fields are taken as they are, a missing description or
      commit is "", and the revision is `str` of the given one or "". */
  lemma FixFields(yaml: Value, fields: seq<Entry>)
    requires yaml.Dict? && Lookup(yaml.entries, "fix") == Some(Dict(fields))
    ensures FixOf(yaml).Success?
    ensures Lookup(fields, "description").Some? ==> FixOf(yaml).value.description == Lookup(fields, "description").value
    ensures Lookup(fields, "description").None? ==> FixOf(yaml).value.description == Str("")
    ensures Lookup(fields, "commit").Some? ==> FixOf(yaml).value.commit == Lookup(fields, "commit").value
    ensures Lookup(fields, "commit").None? ==> FixOf(yaml).value.commit == Str("")
    ensures Lookup(fields, "revision").Some? ==> FixOf(yaml).value.revision == PyStr(Lookup(fields, "revision").value)
    ensures Lookup(fields, "revision").None? ==> FixOf(yaml).value.revision == ""
  {
  }

  /** A recorded revision is rendered with `str`: a number becomes its decimal
      digits, a string stays as it is. */
  lemma FixRevision(yaml: Value, fields: seq<Entry>, revision: Value)
    requires yaml.Dict? && Lookup(yaml.entries, "fix") == Some(Dict(fields))
    requires Lookup(fields, "revision") == Some(revision)
    ensures FixOf(yaml).Success?
    ensures revision.Str? ==> FixOf(yaml).value.revision == revision.s
    ensures revision.Int? && revision.i >= 0 ==> FixOf(yaml).value.revision == NatToString(revision.i)
    ensures revision.Int? && revision.i < 0 ==> FixOf(yaml).value.revision == "-" + NatToString(-revision.i)
  {
  }

  /** `source`: `Some(n)` when `_source` gets assigned `n`, `None` when the file
      has no (or a null) `source` and `_source` stays unassigned. */
  function SourceOf(yaml: Value): (r: Result<Option<Value>, Error>)
    ensures r == Success(None) <==> yaml.Dict? && Lookup(yaml.entries, "source").GetOr(Null) == Null
    ensures yaml.Dict? && Lookup(yaml.entries, "source") == Some(Dict([])) ==> r == Success(Some(Null))
    ensures r.Failure? ==> r.error == AttributeError("get")
  {
    var sourceKey :- Get(yaml, "source", Null);
    if sourceKey == Null then Success(None)
    else
      var name :- Get(sourceKey, "name", Null);
      Success(Some(name))
  }

  /** A present, non-null `source` assigns its `name` (or `None` when it has none);
      a `source` that is not a mapping has no `get`. */
  lemma SourceName(yaml: Value, source: Value)
    requires yaml.Dict? && Lookup(yaml.entries, "source") == Some(source) && source != Null
    ensures source.Dict? ==> SourceOf(yaml) == Success(Some(Lookup(source.entries, "name").GetOr(Null)))
    ensures !source.Dict? ==> SourceOf(yaml) == Failure(AttributeError("get"))
  {
  }

  /** A correct usage: its directory and its path relative to that directory. */
  datatype CorrectUsage = CorrectUsage(basePath: string, relativePath: string)

  /** Python's `s[n:]`, which is "" when `s` is shorter than `n`. */
  function DropPrefix(s: string, n: nat): string {
    if n <= |s| then s[n..] else ""
  }

  /** `correct_usages` when computed: nothing when the directory is absent, else
      one correct usage per `.java` file found below it. */
  function CorrectUsagesOf(usagePath: string, javaFiles: Option<set<string>>): (r: set<CorrectUsage>)
    ensures javaFiles.None? ==> r == {}
    ensures forall u :: u in r ==> u.basePath == usagePath
    ensures javaFiles.Some? ==> forall f :: f in javaFiles.value ==>
      CorrectUsage(usagePath, DropPrefix(f, |usagePath| + 1)) in r
    ensures javaFiles.Some? ==> forall u :: u in r ==>
      exists f :: f in javaFiles.value && u == CorrectUsage(usagePath, DropPrefix(f, |usagePath| + 1))
    ensures javaFiles == Some({}) ==> r == {}
  {
    match javaFiles
    case None => {}
    case Some(files) => set f | f in files :: CorrectUsage(usagePath, DropPrefix(f, |usagePath| + 1))
  }

  // ---------------------------------------------------------------------------
  // Identity
  // ---------------------------------------------------------------------------

  /** `id`: the three ids joined with dots, lower-cased. */
  function MisuseId(projectId: string, versionId: string, misuseId: string): (id: string)
    ensures id == Lower(projectId) + "." + Lower(versionId) + "." + Lower(misuseId)
    ensures Lower(id) == id
  {
    LowerJoin(projectId, versionId, misuseId);
    Lower(projectId + "." + versionId + "." + misuseId)
  }

  lemma LowerJoin(p: string, v: string, m: string)
    ensures Lower(p + "." + v + "." + m) == Lower(p) + "." + Lower(v) + "." + Lower(m)
    ensures Lower(Lower(p + "." + v + "." + m)) == Lower(p + "." + v + "." + m)
  {
    var dot := ".";
    assert Lower(dot) == dot;
    LowerConcat(p + dot + v + dot, m);
    LowerConcat(p + dot + v, dot);
    LowerConcat(p + dot, v);
    LowerConcat(p, dot);
    LowerIdempotent(p + dot + v + dot + m);
  }

  /** What the accessors give for a description that lacks their keys: the
      defaults, and the `KeyError` of `is_crash`. */
  lemma MissingKeys(entries: seq<Entry>)
    requires forall i :: 0 <= i < |entries| ==>
      entries[i].key !in {"location", "description", "fix", "crash", "source", "api", "internal", "violations"}
    ensures LocationOf(Dict(entries)) == Failure(KeyError("location"))
    ensures Get(Dict(entries), "description", Str("")) == Success(Str(""))
    ensures FixOf(Dict(entries)) == Success(Fix(Str(""), Str(""), ""))
    ensures Subscript(Dict(entries), "crash") == Failure(KeyError("crash"))
    ensures SourceOf(Dict(entries)) == Success(None)
    ensures Get(Dict(entries), "api", List([])) == Success(List([]))
    ensures Get(Dict(entries), "internal", Bool(false)) == Success(Bool(false))
    ensures Get(Dict(entries), "violations", List([])) == Success(List([]))
  {
  }

  /** A fixed polynomial string hash, standing in for Python's salted
      `str.__hash__`. */
  function StringHash(s: string): int {
    if s == [] then 0 else (StringHash(s[..|s| - 1]) * 31 + s[|s| - 1] as int) % 0x1_0000_0000_0000_0000
  }

  class Misuse {
    const projectId: string
    const versionId: string
    const misuseId: string
    const id: string
    const path: string
    const misuseFile: string
    /** What `yaml.load` returns for `misuseFile`. */
    const document: Value
    /** The `.java` files the walk below `correct_usage_path` finds, or `None`
        when that directory does not exist. */
    const javaFiles: Option<set<string>>

    /** `_YAML`; `Null` is Python's `None`, so a document that loads as `None`
        is loaded again on every use. */
    var yamlCache: Value
    /** How often the description file has been parsed. */
    ghost var loads: nat
    var locationCache: Option<Location>
    var fixCache: Option<Fix>
    var descriptionCache: Value
    var isCrashCache: Value
    /** `_source`: `None` while the attribute is unassigned. */
    var sourceCache: Option<Value>
    var apisCache: Value
    var violationsCache: Value
    var correctUsagesCache: set<CorrectUsage>
    /** How often the correct-usage directory has been looked at. */
    ghost var usageScans: nat

    /** Every cache is either empty or holds what the files give. */
    ghost predicate Valid()
      reads this
    {
      && (yamlCache == Null || yamlCache == document)
      && (document != Null ==> loads == (if yamlCache == Null then 0 else 1))
      && (locationCache.Some? ==> LocationOf(document) == Success(locationCache.value))
      && (fixCache.Some? ==> FixOf(document) == Success(fixCache.value))
      && (descriptionCache != Null ==> Get(document, "description", Str("")) == Success(descriptionCache))
      && (isCrashCache != Null ==> Subscript(document, "crash") == Success(isCrashCache))
      && (sourceCache.Some? ==> SourceOf(document) == Success(sourceCache))
      && (apisCache != Null ==> Get(document, "api", List([])) == Success(apisCache))
      && (violationsCache != Null ==> Get(document, "violations", List([])) == Success(violationsCache))
      && (correctUsagesCache != {} ==> correctUsagesCache == CorrectUsagesOf(CorrectUsagePath(), javaFiles))
    }

    /** `Project(base_path, project_id).path` is the input `projectPath`. */
    constructor (projectPath: string, projectId: string, versionId: string, misuseId: string,
                 document: Value, javaFiles: Option<set<string>>)
      ensures this.projectId == projectId && this.versionId == versionId && this.misuseId == misuseId
      ensures id == MisuseId(projectId, versionId, misuseId)
      ensures path == PathJoin(PathJoin(projectPath, MisusesDir), misuseId)
      ensures misuseFile == PathJoin(path, MisuseFile)
      ensures this.document == document && this.javaFiles == javaFiles
      ensures Valid() && loads == 0 && usageScans == 0
      ensures yamlCache == Null && locationCache == None && fixCache == None && correctUsagesCache == {}
      ensures descriptionCache == Null && isCrashCache == Null && sourceCache == None
      ensures apisCache == Null && violationsCache == Null
    {
      this.projectId := projectId;
      this.versionId := versionId;
      this.misuseId := misuseId;
      id := MisuseId(projectId, versionId, misuseId);
      path := PathJoin(PathJoin(projectPath, MisusesDir), misuseId);
      misuseFile := PathJoin(PathJoin(PathJoin(projectPath, MisusesDir), misuseId), MisuseFile);
      this.document := document;
      this.javaFiles := javaFiles;
      yamlCache := Null;
      loads := 0;
      locationCache := None;
      fixCache := None;
      descriptionCache := Null;
      isCrashCache := Null;
      sourceCache := None;
      apisCache := Null;
      violationsCache := Null;
      correctUsagesCache := {};
      usageScans := 0;
    }

    function CorrectUsagePath(): string {
      PathJoin(path, CorrectUsagesDir)
    }

    /** `_yaml`: parses the description file unless a document is cached. */
    method Yaml() returns (yaml: Value)
      requires Valid()
      modifies this`yamlCache, this`loads
      ensures Valid() && yaml == document && yamlCache == document
      ensures loads == if old(yamlCache) == Null then old(loads) + 1 else old(loads)
    {
      if yamlCache == Null {
        yamlCache := document;
        loads := loads + 1;
      }
      yaml := yamlCache;
    }

    method GetLocation() returns (r: Result<Location, Error>)
      requires Valid()
      modifies this`yamlCache, this`loads, this`locationCache
      ensures Valid() && r == LocationOf(document)
      ensures locationCache == if old(locationCache).Some? then old(locationCache) else r.ToOption()
      ensures yamlCache == if old(locationCache).Some? then old(yamlCache) else document
      ensures loads == if old(locationCache).Some? || old(yamlCache) != Null then old(loads) else old(loads) + 1
    {
      if locationCache.None? {
        var yaml := Yaml();
        r := LocationOf(yaml);
        if r.Success? {
          locationCache := Some(r.value);
        }
      } else {
        r := Success(locationCache.value);
      }
    }

    method GetDescription() returns (r: Result<Value, Error>)
      requires Valid()
      modifies this`yamlCache, this`loads, this`descriptionCache
      ensures Valid() && r == Get(document, "description", Str(""))
      ensures descriptionCache == if old(descriptionCache) != Null || r.Failure? then old(descriptionCache) else r.value
      ensures yamlCache == if old(descriptionCache) != Null then old(yamlCache) else document
      ensures loads == if old(descriptionCache) != Null || old(yamlCache) != Null then old(loads) else old(loads) + 1
    {
      if descriptionCache == Null {
        var yaml := Yaml();
        r := Get(yaml, "description", Str(""));
        if r.Success? {
          descriptionCache := r.value;
        }
      } else {
        r := Success(descriptionCache);
      }
    }

    method GetFix() returns (r: Result<Fix, Error>)
      requires Valid()
      modifies this`yamlCache, this`loads, this`fixCache
      ensures Valid() && r == FixOf(document)
      ensures fixCache == if old(fixCache).Some? then old(fixCache) else r.ToOption()
      ensures yamlCache == if old(fixCache).Some? then old(yamlCache) else document
      ensures loads == if old(fixCache).Some? || old(yamlCache) != Null then old(loads) else old(loads) + 1
    {
      if fixCache.None? {
        var yaml := Yaml();
        r := FixOf(yaml);
        if r.Success? {
          fixCache := Some(r.value);
        }
      } else {
        r := Success(fixCache.value);
      }
    }

    /** `is_crash`: `yaml["crash"]`, so a missing key raises. */
    method IsCrash() returns (r: Result<Value, Error>)
      requires Valid()
      modifies this`yamlCache, this`loads, this`isCrashCache
      ensures Valid() && r == Subscript(document, "crash")
      ensures isCrashCache == if old(isCrashCache) != Null || r.Failure? then old(isCrashCache) else r.value
      ensures yamlCache == if old(isCrashCache) != Null then old(yamlCache) else document
      ensures loads == if old(isCrashCache) != Null || old(yamlCache) != Null then old(loads) else old(loads) + 1
    {
      if isCrashCache == Null {
        var yaml := Yaml();
        r := Subscript(yaml, "crash");
        if r.Success? {
          isCrashCache := r.value;
        }
      } else {
        r := Success(isCrashCache);
      }
    }

    /** `source`: returning `_source` raises `AttributeError` while it was never
        assigned. */
    method GetSource() returns (r: Result<Value, Error>)
      requires Valid()
      modifies this`yamlCache, this`loads, this`sourceCache
      ensures Valid()
      ensures SourceOf(document).Failure? && (old(sourceCache).None? || old(sourceCache) == Some(Null)) ==>
        r == Failure(SourceOf(document).error)
      ensures SourceOf(document) == Success(None) && old(sourceCache).None? ==>
        r == Failure(AttributeError("_source"))
      ensures SourceOf(document).Success? && SourceOf(document).value.Some? ==>
        r == Success(SourceOf(document).value.value)
      ensures old(sourceCache).Some? && old(sourceCache) != Some(Null) ==>
        r == Success(old(sourceCache).value) && yamlCache == old(yamlCache) && loads == old(loads)
      ensures sourceCache == if SourceOf(document).Success? && SourceOf(document).value.Some?
        then SourceOf(document).value else old(sourceCache)
      ensures old(sourceCache).None? || old(sourceCache) == Some(Null) ==>
        yamlCache == document && loads == if old(yamlCache) != Null then old(loads) else old(loads) + 1
    {
      if sourceCache.None? || sourceCache == Some(Null) {
        var yaml := Yaml();
        var lookup := SourceOf(yaml);
        if lookup.Failure? {
          return Failure(lookup.error);
        }
        if lookup.value.Some? {
          sourceCache := lookup.value;
        }
      }
      if sourceCache.None? {
        r := Failure(AttributeError("_source"));
      } else {
        r := Success(sourceCache.value);
      }
    }

    method GetApis() returns (r: Result<Value, Error>)
      requires Valid()
      modifies this`yamlCache, this`loads, this`apisCache
      ensures Valid() && r == Get(document, "api", List([]))
      ensures apisCache == if old(apisCache) != Null || r.Failure? then old(apisCache) else r.value
      ensures yamlCache == if old(apisCache) != Null then old(yamlCache) else document
      ensures loads == if old(apisCache) != Null || old(yamlCache) != Null then old(loads) else old(loads) + 1
    {
      if apisCache == Null {
        var yaml := Yaml();
        r := Get(yaml, "api", List([]));
        if r.Success? {
          apisCache := r.value;
        }
      } else {
        r := Success(apisCache);
      }
    }

    /** `is_apis_are_internal`: read from the document on every call, never cached. */
    method IsApisAreInternal() returns (r: Result<Value, Error>)
      requires Valid()
      modifies this`yamlCache, this`loads
      ensures Valid() && r == Get(document, "internal", Bool(false))
      ensures yamlCache == document && loads == if old(yamlCache) != Null then old(loads) else old(loads) + 1
    {
      var yaml := Yaml();
      r := Get(yaml, "internal", Bool(false));
    }

    method GetViolations() returns (r: Result<Value, Error>)
      requires Valid()
      modifies this`yamlCache, this`loads, this`violationsCache
      ensures Valid() && r == Get(document, "violations", List([]))
      ensures violationsCache == if old(violationsCache) != Null || r.Failure? then old(violationsCache) else r.value
      ensures yamlCache == if old(violationsCache) != Null then old(yamlCache) else document
      ensures loads == if old(violationsCache) != Null || old(yamlCache) != Null then old(loads) else old(loads) + 1
    {
      if violationsCache == Null {
        var yaml := Yaml();
        r := Get(yaml, "violations", List([]));
        if r.Success? {
          violationsCache := r.value;
        }
      } else {
        r := Success(violationsCache);
      }
    }

    /** `correct_usages`: an empty cache counts as not computed, so when there are
        no correct usages the directory is looked at again on every call. */
    method GetCorrectUsages() returns (r: set<CorrectUsage>)
      requires Valid()
      modifies this`correctUsagesCache, this`usageScans
      ensures Valid() && r == CorrectUsagesOf(CorrectUsagePath(), javaFiles) && correctUsagesCache == r
      ensures usageScans == if old(correctUsagesCache) == {} then old(usageScans) + 1 else old(usageScans)
    {
      if correctUsagesCache == {} {
        correctUsagesCache := CorrectUsagesOf(CorrectUsagePath(), javaFiles);
        usageScans := usageScans + 1;
      }
      r := correctUsagesCache;
    }

    /** `__eq__` and `__ne__`: only the paths are compared. */
    predicate Equals(other: Misuse) {
      path == other.path
    }

    predicate NotEquals(other: Misuse) {
      !Equals(other)
    }

    function Hash(): int {
      StringHash(path)
    }

    /** `__str__`. */
    function Display(): string {
      "misuse '" + id + "'"
    }
  }

  /** Misuse equality is an equivalence that agrees with the hash, and `!=` is its
      negation. */
  lemma MisuseIdentity(a: Misuse, b: Misuse, c: Misuse)
    ensures a.Equals(a)
    ensures a.Equals(b) ==> b.Equals(a)
    ensures a.Equals(b) && b.Equals(c) ==> a.Equals(c)
    ensures a.Equals(b) ==> a.Hash() == b.Hash()
    ensures a.NotEquals(b) <==> !a.Equals(b)
  {
  }

  /** The display text quotes the id, so it tells misuses apart exactly by id
      (not by path, which is what equality compares). */
  lemma DisplayShowsId(a: Misuse, b: Misuse)
    ensures a.Display()[8..|a.Display()| - 1] == a.id
    ensures a.Display() == b.Display() <==> a.id == b.id
  {
    assert a.Display()[8..|a.Display()| - 1] == a.id;
    assert b.Display()[8..|b.Display()| - 1] == b.id;
  }

  /** A misuse's description file sits in its directory. */
  lemma MisuseFileInDirectory(m: Misuse, projectPath: string)
    requires m.path == PathJoin(PathJoin(projectPath, MisusesDir), m.misuseId)
    requires m.misuseFile == PathJoin(m.path, MisuseFile)
    requires |m.misuseId| > 0 && m.misuseId[0] != '/' && m.misuseId[|m.misuseId| - 1] != '/'
    ensures m.misuseFile == m.path + "/misuse.yml"
    ensures m.path[|m.path| - |m.misuseId|..] == m.misuseId
  {
    PathJoinParts(PathJoin(projectPath, MisusesDir), m.misuseId);
  }

  /** Reading an attribute twice gives the same answer, and the description file
      is parsed at most once while it is not empty. */
  method LocationTwice(m: Misuse) returns (first: Result<Location, Error>, second: Result<Location, Error>)
    requires m.Valid() && m.loads == 0 && m.locationCache.None? && m.document != Null
    modifies m
    ensures first == second == LocationOf(m.document)
    ensures m.loads == 1
  {
    first := m.GetLocation();
    second := m.GetLocation();
  }

  /** With no correct-usage directory the result is empty and is recomputed on
      every call. */
  method CorrectUsagesTwice(m: Misuse) returns (first: set<CorrectUsage>, second: set<CorrectUsage>)
    requires m.Valid() && m.javaFiles.None? && m.correctUsagesCache == {}
    modifies m
    ensures first == {} && second == {}
    ensures m.usageScans == old(m.usageScans) + 2
  {
    first := m.GetCorrectUsages();
    second := m.GetCorrectUsages();
  }
}
