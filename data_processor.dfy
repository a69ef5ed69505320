/** The review site's `DataProcessor`: grouping the potential-hits query into one
    entry per project, and picking dataset and detector names out of table names.
    The database calls are inputs: the rows of the potential-hits query, the list
    of table names, and `getStats` as an arbitrary function of the table name. */
module DataProcessor {
  import opened Wrappers
  import opened Text

  // ---------------------------------------------------------------------------
  // PHP 5 string comparison
  // ---------------------------------------------------------------------------

  predicate AllDigits(s: string) {
    forall i :: 0 <= i < |s| ==> '0' <= s[i] <= '9'
  }

  /** A string PHP reads as an integer: an optional sign and at least one digit. */
  predicate IsIntegerString(s: string) {
    |s| > 0 &&
    if s[0] == '-' || s[0] == '+' then |s| > 1 && AllDigits(s[1..]) else AllDigits(s)
  }

  function DigitsValue(s: string): nat
    requires AllDigits(s)
  {
    if s == [] then 0 else DigitsValue(s[..|s| - 1]) * 10 + (s[|s| - 1] as int - '0' as int)
  }

  function IntegerValue(s: string): int
    requires IsIntegerString(s)
  {
    if s[0] == '-' then -(DigitsValue(s[1..]) as int)
    else if s[0] == '+' then DigitsValue(s[1..])
    else DigitsValue(s)
  }

  /** PHP's `==` on two strings: two numeric strings compare by value, anything
      else compares character by character. */
  predicate LooseEquals(a: string, b: string) {
    if IsIntegerString(a) && IsIntegerString(b) then IntegerValue(a) == IntegerValue(b) else a == b
  }

  /** `==` is reflexive and symmetric, and weaker than `===`: "1" and "01" are
      loosely equal although they are different strings. */
  lemma LooseEqualsProperties(a: string, b: string)
    ensures LooseEquals(a, a)
    ensures LooseEquals(a, b) == LooseEquals(b, a)
    ensures a == b ==> LooseEquals(a, b)
    ensures LooseEquals("1", "01") && "1" != "01"
  {
    assert DigitsValue("01") == DigitsValue("0") * 10 + 1 by {
      assert "01"[..1] == "0";
    }
  }

  /** The empty string is not numeric, so it is loosely equal only to itself. */
  lemma LooseEqualsEmpty(b: string)
    ensures LooseEquals("", b) <==> b == ""
  {
  }

  // ---------------------------------------------------------------------------
  // getPotentialHitsIndex
  // ---------------------------------------------------------------------------

  /** One row of the potential-hits query. */
  datatype Row = Row(project: string, version: string, misuse: string)

  /** One entry of the index, an associative PHP array whose keys are the fields;
      a key that was never written is an empty sequence (or `None` for `project`). */
  datatype Hit<S> = Hit(
    project: Option<string>,
    versions: seq<string>,
    version: seq<string>,
    stats: seq<S>,
    misuse: map<string, seq<string>>)

  /** `$hit = []` */
  function EmptyHit<S>(): Hit<S> {
    Hit(None, [], [], [], map[])
  }

  /** The misuses recorded for version `v`; an absent key reads as nothing. */
  function Listed<S>(h: Hit<S>, v: string): seq<string> {
    if v in h.misuse then h.misuse[v] else []
  }

  /** Appends `m` to the misuses of version `v` unless it is already there. */
  function AddMisuse<S>(h: Hit<S>, v: string, m: string): Hit<S> {
    if m in Listed(h, v) then h else h.(misuse := h.misuse[v := Listed(h, v) + [m]])
  }

  /** The local variables of the `foreach` loop. */
  datatype Scan<S> = Scan(hits: seq<Hit<S>>, lastIdentifier: string, currentVersion: string, hit: Hit<S>)

  function InitialScan<S>(): Scan<S> {
    Scan([], "", "", EmptyHit())
  }

  /** The table name handed to `getStats`. */
  function StatsTable(table: string, project: string, version: string): string {
    table + "_" + project + "_" + version
  }

  /** First branch: no project seen yet (or the last one was ""). */
  function OpenFirst<S>(st: Scan<S>, q: Row): Scan<S> {
    if st.lastIdentifier == "" then
      st.(hit := EmptyHit<S>().(project := Some(q.project)), lastIdentifier := q.project)
    else st
  }

  /** Second branch: same project (`===`), other version (`!=`). */
  function AddVersion<S>(table: string, getStats: string -> S, st: Scan<S>, q: Row): Scan<S> {
    if st.lastIdentifier == q.project && !LooseEquals(st.currentVersion, q.version) then
      st.(hit := st.hit.(versions := st.hit.versions + [q.version],
                         stats := st.hit.stats + [getStats(StatsTable(table, st.lastIdentifier, q.version))]),
          currentVersion := q.version)
    else st
  }

  /** Third branch condition: other project and other version (both `!=`). */
  predicate StartsHit<S>(st: Scan<S>, q: Row) {
    !LooseEquals(st.lastIdentifier, q.project) && !LooseEquals(st.currentVersion, q.version)
  }

  function StartHit<S>(st: Scan<S>, q: Row): Scan<S> {
    if StartsHit(st, q) then
      Scan(st.hits + [st.hit], q.project, q.version, EmptyHit<S>().(project := Some(q.project), version := [q.version]))
    else st
  }

  /** Fourth branch: same project and version (`===`): record the misuse once. */
  function RecordMisuse<S>(st: Scan<S>, q: Row): Scan<S> {
    if st.lastIdentifier == q.project && st.currentVersion == q.version then
      st.(hit := AddMisuse(st.hit, q.version, q.misuse))
    else st
  }

  /** One iteration of the `foreach` loop. */
  function Step<S>(table: string, getStats: string -> S, st: Scan<S>, q: Row): Scan<S> {
    RecordMisuse(StartHit(AddVersion(table, getStats, OpenFirst(st, q), q), q), q)
  }

  /** The loop variables after the rows `rows`. */
  function Scanned<S>(table: string, getStats: string -> S, rows: seq<Row>): Scan<S> {
    if rows == [] then InitialScan()
    else Step(table, getStats, Scanned(table, getStats, rows[..|rows| - 1]), rows[|rows| - 1])
  }

  /** What `getPotentialHitsIndex` returns: the stats of the last version are
      requested and the open hit is appended, whatever the rows were. */
  function PotentialHitsIndex<S>(table: string, rows: seq<Row>, getStats: string -> S): seq<Hit<S>> {
    var st := Scanned(table, getStats, rows);
    st.hits + [st.hit.(stats := st.hit.stats + [getStats(StatsTable(table, st.lastIdentifier, st.currentVersion))])]
  }

  method GetPotentialHitsIndex<S>(table: string, query: seq<Row>, getStats: string -> S) returns (hits: seq<Hit<S>>)
    ensures hits == PotentialHitsIndex(table, query, getStats)
  {
    hits := [];
    var lastIdentifier := "";
    var currentVersion := "";
    var hit: Hit<S> := EmptyHit();
    for i := 0 to |query|
      invariant Scan(hits, lastIdentifier, currentVersion, hit) == Scanned(table, getStats, query[..i])
    {
      var q := query[i];
      ghost var st0 := Scan(hits, lastIdentifier, currentVersion, hit);
      if lastIdentifier == "" {
        hit := EmptyHit();
        lastIdentifier := q.project;
        hit := hit.(project := Some(q.project));
      }
      ghost var st1 := Scan(hits, lastIdentifier, currentVersion, hit);
      assert st1 == OpenFirst(st0, q);
      if lastIdentifier == q.project && !LooseEquals(currentVersion, q.version) {
        hit := hit.(versions := hit.versions + [q.version]);
        currentVersion := q.version;
        hit := hit.(stats := hit.stats + [getStats(StatsTable(table, lastIdentifier, currentVersion))]);
      }
      ghost var st2 := Scan(hits, lastIdentifier, currentVersion, hit);
      assert st2 == AddVersion(table, getStats, st1, q);
      if !LooseEquals(lastIdentifier, q.project) && !LooseEquals(currentVersion, q.version) {
        hits := hits + [hit];
        hit := EmptyHit();
        hit := hit.(project := Some(q.project));
        hit := hit.(version := hit.version + [q.version]);
        lastIdentifier := q.project;
        currentVersion := q.version;
      }
      ghost var st3 := Scan(hits, lastIdentifier, currentVersion, hit);
      assert st3 == StartHit(st2, q);
      if lastIdentifier == q.project && currentVersion == q.version {
        var add := true;
        var listed := Listed(hit, currentVersion);
        for j := 0 to |listed|
          invariant add == (q.misuse !in listed[..j])
        {
          if listed[j] == q.misuse {
            add := false;
          }
        }
        assert listed[..|listed|] == listed;
        if add {
          hit := hit.(misuse := hit.misuse[currentVersion := listed + [q.misuse]]);
        }
      }
      assert Scan(hits, lastIdentifier, currentVersion, hit) == RecordMisuse(st3, q);
      assert query[..i + 1][..i] == query[..i];
    }
    assert query[..|query|] == query;
    hit := hit.(stats := hit.stats + [getStats(StatsTable(table, lastIdentifier, currentVersion))]);
    hits := hits + [hit];
  }

  // --- properties of the grouping ---------------------------------------------

  /** An empty query still yields one hit: no project, and the stats of table
      `table + "__"`. */
  lemma EmptyQueryHit<S>(table: string, getStats: string -> S)
    ensures PotentialHitsIndex(table, [], getStats) == [Hit(None, [], [], [getStats(table + "__")], map[])]
  {
    var st: Scan<S> := Scanned(table, getStats, []);
    assert st == InitialScan();
    assert StatsTable(table, st.lastIdentifier, st.currentVersion) == table + "__";
    assert st.hit.stats + [getStats(table + "__")] == [getStats(table + "__")];
  }

  /** The very first row opens the first hit: its version goes under `versions`
      (with a stats entry), unless the version is "", which is never `!=` the
      initial current version. */
  lemma FirstRow<S>(table: string, getStats: string -> S, q: Row)
    ensures Scanned(table, getStats, [q]) ==
      if q.version == "" then
        Scan([], q.project, "", Hit(Some(q.project), [], [], [], map["" := [q.misuse]]))
      else
        Scan([], q.project, q.version,
             Hit(Some(q.project), [q.version], [], [getStats(StatsTable(table, q.project, q.version))], map[q.version := [q.misuse]]))
  {
    assert [q][..0] == [];
    LooseEqualsEmpty(q.version);
    LooseEqualsProperties(q.project, q.project);
    var st1 := OpenFirst(InitialScan<S>(), q);
    assert st1 == Scan([], q.project, "", Hit(Some(q.project), [], [], [], map[]));
    var st2 := AddVersion(table, getStats, st1, q);
    var st3 := StartHit(st2, q);
    assert st3 == st2;
    if q.version == "" {
      assert st2 == st1;
    } else {
      assert st2 == Scan([], q.project, q.version,
                         Hit(Some(q.project), [q.version], [], [getStats(StatsTable(table, q.project, q.version))], map[]));
    }
    assert Listed(st3.hit, q.version) == [];
    var none: map<string, seq<string>> := map[];
    var nothing: seq<string> := [];
    assert nothing + [q.misuse] == [q.misuse];
    assert none[q.version := [q.misuse]] == map[q.version := [q.misuse]];
  }

  /** Once a project has been seen, a row starts a new hit exactly when both its
      project and its version differ (`!=`) from the last ones; the finished hit is
      pushed unchanged, and the new one holds its first version under `version`,
      no `versions` and no stats. */
  lemma StepStartsHit<S>(table: string, getStats: string -> S, st: Scan<S>, q: Row)
    requires st.lastIdentifier != ""
    requires !LooseEquals(st.lastIdentifier, q.project) && !LooseEquals(st.currentVersion, q.version)
    ensures Step(table, getStats, st, q) ==
      Scan(st.hits + [st.hit], q.project, q.version,
           Hit(Some(q.project), [], [q.version], [], map[q.version := [q.misuse]]))
  {
    LooseEqualsProperties(q.project, q.project);
    LooseEqualsProperties(st.lastIdentifier, q.project);
    var st3 := StartHit(AddVersion(table, getStats, OpenFirst(st, q), q), q);
    assert st3 == Scan(st.hits + [st.hit], q.project, q.version, Hit(Some(q.project), [], [q.version], [], map[]));
    var none: map<string, seq<string>> := map[];
    var nothing: seq<string> := [];
    assert nothing + [q.misuse] == [q.misuse];
    assert none[q.version := [q.misuse]] == map[q.version := [q.misuse]];
  }

  /** Same project (`===`), other version (`!=`): one entry is appended to
      `versions` and one to `stats`; no hit is finished. */
  lemma StepNewVersion<S>(table: string, getStats: string -> S, st: Scan<S>, q: Row)
    requires st.lastIdentifier != "" && st.lastIdentifier == q.project
    requires !LooseEquals(st.currentVersion, q.version)
    ensures var next := Step(table, getStats, st, q);
      && next.hits == st.hits
      && next.lastIdentifier == st.lastIdentifier
      && next.currentVersion == q.version
      && next.hit.project == st.hit.project
      && next.hit.version == st.hit.version
      && next.hit.versions == st.hit.versions + [q.version]
      && next.hit.stats == st.hit.stats + [getStats(StatsTable(table, q.project, q.version))]
      && next.hit == AddMisuse(next.hit.(misuse := st.hit.misuse), q.version, q.misuse)
  {
    LooseEqualsProperties(q.project, q.project);
  }

  /** Same project (`===`) and a version that is `==` the current one: the misuse
      is recorded if the versions are also `===`; otherwise the row is dropped. */
  lemma StepSameVersion<S>(table: string, getStats: string -> S, st: Scan<S>, q: Row)
    requires st.lastIdentifier != "" && st.lastIdentifier == q.project
    requires LooseEquals(st.currentVersion, q.version)
    ensures Step(table, getStats, st, q) ==
      if st.currentVersion == q.version then st.(hit := AddMisuse(st.hit, q.version, q.misuse)) else st
  {
    LooseEqualsProperties(q.project, q.project);
  }

  /** A row whose project differs (`!==`) but which does not start a hit is
      dropped: nothing changes. */
  lemma StepDropsRow<S>(table: string, getStats: string -> S, st: Scan<S>, q: Row)
    requires st.lastIdentifier != "" && st.lastIdentifier != q.project
    requires LooseEquals(st.lastIdentifier, q.project) || LooseEquals(st.currentVersion, q.version)
    ensures Step(table, getStats, st, q) == st
  {
  }

  /** Whether row `q` finishes a hit when scanned in state `st`. */
  predicate FinishesHit<S>(st: Scan<S>, q: Row) {
    st.lastIdentifier != "" && !LooseEquals(st.lastIdentifier, q.project) && !LooseEquals(st.currentVersion, q.version)
  }

  /** A step pushes at most one hit, and does so exactly when `FinishesHit`. */
  lemma StepHits<S>(table: string, getStats: string -> S, st: Scan<S>, q: Row)
    ensures Step(table, getStats, st, q).hits == if FinishesHit(st, q) then st.hits + [st.hit] else st.hits
  {
    LooseEqualsProperties(q.project, q.project);
    if st.lastIdentifier != "" && !LooseEquals(st.lastIdentifier, q.project) && !LooseEquals(st.currentVersion, q.version) {
      StepStartsHit(table, getStats, st, q);
    }
  }

  /** The number of rows that finish a hit. */
  function FinishCount<S>(table: string, getStats: string -> S, rows: seq<Row>): nat {
    if rows == [] then 0
    else
      var prefix := rows[..|rows| - 1];
      FinishCount(table, getStats, prefix)
        + (if FinishesHit(Scanned(table, getStats, prefix), rows[|rows| - 1]) then 1 else 0)
  }

  lemma {:induction false} ScannedHitCount<S>(table: string, getStats: string -> S, rows: seq<Row>)
    ensures |Scanned(table, getStats, rows).hits| == FinishCount(table, getStats, rows)
  {
    if rows != [] {
      var prefix := rows[..|rows| - 1];
      ScannedHitCount(table, getStats, prefix);
      StepHits(table, getStats, Scanned(table, getStats, prefix), rows[|rows| - 1]);
    }
  }

  /** There is one hit per row that finishes a hit, plus the final one: never none. */
  lemma HitCount<S>(table: string, rows: seq<Row>, getStats: string -> S)
    ensures |PotentialHitsIndex(table, rows, getStats)| == FinishCount(table, getStats, rows) + 1
  {
    ScannedHitCount(table, getStats, rows);
  }

  predicate Distinct(s: seq<string>) {
    forall i, j :: 0 <= i < j < |s| ==> s[i] != s[j]
  }

  /** Every misuse list of the hit is free of duplicates. */
  predicate HitDistinct<S>(h: Hit<S>) {
    forall v :: v in h.misuse ==> Distinct(h.misuse[v])
  }

  predicate ScanDistinct<S>(st: Scan<S>) {
    HitDistinct(st.hit) && forall k :: 0 <= k < |st.hits| ==> HitDistinct(st.hits[k])
  }

  lemma AddMisuseDistinct<S>(h: Hit<S>, v: string, m: string)
    requires HitDistinct(h)
    ensures HitDistinct(AddMisuse(h, v, m))
    ensures Listed(AddMisuse(h, v, m), v) == if m in Listed(h, v) then Listed(h, v) else Listed(h, v) + [m]
  {
    if m !in Listed(h, v) {
      var l := Listed(h, v) + [m];
      assert Distinct(l) by {
        forall i, j | 0 <= i < j < |l| ensures l[i] != l[j] {
          if j == |l| - 1 {
            assert l[i] in Listed(h, v);
          }
        }
      }
    }
  }

  lemma StepDistinct<S>(table: string, getStats: string -> S, st: Scan<S>, q: Row)
    requires ScanDistinct(st)
    ensures ScanDistinct(Step(table, getStats, st, q))
  {
    var s3 := StartHit(AddVersion(table, getStats, OpenFirst(st, q), q), q);
    assert ScanDistinct(s3);
    if s3.lastIdentifier == q.project && s3.currentVersion == q.version {
      AddMisuseDistinct(s3.hit, q.version, q.misuse);
    }
  }

  lemma {:induction false} ScannedDistinct<S>(table: string, getStats: string -> S, rows: seq<Row>)
    ensures ScanDistinct(Scanned(table, getStats, rows))
  {
    if rows != [] {
      ScannedDistinct(table, getStats, rows[..|rows| - 1]);
      StepDistinct(table, getStats, Scanned(table, getStats, rows[..|rows| - 1]), rows[|rows| - 1]);
    }
  }

  /** In every hit, the misuses listed under a version have no duplicates. */
  lemma HitsDistinct<S>(table: string, rows: seq<Row>, getStats: string -> S)
    ensures forall k :: 0 <= k < |PotentialHitsIndex(table, rows, getStats)| ==>
      HitDistinct(PotentialHitsIndex(table, rows, getStats)[k])
  {
    ScannedDistinct(table, getStats, rows);
  }

  // ---------------------------------------------------------------------------
  // getPrefixTable, getDatasets, getDetectors
  // ---------------------------------------------------------------------------

  /** `substr($t, 0, strlen($prefix)) === $prefix` in PHP 5, where `substr` of the
      empty string is `false`: the table name is non-empty and starts with `prefix`. */
  predicate HasPrefix(t: string, prefix: string) {
    |t| > 0 && prefix <= t
  }

  /** The tables that start with `prefix`, in table order. */
  function Matching(tables: seq<string>, prefix: string): seq<string> {
    if tables == [] then []
    else
      var last := tables[|tables| - 1];
      Matching(tables[..|tables| - 1], prefix) + (if HasPrefix(last, prefix) then [last] else [])
  }

  /** `split('[_]', $t)[$index]`: the `index`-th `_`-separated piece, or PHP's
      `null` when there is no such piece. */
  function Component(t: string, index: int): Option<string> {
    var parts := SplitOn(t, '_');
    if 0 <= index < |parts| then Some(parts[index]) else None
  }

  /** A piece exists exactly for the indexes up to the number of underscores, and
      holds no underscore. */
  lemma ComponentExists(t: string, index: int)
    ensures Component(t, index).Some? <==> 0 <= index <= CountChar(t, '_')
    ensures Component(t, index).Some? ==> '_' !in Component(t, index).value
  {
    SplitOnPieces(t, '_');
    if 0 <= index <= CountChar(t, '_') {
      assert SplitOn(t, '_')[index] in SplitOn(t, '_');
    }
  }

  method GetPrefixTable(tables: seq<string>, prefix: string, suffix: int) returns (names: seq<Option<string>>)
    ensures |names| == |Matching(tables, prefix)|
    ensures forall i :: 0 <= i < |names| ==> names[i] == Component(Matching(tables, prefix)[i], suffix)
  {
    names := [];
    for k := 0 to |tables|
      invariant |names| == |Matching(tables[..k], prefix)|
      invariant forall i :: 0 <= i < |names| ==> names[i] == Component(Matching(tables[..k], prefix)[i], suffix)
    {
      var t := tables[k];
      assert tables[..k + 1][..k] == tables[..k];
      if |t| > 0 && t[..if |prefix| <= |t| then |prefix| else |t|] == prefix {
        names := names + [Component(t, suffix)];
      }
    }
    assert tables[..|tables|] == tables;
  }

  method GetDatasets(tables: seq<string>, prefix: string) returns (names: seq<Option<string>>)
    ensures |names| == |Matching(tables, prefix)|
    ensures forall i :: 0 <= i < |names| ==> names[i] == Component(Matching(tables, prefix)[i], 1)
  {
    names := GetPrefixTable(tables, prefix, 1);
  }

  method GetDetectors(tables: seq<string>, prefix: string) returns (names: seq<Option<string>>)
    ensures |names| == |Matching(tables, prefix)|
    ensures forall i :: 0 <= i < |names| ==> names[i] == Component(Matching(tables, prefix)[i], 2)
  {
    names := GetPrefixTable(tables, prefix, 2);
  }

  /** Exactly the tables with the prefix are kept. */
  lemma {:induction false} MatchingMembers(tables: seq<string>, prefix: string, t: string)
    ensures t in Matching(tables, prefix) <==> t in tables && HasPrefix(t, prefix)
  {
    if tables != [] {
      var init := tables[..|tables| - 1];
      MatchingMembers(init, prefix, t);
      assert tables == init + [tables[|tables| - 1]];
    }
  }

  /** Filtering distributes over concatenation, so the table order is kept. */
  lemma {:induction false} MatchingConcat(a: seq<string>, b: seq<string>, prefix: string)
    ensures Matching(a + b, prefix) == Matching(a, prefix) + Matching(b, prefix)
  {
    if b == [] {
      assert a + b == a;
    } else {
      var init := b[..|b| - 1];
      MatchingConcat(a, init, prefix);
      assert (a + b)[..|a + b| - 1] == a + init;
    }
  }
}
