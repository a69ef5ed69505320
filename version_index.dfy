/** The review site's per-version index page: one link paragraph per misuse
    directory of the version's findings folder. The directory listing is an input
    (names with a flag saying whether each is a directory); the page is returned
    with the path it is written to. */
module VersionIndex {
  import opened Text

  datatype DirEntry = DirEntry(name: string, isDir: bool)

  /** The comprehension's condition: a directory whose name contains the project id. */
  predicate Keeps(e: DirEntry, projectId: string) {
    e.isDir && Contains(e.name, projectId)
  }

  /** The names the comprehension keeps, in listing order. */
  function Kept(entries: seq<DirEntry>, projectId: string): seq<string> {
    if entries == [] then []
    else
      var last := entries[|entries| - 1];
      Kept(entries[..|entries| - 1], projectId) + (if Keeps(last, projectId) then [last.name] else [])
  }

  /** The paragraph linking to one misuse's review page. */
  function LinkLine(misuse: string): string {
    "<p><a href=\"" + misuse + "/review.html\">" + misuse + "</a></p>"
  }

  function LinkLines(misuses: seq<string>): (lines: seq<string>)
    ensures |lines| == |misuses|
    ensures forall i :: 0 <= i < |misuses| ==> lines[i] == LinkLine(misuses[i])
  {
    if misuses == [] then [] else LinkLines(misuses[..|misuses| - 1]) + [LinkLine(misuses[|misuses| - 1])]
  }

  /** `generate`: returns the file it writes and the text written to it. */
  method Generate(versionFolder: string, entries: seq<DirEntry>, projectId: string) returns (target: string, page: string)
    ensures target == PathJoin(versionFolder, "index.html")
    ensures page == JoinWith(LinkLines(Kept(entries, projectId)), "\n")
  {
    var lines: seq<string> := [];
    var misuses := Kept(entries, projectId);
    for i := 0 to |misuses|
      invariant lines == LinkLines(misuses[..i])
    {
      var paragraph := LinkLine(misuses[i]);
      lines := lines + [paragraph];
      assert misuses[..i + 1][..i] == misuses[..i];
    }
    assert misuses[..|misuses|] == misuses;
    page := JoinWith(lines, "\n");
    target := PathJoin(versionFolder, "index.html");
  }

  /** A directory entry whose name contains the project id is kept. */
  lemma {:induction false} KeptMembers(entries: seq<DirEntry>, projectId: string, e: DirEntry)
    requires e in entries
    ensures e.isDir && (exists i :: OccursAt(e.name, projectId, i)) ==> e.name in Kept(entries, projectId)
  {
    ContainsIff(e.name, projectId);
    var init := entries[..|entries| - 1];
    assert entries == init + [entries[|entries| - 1]];
    if e != entries[|entries| - 1] {
      assert e in init;
      KeptMembers(init, projectId, e);
    }
  }

  /** Every kept name comes from a directory entry whose name contains the project id. */
  lemma {:induction false} KeptSound(entries: seq<DirEntry>, projectId: string, name: string)
    requires name in Kept(entries, projectId)
    ensures exists e :: e in entries && e.name == name && e.isDir && exists i :: OccursAt(name, projectId, i)
  {
    var init := entries[..|entries| - 1];
    var last := entries[|entries| - 1];
    assert entries == init + [last];
    if name in Kept(init, projectId) {
      KeptSound(init, projectId, name);
      var e :| e in init && e.name == name && e.isDir && exists i :: OccursAt(name, projectId, i);
      assert e in entries;
    } else {
      ContainsIff(last.name, projectId);
      assert last in entries;
    }
  }

  /** The filter distributes over concatenation of listings: order is kept. */
  lemma {:induction false} KeptConcat(a: seq<DirEntry>, b: seq<DirEntry>, projectId: string)
    ensures Kept(a + b, projectId) == Kept(a, projectId) + Kept(b, projectId)
  {
    if b == [] {
      assert a + b == a;
    } else {
      KeptConcat(a, b[..|b| - 1], projectId);
      assert (a + b)[..|a + b| - 1] == a + b[..|b| - 1];
    }
  }

  /** Different misuses give different lines. */
  lemma LinkLineInjective(a: string, b: string)
    requires LinkLine(a) == LinkLine(b)
    ensures a == b
  {
    var pre := "<p><a href=\"";
    assert LinkLine(a) == pre + (a + "/review.html\">" + a + "</a></p>");
    assert LinkLine(b) == pre + (b + "/review.html\">" + b + "</a></p>");
    assert |a| == |b|;
    assert a == LinkLine(a)[|pre|..|pre| + |a|];
    assert b == LinkLine(b)[|pre|..|pre| + |b|];
  }

  lemma LinkLineNoBreak(m: string)
    requires '\n' !in m
    ensures '\n' !in LinkLine(m)
  {
    var pre, mid, post := "<p><a href=\"", "/review.html\">", "</a></p>";
    assert '\n' !in pre && '\n' !in mid && '\n' !in post;
    assert LinkLine(m) == pre + m + mid + m + post;
  }

  /** With no kept entry the page is empty. Otherwise, when no name holds a line
      break, the page splits at line breaks into exactly the link lines: one per
      kept entry, in order, and no trailing newline. */
  lemma PageLines(misuses: seq<string>)
    requires forall i :: 0 <= i < |misuses| ==> '\n' !in misuses[i]
    ensures misuses == [] ==> JoinWith(LinkLines(misuses), "\n") == ""
    ensures misuses != [] ==> SplitOn(JoinWith(LinkLines(misuses), "\n"), '\n') == LinkLines(misuses)
  {
    var lines := LinkLines(misuses);
    if misuses != [] {
      forall i | 0 <= i < |lines| ensures '\n' !in lines[i] {
        LinkLineNoBreak(misuses[i]);
      }
      SplitOnJoin(lines, '\n');
    }
  }
}
