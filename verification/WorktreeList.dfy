/** The parser of `git worktree list --porcelain -z` and the choice of the session's worktree
    (internal/workforce/control/attach.go). */
module WorktreeList {
  import opened CheckpointModel
  import opened TextTools

  datatype Worktree = Worktree(path: string, head: string, branch: string, detached: bool, bare: bool)

  const UNREAD := Worktree("", "", "", false, false)

  // ----- the parse loop -----

  /** The record after an attribute line; lines of no known kind are ignored. */
  function Read(current: Worktree, s: string): Worktree {
    if "HEAD " <= s then current.(head := TrimPrefix(s, "HEAD "))
    else if "branch " <= s then current.(branch := TrimPrefix(TrimPrefix(s, "branch "), "refs/heads/"))
    else if s == "detached" then current.(detached := true)
    else if s == "bare" then current.(bare := true)
    else current
  }

  function Pending(current: Worktree): seq<Worktree> {
    if current.path != "" then [current] else []
  }

  /** The worktrees read off `items` when `current` is the record being filled. */
  function ParseFrom(items: seq<string>, current: Worktree): seq<Worktree> {
    if items == [] then Pending(current)
    else
      var s := items[0];
      var next := if current.path != "" then UNREAD else current;
      if s == "" then Pending(current) + ParseFrom(items[1..], next)
      else if "worktree " <= s then
        Pending(current) + ParseFrom(items[1..], next.(path := TrimPrefix(s, "worktree ")))
      else ParseFrom(items[1..], Read(current, s))
  }

  lemma ParseAt(items: seq<string>, i: nat, current: Worktree)
    requires i < |items|
    ensures var s := items[i];
            var next := if current.path != "" then UNREAD else current;
            ParseFrom(items[i..], current) ==
            if s == "" then Pending(current) + ParseFrom(items[i + 1..], next)
            else if "worktree " <= s then
              Pending(current) + ParseFrom(items[i + 1..], next.(path := TrimPrefix(s, "worktree ")))
            else ParseFrom(items[i + 1..], Read(current, s))
  {
    assert items[i..][0] == items[i] && items[i..][1..] == items[i + 1..];
  }

  lemma ParseNone(current: Worktree)
    ensures ParseFrom([], current) == Pending(current)
  {
  }

  /** An attribute line of the current record. */
  method ReadAttribute(before: Worktree, s: string) returns (current: Worktree)
    ensures current == Read(before, s)
  {
    current := before;
    if "HEAD " <= s {
      current := current.(head := TrimPrefix(s, "HEAD "));
    } else if "branch " <= s {
      var ref := TrimPrefix(s, "branch ");
      current := current.(branch := TrimPrefix(ref, "refs/heads/"));
    } else if s == "detached" {
      current := current.(detached := true);
    } else if s == "bare" {
      current := current.(bare := true);
    }
  }

  /** None stands for a git that failed. */
  method ListGitWorktrees(out: Option<string>) returns (list: Option<seq<Worktree>>)
    ensures list == if out.None? then None else Some(ParseFrom(Split(out.value, NUL), UNREAD))
  {
    hide ParseFrom, Split, Read, TrimPrefix;
    if out.None? {
      return None;
    }
    var items := Split(out.value, NUL);
    var worktrees: seq<Worktree> := [];
    var current := UNREAD;
    var i := 0;
    assert items[0..] == items;
    while i < |items|
      invariant 0 <= i <= |items|
      invariant worktrees + ParseFrom(items[i..], current) == ParseFrom(items, UNREAD)
    {
      var s := items[i];
      ParseAt(items, i, current);
      i := i + 1;
      if s == "" {
        if current.path != "" {
          worktrees := worktrees + [current];
          current := UNREAD;
        }
        continue;
      }
      if "worktree " <= s {
        if current.path != "" {
          worktrees := worktrees + [current];
          current := UNREAD;
        }
        current := current.(path := TrimPrefix(s, "worktree "));
      } else {
        current := ReadAttribute(current, s);
      }
    }
    assert items[|items|..] == [];
    ParseNone(current);
    assert worktrees + Pending(current) == ParseFrom(items, UNREAD);
    if current.path != "" {
      worktrees := worktrees + [current];
    }
    assert worktrees == ParseFrom(items, UNREAD);
    return Some(worktrees);
  }

  // ----- what git prints -----

  datatype Attribute = Head(commit: string) | Branch(ref: string) | Detached | Bare | Other(line: string)
  {
    function Line(): string {
      match this
      case Head(commit) => "HEAD " + commit
      case Branch(ref) => "branch " + ref
      case Detached => "detached"
      case Bare => "bare"
      case Other(line) => line
    }

    /** Other lines, as "locked" or "prunable", do not look like the known ones. */
    predicate WellFormed() {
      && NUL !in Line()
      && (Other? ==>
            && line != "" && line != "detached" && line != "bare"
            && !("worktree " <= line) && !("HEAD " <= line) && !("branch " <= line))
    }
  }

  datatype Entry = Entry(path: string, attributes: seq<Attribute>)
  {
    predicate WellFormed() {
      path != "" && NUL !in path && forall i :: 0 <= i < |attributes| ==> attributes[i].WellFormed()
    }

    function Meaning(): Worktree {
      Worktree(path, HeadOr(attributes, ""), BranchOr(attributes, ""), Detached in attributes, Bare in attributes)
    }
  }

  /** The commit of the last HEAD line, if there is one. */
  function HeadOr(attributes: seq<Attribute>, otherwise: string): string {
    if attributes == [] then otherwise
    else HeadOr(attributes[1..], if attributes[0].Head? then attributes[0].commit else otherwise)
  }

  /** The name of the last branch line, without refs/heads/. */
  function BranchOr(attributes: seq<Attribute>, otherwise: string): string {
    if attributes == [] then otherwise
    else
      var name := if attributes[0].Branch? then TrimPrefix(attributes[0].ref, "refs/heads/") else otherwise;
      BranchOr(attributes[1..], name)
  }

  predicate WellFormed(es: seq<Entry>) {
    forall i :: 0 <= i < |es| ==> es[i].WellFormed()
  }

  function Lines(attributes: seq<Attribute>): seq<string> {
    if attributes == [] then [] else [attributes[0].Line()] + Lines(attributes[1..])
  }

  /** The items of a list; with `gaps` an empty item closes each entry. */
  function Items(es: seq<Entry>, gaps: bool): seq<string> {
    if es == [] then []
    else
      ["worktree " + es[0].path] + Lines(es[0].attributes) + (if gaps then [""] else []) + Items(es[1..], gaps)
  }

  function Print(es: seq<Entry>, gaps: bool): string {
    Terminated(Items(es, gaps))
  }

  function Meanings(es: seq<Entry>): (ws: seq<Worktree>)
    ensures |ws| == |es| && forall i :: 0 <= i < |es| ==> ws[i] == es[i].Meaning()
  {
    if es == [] then [] else [es[0].Meaning()] + Meanings(es[1..])
  }

  // ----- the round trip -----

  predicate AllUncut(items: seq<string>) {
    forall i :: 0 <= i < |items| ==> NUL !in items[i]
  }

  lemma {:induction false} SplitTerminated(items: seq<string>)
    requires AllUncut(items)
    ensures Split(Terminated(items), NUL) == items + [""]
  {
    if items != [] {
      SplitTerminated(items[1..]);
      SplitAtFirst(items[0], NUL, Terminated(items[1..]));
    }
  }

  lemma {:induction false} LinesAreUncut(attributes: seq<Attribute>)
    requires forall i :: 0 <= i < |attributes| ==> attributes[i].WellFormed()
    ensures AllUncut(Lines(attributes))
  {
    if attributes != [] {
      LinesAreUncut(attributes[1..]);
    }
  }

  lemma {:induction false} ItemsAreUncut(es: seq<Entry>, gaps: bool)
    requires WellFormed(es)
    ensures AllUncut(Items(es, gaps))
  {
    if es != [] {
      assert es[0].WellFormed();
      LinesAreUncut(es[0].attributes);
      ItemsAreUncut(es[1..], gaps);
      assert NUL !in "worktree ";
      assert NUL !in "worktree " + es[0].path;
    }
  }

  /** An attribute line says about the current record what the attribute means. */
  lemma LineIsRead(current: Worktree, a: Attribute)
    requires a.WellFormed()
    ensures a.Line() != "" && !("worktree " <= a.Line())
    ensures Read(current, a.Line()) ==
            current.(head := HeadOr([a], current.head), branch := BranchOr([a], current.branch),
                     detached := current.detached || a.Detached?, bare := current.bare || a.Bare?)
  {
    var s := a.Line();
    match a
    case Head(commit) =>
      assert s[0] == 'H' && s[|"HEAD "|..] == commit;
    case Branch(ref) =>
      assert s[0] == 'b' && s[1] == 'r' && s[|"branch "|..] == ref;
    case Detached =>
      assert s[0] == 'd';
    case Bare =>
      assert s[0] == 'b' && s[1] == 'a';
    case Other(line) =>
  }

  /** What attribute lines make of a record. */
  function Filled(current: Worktree, attributes: seq<Attribute>): Worktree {
    current.(head := HeadOr(attributes, current.head), branch := BranchOr(attributes, current.branch),
             detached := current.detached || Detached in attributes, bare := current.bare || Bare in attributes)
  }

  lemma FilledOneByOne(current: Worktree, attributes: seq<Attribute>)
    requires attributes != [] && attributes[0].WellFormed()
    ensures Filled(current, attributes) == Filled(Read(current, attributes[0].Line()), attributes[1..])
  {
    LineIsRead(current, attributes[0]);
    assert attributes == [attributes[0]] + attributes[1..];
  }

  lemma AttributeIsRead(items: seq<string>, current: Worktree)
    requires items != [] && items[0] != "" && !("worktree " <= items[0])
    ensures ParseFrom(items, current) == ParseFrom(items[1..], Read(current, items[0]))
  {
    hide Read;
  }

  lemma LinesBegin(attributes: seq<Attribute>, rest: seq<string>)
    requires attributes != []
    ensures var items := Lines(attributes) + rest;
            items != [] && items[0] == attributes[0].Line() && items[1..] == Lines(attributes[1..]) + rest
  {
    LinesOfMore(attributes);
    hide Attribute.Line, Lines;
    ConsAppend(attributes[0].Line(), Lines(attributes[1..]), rest);
  }

  lemma LinesOfMore(attributes: seq<Attribute>)
    requires attributes != []
    ensures Lines(attributes) == [attributes[0].Line()] + Lines(attributes[1..])
  {
    hide Attribute.Line;
  }

  lemma ConsAppend<T>(x: T, a: seq<T>, b: seq<T>)
    ensures var all := ([x] + a) + b; all != [] && all[0] == x && all[1..] == a + b
  {
  }

  lemma FirstOfLines(attributes: seq<Attribute>, rest: seq<string>, current: Worktree)
    requires attributes != [] && attributes[0].WellFormed()
    ensures ParseFrom(Lines(attributes) + rest, current)
            == ParseFrom(Lines(attributes[1..]) + rest, Read(current, attributes[0].Line()))
  {
    LineIsRead(current, attributes[0]);
    hide Read, ParseFrom, Lines, Attribute.Line, Attribute.WellFormed;
    LinesBegin(attributes, rest);
    AttributeIsRead(Lines(attributes) + rest, current);
  }

  /** The lines of an entry fill in the record that its first line opened. */
  lemma {:induction false} LinesAreRead(attributes: seq<Attribute>, rest: seq<string>, current: Worktree)
    requires forall i :: 0 <= i < |attributes| ==> attributes[i].WellFormed()
    ensures ParseFrom(Lines(attributes) + rest, current) == ParseFrom(rest, Filled(current, attributes))
  {
    hide ParseFrom, Read;
    if attributes == [] {
      assert Lines(attributes) + rest == rest;
    } else {
      hide Filled, Lines;
      FirstOfLines(attributes, rest, current);
      LinesAreRead(attributes[1..], rest, Read(current, attributes[0].Line()));
      FilledOneByOne(current, attributes);
    }
  }

  lemma FirstLineIsRead(path: string, rest: seq<string>, current: Worktree)
    requires current.path != "" || current == UNREAD
    ensures ParseFrom(["worktree " + path] + rest, current) == Pending(current) + ParseFrom(rest, UNREAD.(path := path))
  {
    var first := "worktree " + path;
    assert "worktree " <= first && first[|"worktree "|..] == path && first != "";
    assert ([first] + rest)[1..] == rest;
  }

  lemma EndIsRead(current: Worktree)
    requires current.path != "" || current == UNREAD
    ensures ParseFrom([""], current) == Pending(current)
  {
    assert [""][1..] == [];
    ParseNone(current);
    ParseNone(UNREAD);
  }

  lemma GapIsRead(gaps: bool, rest: seq<string>, current: Worktree)
    requires current.path != ""
    ensures ParseFrom((if gaps then [""] else []) + rest, current) ==
            if gaps then [current] + ParseFrom(rest, UNREAD) else ParseFrom(rest, current)
  {
    if gaps {
      assert ([""] + rest)[1..] == rest;
    } else {
      assert [] + rest == rest;
    }
  }

  /** The items of one entry close the record before it and leave its own. */
  lemma EntryIsRead(e: Entry, gap: seq<string>, rest: seq<string>, current: Worktree)
    requires e.WellFormed() && (current.path != "" || current == UNREAD)
    ensures ParseFrom(["worktree " + e.path] + Lines(e.attributes) + gap + rest, current) ==
            Pending(current) + ParseFrom(gap + rest, e.Meaning())
  {
    hide ParseFrom, HeadOr, BranchOr;
    var left := Lines(e.attributes) + (gap + rest);
    assert ["worktree " + e.path] + Lines(e.attributes) + gap + rest == ["worktree " + e.path] + left;
    FirstLineIsRead(e.path, left, current);
    LinesAreRead(e.attributes, gap + rest, UNREAD.(path := e.path));
  }

  lemma ItemsOfFirst(es: seq<Entry>, gaps: bool)
    requires es != []
    ensures Items(es, gaps) + [""] ==
            ["worktree " + es[0].path] + Lines(es[0].attributes) + (if gaps then [""] else [])
                + (Items(es[1..], gaps) + [""])
  {
    hide Lines;
  }

  lemma {:induction false} EntriesAreRead(es: seq<Entry>, gaps: bool, current: Worktree)
    requires WellFormed(es)
    requires current.path != "" || current == UNREAD
    ensures ParseFrom(Items(es, gaps) + [""], current) == Pending(current) + Meanings(es)
  {
    hide ParseFrom, HeadOr, BranchOr, Lines, Items;
    if es == [] {
      assert Items(es, gaps) + [""] == [""] by { NoItems(gaps); }
      EndIsRead(current);
    } else {
      var e, rest := es[0], Items(es[1..], gaps) + [""];
      var m := e.Meaning();
      assert e.WellFormed();
      ItemsOfFirst(es, gaps);
      EntryIsRead(e, if gaps then [""] else [], rest, current);
      GapIsRead(gaps, rest, m);
      assert Meanings(es) == [m] + Meanings(es[1..]);
      if gaps {
        EntriesAreRead(es[1..], gaps, UNREAD);
        assert ParseFrom(rest, UNREAD) == Meanings(es[1..]);
      } else {
        EntriesAreRead(es[1..], gaps, m);
        assert ParseFrom(rest, m) == [m] + Meanings(es[1..]);
      }
    }
  }

  lemma NoItems(gaps: bool)
    ensures Items([], gaps) == []
  {
  }

  /** Parsing what git printed gives the printed list, with or without an empty item between
      entries. */
  lemma ParseReadsPrint(es: seq<Entry>, gaps: bool)
    requires WellFormed(es)
    ensures ParseFrom(Split(Print(es, gaps), NUL), UNREAD) == Meanings(es)
  {
    ItemsAreUncut(es, gaps);
    SplitTerminated(Items(es, gaps));
    EntriesAreRead(es, gaps, UNREAD);
  }

  // ----- lines in front of a worktree -----

  lemma {:induction false} HeadsJoin(a: seq<Attribute>, b: seq<Attribute>, otherwise: string)
    ensures HeadOr(a + b, otherwise) == HeadOr(b, HeadOr(a, otherwise))
    ensures BranchOr(a + b, otherwise) == BranchOr(b, BranchOr(a, otherwise))
  {
    if a == [] {
      assert a + b == b;
    } else {
      assert (a + b)[1..] == a[1..] + b;
      HeadsJoin(a[1..], b, if a[0].Head? then a[0].commit else otherwise);
      HeadsJoin(a[1..], b, if a[0].Branch? then TrimPrefix(a[0].ref, "refs/heads/") else otherwise);
    }
  }

  lemma WorktreeLineIsRead(path: string, rest: seq<string>, current: Worktree)
    requires current.path == ""
    ensures ParseFrom(["worktree " + path] + rest, current) == ParseFrom(rest, current.(path := path))
  {
    var first := "worktree " + path;
    assert "worktree " <= first && first[|"worktree "|..] == path && first != "";
    assert ([first] + rest)[1..] == rest;
  }

  /** Attribute lines that come before the first worktree count for it. */
  lemma LinesInFrontCount(before: seq<Attribute>, e: Entry, rest: seq<string>)
    requires e.WellFormed() && forall i :: 0 <= i < |before| ==> before[i].WellFormed()
    ensures ParseFrom(Lines(before) + (["worktree " + e.path] + (Lines(e.attributes) + rest)), UNREAD)
            == ParseFrom(rest, Entry(e.path, before + e.attributes).Meaning())
  {
    hide ParseFrom, HeadOr, BranchOr;
    var filled := UNREAD.(head := HeadOr(before, ""), branch := BranchOr(before, ""), detached := Detached in before,
                          bare := Bare in before);
    LinesAreRead(before, ["worktree " + e.path] + (Lines(e.attributes) + rest), UNREAD);
    WorktreeLineIsRead(e.path, Lines(e.attributes) + rest, filled);
    LinesAreRead(e.attributes, rest, filled.(path := e.path));
    HeadsJoin(before, e.attributes, "");
  }

  /** A worktree line without a path opens no record; the attributes behind it count for the next one. */
  lemma NamelessIsNotListed(rest: seq<string>, current: Worktree)
    requires current.path == ""
    ensures ParseFrom(["worktree "] + rest, current) == ParseFrom(rest, current)
  {
    assert "worktree " + "" == "worktree ";
    WorktreeLineIsRead("", rest, current);
  }

  lemma EmptyItemIsSkipped(rest: seq<string>, current: Worktree)
    requires current.path == ""
    ensures ParseFrom([""] + rest, current) == ParseFrom(rest, current)
  {
    assert ([""] + rest)[1..] == rest;
  }

  // ----- the session's worktree -----

  predicate OnBranch(w: Worktree, branch: string) {
    !w.detached && !w.bare && w.branch == branch
  }

  /** The index of the only worktree on the branch. */
  predicate Sole(ws: seq<Worktree>, branch: string, i: nat) {
    i < |ws| && OnBranch(ws[i], branch) && forall j :: 0 <= j < |ws| && OnBranch(ws[j], branch) ==> j == i
  }

  /** The choice goes through exactly when one worktree is on the session's branch. */
  method SessionWorktree(worktrees: seq<Worktree>, branch: string) returns (target: Option<Worktree>)
    ensures target.Some? <==> exists i: nat :: Sole(worktrees, branch, i)
    ensures target.Some? ==> forall i: nat :: Sole(worktrees, branch, i) ==> target.value == worktrees[i]
  {
    var matching: seq<Worktree> := [];
    ghost var at: seq<nat> := [];
    for k := 0 to |worktrees|
      invariant |at| == |matching|
      invariant forall m :: 0 <= m < |at| ==> at[m] < k && matching[m] == worktrees[at[m]]
      invariant forall m :: 0 <= m < |at| ==> OnBranch(worktrees[at[m]], branch)
      invariant forall m, n :: 0 <= m < n < |at| ==> at[m] < at[n]
      invariant forall j :: 0 <= j < k && OnBranch(worktrees[j], branch) ==> j in at
    {
      var wt := worktrees[k];
      if !wt.detached && !wt.bare && wt.branch == branch {
        matching := matching + [wt];
        at := at + [k];
      }
    }
    if |matching| != 1 {
      if |at| > 1 {
        assert OnBranch(worktrees[at[0]], branch) && OnBranch(worktrees[at[1]], branch);
      }
      return None;
    }
    assert Sole(worktrees, branch, at[0]);
    return Some(matching[0]);
  }

  /** The first steps of attach on a list that git printed. */
  method FindSessionWorktree(out: Option<string>, branch: string, ghost es: seq<Entry>, ghost gaps: bool)
    returns (target: Option<Worktree>)
    requires out.Some? ==> WellFormed(es) && out.value == Print(es, gaps)
    ensures target.Some? <==> out.Some? && exists i: nat :: Sole(Meanings(es), branch, i)
    ensures target.Some? ==> forall i: nat :: Sole(Meanings(es), branch, i) ==> target.value == es[i].Meaning()
  {
    var list := ListGitWorktrees(out);
    if list.None? {
      return None;
    }
    ParseReadsPrint(es, gaps);
    target := SessionWorktree(list.value, branch);
  }
}
