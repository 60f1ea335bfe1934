/** The filter over `git status --porcelain=v1 -z` and the verdict of the dirty-worktree policy
    (internal/workforce/control/doctor.go). */
module StatusFilter {
  import opened CheckpointModel
  import opened TextTools

  // ----- the loop over tokens -----

  /** filepath.ToSlash on a platform with the given path separator. */
  function ToSlash(path: string, separator: char): (r: string)
    ensures |r| == |path|
    ensures forall i :: 0 <= i < |r| ==> r[i] == if path[i] == separator then '/' else path[i]
  {
    if path == "" then ""
    else [if path[0] == separator then '/' else path[0]] + ToSlash(path[1..], separator)
  }

  /** What the filter looks for: the lease's path below the worktree, and how paths are written. */
  datatype Exception = Exception(lease: string, separator: char)
  {
    /** An untracked path that is the lease. */
    predicate Covers(token: string) {
      |token| >= 3 && token[..3] == "?? " && ToSlash(token[3..], separator) == lease
    }
  }

  predicate IsRenameOrCopy(c: char) {
    c == 'R' || c == 'C'
  }

  predicate StartsPair(token: string) {
    |token| >= 2 && (IsRenameOrCopy(token[0]) || IsRenameOrCopy(token[1]))
  }

  function Kept(tokens: seq<string>, e: Exception): seq<string> {
    if tokens == [] then []
    else if StartsPair(tokens[0]) && |tokens| > 1 && tokens[1] != "" then tokens[..2] + Kept(tokens[2..], e)
    else if tokens[0] == "" || e.Covers(tokens[0]) then Kept(tokens[1..], e)
    else [tokens[0]] + Kept(tokens[1..], e)
  }

  function Filtered(raw: string, e: Exception): string {
    Terminated(Kept(Split(raw, NUL), e))
  }

  /** How the tokens from index `i` on are kept. */
  lemma KeptFrom(tokens: seq<string>, i: nat, e: Exception)
    requires i < |tokens|
    ensures var token := tokens[i];
            if StartsPair(token) && i + 1 < |tokens| && tokens[i + 1] != ""
            then Kept(tokens[i..], e) == [token, tokens[i + 1]] + Kept(tokens[i + 2..], e)
            else if token == "" || e.Covers(token) then Kept(tokens[i..], e) == Kept(tokens[i + 1..], e)
            else Kept(tokens[i..], e) == [token] + Kept(tokens[i + 1..], e)
  {
    var left := tokens[i..];
    assert left[0] == tokens[i] && left[1..] == tokens[i + 1..];
    if i + 1 < |tokens| {
      assert left[..2] == [tokens[i], tokens[i + 1]] && left[2..] == tokens[i + 2..];
    }
  }

  method FilterExactLeaseArtifact(raw: string, e: Exception) returns (res: string)
    ensures res == Filtered(raw, e)
  {
    if |raw| == 0 {
      NothingKept(e);
      return raw;
    }
    var tokens := Split(raw, NUL);
    var kept := KeepTokens(tokens, e);
    res := Terminate(kept);
  }

  lemma NothingKept(e: Exception)
    ensures Filtered("", e) == ""
  {
    assert Split("", NUL) == [""];
    KeptFrom([""], 0, e);
  }

  method KeepTokens(tokens: seq<string>, e: Exception) returns (kept: seq<string>)
    ensures kept == Kept(tokens, e)
  {
    hide Kept;
    kept := [];
    var i := 0;
    assert tokens[0..] == tokens;
    while i < |tokens|
      invariant 0 <= i <= |tokens|
      invariant kept + Kept(tokens[i..], e) == Kept(tokens, e)
    {
      var token := tokens[i];
      KeptFrom(tokens, i, e);
      if |token| == 0 {
        i := i + 1;
        continue;
      }
      if StartsPair(token) {
        kept := kept + [token];
        if i + 1 < |tokens| && |tokens[i + 1]| > 0 {
          i := i + 1;
          kept := kept + [tokens[i]];
        }
        i := i + 1;
        continue;
      }
      if |token| < 3 || token[0] != '?' || token[1] != '?' || token[2] != ' ' {
        kept := kept + [token];
        i := i + 1;
        continue;
      }
      if ToSlash(token[3..], e.separator) == e.lease {
        i := i + 1;
        continue;
      }
      kept := kept + [token];
      i := i + 1;
    }
    assert tokens[|tokens|..] == [];
    KeptOfNone(e);
  }

  lemma KeptOfNone(e: Exception)
    ensures Kept([], e) == []
  {
  }

  method Terminate(kept: seq<string>) returns (res: string)
    ensures res == Terminated(kept)
  {
    res := "";
    for k := 0 to |kept|
      invariant res + Terminated(kept[k..]) == Terminated(kept)
    {
      assert kept[k..][1..] == kept[k + 1..];
      assert res + Terminated(kept[k..]) == res + kept[k] + [NUL] + Terminated(kept[k + 1..]);
      res := res + kept[k] + [NUL];
    }
  }

  // ----- well-formed status output -----

  /** An entry of porcelain v1: two status letters and a path; a rename or copy has two paths. */
  datatype Record =
    | Single(x: char, y: char, path: string)
    | Paired(x: char, y: char, path: string, origin: string)
  {
    predicate WellFormed() {
      && x != NUL && y != NUL
      && path != "" && NUL !in path
      && (Paired? <==> x == 'R' || x == 'C' || y == 'R' || y == 'C')
      && (Paired? ==> origin != "" && NUL !in origin)
    }

    function Head(): string {
      [x, y, ' '] + path
    }

    function Tokens(): seq<string> {
      if Paired? then [Head(), origin] else [Head()]
    }

    function Printed(): string {
      Head() + [NUL] + if Paired? then origin + [NUL] else ""
    }

    /** The one record the policy makes an exception for. */
    predicate Excepted(e: Exception) {
      Single? && x == '?' && y == '?' && ToSlash(path, e.separator) == e.lease
    }
  }

  predicate WellFormed(rs: seq<Record>) {
    forall i :: 0 <= i < |rs| ==> rs[i].WellFormed()
  }

  function Tokens(rs: seq<Record>): seq<string> {
    if rs == [] then [] else rs[0].Tokens() + Tokens(rs[1..])
  }

  /** What git prints. */
  function Print(rs: seq<Record>): string {
    if rs == [] then "" else rs[0].Printed() + Print(rs[1..])
  }

  /** The records the exception does not cover, in order. */
  function Others(rs: seq<Record>, e: Exception): seq<Record> {
    if rs == [] then []
    else (if rs[0].Excepted(e) then [] else [rs[0]]) + Others(rs[1..], e)
  }

  lemma SplitRecord(r: Record, rest: string)
    requires r.WellFormed()
    ensures Split(r.Printed() + rest, NUL) == r.Tokens() + Split(rest, NUL)
  {
    hide Split;
    if r.Paired? {
      assert r.Printed() + rest == r.Head() + [NUL] + (r.origin + [NUL] + rest);
      SplitAtFirst(r.origin, NUL, rest);
      SplitAtFirst(r.Head(), NUL, r.origin + [NUL] + rest);
    } else {
      assert r.Printed() + rest == r.Head() + [NUL] + rest;
      SplitAtFirst(r.Head(), NUL, rest);
    }
  }

  lemma {:induction false} SplitPrinted(rs: seq<Record>)
    requires WellFormed(rs)
    ensures Split(Print(rs), NUL) == Tokens(rs) + [""]
  {
    if rs != [] {
      assert rs[0].WellFormed();
      SplitPrinted(rs[1..]);
      SplitRecord(rs[0], Print(rs[1..]));
    }
  }

  lemma KeptRecord(r: Record, rest: seq<string>, e: Exception)
    requires r.WellFormed()
    ensures Kept(r.Tokens() + rest, e) == (if r.Excepted(e) then [] else r.Tokens()) + Kept(rest, e)
  {
    var tokens, head := r.Tokens() + rest, r.Head();
    assert head[..3] == [r.x, r.y, ' '] && head[3..] == r.path;
    if r.Paired? {
      assert tokens[..2] == r.Tokens() && tokens[2..] == rest;
    } else {
      assert tokens[0] == head && tokens[1..] == rest;
      assert e.Covers(head) <==> r.Excepted(e);
    }
  }

  lemma TokensOfMore(r: Record, rs: seq<Record>)
    ensures Tokens([r] + rs) == r.Tokens() + Tokens(rs)
  {
    assert ([r] + rs)[1..] == rs;
  }

  lemma {:induction false} KeptRecords(rs: seq<Record>, e: Exception)
    requires WellFormed(rs)
    ensures Kept(Tokens(rs) + [""], e) == Tokens(Others(rs, e))
  {
    if rs == [] {
      assert Tokens(rs) + [""] == [""];
    } else {
      var r, rest := rs[0], Tokens(rs[1..]) + [""];
      assert r.WellFormed();
      KeptRecords(rs[1..], e);
      KeptRecord(r, rest, e);
      hide Kept;
      assert Tokens(rs) + [""] == r.Tokens() + rest;
      TokensOfMore(r, Others(rs[1..], e));
      assert [] + Others(rs[1..], e) == Others(rs[1..], e);
      assert [] + Tokens(Others(rs[1..], e)) == Tokens(Others(rs[1..], e));
    }
  }

  lemma {:induction false} TerminatedTokens(rs: seq<Record>)
    ensures Terminated(Tokens(rs)) == Print(rs)
  {
    if rs != [] {
      TerminatedTokens(rs[1..]);
      TerminatedRecord(rs[0], Tokens(rs[1..]));
    }
  }

  lemma TerminatedRecord(r: Record, rest: seq<string>)
    ensures Terminated(r.Tokens() + rest) == r.Printed() + Terminated(rest)
  {
    var tokens := r.Tokens() + rest;
    if r.Paired? {
      assert tokens[1..] == [r.origin] + rest && ([r.origin] + rest)[1..] == rest;
    } else {
      assert tokens[1..] == rest;
    }
  }

  /** Filtering what git printed is printing the records the exception does not cover. */
  lemma FilterCommutesWithPrint(rs: seq<Record>, e: Exception)
    requires WellFormed(rs)
    ensures Filtered(Print(rs), e) == Print(Others(rs, e))
  {
    SplitPrinted(rs);
    KeptRecords(rs, e);
    TerminatedTokens(Others(rs, e));
  }

  lemma {:induction false} OthersStayWellFormed(rs: seq<Record>, e: Exception)
    requires WellFormed(rs)
    ensures WellFormed(Others(rs, e))
  {
    if rs != [] {
      assert rs[0].WellFormed();
      OthersStayWellFormed(rs[1..], e);
    }
  }

  // ----- the verdict -----

  /** A failed git, a clean worktree, or a dirty one with the bytes its fingerprint is taken of. */
  datatype Verdict = GitFailed | Clean | Dirty(fingerprinted: string)

  function Judged(out: Option<string>, e: Exception): Verdict {
    match out
    case None => GitFailed
    case Some(raw) => if Filtered(raw, e) == "" then Clean else Dirty(Filtered(raw, e))
  }

  /** On every output the filter keeps no empty token, invents none, and drops none but the lease. */
  lemma {:induction false} KeptIsFaithful(tokens: seq<string>, e: Exception)
    ensures "" !in Kept(tokens, e)
    ensures forall token :: token in Kept(tokens, e) ==> token in tokens
    ensures forall token :: token in tokens && token != "" && !e.Covers(token) ==> token in Kept(tokens, e)
  {
    if tokens != [] {
      var first, rest := tokens[0], tokens[1..];
      assert tokens == [first] + rest;
      if StartsPair(first) && |tokens| > 1 && tokens[1] != "" {
        assert tokens == [first, tokens[1]] + tokens[2..];
        KeptIsFaithful(tokens[2..], e);
      } else {
        KeptIsFaithful(rest, e);
      }
    }
  }

  predicate OnlyTheLease(tokens: seq<string>, e: Exception) {
    forall i :: 0 <= i < |tokens| ==> tokens[i] == "" || e.Covers(tokens[i])
  }

  lemma {:induction false} KeptNothing(tokens: seq<string>, e: Exception)
    ensures Kept(tokens, e) == [] <==> OnlyTheLease(tokens, e)
  {
    if tokens != [] {
      KeptNothing(tokens[1..], e);
      assert forall i :: 1 <= i < |tokens| ==> tokens[i] == tokens[1..][i - 1];
      assert StartsPair(tokens[0]) ==> !(tokens[0] == "" || e.Covers(tokens[0]));
    }
  }

  /** On every output, well-formed or not, a worktree is clean just when each non-empty token is the
      untracked lease: the filter fails closed. */
  lemma CleanExactly(raw: string, e: Exception)
    ensures Judged(Some(raw), e) == Clean <==> OnlyTheLease(Split(raw, NUL), e)
  {
    KeptNothing(Split(raw, NUL), e);
    var kept := Kept(Split(raw, NUL), e);
    assert kept != [] ==> Filtered(raw, e) != "";
  }

  /** Clean is said only of an output git has given, and of every such output with nothing but the lease
      in it; a failed git is an error, never a clean worktree. What is dirty is fingerprinted by the
      records that the exception does not cover. */
  method CheckWorktreeDirtyPolicy(out: Option<string>, e: Exception) returns (v: Verdict)
    ensures v == Judged(out, e)
    ensures v.GitFailed? <==> out.None?
    ensures v.Clean? <==> out.Some? && OnlyTheLease(Split(out.value, NUL), e)
    ensures v.Dirty? ==> v.fingerprinted == Filtered(out.value, e)
    ensures forall rs :: WellFormed(rs) && out == Some(Print(rs)) && v.Dirty? ==>
              v.fingerprinted == Print(Others(rs, e))
  {
    if out.None? {
      return GitFailed;
    }
    CleanExactly(out.value, e);
    forall rs | WellFormed(rs) && out.value == Print(rs)
      ensures Filtered(out.value, e) == Print(Others(rs, e))
    {
      FilterCommutesWithPrint(rs, e);
    }
    if |out.value| == 0 {
      NothingKept(e);
      return Clean;
    }
    var filtered := FilterExactLeaseArtifact(out.value, e);
    if |filtered| == 0 {
      return Clean;
    }
    return Dirty(filtered);
  }

  /** The verdict is clean just when git reported nothing but the lease. */
  lemma CleanMeansOnlyTheLease(rs: seq<Record>, e: Exception)
    requires WellFormed(rs)
    ensures Judged(Some(Print(rs)), e) == Clean <==> forall i :: 0 <= i < |rs| ==> rs[i].Excepted(e)
  {
    FilterCommutesWithPrint(rs, e);
    NoOthers(rs, e);
  }

  lemma {:induction false} NoOthers(rs: seq<Record>, e: Exception)
    ensures Others(rs, e) == [] <==> forall i :: 0 <= i < |rs| ==> rs[i].Excepted(e)
  {
    if rs != [] {
      NoOthers(rs[1..], e);
      assert forall i :: 1 <= i < |rs| ==> rs[i] == rs[1..][i - 1];
    }
  }

  /** A text is cut at its first NUL in one way only. */
  lemma CutOnce(a: string, b: string, c: string, d: string)
    requires NUL !in a && NUL !in c
    requires a + [NUL] + b == c + [NUL] + d
    ensures a == c && b == d
  {
    var s := a + [NUL] + b;
    assert s[|a|] == NUL && s[|c|] == NUL;
    assert a == s[..|a|] && b == s[|a| + 1..] && d == s[|c| + 1..];
  }

  /** What follows a record's status letters and path. */
  function Tail(r: Record, rest: string): string {
    if r.Paired? then r.origin + [NUL] + rest else rest
  }

  lemma PrintedAs(r: Record, rest: string)
    ensures r.Printed() + rest == r.Head() + [NUL] + Tail(r, rest)
  {
  }

  lemma SameHeads(r: Record, q: Record)
    requires r.Head() == q.Head()
    ensures r.x == q.x && r.y == q.y && r.path == q.path
  {
    assert r.Head()[0] == q.Head()[0] && r.Head()[1] == q.Head()[1];
    assert r.Head()[3..] == r.path && q.Head()[3..] == q.path;
  }

  lemma HeadIsUncut(r: Record)
    requires r.WellFormed()
    ensures NUL !in r.Head()
  {
  }

  /** A printed text begins with one record only. */
  lemma FirstRecord(r: Record, a: string, q: Record, b: string)
    requires r.WellFormed() && q.WellFormed() && r.Printed() + a == q.Printed() + b
    ensures r == q && a == b
  {
    HeadIsUncut(r);
    HeadIsUncut(q);
    PrintedAs(r, a);
    PrintedAs(q, b);
    hide Record.Head, Record.Printed;
    CutOnce(r.Head(), Tail(r, a), q.Head(), Tail(q, b));
    SameHeads(r, q);
    if r.Paired? {
      CutOnce(r.origin, a, q.origin, b);
    }
  }

  lemma {:induction false} PrintIsInjective(rs: seq<Record>, qs: seq<Record>)
    requires WellFormed(rs) && WellFormed(qs) && Print(rs) == Print(qs)
    ensures rs == qs
  {
    if rs != [] && qs != [] {
      assert rs[0].WellFormed() && qs[0].WellFormed();
      FirstRecord(rs[0], Print(rs[1..]), qs[0], Print(qs[1..]));
      PrintIsInjective(rs[1..], qs[1..]);
      assert rs == [rs[0]] + rs[1..] && qs == [qs[0]] + qs[1..];
    }
  }

  /** Two worktrees get one verdict just when they differ in nothing but the lease. */
  lemma VerdictIdentifiesChanges(rs: seq<Record>, qs: seq<Record>, e: Exception)
    requires WellFormed(rs) && WellFormed(qs)
    ensures Judged(Some(Print(rs)), e) == Judged(Some(Print(qs)), e) <==> Others(rs, e) == Others(qs, e)
  {
    FilterCommutesWithPrint(rs, e);
    FilterCommutesWithPrint(qs, e);
    OthersStayWellFormed(rs, e);
    OthersStayWellFormed(qs, e);
    if Print(Others(rs, e)) == Print(Others(qs, e)) {
      PrintIsInjective(Others(rs, e), Others(qs, e));
    }
  }
}
