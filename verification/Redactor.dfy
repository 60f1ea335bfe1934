/** The JSON payload redactor (internal/recovery/status.go). The decoder is a parameter: whatever it
    accepts as an object is replaced, nothing else is. */
module PayloadRedactor {

  const MARKER := "[REDACTED_PAYLOAD]"

  type Decoder = string -> bool

  // ----- the brace scanner -----

  /** Where the scanner stands: how many braces are open, and whether it is inside a string, and
      there behind a backslash. */
  datatype Scan = Scan(depth: int, inString: bool, escaped: bool)
  {
    function Step(c: char): Scan {
      if inString then
        if escaped then this.(escaped := false)
        else if c == '\\' then this.(escaped := true)
        else if c == '"' then this.(inString := false)
        else this
      else if c == '"' then this.(inString := true)
      else if c == '{' then this.(depth := depth + 1)
      else if c == '}' then this.(depth := depth - 1)
      else this
    }

    /** A closing brace that closes the outermost one. */
    predicate Closes(c: char) {
      !inString && c == '}' && depth == 1
    }
  }

  /** The length of the shortest prefix of `s` at whose end the scanner's braces balance. */
  function BalancedLength(s: string, at: Scan): (n: nat)
    ensures n <= |s|
  {
    if s == "" then 0
    else if at.Closes(s[0]) then 1
    else
      var rest := BalancedLength(s[1..], at.Step(s[0]));
      if rest == 0 then 0 else 1 + rest
  }

  const OUTSIDE := Scan(0, false, false)

  /** The candidate payload at the head of `s`, or "" when its braces never balance. */
  function Candidate(s: string): string {
    if s != "" && s[0] == '{' then s[..BalancedLength(s, OUTSIDE)] else ""
  }

  function Redact(accepts: Decoder, s: string): string
    decreases |s|
  {
    if s == "" then ""
    else
      var o := Candidate(s);
      if o != "" && accepts(o) then MARKER + Redact(accepts, s[|o|..])
      else [s[0]] + Redact(accepts, s[1..])
  }

  /** The inner loop: the index of the closing brace, or -1. */
  method FindEnd(s: string, i: nat) returns (end: int)
    requires i < |s| && s[i] == '{'
    ensures end == if BalancedLength(s[i..], OUTSIDE) == 0 then -1 else i + BalancedLength(s[i..], OUTSIDE) - 1
  {
    var depth := 0;
    var inString := false;
    var escaped := false;
    end := -1;
    var j := i;
    while j < |s|
      invariant i <= j <= |s| && (end == -1 || j < |s|)
      invariant end == -1
      invariant var rest := BalancedLength(s[j..], Scan(depth, inString, escaped));
                BalancedLength(s[i..], OUTSIDE) == if rest == 0 then 0 else (j - i) + rest
    {
      var c := s[j];
      assert s[j..][1..] == s[j + 1..];
      if inString {
        if escaped {
          escaped := false;
        } else if c == '\\' {
          escaped := true;
        } else if c == '"' {
          inString := false;
        }
      } else {
        if c == '"' {
          inString := true;
        } else if c == '{' {
          depth := depth + 1;
        } else if c == '}' {
          depth := depth - 1;
          if depth == 0 {
            return j;
          }
        }
      }
      j := j + 1;
    }
  }

  /** One round of the outer loop, at the head of a text. */
  lemma RedactHead(accepts: Decoder, t: string)
    requires t != ""
    ensures var n := BalancedLength(t, OUTSIDE);
            Redact(accepts, t) ==
            if t[0] == '{' && n > 0 && accepts(t[..n]) then MARKER + Redact(accepts, t[n..])
            else [t[0]] + Redact(accepts, t[1..])
  {
    hide BalancedLength;
    var n := BalancedLength(t, OUTSIDE);
    assert |t[..n]| == n;
  }

  /** The same at index `i`. */
  lemma RedactAt(accepts: Decoder, s: string, i: nat)
    requires i < |s|
    ensures var n := BalancedLength(s[i..], OUTSIDE);
            if s[i] == '{' && n > 0 && accepts(s[i..i + n])
            then i + n <= |s| && Redact(accepts, s[i..]) == MARKER + Redact(accepts, s[i + n..])
            else Redact(accepts, s[i..]) == [s[i]] + Redact(accepts, s[i + 1..])
  {
    hide Redact, BalancedLength;
    var t := s[i..];
    var n := BalancedLength(t, OUTSIDE);
    RedactHead(accepts, t);
    assert t[1..] == s[i + 1..];
    assert t[..n] == s[i..i + n] && t[n..] == s[i + n..];
  }

  method RedactJSONPayloads(accepts: Decoder, s: string) returns (result: string)
    ensures result == Redact(accepts, s)
  {
    hide Redact, BalancedLength;
    result := "";
    var i := 0;
    RedactEmpty(accepts, s);
    assert s[0..] == s;
    while i < |s|
      invariant 0 <= i <= |s|
      invariant result + Redact(accepts, s[i..]) == Redact(accepts, s)
      decreases |s| - i
    {
      RedactAt(accepts, s, i);
      if s[i] == '{' {
        var end := FindEnd(s, i);
        if end != -1 {
          var candidate := s[i..end + 1];
          if accepts(candidate) {
            assert result + (MARKER + Redact(accepts, s[end + 1..])) == (result + MARKER)
                   + Redact(accepts, s[end + 1..]);
            result := result + MARKER;
            i := end + 1;
            continue;
          }
        }
      }
      assert result + ([s[i]] + Redact(accepts, s[i + 1..])) == (result + [s[i]]) + Redact(accepts, s[i + 1..]);
      result := result + [s[i]];
      i := i + 1;
    }
  }

  lemma RedactEmpty(accepts: Decoder, s: string)
    ensures Redact(accepts, s[|s|..]) == ""
  {
  }

  // ----- what a redaction is -----

  /** A piece of the input: bytes that are copied, or a payload that is replaced. */
  datatype Piece = Copied(text: string) | Payload(text: string)

  function Source(ps: seq<Piece>): string {
    if ps == [] then "" else ps[0].text + Source(ps[1..])
  }

  function Rendered(ps: seq<Piece>): string {
    if ps == [] then "" else (if ps[0].Payload? then MARKER else ps[0].text) + Rendered(ps[1..])
  }

  /** Every payload is accepted by the decoder, starts with a brace, and is cut where the braces
      balance. */
  predicate PayloadsAccepted(accepts: Decoder, ps: seq<Piece>) {
    forall i :: 0 <= i < |ps| && ps[i].Payload? ==>
      ps[i].text != "" && ps[i].text[0] == '{' && accepts(ps[i].text) && Candidate(ps[i].text) == ps[i].text
  }

  /** Scanning stops at the same place when the text behind the end is cut away. */
  lemma {:induction false} BalancedPrefix(s: string, at: Scan)
    ensures var n := BalancedLength(s, at); n > 0 ==> BalancedLength(s[..n], at) == n
  {
    if s != "" && !at.Closes(s[0]) {
      BalancedPrefix(s[1..], at.Step(s[0]));
      var n := BalancedLength(s, at);
      if n > 0 {
        assert s[..n][1..] == s[1..][..n - 1];
      }
    }
  }

  lemma CandidateIsStable(s: string)
    requires Candidate(s) != ""
    ensures var o := Candidate(s); |o| <= |s| && o == s[..|o|] && o[0] == '{' && Candidate(o) == o
  {
    var n := BalancedLength(s, OUTSIDE);
    BalancedPrefix(s, OUTSIDE);
    assert |s[..n]| == n;
    assert s[..n][..n] == s[..n];
  }

  /** The decoder accepts the candidate at the head of `s`. */
  predicate Hit(accepts: Decoder, s: string) {
    Candidate(s) != "" && accepts(Candidate(s))
  }

  /** The first piece of a redaction. */
  function FirstPiece(accepts: Decoder, s: string): (p: Piece)
    requires s != ""
    ensures 0 < |p.text| <= |s|
  {
    CandidateFits(s);
    if Hit(accepts, s) then Payload(Candidate(s)) else Copied([s[0]])
  }

  lemma CandidateFits(s: string)
    ensures |Candidate(s)| <= |s|
  {
  }

  function Pieces(accepts: Decoder, s: string): seq<Piece>
    decreases |s|
  {
    if s == "" then []
    else
      var p := FirstPiece(accepts, s);
      [p] + Pieces(accepts, s[|p.text|..])
  }

  lemma FirstPieceRendered(accepts: Decoder, s: string)
    requires s != ""
    ensures var p := FirstPiece(accepts, s);
            && p.text == s[..|p.text|]
            && PayloadsAccepted(accepts, [p])
            && Redact(accepts, s) == Rendered([p]) + Redact(accepts, s[|p.text|..])
  {
    hide BalancedLength;
    var p := FirstPiece(accepts, s);
    if p.Payload? {
      CandidateIsStable(s);
    }
    assert [p][1..] == [];
  }

  /** All bytes outside the replaced payloads are copied, in order, and nothing else changes. */
  lemma {:induction false} RedactionPieces(accepts: Decoder, s: string)
    ensures var ps := Pieces(accepts, s);
            Source(ps) == s && Rendered(ps) == Redact(accepts, s) && PayloadsAccepted(accepts, ps)
    decreases |s|
  {
    if s == "" {
      RedactEmpty(accepts, s);
    } else {
      var p := FirstPiece(accepts, s);
      var rest := Pieces(accepts, s[|p.text|..]);
      hide Candidate, Hit, Redact, Rendered, Source, PayloadsAccepted;
      FirstPieceRendered(accepts, s);
      RedactionPieces(accepts, s[|p.text|..]);
      PiecePrepended(accepts, p, rest);
      assert p.text + s[|p.text|..] == s;
    }
  }

  lemma PiecePrepended(accepts: Decoder, p: Piece, rest: seq<Piece>)
    ensures Source([p] + rest) == p.text + Source(rest) && Rendered([p] + rest) == Rendered([p]) + Rendered(rest)
    ensures PayloadsAccepted(accepts, [p]) && PayloadsAccepted(accepts, rest) ==> PayloadsAccepted(accepts, [p] + rest)
  {
    hide Candidate;
    assert ([p] + rest)[1..] == rest && [p][1..] == [] && [p][0] == p;
  }

  // ----- JSON objects (RFC 8259, sections 2 to 7) -----

  /** A character of a string: any but quote, backslash and control characters, or an escape. The
      digits of a \u escape follow it as plain characters. */
  datatype StringItem = Plain(c: char) | Escape(c: char)

  datatype Value =
    | Scalar(text: string)  // a number, true, false or null
    | Str(items: seq<StringItem>)
    | Arr(pad: string, elements: seq<Element>)
    | Obj(pad: string, members: seq<Member>)

  /** A value between white space. */
  datatype Element = Element(before: string, value: Value, after: string)

  datatype Member = Member(before: string, name: seq<StringItem>, colonBefore: string, element: Element)

  predicate Blank(s: string) {
    forall i :: 0 <= i < |s| ==> s[i] == ' ' || s[i] == '\t' || s[i] == '\n' || s[i] == '\r'
  }

  predicate ScalarText(s: string) {
    && s != ""
    && forall i :: 0 <= i < |s| ==>
         'a' <= s[i] <= 'z' || 'A' <= s[i] <= 'Z' || '0' <= s[i] <= '9' || s[i] == '+' || s[i] == '-' || s[i] == '.'
  }

  predicate StringOk(items: seq<StringItem>) {
    forall i :: 0 <= i < |items| && items[i].Plain? ==>
      items[i].c != '"' && items[i].c != '\\' && items[i].c >= ' '
  }

  predicate ValueOk(v: Value) {
    match v
    case Scalar(text) => ScalarText(text)
    case Str(items) => StringOk(items)
    case Arr(pad, elements) => Blank(pad) && forall i :: 0 <= i < |elements| ==> ElementOk(elements[i])
    case Obj(pad, members) => Blank(pad) && forall i :: 0 <= i < |members| ==> MemberOk(members[i])
  }

  predicate ElementOk(e: Element) {
    Blank(e.before) && ValueOk(e.value) && Blank(e.after)
  }

  predicate MemberOk(m: Member) {
    Blank(m.before) && StringOk(m.name) && Blank(m.colonBefore) && ElementOk(m.element)
  }

  function PrintItem(item: StringItem): string {
    if item.Plain? then [item.c] else ['\\', item.c]
  }

  function PrintItems(items: seq<StringItem>): string {
    if items == [] then ""
    else PrintItem(items[0]) + PrintItems(items[1..])
  }

  function PrintString(items: seq<StringItem>): string {
    "\"" + PrintItems(items) + "\""
  }

  function Print(v: Value): string
    decreases v, 0
  {
    match v
    case Scalar(text) => text
    case Str(items) => PrintString(items)
    case Arr(pad, elements) => "[" + pad + PrintElements(elements) + "]"
    case Obj(pad, members) => "{" + pad + PrintMembers(members) + "}"
  }

  function PrintElement(e: Element): string
    decreases e, 0
  {
    e.before + Print(e.value) + e.after
  }

  function PrintElements(es: seq<Element>): string
    decreases es, 1
  {
    if es == [] then ""
    else PrintElement(es[0]) + (if |es| > 1 then "," else "") + PrintElements(es[1..])
  }

  function PrintMember(m: Member): string
    decreases m, 0
  {
    m.before + PrintString(m.name) + m.colonBefore + ":" + PrintElement(m.element)
  }

  function PrintMembers(ms: seq<Member>): string
    decreases ms, 1
  {
    if ms == [] then ""
    else PrintMember(ms[0]) + (if |ms| > 1 then "," else "") + PrintMembers(ms[1..])
  }

  // ----- the scanner reads over every value -----

  datatype Passed = Stopped | Reached(at: Scan)

  /** Where the scanner stands behind `s`, unless it stops inside it. */
  function Pass(s: string, at: Scan): Passed {
    if s == "" then Reached(at)
    else if at.Closes(s[0]) then Stopped
    else Pass(s[1..], at.Step(s[0]))
  }

  lemma {:induction false} PassAppend(a: string, b: string, at: Scan)
    ensures Pass(a + b, at) == if Pass(a, at).Stopped? then Stopped else Pass(b, Pass(a, at).at)
  {
    if a == "" {
      assert a + b == b;
    } else {
      assert (a + b)[1..] == a[1..] + b;
      if !at.Closes(a[0]) {
        PassAppend(a[1..], b, at.Step(a[0]));
      }
    }
  }

  /** `s` leaves the scanner at depth `d` outside strings, where it was. */
  predicate Transparent(s: string, d: int) {
    Pass(s, Scan(d, false, false)) == Reached(Scan(d, false, false))
  }

  lemma TransparentAppend(a: string, b: string, d: int)
    requires Transparent(a, d) && Transparent(b, d)
    ensures Transparent(a + b, d)
  {
    PassAppend(a, b, Scan(d, false, false));
  }

  lemma {:induction false} PlainTextPasses(s: string, d: int)
    requires forall i :: 0 <= i < |s| ==> s[i] != '"' && s[i] != '{' && s[i] != '}'
    ensures Transparent(s, d)
  {
    if s != "" {
      PlainTextPasses(s[1..], d);
    }
  }

  lemma ItemPasses(item: StringItem, d: int)
    requires item.Plain? ==> item.c != '"' && item.c != '\\'
    ensures Pass(PrintItem(item), Scan(d, true, false)) == Reached(Scan(d, true, false))
  {
    var head := PrintItem(item);
    var open := Scan(d, true, false);
    if item.Escape? {
      assert head[0] == '\\' && head[1..] == [item.c] && [item.c][1..] == "";
      assert Pass([item.c], Scan(d, true, true)) == Pass("", open);
    } else {
      assert head[1..] == "";
      assert Pass(head, open) == Pass("", open);
    }
  }

  lemma {:induction false} ItemsPass(items: seq<StringItem>, d: int)
    requires StringOk(items)
    ensures Pass(PrintItems(items), Scan(d, true, false)) == Reached(Scan(d, true, false))
  {
    if items != [] {
      ItemPasses(items[0], d);
      ItemsPass(items[1..], d);
      PassAppend(PrintItem(items[0]), PrintItems(items[1..]), Scan(d, true, false));
    }
  }

  lemma StringPasses(items: seq<StringItem>, d: int)
    requires StringOk(items)
    ensures Transparent(PrintString(items), d)
  {
    ItemsPass(items, d);
    assert "\""[1..] == "";
    PassAppend("\"", PrintItems(items), Scan(d, false, false));
    PassAppend("\"" + PrintItems(items), "\"", Scan(d, false, false));
  }

  lemma {:induction false} ValuePasses(v: Value, d: int)
    requires ValueOk(v) && d >= 1
    ensures Transparent(Print(v), d)
    decreases v, 0
  {
    match v
    case Scalar(text) => PlainTextPasses(text, d);
    case Str(items) => StringPasses(items, d);
    case Arr(pad, elements) =>
      PlainTextPasses("[", d);
      PlainTextPasses("]", d);
      PlainTextPasses(pad, d);
      ElementsPass(elements, d);
      TransparentAppend("[", pad, d);
      TransparentAppend("[" + pad, PrintElements(elements), d);
      TransparentAppend("[" + pad + PrintElements(elements), "]", d);
    case Obj(pad, members) =>
      InsidePasses(pad, members, d + 1);
      assert "{"[1..] == "" && "}"[1..] == "";
      PassAppend("{", pad + PrintMembers(members), Scan(d, false, false));
      PassAppend("{" + (pad + PrintMembers(members)), "}", Scan(d, false, false));
      assert "{" + (pad + PrintMembers(members)) + "}" == Print(v);
  }

  lemma {:induction false} InsidePasses(pad: string, members: seq<Member>, d: int)
    requires Blank(pad) && d >= 1 && forall i :: 0 <= i < |members| ==> MemberOk(members[i])
    ensures Transparent(pad + PrintMembers(members), d)
    decreases members, 2
  {
    PlainTextPasses(pad, d);
    MembersPass(members, d);
    TransparentAppend(pad, PrintMembers(members), d);
  }

  lemma {:induction false} ElementPasses(e: Element, d: int)
    requires ElementOk(e) && d >= 1
    ensures Transparent(PrintElement(e), d)
    decreases e, 0
  {
    PlainTextPasses(e.before, d);
    ValuePasses(e.value, d);
    PlainTextPasses(e.after, d);
    TransparentAppend(e.before, Print(e.value), d);
    TransparentAppend(e.before + Print(e.value), e.after, d);
  }

  lemma {:induction false} ElementsPass(es: seq<Element>, d: int)
    requires d >= 1 && forall i :: 0 <= i < |es| ==> ElementOk(es[i])
    ensures Transparent(PrintElements(es), d)
    decreases es, 1
  {
    if es != [] {
      var comma := if |es| > 1 then "," else "";
      ElementPasses(es[0], d);
      PlainTextPasses(comma, d);
      ElementsPass(es[1..], d);
      TransparentAppend(PrintElement(es[0]), comma, d);
      TransparentAppend(PrintElement(es[0]) + comma, PrintElements(es[1..]), d);
    }
  }

  lemma {:induction false} MemberPasses(m: Member, d: int)
    requires MemberOk(m) && d >= 1
    ensures Transparent(PrintMember(m), d)
    decreases m, 0
  {
    PlainTextPasses(m.before, d);
    StringPasses(m.name, d);
    PlainTextPasses(m.colonBefore, d);
    PlainTextPasses(":", d);
    ElementPasses(m.element, d);
    TransparentAppend(m.before, PrintString(m.name), d);
    TransparentAppend(m.before + PrintString(m.name), m.colonBefore, d);
    TransparentAppend(m.before + PrintString(m.name) + m.colonBefore, ":", d);
    TransparentAppend(m.before + PrintString(m.name) + m.colonBefore + ":", PrintElement(m.element), d);
  }

  lemma {:induction false} MembersPass(ms: seq<Member>, d: int)
    requires d >= 1 && forall i :: 0 <= i < |ms| ==> MemberOk(ms[i])
    ensures Transparent(PrintMembers(ms), d)
    decreases ms, 1
  {
    if ms != [] {
      var comma := if |ms| > 1 then "," else "";
      MemberPasses(ms[0], d);
      PlainTextPasses(comma, d);
      MembersPass(ms[1..], d);
      TransparentAppend(PrintMember(ms[0]), comma, d);
      TransparentAppend(PrintMember(ms[0]) + comma, PrintMembers(ms[1..]), d);
    }
  }

  /** The scanner carries on behind a text it reads over. */
  lemma {:induction false} BalancedAfter(a: string, b: string, at: Scan)
    requires Pass(a, at).Reached?
    ensures BalancedLength(a + b, at) == var r := BalancedLength(b, Pass(a, at).at); if r == 0 then 0 else |a| + r
  {
    if a == "" {
      assert a + b == b;
    } else {
      assert (a + b)[1..] == a[1..] + b;
      BalancedAfter(a[1..], b, at.Step(a[0]));
    }
  }

  /** The scan stops at the brace that closes the first one, whatever follows it. */
  lemma ScanFindsBraces(inside: string, rest: string)
    requires Transparent(inside, 1)
    ensures Candidate("{" + inside + "}" + rest) == "{" + inside + "}"
  {
    var o := "{" + inside + "}";
    assert "{"[1..] == "";
    PassAppend("{", inside, OUTSIDE);
    BalancedAfter("{" + inside, "}" + rest, OUTSIDE);
    assert ("{" + inside) + ("}" + rest) == o + rest;
    assert (o + rest)[..|o|] == o;
  }

  /** From the first brace of a JSON object, whatever follows it, the scan stops exactly at its last
      brace. */
  lemma ScanFindsObject(pad: string, members: seq<Member>, rest: string)
    requires ValueOk(Obj(pad, members))
    ensures Candidate(Print(Obj(pad, members)) + rest) == Print(Obj(pad, members))
  {
    var inside := pad + PrintMembers(members);
    InsidePasses(pad, members, 1);
    ScanFindsBraces(inside, rest);
    assert "{" + inside + "}" == Print(Obj(pad, members));
  }

  lemma CharCopied(accepts: Decoder, c: char, t: string)
    requires c != '{'
    ensures Redact(accepts, [c] + t) == [c] + Redact(accepts, t)
  {
    hide Redact, BalancedLength;
    RedactHead(accepts, [c] + t);
    assert ([c] + t)[1..] == t;
  }

  lemma {:induction false} PrefixCopied(accepts: Decoder, prefix: string, s: string)
    requires '{' !in prefix
    ensures Redact(accepts, prefix + s) == prefix + Redact(accepts, s)
  {
    hide Redact;
    if prefix == "" {
      assert prefix + s == s;
    } else {
      var c, left := prefix[0], prefix[1..];
      assert c in prefix;
      PrefixCopied(accepts, left, s);
      CharCopied(accepts, c, left + s);
      assert prefix + s == [c] + (left + s);
      assert [c] + (left + Redact(accepts, s)) == prefix + Redact(accepts, s);
    }
  }

  /** A brace text is replaced as a whole or loses its first brace to the copy. */
  lemma RedactsBraces(accepts: Decoder, inside: string, rest: string)
    requires Transparent(inside, 1)
    ensures var o := "{" + inside + "}";
            Redact(accepts, o + rest) ==
            if accepts(o) then MARKER + Redact(accepts, rest) else "{" + Redact(accepts, inside + "}" + rest)
  {
    var o := "{" + inside + "}";
    hide Redact, BalancedLength, Transparent;
    ScanFindsBraces(inside, rest);
    RedactHead(accepts, o + rest);
    assert (o + rest)[|o|..] == rest;
    assert (o + rest)[1..] == inside + "}" + rest;
    assert [(o + rest)[0]] == "{";
  }

  /** A JSON object the decoder accepts is replaced as a whole, behind any text without a brace and
      in front of any text at all. */
  lemma RedactsObject(accepts: Decoder, prefix: string, pad: string, members: seq<Member>, rest: string)
    requires '{' !in prefix && ValueOk(Obj(pad, members)) && accepts(Print(Obj(pad, members)))
    ensures Redact(accepts, prefix + Print(Obj(pad, members)) + rest)
            == prefix + "[REDACTED_PAYLOAD]" + Redact(accepts, rest)
  {
    hide Redact, BalancedLength, Transparent, PrintMembers;
    var inside := pad + PrintMembers(members);
    var o := Print(Obj(pad, members));
    assert "{" + inside + "}" == o;
    InsidePasses(pad, members, 1);
    RedactsBraces(accepts, inside, rest);
    PrefixCopied(accepts, prefix, o + rest);
    assert prefix + (o + rest) == prefix + o + rest;
    assert prefix + (MARKER + Redact(accepts, rest)) == prefix + MARKER + Redact(accepts, rest);
  }

  // ----- when redaction changes nothing -----

  /** No place in `s` starts an accepted candidate. */
  predicate Quiet(accepts: Decoder, s: string) {
    forall i :: 0 <= i < |s| ==> !Hit(accepts, s[i..])
  }

  lemma QuietStep(accepts: Decoder, c: char, t: string)
    ensures Quiet(accepts, [c] + t) <==> !Hit(accepts, [c] + t) && Quiet(accepts, t)
  {
    hide Hit;
    var s := [c] + t;
    assert s[0..] == s;
    forall i | 0 <= i < |t|
      ensures s[i + 1..] == t[i..]
    {
    }
    if Quiet(accepts, s) {
      forall i | 0 <= i < |t|
        ensures !Hit(accepts, t[i..])
      {
        assert !Hit(accepts, s[i + 1..]);
      }
    }
    if !Hit(accepts, s) && Quiet(accepts, t) {
      forall i | 0 <= i < |s|
        ensures !Hit(accepts, s[i..])
      {
        if i > 0 {
          assert s[i..] == t[i - 1..];
        }
      }
    }
  }

  lemma {:induction false} QuietPrefix(accepts: Decoder, prefix: string, s: string)
    requires '{' !in prefix
    ensures Quiet(accepts, prefix + s) <==> Quiet(accepts, s)
  {
    hide Quiet;
    if prefix == "" {
      assert prefix + s == s;
    } else {
      assert prefix[0] in prefix;
      QuietPrefix(accepts, prefix[1..], s);
      QuietStep(accepts, prefix[0], prefix[1..] + s);
      assert prefix + s == [prefix[0]] + (prefix[1..] + s);
    }
  }

  /** Redaction leaves a text alone exactly when no place in it starts an accepted candidate. */
  lemma {:induction false} RedactsNothingExactly(accepts: Decoder, s: string)
    ensures Redact(accepts, s) == s <==> Quiet(accepts, s)
  {
    hide Redact, Quiet, BalancedLength;
    if s == "" {
      RedactEmpty(accepts, s);
      EmptyIsQuiet(accepts);
    } else {
      var t := s[1..];
      RedactHead(accepts, s);
      QuietStep(accepts, s[0], t);
      RedactsNothingExactly(accepts, t);
      assert s == [s[0]] + t;
      if Hit(accepts, s) {
        assert Redact(accepts, s)[0] == '[' && s[0] == '{';
      } else {
        assert Redact(accepts, s) == [s[0]] + Redact(accepts, t);
        assert ([s[0]] + Redact(accepts, t))[1..] == Redact(accepts, t);
      }
    }
  }

  lemma EmptyIsQuiet(accepts: Decoder)
    ensures Quiet(accepts, "")
  {
  }

  // ----- a second pass -----

  predicate CopiedSingly(ps: seq<Piece>) {
    forall k :: 0 <= k < |ps| && ps[k].Copied? ==> |ps[k].text| == 1
  }

  lemma {:induction false} PiecesCopySingly(accepts: Decoder, s: string)
    ensures CopiedSingly(Pieces(accepts, s))
    decreases |s|
  {
    if s != "" {
      PiecesCopySingly(accepts, s[|FirstPiece(accepts, s).text|..]);
    }
  }

  /** No copied piece starts an accepted candidate of the redacted text. */
  predicate QuietBehind(accepts: Decoder, ps: seq<Piece>) {
    forall k :: 0 <= k < |ps| && ps[k].Copied? ==> !Hit(accepts, Rendered(ps[k..]))
  }

  lemma QuietBehindStep(accepts: Decoder, ps: seq<Piece>)
    requires ps != []
    ensures QuietBehind(accepts, ps)
            <==> (ps[0].Copied? ==> !Hit(accepts, Rendered(ps))) && QuietBehind(accepts, ps[1..])
  {
    hide Hit, Rendered;
    var rest := ps[1..];
    assert ps[0..] == ps;
    if QuietBehind(accepts, ps) {
      forall k | 0 <= k < |rest| && rest[k].Copied?
        ensures !Hit(accepts, Rendered(rest[k..]))
      {
        assert rest[k..] == ps[k + 1..] && rest[k] == ps[k + 1];
      }
    }
    if (ps[0].Copied? ==> !Hit(accepts, Rendered(ps))) && QuietBehind(accepts, rest) {
      forall k | 0 <= k < |ps| && ps[k].Copied?
        ensures !Hit(accepts, Rendered(ps[k..]))
      {
        if k > 0 {
          assert ps[k..] == rest[k - 1..] && rest[k - 1] == ps[k];
        }
      }
    }
  }

  lemma {:induction false} QuietByPieces(accepts: Decoder, ps: seq<Piece>)
    requires CopiedSingly(ps)
    ensures Quiet(accepts, Rendered(ps)) <==> QuietBehind(accepts, ps)
  {
    hide Quiet, QuietBehind, Hit;
    if ps == [] {
      EmptyIsQuiet(accepts);
      NothingBehind(accepts);
    } else {
      var rest := ps[1..];
      QuietByPieces(accepts, rest);
      QuietBehindStep(accepts, ps);
      if ps[0].Copied? {
        QuietStep(accepts, ps[0].text[0], Rendered(rest));
        assert [ps[0].text[0]] == ps[0].text;
      } else {
        QuietPrefix(accepts, MARKER, Rendered(rest));
      }
    }
  }

  lemma NothingBehind(accepts: Decoder)
    ensures QuietBehind(accepts, [])
  {
  }

  /** The pieces from `k` on are those of the rest of the text; a copied one does not start a hit
      there. */
  lemma {:induction false} PiecesOfRest(accepts: Decoder, s: string, k: nat)
    requires k < |Pieces(accepts, s)| && Pieces(accepts, s)[k].Copied?
    ensures !Hit(accepts, Source(Pieces(accepts, s)[k..]))
    decreases |s|
  {
    hide Candidate, Hit;
    var ps := Pieces(accepts, s);
    if k == 0 {
      RedactionPieces(accepts, s);
      assert ps[0..] == ps;
    } else {
      var left := s[|FirstPiece(accepts, s).text|..];
      PiecesOfRest(accepts, left, k - 1);
      assert ps[k..] == Pieces(accepts, left)[k - 1..];
    }
  }

  /** Two texts with a common head balance at the same place of it. */
  lemma {:induction false} BalancedInHead(a: string, b: string, c: string, at: Scan)
    requires 0 < BalancedLength(a + b, at) <= |a|
    ensures BalancedLength(a + c, at) == BalancedLength(a + b, at)
  {
    assert (a + b)[0] == (a + c)[0] == a[0];
    if !at.Closes(a[0]) {
      assert (a + b)[1..] == a[1..] + b && (a + c)[1..] == a[1..] + c;
      BalancedInHead(a[1..], b, c, at.Step(a[0]));
    }
  }

  lemma {:induction false} BalancedEndsInBrace(s: string, at: Scan)
    requires BalancedLength(s, at) > 0
    ensures s[BalancedLength(s, at) - 1] == '}'
  {
    if !at.Closes(s[0]) {
      BalancedEndsInBrace(s[1..], at.Step(s[0]));
    }
  }

  /** The number of pieces in front of the first payload. */
  function CopiedRun(ps: seq<Piece>): (n: nat)
    ensures n <= |ps| && (n < |ps| ==> ps[n].Payload?)
    ensures forall k :: 0 <= k < n ==> ps[k].Copied?
  {
    if ps == [] || ps[0].Payload? then 0 else 1 + CopiedRun(ps[1..])
  }

  lemma {:induction false} RunIsCopied(ps: seq<Piece>, n: nat)
    requires n <= CopiedRun(ps)
    ensures Rendered(ps) == Source(ps[..n]) + Rendered(ps[n..]) && Source(ps) == Source(ps[..n]) + Source(ps[n..])
  {
    if n == 0 {
      assert ps[..0] == [] && ps[0..] == ps;
    } else {
      var c, tail := ps[0].text, ps[1..];
      assert ps[..n][1..] == tail[..n - 1] && ps[n..] == tail[n - 1..];
      assert Rendered(ps) == c + Rendered(tail) && Source(ps) == c + Source(tail);
      assert Source(ps[..n]) == c + Source(tail[..n - 1]);
      hide Rendered, Source;
      RunIsCopied(tail, n - 1);
      Associate(c, Source(tail[..n - 1]), Rendered(tail[n - 1..]));
      Associate(c, Source(tail[..n - 1]), Source(tail[n - 1..]));
    }
  }

  lemma Associate(a: string, b: string, c: string)
    ensures a + (b + c) == (a + b) + c
  {
  }

  /** A candidate that ends inside the common head of two texts is the candidate of both. */
  lemma CandidateInHead(head: string, x: string, y: string)
    requires 0 < |Candidate(head + x)| <= |head|
    ensures Candidate(head + y) == Candidate(head + x)
  {
    var n := BalancedLength(head + x, OUTSIDE);
    assert |(head + x)[..n]| == n;
    assert (head + x)[0] == head[0] == (head + y)[0];
    BalancedInHead(head, x, y, OUTSIDE);
    assert (head + x)[..n] == head[..n] == (head + y)[..n];
  }

  lemma HitLeavesHead(accepts: Decoder, head: string, x: string, y: string)
    requires Hit(accepts, head + x) && !Hit(accepts, head + y)
    ensures |Candidate(head + x)| > |head|
  {
    hide Candidate;
    if |Candidate(head + x)| <= |head| {
      CandidateInHead(head, x, y);
    }
  }

  /** A candidate that ends behind the start of a marker ends behind the marker. */
  lemma CandidatePassesMarker(head: string, tail: string)
    requires |Candidate(head + (MARKER + tail))| > |head|
    ensures |Candidate(head + (MARKER + tail))| > |head| + |MARKER|
  {
    var text := head + (MARKER + tail);
    var n := BalancedLength(text, OUTSIDE);
    assert |text[..n]| == n;
    BalancedEndsInBrace(text, OUTSIDE);
    assert forall i :: |head| <= i < |head| + |MARKER| ==> text[i] == MARKER[i - |head|];
    assert '}' !in MARKER;
  }

  /** A text that a second pass newly finds reaches over a payload the first one replaced: it starts at
      a copied brace in front of it, contains its whole marker, and goes on behind it. */
  lemma NewHitSpansPayload(accepts: Decoder, s: string, k: nat)
    requires var ps := Pieces(accepts, s); k < |ps| && ps[k].Copied? && Hit(accepts, Rendered(ps[k..]))
    ensures var rest := Pieces(accepts, s)[k..];
            && CopiedRun(rest) < |rest|
            && |Candidate(Rendered(rest))| > |Source(rest[..CopiedRun(rest)])| + |MARKER|
  {
    var rest := Pieces(accepts, s)[k..];
    var n := CopiedRun(rest);
    var run := Source(rest[..n]);
    RunIsCopied(rest, n);
    PiecesOfRest(accepts, s, k);
    hide Candidate, Pieces, Hit;
    HitLeavesHead(accepts, run, Rendered(rest[n..]), Source(rest[n..]));
    CandidateFits(Rendered(rest));
    assert rest[|rest|..] == [];
    if n < |rest| {
      CandidatePassesMarker(run, Rendered(rest[n..][1..]));
    }
  }

  /** Piece `k` is a copied brace with a payload somewhere behind it. */
  predicate BraceBeforePayload(ps: seq<Piece>, k: nat) {
    k < |ps| && ps[k] == Copied("{") && exists j :: k < j < |ps| && ps[j].Payload?
  }

  /** A second pass changes nothing exactly when none of the braces copied in front of a payload starts
      an accepted candidate of the redacted text. */
  lemma SecondPassExactly(accepts: Decoder, s: string)
    ensures var once, ps := Redact(accepts, s), Pieces(accepts, s);
            Redact(accepts, once) == once
            <==> forall k: nat :: BraceBeforePayload(ps, k) ==> !Hit(accepts, Rendered(ps[k..]))
  {
    hide Redact, Pieces, Candidate, Rendered, Source;
    var ps := Pieces(accepts, s);
    RedactionPieces(accepts, s);
    PiecesCopySingly(accepts, s);
    RedactsNothingExactly(accepts, Redact(accepts, s));
    QuietByPieces(accepts, ps);
    forall k: nat | k < |ps| && ps[k].Copied? && Hit(accepts, Rendered(ps[k..]))
      ensures BraceBeforePayload(ps, k)
    {
      NewHitSpansPayload(accepts, s, k);
      var rest := ps[k..];
      assert ps[k + CopiedRun(rest)] == rest[CopiedRun(rest)];
      assert ps[k] == rest[0];
      HitStartsWithBrace(accepts, rest);
    }
  }

  lemma HitStartsWithBrace(accepts: Decoder, rest: seq<Piece>)
    requires rest != [] && rest[0].Copied? && |rest[0].text| == 1 && Hit(accepts, Rendered(rest))
    ensures rest[0] == Copied("{")
  {
    assert Rendered(rest)[0] == rest[0].text[0];
    assert rest[0].text == [rest[0].text[0]];
  }

  /** So a text in which no brace is copied in front of a payload needs no second pass. */
  lemma OnePassIsEnough(accepts: Decoder, s: string)
    requires forall k: nat :: !BraceBeforePayload(Pieces(accepts, s), k)
    ensures Redact(accepts, Redact(accepts, s)) == Redact(accepts, s)
  {
    SecondPassExactly(accepts, s);
  }

  // ----- a text that needs a second pass -----

  lemma {:induction false} QuotedPasses(text: string, d: int)
    requires '"' !in text && '\\' !in text
    ensures Transparent("\"" + text + "\"", d)
  {
    TextInString(text, d);
    assert "\""[1..] == "";
    PassAppend("\"", text, Scan(d, false, false));
    PassAppend("\"" + text, "\"", Scan(d, false, false));
  }

  lemma {:induction false} TextInString(text: string, d: int)
    requires '"' !in text && '\\' !in text
    ensures Pass(text, Scan(d, true, false)) == Reached(Scan(d, true, false))
  {
    if text != "" {
      assert text[0] in text;
      TextInString(text[1..], d);
    }
  }

  const HEAD := "\"\":\""
  /** {"":0} */
  const INNER := "{" + "\"\":0" + "}"
  /** {"":"{"":0}"}: not a JSON text, but its middle is. */
  const NESTED := "{" + (HEAD + INNER + "\"") + "}"
  /** The same with its middle replaced, which is a JSON text. */
  const ONCE := "{" + (HEAD + MARKER + "\"") + "}"

  lemma NestedPasses()
    ensures Transparent("\"\":0", 1)
    ensures Transparent(HEAD + INNER + "\"", 1)
    ensures Transparent(HEAD + MARKER + "\"", 1)
  {
    hide Pass;
    var name, brace, zero, mark := "\"" + "" + "\"", "\"" + "{" + "\"", "\"" + ":0}" + "\"", "\"" + MARKER + "\"";
    QuotedPasses("", 1);
    QuotedPasses("{", 1);
    QuotedPasses(":0}", 1);
    QuotedPasses(MARKER, 1);
    PlainTextPasses(":", 1);
    PlainTextPasses(":0", 1);
    TransparentAppend(name, ":0", 1);
    TransparentAppend(name, ":", 1);
    TransparentAppend(name + ":", brace, 1);
    TransparentAppend(name + ":" + brace, zero, 1);
    TransparentAppend(name + ":", mark, 1);
    assert name + ":0" == "\"\":0";
    assert name + ":" + brace + zero == HEAD + INNER + "\"";
    assert name + ":" + mark == HEAD + MARKER + "\"";
  }

  lemma NestedOnce(accepts: Decoder)
    requires accepts(INNER) && !accepts(NESTED)
    ensures Redact(accepts, NESTED) == ONCE
  {
    hide Redact, Candidate, Transparent;
    var tail := "\"" + "}";
    NestedPasses();
    RedactEmpty(accepts, "");
    RedactsBraces(accepts, HEAD + INNER + "\"", "");
    assert NESTED + "" == NESTED;
    assert HEAD + INNER + "\"" + "}" + "" == HEAD + (INNER + tail);
    PrefixCopied(accepts, HEAD, INNER + tail);
    RedactsBraces(accepts, "\"\":0", tail);
    PrefixCopied(accepts, tail, "");
    assert tail + "" == tail;
    assert "{" + (HEAD + (MARKER + tail)) == ONCE;
  }

  /** Redaction is not idempotent: the marker may complete the text around it to an object that the
      second pass then replaces. */
  lemma SecondPassFindsMore(accepts: Decoder)
    requires accepts(INNER) && accepts(ONCE) && !accepts(NESTED)
    ensures Redact(accepts, NESTED) == ONCE
    ensures Redact(accepts, ONCE) == MARKER
  {
    hide Redact, Candidate, Transparent;
    NestedPasses();
    NestedOnce(accepts);
    RedactEmpty(accepts, "");
    RedactsBraces(accepts, HEAD + MARKER + "\"", "");
    assert ONCE + "" == ONCE;
  }
}
