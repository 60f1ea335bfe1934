/** The library string functions the adapters and scanners rely on. Bytes are chars. */
module TextTools {

  const NUL: char := '\0'

  /** strings.Split and bytes.Split with a one-byte separator. */
  function Split(s: string, sep: char): (parts: seq<string>)
    ensures |parts| >= 1
  {
    if s == "" then [""]
    else if s[0] == sep then [""] + Split(s[1..], sep)
    else
      var rest := Split(s[1..], sep);
      [[s[0]] + rest[0]] + rest[1..]
  }

  /** Every part with the NUL that ends it. */
  function Terminated(parts: seq<string>): string {
    if parts == [] then "" else parts[0] + [NUL] + Terminated(parts[1..])
  }

  function TrimPrefix(s: string, prefix: string): string {
    if prefix <= s then s[|prefix|..] else s
  }

  predicate IsSpace(c: char) {
    c == ' ' || c == '\t' || c == '\n' || c == '\r' || c == '\U{000B}' || c == '\U{000C}'
  }

  function TrimLeft(s: string): string {
    if s != "" && IsSpace(s[0]) then TrimLeft(s[1..]) else s
  }

  function TrimRight(s: string): string {
    if s != "" && IsSpace(s[|s| - 1]) then TrimRight(s[..|s| - 1]) else s
  }

  function TrimSpace(s: string): string {
    TrimRight(TrimLeft(s))
  }

  function ToLower(s: string): string {
    if s == "" then ""
    else [if 'A' <= s[0] <= 'Z' then s[0] + ' ' else s[0]] + ToLower(s[1..])
  }

  // ----- words -----

  predicate Blank(s: string) {
    forall i :: 0 <= i < |s| ==> s[i] in " \t\n\r\U{000B}\U{000C}"
  }

  /** The same letter in small or capital form. */
  predicate SameLetter(c: char, letter: char) {
    c == letter || ('A' <= c <= 'Z' && c + ' ' == letter)
  }

  /** The word with blanks around it, in any mixture of small and capital letters. */
  ghost predicate Spells(s: string, word: string) {
    exists i :: SpellsAt(s, word, i)
  }

  predicate SpellsAt(s: string, word: string, i: int) {
    && 0 <= i <= i + |word| <= |s|
    && Blank(s[..i]) && Blank(s[i + |word|..])
    && forall k :: 0 <= k < |word| ==> SameLetter(s[i + k], word[k])
  }

  predicate SmallLetters(word: string) {
    word != "" && forall k :: 0 <= k < |word| ==> 'a' <= word[k] <= 'z'
  }

  lemma {:induction false} LowerLetters(s: string)
    ensures |ToLower(s)| == |s|
    ensures forall k :: 0 <= k < |s| ==> ToLower(s)[k] == if 'A' <= s[k] <= 'Z' then s[k] + ' ' else s[k]
  {
    if s != "" {
      LowerLetters(s[1..]);
    }
  }

  lemma {:induction false} LeftBlanks(s: string) returns (i: nat)
    ensures i <= |s| && Blank(s[..i]) && TrimLeft(s) == s[i..]
  {
    if s != "" && IsSpace(s[0]) {
      var j := LeftBlanks(s[1..]);
      i := j + 1;
      assert forall k :: 1 <= k < i ==> s[k] == s[1..][..j][k - 1];
      assert s[1..][j..] == s[i..];
    } else {
      i := 0;
    }
  }

  lemma {:induction false} RightBlanks(s: string) returns (j: nat)
    ensures j <= |s| && Blank(s[j..]) && TrimRight(s) == s[..j]
  {
    if s != "" && IsSpace(s[|s| - 1]) {
      var rest := s[..|s| - 1];
      j := RightBlanks(rest);
      assert forall k :: j <= k < |rest| ==> s[k] == rest[j..][k - j];
      assert rest[..j] == s[..j];
    } else {
      j := |s|;
    }
  }

  lemma {:induction false} TrimLeftStops(s: string, i: nat)
    requires i < |s| && Blank(s[..i]) && !IsSpace(s[i])
    ensures TrimLeft(s) == s[i..]
  {
    if i > 0 {
      assert s[..i][0] == s[0];
      assert s[1..][..i - 1] == s[..i][1..];
      TrimLeftStops(s[1..], i - 1);
    }
  }

  lemma {:induction false} TrimRightStops(s: string, j: nat)
    requires 0 < j <= |s| && Blank(s[j..]) && !IsSpace(s[j - 1])
    ensures TrimRight(s) == s[..j]
  {
    if j < |s| {
      var rest := s[..|s| - 1];
      assert s[j..][|s| - 1 - j] == s[|s| - 1];
      assert forall k :: 0 <= k < |rest| - j ==> rest[j..][k] == s[j..][k];
      TrimRightStops(rest, j);
      assert rest[..j] == s[..j];
    }
  }

  /** Trimming and lowering gives a word exactly for the texts that spell it. */
  lemma NormalizedExactly(s: string, word: string)
    requires SmallLetters(word)
    ensures ToLower(TrimSpace(s)) == word <==> Spells(s, word)
  {
    if ToLower(TrimSpace(s)) == word {
      NormalizedSpells(s, word);
    }
    if i :| SpellsAt(s, word, i) {
      SpelledNormalizes(s, word, i);
    }
  }

  lemma NormalizedSpells(s: string, word: string)
    requires SmallLetters(word) && ToLower(TrimSpace(s)) == word
    ensures Spells(s, word)
  {
    var i := LeftBlanks(s);
    var j := RightBlanks(s[i..]);
    LowerLetters(TrimSpace(s));
    assert s[i..][j..] == s[i + j..];
    assert SpellsAt(s, word, i);
  }

  lemma SpelledNormalizes(s: string, word: string, i: int)
    requires SmallLetters(word) && SpellsAt(s, word, i)
    ensures ToLower(TrimSpace(s)) == word
  {
    assert SameLetter(s[i + 0], word[0]) && SameLetter(s[i + (|word| - 1)], word[|word| - 1]);
    TrimLeftStops(s, i);
    assert s[i..][|word|..] == s[i + |word|..];
    TrimRightStops(s[i..], |word|);
    LowerLetters(s[i..][..|word|]);
  }

  /** The part before the first separator comes out whole. */
  lemma {:induction false} SplitAtFirst(a: string, sep: char, b: string)
    requires sep !in a
    ensures Split(a + [sep] + b, sep) == [a] + Split(b, sep)
  {
    var s := a + [sep] + b;
    if a == "" {
      assert s[1..] == b;
      assert [""] + Split(b, sep) == [a] + Split(b, sep);
    } else {
      assert s[0] == a[0] && a[0] in a;
      assert s[1..] == a[1..] + [sep] + b;
      SplitAtFirst(a[1..], sep, b);
      assert [a[0]] + a[1..] == a;
    }
  }
}
