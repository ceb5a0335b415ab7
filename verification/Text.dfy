/** The text operations applied to codes, facilities and account names.
    Letters and blanks are the ASCII ones. */
module Text {

  predicate IsBlank(c: char) {
    c == ' ' || '\t' <= c <= '\r'
  }

  function UpperChar(c: char): (u: char)
    ensures IsBlank(u) <==> IsBlank(c)
    ensures 'a' <= c <= 'z' ==> 'A' <= u <= 'Z'
    ensures !('a' <= u <= 'z')
  {
    if 'a' <= c <= 'z' then (c as int - 32) as char else c
  }

  function ToUpper(s: string): (u: string)
    ensures |u| == |s|
    ensures forall i :: 0 <= i < |s| ==> u[i] == UpperChar(s[i])
  {
    seq(|s|, i requires 0 <= i < |s| => UpperChar(s[i]))
  }

  function TrimLeft(s: string): string {
    if s != [] && IsBlank(s[0]) then TrimLeft(s[1..]) else s
  }

  function TrimRight(s: string): string {
    if s != [] && IsBlank(s[|s| - 1]) then TrimRight(s[..|s| - 1]) else s
  }

  function TrimSpace(s: string): string {
    TrimRight(TrimLeft(s))
  }

  /** The stored form of every code: trimmed, then upper-cased. */
  function Norm(s: string): string {
    ToUpper(TrimSpace(s))
  }

  predicate EqualFold(a: string, b: string) {
    ToUpper(a) == ToUpper(b)
  }

  ghost predicate Trimmed(s: string) {
    s == [] || (!IsBlank(s[0]) && !IsBlank(s[|s| - 1]))
  }

  lemma {:induction false} TrimLeftStartsSolid(s: string)
    ensures TrimLeft(s) == [] || !IsBlank(TrimLeft(s)[0])
  {
    if s != [] && IsBlank(s[0]) {
      TrimLeftStartsSolid(s[1..]);
    }
  }

  lemma {:induction false} TrimRightEndsSolid(s: string)
    requires s == [] || !IsBlank(s[0])
    ensures Trimmed(TrimRight(s))
  {
    if s != [] && IsBlank(s[|s| - 1]) {
      TrimRightEndsSolid(s[..|s| - 1]);
    }
  }

  /** Normalising twice changes nothing, so a stored link looks up the very code it was stored from. */
  lemma NormIdempotent(s: string)
    ensures Norm(Norm(s)) == Norm(s)
  {
    TrimLeftStartsSolid(s);
    TrimRightEndsSolid(TrimLeft(s));
    assert Trimmed(ToUpper(TrimSpace(s)));
    assert ToUpper(Norm(s)) == Norm(s);
  }

  lemma EqualFoldIsEquivalence(a: string, b: string, c: string)
    ensures EqualFold(a, a)
    ensures EqualFold(a, b) ==> EqualFold(b, a)
    ensures EqualFold(a, b) && EqualFold(b, c) ==> EqualFold(a, c)
  {
  }

  // ---- What the operations mean, letter by letter ----

  const LOWER := "abcdefghijklmnopqrstuvwxyz"
  const UPPER := "ABCDEFGHIJKLMNOPQRSTUVWXYZ"

  /** Blank, tab, line feed, vertical tab, form feed and carriage return. */
  const BLANKS := {' ', '\t', '\n', '\U{B}', '\U{C}', '\r'}

  predicate TwoCases(x: char, y: char) {
    exists k :: 0 <= k < 26 && ((x == LOWER[k] && y == UPPER[k]) || (x == UPPER[k] && y == LOWER[k]))
  }

  /** The same characters, up to the case of letters. */
  predicate SameLetters(a: string, b: string) {
    |a| == |b| && forall i :: 0 <= i < |a| ==> a[i] == b[i] || TwoCases(a[i], b[i])
  }

  lemma LettersInOrder(k: nat)
    requires k < 26
    ensures LOWER[k] == ('a' as int + k) as char && UPPER[k] == ('A' as int + k) as char
  {
  }

  /** Each letter goes to its own capital, a capital and every other character is kept. */
  lemma UpperOfLetter(k: nat)
    requires k < 26
    ensures UpperChar(LOWER[k]) == UPPER[k] && UpperChar(UPPER[k]) == UPPER[k]
  {
    LettersInOrder(k);
  }

  lemma UpperOfOther(c: char)
    requires c !in LOWER
    ensures UpperChar(c) == c
  {
    if 'a' <= c <= 'z' {
      LettersInOrder(c as int - 'a' as int);
    }
  }

  lemma CapitalOf(c: char)
    requires 'a' <= c <= 'z'
    ensures TwoCases(c, UpperChar(c)) && TwoCases(UpperChar(c), c)
  {
    var k := c as int - 'a' as int;
    LettersInOrder(k);
    UpperOfLetter(k);
  }

  lemma SameUpperIff(x: char, y: char)
    ensures UpperChar(x) == UpperChar(y) <==> x == y || TwoCases(x, y)
  {
    if TwoCases(x, y) {
      var k :| 0 <= k < 26 && ((x == LOWER[k] && y == UPPER[k]) || (x == UPPER[k] && y == LOWER[k]));
      UpperOfLetter(k);
    } else if x != y && UpperChar(x) == UpperChar(y) {
      if 'a' <= x <= 'z' {
        CapitalOf(x);
      } else if 'a' <= y <= 'z' {
        CapitalOf(y);
      }
    }
  }

  /** Case-insensitive equality is letter by letter. */
  lemma EqualFoldIff(a: string, b: string)
    ensures EqualFold(a, b) <==> SameLetters(a, b)
  {
    hide UpperChar, TwoCases;
    forall x, y
      ensures UpperChar(x) == UpperChar(y) <==> x == y || TwoCases(x, y)
    {
      SameUpperIff(x, y);
    }
    if SameLetters(a, b) {
      assert ToUpper(a) == ToUpper(b);
    } else if |a| == |b| {
      var i :| 0 <= i < |a| && !(a[i] == b[i] || TwoCases(a[i], b[i]));
      assert ToUpper(a)[i] != ToUpper(b)[i];
    }
  }

  lemma FoldsAreLetterwise()
    ensures forall a, b :: EqualFold(a, b) <==> SameLetters(a, b)
  {
    forall a, b
      ensures EqualFold(a, b) <==> SameLetters(a, b)
    {
      EqualFoldIff(a, b);
    }
  }

  lemma {:induction false} TrimLeftCuts(s: string) returns (left: string)
    ensures s == left + TrimLeft(s) && forall c :: c in left ==> c in BLANKS
  {
    if s != [] && IsBlank(s[0]) {
      var rest := TrimLeftCuts(s[1..]);
      left := [s[0]] + rest;
    } else {
      left := [];
    }
  }

  lemma {:induction false} TrimRightCuts(s: string) returns (right: string)
    ensures s == TrimRight(s) + right && forall c :: c in right ==> c in BLANKS
  {
    if s != [] && IsBlank(s[|s| - 1]) {
      var rest := TrimRightCuts(s[..|s| - 1]);
      right := rest + [s[|s| - 1]];
    } else {
      right := [];
    }
  }

  /** Trimming cuts blanks off both ends, and all of them. */
  lemma TrimSpaceCuts(s: string) returns (left: string, right: string)
    ensures s == left + TrimSpace(s) + right
    ensures forall c :: c in left || c in right ==> c in BLANKS
    ensures TrimSpace(s) == [] || (TrimSpace(s)[0] !in BLANKS && TrimSpace(s)[|TrimSpace(s)| - 1] !in BLANKS)
  {
    left := TrimLeftCuts(s);
    right := TrimRightCuts(TrimLeft(s));
    TrimLeftStartsSolid(s);
    TrimRightEndsSolid(TrimLeft(s));
  }

  /** A stored code is the given one without its outer blanks, each letter as a capital. */
  lemma NormIsTrimmedUpper(s: string)
    ensures |Norm(s)| == |TrimSpace(s)| && SameLetters(Norm(s), TrimSpace(s))
    ensures forall c :: c in Norm(s) ==> c !in LOWER
  {
    var t := TrimSpace(s);
    forall i | 0 <= i < |t|
      ensures Norm(s)[i] == t[i] || TwoCases(Norm(s)[i], t[i])
    {
      UpperTwice(t[i]);
      SameUpperIff(Norm(s)[i], t[i]);
    }
    forall c | c in Norm(s)
      ensures c !in LOWER
    {
      if c in LOWER {
        var k :| 0 <= k < |LOWER| && LOWER[k] == c;
        LettersInOrder(k);
      }
    }
  }

  lemma UpperTwice(c: char)
    ensures UpperChar(UpperChar(c)) == UpperChar(c)
  {
  }
}
