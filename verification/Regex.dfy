/** The regular expressions the domain policy is written in, by what they match. */
module Regex {

  datatype CharClass = LetterDigit | LetterDigitHyphen | Letter | Exactly(c: char)

  predicate InClass(c: char, cls: CharClass) {
    match cls
    case LetterDigit => 'a' <= c <= 'z' || '0' <= c <= '9'
    case LetterDigitHyphen => 'a' <= c <= 'z' || '0' <= c <= '9' || c == '-'
    case Letter => 'a' <= c <= 'z'
    case Exactly(d) => c == d
  }

  datatype Pattern =
    | Chars(cls: CharClass)
    | Then(first: Pattern, second: Pattern)
    | Maybe(inner: Pattern)
    | Between(inner: Pattern, least: nat, most: nat)
    | OneOrMore(inner: Pattern)

  /** The pattern matches the whole string. */
  ghost predicate Matches(p: Pattern, s: string)
    decreases p, 0
  {
    match p
    case Chars(cls) => |s| == 1 && InClass(s[0], cls)
    case Then(first, second) => exists i | 0 <= i <= |s| :: Matches(first, s[..i]) && Matches(second, s[i..])
    case Maybe(inner) => s == [] || Matches(inner, s)
    case Between(inner, least, most) => exists n | least <= n <= most :: Repeats(inner, n, s)
    case OneOrMore(inner) => exists n: nat :: n >= 1 && Repeats(inner, n, s)
  }

  ghost predicate Repeats(p: Pattern, n: nat, s: string)
    decreases p, n + 1
  {
    if n == 0 then s == []
    else exists i | 0 <= i <= |s| :: Matches(p, s[..i]) && Repeats(p, n - 1, s[i..])
  }

  // ---- Reading and building matches one step at a time ----

  lemma ReadThen(p: Pattern, q: Pattern, s: string) returns (i: nat)
    requires Matches(Then(p, q), s)
    ensures i <= |s| && Matches(p, s[..i]) && Matches(q, s[i..])
  {
    i :| 0 <= i <= |s| && Matches(p, s[..i]) && Matches(q, s[i..]);
  }

  lemma BuildThen(p: Pattern, q: Pattern, s: string, i: nat)
    requires i <= |s| && Matches(p, s[..i]) && Matches(q, s[i..])
    ensures Matches(Then(p, q), s)
  {
  }

  lemma ReadRepeats(p: Pattern, n: nat, s: string) returns (i: nat)
    requires n > 0 && Repeats(p, n, s)
    ensures i <= |s| && Matches(p, s[..i]) && Repeats(p, n - 1, s[i..])
  {
    i :| 0 <= i <= |s| && Matches(p, s[..i]) && Repeats(p, n - 1, s[i..]);
  }

  lemma BuildRepeats(p: Pattern, n: nat, s: string, i: nat)
    requires n > 0 && i <= |s| && Matches(p, s[..i]) && Repeats(p, n - 1, s[i..])
    ensures Repeats(p, n, s)
  {
  }

  lemma ReadBetween(p: Pattern, least: nat, most: nat, s: string) returns (n: nat)
    requires Matches(Between(p, least, most), s)
    ensures least <= n <= most && Repeats(p, n, s)
  {
    n :| least <= n <= most && Repeats(p, n, s);
  }

  lemma BuildBetween(p: Pattern, least: nat, most: nat, s: string, n: nat)
    requires least <= n <= most && Repeats(p, n, s)
    ensures Matches(Between(p, least, most), s)
  {
  }

  lemma ReadOneOrMore(p: Pattern, s: string) returns (n: nat)
    requires Matches(OneOrMore(p), s)
    ensures n >= 1 && Repeats(p, n, s)
  {
    n :| n >= 1 && Repeats(p, n, s);
  }

  lemma BuildOneOrMore(p: Pattern, s: string, n: nat)
    requires n >= 1 && Repeats(p, n, s)
    ensures Matches(OneOrMore(p), s)
  {
  }

  // ---- Runs of one class of characters ----

  ghost predicate AllIn(s: string, cls: CharClass) {
    forall i :: 0 <= i < |s| ==> InClass(s[i], cls)
  }

  lemma {:induction false} RepeatedCharsSound(cls: CharClass, n: nat, s: string)
    requires Repeats(Chars(cls), n, s)
    ensures |s| == n && AllIn(s, cls)
  {
    if n != 0 {
      var i := ReadRepeats(Chars(cls), n, s);
      assert i == 1;
      RepeatedCharsSound(cls, n - 1, s[1..]);
      assert s[..1][0] == s[0];
      assert forall k :: 1 <= k < |s| ==> s[k] == s[1..][k - 1];
    }
  }

  lemma {:induction false} RepeatedCharsComplete(cls: CharClass, s: string)
    requires AllIn(s, cls)
    ensures Repeats(Chars(cls), |s|, s)
  {
    if s != [] {
      RepeatedCharsComplete(cls, s[1..]);
      assert Matches(Chars(cls), s[..1]);
      BuildRepeats(Chars(cls), |s|, s, 1);
    }
  }

  /** A counted run of one class of characters. */
  lemma CharsBetween(cls: CharClass, least: nat, most: nat, s: string)
    ensures Matches(Between(Chars(cls), least, most), s) <==> least <= |s| <= most && AllIn(s, cls)
  {
    if Matches(Between(Chars(cls), least, most), s) {
      var n := ReadBetween(Chars(cls), least, most, s);
      RepeatedCharsSound(cls, n, s);
    }
    if least <= |s| <= most && AllIn(s, cls) {
      RepeatedCharsComplete(cls, s);
      BuildBetween(Chars(cls), least, most, s, |s|);
    }
  }
}
