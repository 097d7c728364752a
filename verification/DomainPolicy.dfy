/** `src/lib/domain-policy.ts`: which domain names the service accepts. */
module DomainPolicy {
  import opened Regex
  import Text

  datatype Result = Accepted(domain: string) | Malformed | Reserved

  const MAX_NAME := 253

  /** Up to 61 characters and a letter or digit. */
  const TAIL := Then(Between(Chars(LetterDigitHyphen), 0, 61), Chars(LetterDigit))

  /** A label and its dot: a letter or digit, perhaps a tail, and the dot. */
  const LABEL_DOT := Then(Chars(LetterDigit), Then(Maybe(TAIL), Chars(Exactly('.'))))

  const TOP_LEVEL := Between(Chars(Letter), 2, 63)

  const DOMAIN := Then(OneOrMore(LABEL_DOT), TOP_LEVEL)

  const RESERVED := [".localhost", ".local", ".internal", ".invalid", ".test", ".example"]

  predicate IsReserved(name: string) {
    exists i | 0 <= i < |RESERVED| :: Text.EndsWith(name, RESERVED[i])
  }

  function Prepared(input: string): string {
    Text.StripDot(Text.ToLower(Text.Trim(input)))
  }

  ghost function NormalizeDomain(input: string): Result {
    var value := Prepared(input);
    if |value| > MAX_NAME || !Matches(DOMAIN, value) then Malformed
    else if IsReserved(value) then Reserved
    else Accepted(value)
  }

  // ---- The grammar, label by label (sections 2.3.1 and 2.3.4 of RFC 1035) ----

  /** The parts of a string between its dots. */
  function Labels(s: string): (r: seq<string>)
    ensures |r| >= 1
  {
    if s == [] then [[]]
    else if s[0] == '.' then [[]] + Labels(s[1..])
    else var rest := Labels(s[1..]); [[s[0]] + rest[0]] + rest[1..]
  }

  ghost predicate IsLabel(part: string) {
    && 1 <= |part| <= 63 && part[0] != '-' && part[|part| - 1] != '-'
    && forall k | 0 <= k < |part| :: 'a' <= part[k] <= 'z' || '0' <= part[k] <= '9' || part[k] == '-'
  }

  ghost predicate IsTopLevel(part: string) {
    2 <= |part| <= 63 && forall k | 0 <= k < |part| :: 'a' <= part[k] <= 'z'
  }

  ghost predicate IsDomainName(s: string) {
    var labels := Labels(s);
    && |labels| >= 2
    && (forall i :: 0 <= i < |labels| - 1 ==> IsLabel(labels[i]))
    && IsTopLevel(labels[|labels| - 1])
  }

  // ---- The regular expression accepts exactly the grammar ----

  ghost predicate IsTail(s: string) {
    1 <= |s| <= 62 && AllIn(s, LetterDigitHyphen) && s[|s| - 1] != '-'
  }

  ghost predicate IsDotted(s: string) {
    |s| >= 2 && s[|s| - 1] == '.' && IsLabel(s[..|s| - 1])
  }

  lemma TailMatches(s: string)
    ensures Matches(TAIL, s) <==> IsTail(s)
  {
    var run, last := Between(Chars(LetterDigitHyphen), 0, 61), Chars(LetterDigit);
    if Matches(TAIL, s) {
      var i := ReadThen(run, last, s);
      CharsBetween(LetterDigitHyphen, 0, 61, s[..i]);
      assert i == |s| - 1 && s[i..][0] == s[i];
      assert forall k :: 0 <= k < i ==> s[k] == s[..i][k];
      assert IsTail(s);
    }
    if IsTail(s) {
      var i := |s| - 1;
      CharsBetween(LetterDigitHyphen, 0, 61, s[..i]);
      BuildThen(run, last, s, i);
    }
  }

  /** A head, an optional middle and a dot, whatever the middle is. */
  lemma DottedShape(middle: Pattern, s: string)
    ensures Matches(Then(Chars(LetterDigit), Then(Maybe(middle), Chars(Exactly('.')))), s) <==>
            && |s| >= 2 && InClass(s[0], LetterDigit) && s[|s| - 1] == '.'
            && (|s| == 2 || Matches(middle, s[1..|s| - 1]) || s[1..|s| - 1] == [])
  {
    var head, dot := Chars(LetterDigit), Chars(Exactly('.'));
    var rest := Then(Maybe(middle), dot);
    if Matches(Then(head, rest), s) {
      var i := ReadThen(head, rest, s);
      assert i == 1 && s[..1][0] == s[0];
      var j := ReadThen(Maybe(middle), dot, s[1..]);
      assert j == |s| - 2 && s[1..][j..][0] == s[|s| - 1];
      assert s[1..][..j] == s[1..|s| - 1];
    }
    if |s| >= 2 && InClass(s[0], LetterDigit) && s[|s| - 1] == '.'
       && (|s| == 2 || Matches(middle, s[1..|s| - 1]) || s[1..|s| - 1] == []) {
      assert s[1..][..|s| - 2] == s[1..|s| - 1];
      assert s[1..][|s| - 2..] == ['.'];
      BuildThen(Maybe(middle), dot, s[1..], |s| - 2);
      BuildThen(head, rest, s, 1);
    }
  }

  lemma LabelDotMatches(s: string)
    ensures Matches(LABEL_DOT, s) <==> IsDotted(s)
  {
    DottedShape(TAIL, s);
    if |s| >= 2 {
      LabelShape(s[..|s| - 1]);
      var middle := s[1..|s| - 1];
      TailMatches(middle);
      assert s[..|s| - 1][1..] == middle;
      assert s[..|s| - 1][0] == s[0];
    }
  }

  /** A label is a letter or digit alone, or one followed by a tail. */
  lemma LabelShape(part: string)
    requires part != []
    ensures IsLabel(part) <==> InClass(part[0], LetterDigit) && (|part| == 1 || IsTail(part[1..]))
  {
    if IsLabel(part) {
      assert InClass(part[0], LetterDigitHyphen);
      assert forall k :: 0 <= k < |part| - 1 ==> part[1..][k] == part[k + 1];
    }
    if InClass(part[0], LetterDigit) && (|part| == 1 || IsTail(part[1..])) {
      forall k | 0 <= k < |part| ensures InClass(part[k], LetterDigitHyphen) {
        if k > 0 {
          assert part[k] == part[1..][k - 1];
        }
      }
      if |part| > 1 {
        assert part[|part| - 1] == part[1..][|part| - 2];
      }
    }
  }

  // ---- Labels and repetition ----

  lemma {:induction false} LabelsPrefix(part: string, rest: string)
    requires '.' !in part
    ensures Labels(part + "." + rest) == [part] + Labels(rest)
  {
    var s := part + "." + rest;
    if part == [] {
      assert s[1..] == rest;
    } else {
      assert s[1..] == part[1..] + "." + rest;
      LabelsPrefix(part[1..], rest);
      assert [part[0]] + part[1..] == part;
    }
  }

  lemma {:induction false} LabelsWhole(part: string)
    requires '.' !in part
    ensures Labels(part) == [part]
  {
    if part != [] {
      LabelsWhole(part[1..]);
      assert [part[0]] + part[1..] == part;
    }
  }

  /** A string with at least two labels is its first label, a dot, and the rest. */
  lemma {:induction false} LabelsSplit(s: string)
    ensures '.' !in Labels(s)[0]
    ensures |Labels(s)| >= 2 ==>
              |Labels(s)[0]| < |s| && s == Labels(s)[0] + "." + s[|Labels(s)[0]| + 1..]
              && Labels(s[|Labels(s)[0]| + 1..]) == Labels(s)[1..]
    ensures |Labels(s)| == 1 ==> Labels(s)[0] == s
  {
    if s != [] && s[0] != '.' {
      LabelsSplit(s[1..]);
      var first := Labels(s[1..])[0];
      assert Labels(s)[0] == [s[0]] + first;
      assert Labels(s)[1..] == Labels(s[1..])[1..];
      if |Labels(s)| >= 2 {
        assert s == [s[0]] + s[1..];
        assert s[1..][|first| + 1..] == s[|first| + 2..];
      } else {
        assert s == [s[0]] + s[1..];
      }
    }
  }

  ghost predicate InGrammar(n: nat, s: string) {
    && |Labels(s)| == n + 1
    && (forall i :: 0 <= i < n ==> IsLabel(Labels(s)[i]))
    && IsTopLevel(Labels(s)[n])
  }

  lemma NoDot(part: string, cls: CharClass)
    requires AllIn(part, cls) && !cls.Exactly?
    ensures '.' !in part
  {
  }

  lemma DottedFirst(s: string, j: nat)
    requires j <= |s| && IsDotted(s[..j])
    ensures Labels(s) == [s[..j - 1]] + Labels(s[j..])
    ensures IsLabel(s[..j - 1])
  {
    var part := s[..j - 1];
    assert s[..j][..j - 1] == part;
    NoDot(part, LetterDigitHyphen);
    assert s == part + "." + s[j..];
    LabelsPrefix(part, s[j..]);
  }

  lemma GrammarCons(n: nat, s: string, j: nat)
    requires n > 0 && j <= |s| && IsDotted(s[..j]) && InGrammar(n - 1, s[j..])
    ensures InGrammar(n, s)
  {
    DottedFirst(s, j);
  }

  /** n dotted labels, matched piece by piece, and a top level. The pattern is any that matches
      exactly dotted labels. */
  lemma {:induction false} RepeatsSound(p: Pattern, n: nat, s: string, i: nat)
    requires forall x :: Matches(p, x) <==> IsDotted(x)
    requires i <= |s| && Repeats(p, n, s[..i]) && IsTopLevel(s[i..])
    ensures InGrammar(n, s)
    decreases n
  {
    if n == 0 {
      assert s[i..] == s;
      GrammarNil(s);
    } else {
      var j := ReadRepeats(p, n, s[..i]);
      Slices(s, j, i);
      RepeatsSound(p, n - 1, s[j..], i - j);
      GrammarCons(n, s, j);
    }
  }

  lemma GrammarNil(s: string)
    requires IsTopLevel(s)
    ensures InGrammar(0, s)
  {
    NoDot(s, Letter);
    LabelsWhole(s);
  }

  lemma Slices(s: string, j: nat, i: nat)
    requires j <= i <= |s|
    ensures s[..i][..j] == s[..j]
    ensures s[..i][j..] == s[j..][..i - j]
    ensures s[j..][i - j..] == s[i..]
  {
  }

  lemma {:induction false} RepeatsComplete(p: Pattern, n: nat, s: string) returns (i: nat)
    requires forall x :: Matches(p, x) <==> IsDotted(x)
    requires InGrammar(n, s)
    ensures i <= |s| && Repeats(p, n, s[..i]) && IsTopLevel(s[i..])
    decreases n
  {
    if n == 0 {
      i := 0;
      GrammarTop(s);
      assert s[0..] == s && s[..0] == [];
    } else {
      var j := GrammarTail(n, s);
      var m := RepeatsComplete(p, n - 1, s[j..]);
      i := j + m;
      Slices(s, j, i);
      BuildRepeats(p, n, s[..i], j);
    }
  }

  lemma GrammarTop(s: string)
    requires InGrammar(0, s)
    ensures IsTopLevel(s)
  {
    LabelsSplit(s);
  }

  lemma GrammarTail(n: nat, s: string) returns (j: nat)
    requires n > 0 && InGrammar(n, s)
    ensures j <= |s| && IsDotted(s[..j]) && InGrammar(n - 1, s[j..])
  {
    LabelsSplit(s);
    var part := Labels(s)[0];
    j := |part| + 1;
    assert IsLabel(part);
    assert s[..j] == part + ".";
    assert s[..j][..j - 1] == part;
    var rest := Labels(s[j..]);
    forall k | 0 <= k < n - 1 ensures IsLabel(rest[k]) {
      assert rest[k] == Labels(s)[k + 1];
    }
  }

  /** The regular expression matches exactly the domain names of the grammar. */
  lemma DomainMatchesExactly(s: string)
    ensures Matches(DOMAIN, s) <==> IsDomainName(s)
  {
    forall x ensures Matches(LABEL_DOT, x) <==> IsDotted(x) {
      LabelDotMatches(x);
    }
    DottedThenTop(LABEL_DOT, s);
  }

  lemma DottedThenTop(p: Pattern, s: string)
    requires forall x :: Matches(p, x) <==> IsDotted(x)
    ensures Matches(Then(OneOrMore(p), TOP_LEVEL), s) <==> IsDomainName(s)
  {
    if Matches(Then(OneOrMore(p), TOP_LEVEL), s) {
      var i := ReadThen(OneOrMore(p), TOP_LEVEL, s);
      var n := ReadOneOrMore(p, s[..i]);
      CharsBetween(Letter, 2, 63, s[i..]);
      RepeatsSound(p, n, s, i);
    }
    if IsDomainName(s) {
      var n := |Labels(s)| - 1;
      var i := RepeatsComplete(p, n, s);
      CharsBetween(Letter, 2, 63, s[i..]);
      BuildOneOrMore(p, s[..i], n);
      BuildThen(OneOrMore(p), TOP_LEVEL, s, i);
    }
  }

  /** The endings that are kept for private use. */
  ghost predicate EndsReserved(name: string) {
    exists front :: || name == front + ".localhost" || name == front + ".local" || name == front + ".internal"
                    || name == front + ".invalid" || name == front + ".test" || name == front + ".example"
  }

  lemma EndsWithExactly(name: string, tail: string)
    ensures Text.EndsWith(name, tail) <==> exists front :: name == front + tail
  {
    if Text.EndsWith(name, tail) {
      assert name == name[..|name| - |tail|] + tail;
    }
  }

  lemma ReservedExactly(name: string)
    ensures IsReserved(name) <==> EndsReserved(name)
  {
    if IsReserved(name) {
      var i :| 0 <= i < |RESERVED| && Text.EndsWith(name, RESERVED[i]);
      EndsWithExactly(name, RESERVED[i]);
    }
    if EndsReserved(name) {
      var front, i := ReservedTail(name);
      EndsWithExactly(name, RESERVED[i]);
    }
  }

  lemma ReservedTail(name: string) returns (front: string, i: nat)
    requires EndsReserved(name)
    ensures i < |RESERVED| && name == front + RESERVED[i]
  {
    front :| || name == front + ".localhost" || name == front + ".local" || name == front + ".internal"
             || name == front + ".invalid" || name == front + ".test" || name == front + ".example";
    i := if name == front + ".localhost" then 0
         else if name == front + ".local" then 1
         else if name == front + ".internal" then 2
         else if name == front + ".invalid" then 3
         else if name == front + ".test" then 4
         else 5;
  }

  /** What is accepted, exactly. */
  lemma AcceptsExactly(input: string)
    ensures NormalizeDomain(input).Accepted? <==>
            |Prepared(input)| <= 253 && IsDomainName(Prepared(input)) && !EndsReserved(Prepared(input))
    ensures NormalizeDomain(input).Accepted? ==> NormalizeDomain(input).domain == Prepared(input)
  {
    DomainMatchesExactly(Prepared(input));
    ReservedExactly(Prepared(input));
  }

  // ---- Stability ----

  lemma {:induction false} DomainCharacters(s: string)
    requires forall i :: 0 <= i < |Labels(s)| ==> AllIn(Labels(s)[i], LetterDigitHyphen)
    ensures forall c :: c in s ==> c == '.' || InClass(c, LetterDigitHyphen)
  {
    if s != [] {
      var labels := Labels(s);
      assert s == [s[0]] + s[1..];
      if s[0] == '.' {
        assert Labels(s[1..]) == labels[1..];
        DomainCharacters(s[1..]);
      } else {
        var rest := Labels(s[1..]);
        assert labels[0][0] == s[0] && InClass(labels[0][0], LetterDigitHyphen);
        forall i | 0 <= i < |rest| ensures AllIn(rest[i], LetterDigitHyphen) {
          if i == 0 {
            assert forall k :: 0 <= k < |rest[0]| ==> rest[0][k] == labels[0][k + 1];
          } else {
            assert rest[i] == labels[i];
          }
        }
        DomainCharacters(s[1..]);
      }
    }
  }

  lemma {:induction false} LastLabelEnds(s: string)
    requires s != [] && s[|s| - 1] == '.'
    ensures Labels(s)[|Labels(s)| - 1] == []
  {
    if |s| > 1 {
      LastLabelEnds(s[1..]);
    }
  }

  /** A domain name has no space, capital or dot where preparing would remove one. */
  lemma DomainNameIsPrepared(domain: string)
    requires IsDomainName(domain)
    ensures Text.IsTrimmed(domain)
    ensures forall c :: c in domain ==> !Text.IsCapital(c)
    ensures Text.StripDot(domain) == domain
  {
    DomainCharacters(domain);
    if domain != [] {
      assert domain[0] in domain && domain[|domain| - 1] in domain;
      if domain[|domain| - 1] == '.' {
        LastLabelEnds(domain);
        assert false;
      }
    }
  }

  /** The domain policy leaves its own output as it is. */
  lemma NormalizeIsStable(input: string)
    requires NormalizeDomain(input).Accepted?
    ensures NormalizeDomain(NormalizeDomain(input).domain) == NormalizeDomain(input)
  {
    var domain := Prepared(input);
    AcceptsExactly(input);
    PreparedIsStable(domain);
  }

  lemma PreparedIsStable(domain: string)
    requires IsDomainName(domain)
    ensures Prepared(domain) == domain
  {
    DomainNameIsPrepared(domain);
    Text.TrimTrims(domain);
    Text.ToLowerFixed(domain);
  }

  /** However its letters are capitalised, whatever spaces stand around it, and with or without a final dot, a domain
      name of the grammar is accepted as its lower-case self. */
  lemma SpellingsAreAccepted(front: string, name: string, dot: string, back: string, domain: string)
    requires IsDomainName(domain) && |domain| <= 253 && !EndsReserved(domain)
    requires Text.AllSpace(front) && Text.SameButCase(name, domain) && dot in {"", "."} && Text.AllSpace(back)
    ensures NormalizeDomain(front + name + dot + back) == Accepted(domain)
  {
    PreparesSpelling(front, name, dot, back, domain);
    AcceptsExactly(front + name + dot + back);
  }

  lemma PreparesSpelling(front: string, name: string, dot: string, back: string, domain: string)
    requires IsDomainName(domain) && Text.SameButCase(name, domain)
    requires Text.AllSpace(front) && dot in {"", "."} && Text.AllSpace(back)
    ensures Prepared(front + name + dot + back) == domain
  {
    DomainNameIsPrepared(domain);
    assert domain != [];
    assert Text.SameLetter(name[0], domain[0]) && Text.SameLetter(name[|name| - 1], domain[|domain| - 1]);
    assert Text.IsTrimmed(name + dot);
    assert front + name + dot + back == front + (name + dot) + back;
    Text.TrimExactly(front, name + dot, back);
    Text.ToLowerConcat(name, dot);
    Text.LowerSame(name, domain);
    Text.ToLowerFixed(domain);
    Text.ToLowerFixed(dot);
    if dot == "." {
      assert (domain + ".")[..|domain|] == domain;
    } else {
      assert domain + dot == domain;
    }
  }
}
