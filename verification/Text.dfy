/** The JavaScript string operations the engines use. A `char` is one well-formed character. */
module Text {

  /** White space and line terminators, as `String.prototype.trim` knows them. */
  predicate IsSpace(c: char) {
    || '\t' <= c <= '\r' || c == ' ' || c == '\U{A0}' || c == '\U{1680}'
    || '\U{2000}' <= c <= '\U{200A}' || c == '\U{2028}' || c == '\U{2029}'
    || c == '\U{202F}' || c == '\U{205F}' || c == '\U{3000}' || c == '\U{FEFF}'
  }

  function TrimStart(s: string): string {
    if s != [] && IsSpace(s[0]) then TrimStart(s[1..]) else s
  }

  function TrimEnd(s: string): string {
    if s != [] && IsSpace(s[|s| - 1]) then TrimEnd(s[..|s| - 1]) else s
  }

  function Trim(s: string): string {
    TrimEnd(TrimStart(s))
  }

  predicate IsTrimmed(s: string) {
    s != [] ==> !IsSpace(s[0]) && !IsSpace(s[|s| - 1])
  }

  lemma {:induction false} TrimStartStops(s: string)
    ensures TrimStart(s) != [] ==> !IsSpace(TrimStart(s)[0])
  {
    if s != [] && IsSpace(s[0]) {
      TrimStartStops(s[1..]);
    }
  }

  lemma {:induction false} TrimEndStops(s: string)
    ensures TrimEnd(s) != [] ==> !IsSpace(TrimEnd(s)[|TrimEnd(s)| - 1])
    ensures TrimEnd(s) <= s
  {
    if s != [] && IsSpace(s[|s| - 1]) {
      TrimEndStops(s[..|s| - 1]);
    }
  }

  /** A trimmed string has no space at either end, and only such strings are left as they are. */
  lemma TrimTrims(s: string)
    ensures IsTrimmed(Trim(s))
    ensures Trim(s) == s <==> IsTrimmed(s)
  {
    TrimStartStops(s);
    TrimEndStops(TrimStart(s));
  }

  lemma {:induction false} TrimStartExtends(s: string, c: char)
    requires IsSpace(c)
    ensures TrimStart(s + [c]) == if TrimStart(s) == [] then [] else TrimStart(s) + [c]
  {
    if s == [] {
      assert TrimStart([c]) == TrimStart([c][1..]) == [];
    } else if IsSpace(s[0]) {
      assert (s + [c])[1..] == s[1..] + [c];
      TrimStartExtends(s[1..], c);
    }
  }

  /** Trimming does not see a space added at the end. */
  lemma TrimIgnoresTail(s: string, c: char)
    requires IsSpace(c)
    ensures Trim(s + [c]) == Trim(s)
  {
    TrimStartExtends(s, c);
    var t := TrimStart(s);
    assert (t + [c])[..|t|] == t;
  }

  lemma {:induction false} TrimKeepsOnly(s: string, x: char)
    ensures x in Trim(s) ==> x in s
  {
    TrimStartKeepsOnly(s, x);
    TrimEndStops(TrimStart(s));
  }

  lemma {:induction false} TrimStartKeepsOnly(s: string, x: char)
    ensures x in TrimStart(s) ==> x in s
  {
    if s != [] && IsSpace(s[0]) {
      TrimStartKeepsOnly(s[1..], x);
    }
  }

  ghost predicate AllSpace(s: string) {
    forall i | 0 <= i < |s| :: IsSpace(s[i])
  }

  lemma {:induction false} TrimStartDrops(front: string, s: string)
    requires AllSpace(front)
    ensures TrimStart(front + s) == TrimStart(s)
  {
    if front == [] {
      assert front + s == s;
    } else {
      assert (front + s)[1..] == front[1..] + s;
      TrimStartDrops(front[1..], s);
    }
  }

  lemma {:induction false} TrimEndDrops(s: string, back: string)
    requires AllSpace(back)
    ensures TrimEnd(s + back) == TrimEnd(s)
  {
    if back == [] {
      assert s + back == s;
    } else {
      var n := |back| - 1;
      assert (s + back)[..|s + back| - 1] == s + back[..n];
      TrimEndDrops(s, back[..n]);
    }
  }

  /** Trimming takes the spaces around a text, and nothing of the text. */
  lemma TrimExactly(front: string, s: string, back: string)
    requires AllSpace(front) && IsTrimmed(s) && AllSpace(back)
    ensures Trim(front + s + back) == s
  {
    assert front + s + back == front + (s + back);
    TrimStartDrops(front, s + back);
    TrimTrims(s);
    if s == [] {
      TrimStartDrops(back, []);
      assert back + [] == [] + back == back;
    } else {
      TrimEndDrops(s, back);
      TrimEndStops(s);
    }
  }

  /** Lower case of the characters whose lower case is, or starts with, an ASCII letter: the ASCII
      capitals, the Kelvin sign, and the dotted capital I, which becomes two characters. */
  function LowerChar(c: char): string {
    if 'A' <= c <= 'Z' then [c + 32 as char]
    else if c == '\U{212A}' then "k"
    else if c == '\U{130}' then "i\U{307}"
    else [c]
  }

  function ToLower(s: string): string {
    if s == [] then [] else LowerChar(s[0]) + ToLower(s[1..])
  }

  predicate IsCapital(c: char) {
    'A' <= c <= 'Z' || c == '\U{212A}' || c == '\U{130}'
  }

  lemma {:induction false} ToLowerConcat(s: string, t: string)
    ensures ToLower(s + t) == ToLower(s) + ToLower(t)
  {
    if s == [] {
      assert s + t == t;
    } else {
      assert (s + t)[1..] == s[1..] + t;
      ToLowerConcat(s[1..], t);
    }
  }

  /** No character is lowered to nothing, nor to anything ending in a dot but the dot itself. */
  lemma LowerCharEnds(c: char)
    ensures LowerChar(c) != []
    ensures LowerChar(c)[|LowerChar(c)| - 1] == '.' <==> c == '.'
    ensures '.' in LowerChar(c) <==> c == '.'
  {
  }

  lemma ToLowerEnds(s: string)
    requires s != []
    ensures ToLower(s) != []
    ensures ToLower(s)[|ToLower(s)| - 1] == '.' <==> s[|s| - 1] == '.'
  {
    var front, last := s[..|s| - 1], s[|s| - 1];
    assert s == front + [last];
    ToLowerConcat(front, [last]);
    assert [last][1..] == [];
    assert ToLower([last]) == LowerChar(last);
    LowerCharEnds(last);
  }

  lemma {:induction false} ToLowerFixed(s: string)
    requires forall c :: c in s ==> !IsCapital(c)
    ensures ToLower(s) == s
  {
    if s != [] {
      assert s == [s[0]] + s[1..];
      assert !IsCapital(s[0]);
      ToLowerFixed(s[1..]);
    }
  }

  predicate SameLetter(c: char, d: char) {
    || c == d
    || ('A' <= c <= 'Z' && d as int == c as int + 32)
    || ('A' <= d <= 'Z' && c as int == d as int + 32)
  }

  ghost predicate SameButCase(s: string, t: string) {
    |s| == |t| && forall i :: 0 <= i < |s| ==> SameLetter(s[i], t[i])
  }

  /** Two texts that differ only in the case of ASCII letters have the same lower case. */
  lemma {:induction false} LowerSame(s: string, t: string)
    requires SameButCase(s, t)
    ensures ToLower(s) == ToLower(t)
  {
    if s != [] {
      assert SameLetter(s[0], t[0]);
      assert forall i :: 0 <= i < |s[1..]| ==> SameLetter(s[1..][i], t[1..][i]);
      LowerSame(s[1..], t[1..]);
    }
  }

  ghost predicate AllAscii(s: string) {
    forall i | 0 <= i < |s| :: s[i] < '\U{80}'
  }

  lemma SameByTail(s: string, t: string)
    requires s != [] && t != []
    ensures SameButCase(s, t) <==> SameLetter(s[0], t[0]) && SameButCase(s[1..], t[1..])
  {
    if SameLetter(s[0], t[0]) && SameButCase(s[1..], t[1..]) {
      forall i | 0 <= i < |s| ensures SameLetter(s[i], t[i]) {
        assert i > 0 ==> s[i] == s[1..][i - 1] && t[i] == t[1..][i - 1];
      }
    }
  }

  /** For ASCII texts the converse holds too. */
  lemma {:induction false} LowerSameExactly(s: string, t: string)
    requires AllAscii(s) && AllAscii(t)
    ensures ToLower(s) == ToLower(t) <==> SameButCase(s, t)
  {
    if s != [] && t != [] {
      LowerHead(s);
      LowerHead(t);
      SameLower(s[0], t[0]);
      LowerSameExactly(s[1..], t[1..]);
      SameByTail(s, t);
    }
  }

  lemma LowerHead(s: string)
    requires s != [] && s[0] < '\U{80}'
    ensures |LowerChar(s[0])| == 1 && ToLower(s)[0] == LowerChar(s[0])[0] && ToLower(s)[1..] == ToLower(s[1..])
  {
  }

  lemma SameLower(c: char, d: char)
    requires c < '\U{80}' && d < '\U{80}'
    ensures LowerChar(c)[0] == LowerChar(d)[0] <==> SameLetter(c, d)
  {
  }

  /** Drops one final dot. */
  function StripDot(s: string): string {
    if s != [] && s[|s| - 1] == '.' then s[..|s| - 1] else s
  }

  predicate OccursAt(s: string, part: string, i: int) {
    0 <= i <= |s| - |part| && s[i..i + |part|] == part
  }

  predicate Contains(s: string, part: string) {
    exists i | 0 <= i <= |s| :: OccursAt(s, part, i)
  }

  predicate EndsWith(s: string, tail: string) {
    |tail| <= |s| && s[|s| - |tail|..] == tail
  }

  lemma OccursShift(s: string, part: string, i: nat)
    requires s != []
    ensures OccursAt(s, part, i + 1) <==> OccursAt(s[1..], part, i)
  {
    if i + 1 <= |s| - |part| {
      assert s[i + 1..i + 1 + |part|] == s[1..][i..i + |part|];
    }
  }

  /** A part that is not at the front of a string is in it exactly when it is in the tail. */
  lemma ContainsShift(s: string, part: string)
    requires s != [] && !OccursAt(s, part, 0)
    ensures Contains(s, part) <==> Contains(s[1..], part)
  {
    if Contains(s, part) {
      var i :| 0 <= i <= |s| && OccursAt(s, part, i);
      OccursShift(s, part, i - 1);
    }
    if Contains(s[1..], part) {
      var i :| 0 <= i <= |s[1..]| && OccursAt(s[1..], part, i);
      OccursShift(s, part, i);
    }
  }

  /** A part occurs in a text. */
  ghost predicate OccursIn(part: string, text: string) {
    exists front, back :: text == front + part + back
  }

  lemma ContainsExactly(text: string, part: string)
    ensures Contains(text, part) <==> OccursIn(part, text)
  {
    if Contains(text, part) {
      var i :| 0 <= i <= |text| && OccursAt(text, part, i);
      assert text == text[..i] + part + text[i + |part|..];
    }
    if front, back :| text == front + part + back {
      assert text[|front|..|front| + |part|] == part;
      assert OccursAt(text, part, |front|);
    }
  }
}
