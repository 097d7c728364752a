/** `src/lib/security-test-policy.ts`: the scope list of a security test, and the list its form sends. */
module SecurityTestScope {
  import opened Sequences
  import opened Text

  const MAX_ENTRIES := 50

  // ---- Splitting ----

  /** The length of the separator at the front of a string, by the rule of the policy: a line break,
      with or without a carriage return, or a comma. */
  function SeparatorLength(s: string): (n: nat)
    ensures n <= |s|
  {
    if |s| >= 2 && s[0] == '\r' && s[1] == '\n' then 2
    else if s != [] && (s[0] == '\n' || s[0] == ',') then 1
    else 0
  }

  predicate IsLineSeparator(c: char) {
    c == '\n' || c == ','
  }

  /** `value.split(/\r?\n|,/)`. */
  function SplitScope(s: string): (r: seq<string>)
    ensures |r| >= 1
    decreases |s|
  {
    if s == [] then [[]]
    else
      var n := SeparatorLength(s);
      if n > 0 then [[]] + SplitScope(s[n..])
      else var rest := SplitScope(s[1..]); [[s[0]] + rest[0]] + rest[1..]
  }

  /** `value.split(/[\n,]/)`, as the form does it. */
  function SplitPlain(s: string): (r: seq<string>)
    ensures |r| >= 1
  {
    if s == [] then [[]]
    else if IsLineSeparator(s[0]) then [[]] + SplitPlain(s[1..])
    else var rest := SplitPlain(s[1..]); [[s[0]] + rest[0]] + rest[1..]
  }

  function Join(entries: seq<string>): string {
    if entries == [] then []
    else if |entries| == 1 then entries[0]
    else entries[0] + "\n" + Join(entries[1..])
  }

  // ---- Normalising ----

  function TrimAll(entries: seq<string>): seq<string> {
    if entries == [] then [] else [Trim(entries[0])] + TrimAll(entries[1..])
  }

  function NonEmpty(entries: seq<string>): seq<string> {
    if entries == [] then []
    else (if entries[0] == [] then [] else [entries[0]]) + NonEmpty(entries[1..])
  }

  function Distinct(entries: seq<string>): seq<string> {
    Unique(NonEmpty(TrimAll(entries)))
  }

  /** `normalizeSecurityTestScope` of a list. */
  function NormalizeList(entries: seq<string>): seq<string> {
    Limit(Distinct(entries), MAX_ENTRIES)
  }

  /** `normalizeSecurityTestScope` of a text. */
  function NormalizeText(value: string): seq<string> {
    NormalizeList(SplitScope(value))
  }

  /** `splitLines` of the form. */
  function SplitLines(value: string): seq<string> {
    Distinct(SplitPlain(value))
  }

  // ---- What a normalised list is ----

  /** Entries as the list keeps them: trimmed, not empty, each once. */
  ghost predicate IsScope(entries: seq<string>) {
    && (forall i :: 0 <= i < |entries| ==> IsTrimmed(entries[i]) && entries[i] != [])
    && (forall i, j :: 0 <= i < j < |entries| ==> entries[i] != entries[j])
  }

  lemma {:induction false} TrimAllEntries(entries: seq<string>)
    ensures |TrimAll(entries)| == |entries|
    ensures forall i :: 0 <= i < |entries| ==> TrimAll(entries)[i] == Trim(entries[i])
  {
    if entries != [] {
      TrimAllEntries(entries[1..]);
    }
  }

  lemma {:induction false} NonEmptyKeeps(entries: seq<string>, x: string)
    ensures x in NonEmpty(entries) <==> x in entries && x != []
  {
    if entries != [] {
      NonEmptyKeeps(entries[1..], x);
      assert entries == [entries[0]] + entries[1..];
    }
  }

  /** A value is in the list exactly when it is the trimmed form of some entry and not empty. */
  lemma DistinctKeeps(entries: seq<string>, x: string)
    ensures x in Distinct(entries) <==> x != [] && exists i :: 0 <= i < |entries| && Trim(entries[i]) == x
  {
    var trimmed := TrimAll(entries);
    TrimAllEntries(entries);
    NonEmptyKeeps(trimmed, x);
    UniqueKeeps(NonEmpty(trimmed), x);
    if x in trimmed {
      var i :| 0 <= i < |trimmed| && trimmed[i] == x;
      assert Trim(entries[i]) == x;
    }
    if i :| 0 <= i < |entries| && Trim(entries[i]) == x {
      assert trimmed[i] == x;
    }
  }

  lemma DistinctIsScope(entries: seq<string>)
    ensures IsScope(Distinct(entries))
  {
    var distinct := Distinct(entries);
    UniqueDistinct(NonEmpty(TrimAll(entries)));
    forall i | 0 <= i < |distinct| ensures IsTrimmed(distinct[i]) && distinct[i] != [] {
      assert distinct[i] in distinct;
      DistinctKeeps(entries, distinct[i]);
      var k :| 0 <= k < |entries| && Trim(entries[k]) == distinct[i];
      TrimTrims(entries[k]);
    }
  }

  /** A normalised list holds at most fifty trimmed entries, each once, in the order in which they first
      occurred. */
  lemma NormalizedShape(entries: seq<string>)
    ensures IsScope(NormalizeList(entries)) && |NormalizeList(entries)| <= 50
    ensures NormalizeList(entries) <= Distinct(entries)
    ensures InFirstOrder(NonEmpty(TrimAll(entries)), NormalizeList(entries))
  {
    DistinctIsScope(entries);
    UniqueOrdered(NonEmpty(TrimAll(entries)));
  }

  /** A list that is in this form already, and short enough, is left as it is. */
  lemma ScopeIsFixed(entries: seq<string>)
    requires IsScope(entries)
    ensures Distinct(entries) == entries
  {
    TrimAllFixed(entries);
    NonEmptyFixed(entries);
    UniqueFixed(entries);
  }

  lemma {:induction false} TrimAllFixed(entries: seq<string>)
    requires forall i :: 0 <= i < |entries| ==> IsTrimmed(entries[i])
    ensures TrimAll(entries) == entries
  {
    if entries != [] {
      TrimTrims(entries[0]);
      TrimAllFixed(entries[1..]);
    }
  }

  lemma {:induction false} NonEmptyFixed(entries: seq<string>)
    requires forall i :: 0 <= i < |entries| ==> entries[i] != []
    ensures NonEmpty(entries) == entries
  {
    if entries != [] {
      NonEmptyFixed(entries[1..]);
    }
  }

  // ---- The form's list and the raw text normalise alike ----

  /** The same entries, but for a carriage return left at the end of some. */
  ghost predicate SameButReturns(policy: seq<string>, plain: seq<string>) {
    |policy| == |plain| && forall i :: 0 <= i < |policy| ==> ButForReturn(policy[i], plain[i])
  }

  predicate ButForReturn(entry: string, withReturn: string) {
    withReturn == entry || withReturn == entry + "\r"
  }

  lemma ExtendsHead(policy: seq<string>, plain: seq<string>, c: char)
    requires policy != [] && SameButReturns(policy, plain)
    ensures SameButReturns([[c] + policy[0]] + policy[1..], [[c] + plain[0]] + plain[1..])
  {
    assert ButForReturn(policy[0], plain[0]);
    assert [c] + (policy[0] + "\r") == [c] + policy[0] + "\r";
    assert ButForReturn([c] + policy[0], [c] + plain[0]);
    Prepends([c] + policy[0], [c] + plain[0], policy[1..], plain[1..]);
  }

  lemma Prepends(first: string, other: string, policy: seq<string>, plain: seq<string>)
    requires ButForReturn(first, other) && SameButReturns(policy, plain)
    ensures SameButReturns([first] + policy, [other] + plain)
  {
  }

  lemma {:induction false} SplitsAgree(s: string)
    ensures SameButReturns(SplitScope(s), SplitPlain(s))
    decreases |s|
  {
    if s != [] {
      var n := SeparatorLength(s);
      if n == 0 {
        SplitsAgree(s[1..]);
        ExtendsHead(SplitScope(s[1..]), SplitPlain(s[1..]), s[0]);
      } else {
        SplitsAgree(s[n..]);
        if n == 2 {
          PlainReturn(s);
          Prepends([], "\r", SplitScope(s[2..]), SplitPlain(s[2..]));
        } else {
          Prepends([], [], SplitScope(s[1..]), SplitPlain(s[1..]));
        }
      }
    }
  }

  /** The form leaves the carriage return of a line break with the line before it. */
  lemma PlainReturn(s: string)
    requires |s| >= 2 && s[0] == '\r' && s[1] == '\n'
    ensures SplitPlain(s) == ["\r"] + SplitPlain(s[2..])
  {
    var rest := SplitPlain(s[1..]);
    assert s[1..][1..] == s[2..];
    assert rest == [[]] + SplitPlain(s[2..]);
    assert rest[0] == [] && rest[1..] == SplitPlain(s[2..]);
    assert [s[0]] + rest[0] == "\r";
  }

  lemma {:induction false} TrimAllAgree(policy: seq<string>, plain: seq<string>)
    requires SameButReturns(policy, plain)
    ensures TrimAll(policy) == TrimAll(plain)
  {
    if policy != [] {
      assert ButForReturn(policy[0], plain[0]);
      TrimIgnoresTail(policy[0], '\r');
      TrimAllAgree(policy[1..], plain[1..]);
    }
  }

  /** Normalising what the form sends is normalising the raw text, although form and policy split it by
      different rules. */
  lemma FormAgreesWithPolicy(value: string)
    ensures NormalizeList(SplitLines(value)) == NormalizeText(value)
  {
    SplitsAgree(value);
    TrimAllAgree(SplitScope(value), SplitPlain(value));
    DistinctIsScope(SplitScope(value));
    ScopeIsFixed(SplitLines(value));
  }

  // ---- Writing a list as text and reading it back ----

  ghost predicate Plain(entry: string) {
    forall c :: c in entry ==> !IsLineSeparator(c)
  }

  lemma {:induction false} SplitScopePlain(s: string)
    ensures forall i :: 0 <= i < |SplitScope(s)| ==> Plain(SplitScope(s)[i])
    decreases |s|
  {
    if s != [] {
      var n := SeparatorLength(s);
      SplitScopePlain(s[if n > 0 then n else 1..]);
    }
  }

  lemma {:induction false} SplitsOneEntry(entry: string, rest: string)
    requires Plain(entry) && (entry != [] ==> entry[|entry| - 1] != '\r')
    ensures SplitScope(entry + "\n" + rest) == [entry] + SplitScope(rest)
    decreases |entry|
  {
    var s := entry + "\n" + rest;
    if entry == [] {
      assert s[1..] == rest;
    } else {
      assert s[1..] == entry[1..] + "\n" + rest;
      assert entry[0] in entry;
      if |entry| > 1 {
        assert s[1] == entry[1] && entry[1] in entry;
      }
      assert SeparatorLength(s) == 0;
      SplitsOneEntry(entry[1..], rest);
      assert [entry[0]] + entry[1..] == entry;
    }
  }

  lemma {:induction false} SplitsWhole(entry: string)
    requires Plain(entry)
    ensures SplitScope(entry) == [entry]
    decreases |entry|
  {
    if entry != [] {
      assert entry[0] in entry;
      if |entry| > 1 {
        assert entry[1] in entry;
      }
      SplitsWhole(entry[1..]);
      assert [entry[0]] + entry[1..] == entry;
    }
  }

  lemma {:induction false} JoinSplits(entries: seq<string>)
    requires entries != []
    requires forall i :: 0 <= i < |entries| ==> Plain(entries[i]) && IsTrimmed(entries[i])
    ensures SplitScope(Join(entries)) == entries
  {
    if |entries| == 1 {
      SplitsWhole(entries[0]);
    } else {
      SplitsOneEntry(entries[0], Join(entries[1..]));
      JoinSplits(entries[1..]);
    }
  }

  lemma PlainSurvives(entries: seq<string>)
    requires IsScope(entries) && |entries| <= MAX_ENTRIES && forall i :: 0 <= i < |entries| ==> Plain(entries[i])
    ensures NormalizeText(Join(entries)) == entries
  {
    if entries == [] {
      assert SplitScope([]) == [[]];
      assert TrimAll([[]]) == [[]];
      assert NonEmpty([[]]) == [];
    } else {
      JoinSplits(entries);
      ScopeIsFixed(entries);
    }
  }

  /** A scope list survives being written one entry a line and read back, exactly when no entry holds
      a line break or a comma. */
  lemma RoundTripExactly(entries: seq<string>)
    requires IsScope(entries) && |entries| <= 50
    ensures NormalizeText(Join(entries)) == entries <==>
            forall i, c :: 0 <= i < |entries| && c in entries[i] ==> c != '\n' && c != ','
  {
    assert forall i :: 0 <= i < |entries| ==>
             (Plain(entries[i]) <==> forall c :: c in entries[i] ==> c != '\n' && c != ',');
    if forall i :: 0 <= i < |entries| ==> Plain(entries[i]) {
      PlainSurvives(entries);
    }
    if NormalizeText(Join(entries)) == entries {
      forall i | 0 <= i < |entries| ensures Plain(entries[i]) {
        NormalizedTextPlain(Join(entries), i);
      }
    }
  }

  /** The input that shows it: one entry with a comma inside, kept by a list and split in a text. */
  lemma CommaEntrySplits()
    ensures IsScope(["a,b"]) && NormalizeList(["a,b"]) == ["a,b"]
    ensures NormalizeText(Join(["a,b"])) != ["a,b"]
  {
    var entries := ["a,b"];
    assert entries[0][1] in entries[0] && IsLineSeparator(entries[0][1]);
    RoundTripExactly(entries);
    ScopeIsFixed(entries);
  }

  lemma NormalizedTextPlain(value: string, i: nat)
    requires i < |NormalizeText(value)|
    ensures Plain(NormalizeText(value)[i])
  {
    var pieces := SplitScope(value);
    var entry := NormalizeText(value)[i];
    assert entry == Distinct(pieces)[i];
    assert entry in Distinct(pieces);
    DistinctKeeps(pieces, entry);
    var k :| 0 <= k < |pieces| && Trim(pieces[k]) == entry;
    SplitScopePlain(value);
    forall c | c in entry ensures !IsLineSeparator(c) {
      TrimKeepsOnly(pieces[k], c);
    }
  }

  /** Every list read from a text survives. */
  lemma TextRoundTrip(value: string)
    ensures NormalizeText(Join(NormalizeText(value))) == NormalizeText(value)
  {
    var entries := NormalizeText(value);
    NormalizedShape(SplitScope(value));
    forall i | 0 <= i < |entries| ensures Plain(entries[i]) {
      NormalizedTextPlain(value, i);
    }
    RoundTripExactly(entries);
  }
}
