/** `src/lib/security-metadata.ts`: what of arbitrary metadata is stored with a security event. */
module SecurityMetadata {
  import Text

  /** An ISO timestamp has at most 27 characters, years beyond 9999 included. */
  type IsoText = s: string | |s| <= 27 witness ""

  /** A JavaScript value. An object is its entries in enumeration order; `Other` is a value of any
      other kind (undefined, function, symbol, big integer) with the text `String` makes of it. */
  datatype Value =
    | Null
    | Str(text: string)
    | Num(number: real)
    | Bool(flag: bool)
    | Date(iso: IsoText)
    | Arr(items: seq<Value>)
    | Obj(entries: seq<(string, Value)>)
    | Other(shown: string)

  const UNDEFINED := Other("undefined")
  const TOO_DEEP := Str("[redacted-depth]")
  const REDACTED := Str("[redacted]")

  const SENSITIVE := [
    "secret", "token", "password", "passcode", "hash", "cookie", "authorization",
    "database_url", "direct_url", "private_key", "totp", "recovery_code"]

  /** A pattern without the Unicode flag folds ASCII letters only. */
  function Fold(key: string): string {
    seq(|key|, i requires 0 <= i < |key| => if 'A' <= key[i] <= 'Z' then key[i] + 32 as char else key[i])
  }

  predicate IsSensitive(key: string) {
    exists i | 0 <= i < |SENSITIVE| :: Text.Contains(Fold(key), SENSITIVE[i])
  }

  const MAX_TEXT := 512
  const MAX_ITEMS := 25
  const MAX_ENTRIES := 50
  const MAX_DEPTH := 4

  function AtMost(n: nat, limit: nat): nat {
    if n < limit then n else limit
  }

  function Cut(text: string): string {
    if |text| > MAX_TEXT then text[..MAX_TEXT] + "..." else text
  }

  /** `sanitizeValue`. The recursion ends by depth alone, whatever the value's own size. */
  function Sanitize(value: Value, depth: nat): Value
    decreases 5 - depth
  {
    if depth > MAX_DEPTH then TOO_DEEP
    else match value
      case Null => Str("[null]")
      case Str(text) => Str(Cut(text))
      case Num(_) => value
      case Bool(_) => value
      case Date(iso) => Str(iso)
      case Arr(items) =>
        Arr(seq(AtMost(|items|, MAX_ITEMS), i requires 0 <= i < AtMost(|items|, MAX_ITEMS) =>
          Sanitize(items[i], depth + 1)))
      case Obj(entries) =>
        Obj(seq(AtMost(|entries|, MAX_ENTRIES), i requires 0 <= i < AtMost(|entries|, MAX_ENTRIES) =>
          (entries[i].0, if IsSensitive(entries[i].0) then REDACTED else Sanitize(entries[i].1, depth + 1))))
      case Other(shown) => Str(shown)
  }

  function SanitizeSecurityMetadata(value: Value): Value {
    Sanitize(value, 0)
  }

  // ---- Which keys are secret ----

  /** Two characters that are the same but for the case of an ASCII letter. */
  predicate IsSecretWord(word: string) {
    || word == "secret" || word == "token" || word == "password" || word == "passcode"
    || word == "hash" || word == "cookie" || word == "authorization" || word == "database_url"
    || word == "direct_url" || word == "private_key" || word == "totp" || word == "recovery_code"
  }

  /** Somewhere in the key, in any case, stands one of the twelve words. */
  ghost predicate HoldsSecretWord(key: string) {
    exists front, word, back :: IsSecretWord(word) && Text.SameButCase(key, front + word + back)
  }

  lemma WordsListed(word: string)
    ensures IsSecretWord(word) <==> word in SENSITIVE
  {
  }

  lemma WordsAreLower(word: string)
    requires IsSecretWord(word)
    ensures forall i :: 0 <= i < |word| ==> !('A' <= word[i] <= 'Z')
  {
  }

  lemma FoldSame(s: string, t: string)
    requires Text.SameButCase(s, t)
    ensures Fold(s) == Fold(t)
  {
  }

  lemma FoldLower(word: string)
    requires forall i :: 0 <= i < |word| ==> !('A' <= word[i] <= 'Z')
    ensures Fold(word) == word
  {
  }

  /** The pattern matches a key exactly if one of the words stands in it in any case. */
  lemma SecretExactly(key: string)
    ensures IsSensitive(key) <==> HoldsSecretWord(key)
  {
    if IsSensitive(key) {
      var k :| 0 <= k < |SENSITIVE| && Text.Contains(Fold(key), SENSITIVE[k]);
      MatchedWord(key, SENSITIVE[k]);
    }
    if HoldsSecretWord(key) {
      var front, word, back :| IsSecretWord(word) && Text.SameButCase(key, front + word + back);
      WordMatches(key, front, word, back);
    }
  }

  lemma FoldsAlike(key: string)
    ensures Text.SameButCase(key, Fold(key))
  {
  }

  lemma WordStands(key: string, front: string, word: string, back: string)
    requires IsSecretWord(word) && Text.SameButCase(key, front + word + back)
    ensures HoldsSecretWord(key)
  {
  }

  lemma MatchedWord(key: string, word: string)
    requires word in SENSITIVE && Text.Contains(Fold(key), word)
    ensures HoldsSecretWord(key)
  {
    WordsListed(word);
    var front, back := Parts(Fold(key), word);
    FoldsAlike(key);
    WordStands(key, front, word, back);
  }

  lemma Parts(text: string, word: string) returns (front: string, back: string)
    requires Text.Contains(text, word)
    ensures text == front + word + back
  {
    Text.ContainsExactly(text, word);
    front, back :| text == front + word + back;
  }

  lemma StandsFolded(key: string, front: string, word: string, back: string)
    requires Text.SameButCase(key, front + word + back) && Fold(word) == word
    ensures Text.Contains(Fold(key), word)
  {
    FoldSame(key, front + word + back);
    assert Fold(front + word + back) == Fold(front) + word + Fold(back);
    Text.ContainsExactly(Fold(key), word);
  }

  lemma WordMatches(key: string, front: string, word: string, back: string)
    requires IsSecretWord(word) && Text.SameButCase(key, front + word + back)
    ensures IsSensitive(key)
  {
    WordsListed(word);
    WordsAreLower(word);
    FoldLower(word);
    StandsFolded(key, front, word, back);
  }

  /** How one entry of an object is stored at any shown depth: as the marker if a secret word stands in its key in any
      case, and otherwise as its sanitized value. */
  lemma EntryStored(entries: seq<(string, Value)>, depth: nat, i: nat)
    requires depth <= 4 && i < |entries| && i < 50
    ensures Sanitize(Obj(entries), depth).Obj? && i < |Sanitize(Obj(entries), depth).entries|
    ensures HoldsSecretWord(entries[i].0) ==>
              Sanitize(Obj(entries), depth).entries[i] == (entries[i].0, Str("[redacted]"))
    ensures !HoldsSecretWord(entries[i].0) ==>
              Sanitize(Obj(entries), depth).entries[i] == (entries[i].0, Sanitize(entries[i].1, depth + 1))
  {
    SecretExactly(entries[i].0);
  }

  /** For instance a key that ends in "Token". */
  lemma AccessTokenIsRedacted(secret: Value)
    ensures SanitizeSecurityMetadata(Obj([("accessToken", secret)])) == Obj([("accessToken", Str("[redacted]"))])
  {
    var front, word, back := "access", "token", "";
    assert Text.SameButCase("accessToken", front + word + back);
    EntryStored([("accessToken", secret)], 0, 0);
  }

  // ---- Secrecy ----

  /** Two values that differ only beneath sensitive keys, at any depth. */
  ghost predicate AgreeOutsideSecrets(v: Value, w: Value)
    decreases v
  {
    match (v, w)
    case (Arr(xs), Arr(ys)) =>
      |xs| == |ys| && forall i :: 0 <= i < |xs| ==> AgreeOutsideSecrets(xs[i], ys[i])
    case (Obj(xs), Obj(ys)) =>
      |xs| == |ys| && forall i :: 0 <= i < |xs| ==>
        xs[i].0 == ys[i].0 && (HoldsSecretWord(xs[i].0) || AgreeOutsideSecrets(xs[i].1, ys[i].1))
    case (_, _) => v == w
  }

  /** Nothing beneath a sensitive key reaches the output. */
  lemma {:induction false} SecretsDoNotInterfere(v: Value, w: Value, depth: nat)
    requires AgreeOutsideSecrets(v, w)
    ensures Sanitize(v, depth) == Sanitize(w, depth)
    decreases 5 - depth
  {
    if depth <= MAX_DEPTH {
      if v.Arr? && w.Arr? {
        forall i | 0 <= i < AtMost(|v.items|, MAX_ITEMS)
          ensures Sanitize(v.items[i], depth + 1) == Sanitize(w.items[i], depth + 1)
        {
          SecretsDoNotInterfere(v.items[i], w.items[i], depth + 1);
        }
      } else if v.Obj? && w.Obj? {
        forall i | 0 <= i < AtMost(|v.entries|, MAX_ENTRIES)
          ensures Sanitize(v, depth).entries[i] == Sanitize(w, depth).entries[i]
        {
          SecretExactly(v.entries[i].0);
          if !HoldsSecretWord(v.entries[i].0) {
            SecretsDoNotInterfere(v.entries[i].1, w.entries[i].1, depth + 1);
          }
        }
      }
    }
  }

  /** The values that are stored as a text. */
  predicate IsText(v: Value) {
    v.Null? || v.Str? || v.Date? || v.Other?
  }

  /** The text they are stored as: a marker, a text after the cut, a timestamp, what `String` makes of the rest. */
  function TextOf(v: Value): string
    requires IsText(v)
  {
    match v
    case Null => "[null]"
    case Str(text) => Cut(text)
    case Date(iso) => iso
    case Other(shown) => shown
  }

  /** The kernel of the sanitizer, exactly: what two values must share to be stored alike. Beyond the
      limits of depth and size, and beneath sensitive keys, nothing. */
  ghost predicate ShownAlike(v: Value, w: Value, depth: nat)
    decreases 5 - depth
  {
    || depth > MAX_DEPTH
    || (v.Arr? && w.Arr?
        && AtMost(|v.items|, MAX_ITEMS) == AtMost(|w.items|, MAX_ITEMS)
        && forall i :: 0 <= i < AtMost(|v.items|, MAX_ITEMS) ==> ShownAlike(v.items[i], w.items[i], depth + 1))
    || (v.Obj? && w.Obj?
        && AtMost(|v.entries|, MAX_ENTRIES) == AtMost(|w.entries|, MAX_ENTRIES)
        && forall i :: 0 <= i < AtMost(|v.entries|, MAX_ENTRIES) ==>
             v.entries[i].0 == w.entries[i].0
             && (IsSensitive(v.entries[i].0) || ShownAlike(v.entries[i].1, w.entries[i].1, depth + 1)))
    || (IsText(v) && IsText(w) && TextOf(v) == TextOf(w))
    || (v.Num? && w.Num? && v.number == w.number)
    || (v.Bool? && w.Bool? && v.flag == w.flag)
  }

  lemma {:induction false} StoredAlikeExactly(v: Value, w: Value, depth: nat)
    ensures Sanitize(v, depth) == Sanitize(w, depth) <==> ShownAlike(v, w, depth)
    decreases 5 - depth
  {
    if depth <= MAX_DEPTH {
      if v.Arr? && w.Arr? {
        var a, b := Sanitize(v, depth).items, Sanitize(w, depth).items;
        if |a| == |b| {
          forall i | 0 <= i < |a| ensures a[i] == b[i] <==> ShownAlike(v.items[i], w.items[i], depth + 1) {
            StoredAlikeExactly(v.items[i], w.items[i], depth + 1);
          }
          assert a == b <==> forall i :: 0 <= i < |a| ==> a[i] == b[i];
        }
      } else if v.Obj? && w.Obj? {
        var a, b := Sanitize(v, depth).entries, Sanitize(w, depth).entries;
        if |a| == |b| {
          forall i | 0 <= i < |a|
            ensures a[i] == b[i] <==>
                    v.entries[i].0 == w.entries[i].0
                    && (IsSensitive(v.entries[i].0) || ShownAlike(v.entries[i].1, w.entries[i].1, depth + 1))
          {
            StoredAlikeExactly(v.entries[i].1, w.entries[i].1, depth + 1);
          }
          assert a == b <==> forall i :: 0 <= i < |a| ==> a[i] == b[i];
        }
      }
    }
  }

  // ---- Bounds ----

  /** Plain JSON nested at most `levels` deep, with short lists and every sensitive entry redacted. */
  ghost predicate Presentable(v: Value, levels: nat)
    decreases levels
  {
    match v
    case Str(_) => true
    case Num(_) => true
    case Bool(_) => true
    case Arr(items) =>
      levels > 0 && |items| <= 25
      && forall i :: 0 <= i < |items| ==> Presentable(items[i], levels - 1)
    case Obj(entries) =>
      levels > 0 && |entries| <= 50
      && forall i :: 0 <= i < |entries| ==>
           Presentable(entries[i].1, levels - 1)
           && (HoldsSecretWord(entries[i].0) ==> entries[i].1 == Str("[redacted]"))
    case _ => false
  }

  /** The output nests at most five levels, whatever the input. */
  lemma {:induction false} SanitizedIsPresentable(v: Value, depth: nat)
    requires depth <= 5
    ensures Presentable(Sanitize(v, depth), 5 - depth)
    decreases 5 - depth
  {
    if depth <= MAX_DEPTH {
      if v.Arr? {
        forall i | 0 <= i < AtMost(|v.items|, MAX_ITEMS)
          ensures Presentable(Sanitize(v.items[i], depth + 1), 5 - depth - 1)
        {
          SanitizedIsPresentable(v.items[i], depth + 1);
        }
      } else if v.Obj? {
        forall i | 0 <= i < AtMost(|v.entries|, MAX_ENTRIES)
          ensures Presentable(Sanitize(v.entries[i].1, depth + 1), 5 - depth - 1)
          ensures IsSensitive(v.entries[i].0) <==> HoldsSecretWord(v.entries[i].0)
        {
          SecretExactly(v.entries[i].0);
          SanitizedIsPresentable(v.entries[i].1, depth + 1);
        }
      }
    }
  }

  // ---- Fixed points and idempotence ----

  /** A text the cut leaves as it is: short, or the 515 characters a cut makes. */
  predicate IsCut(text: string) {
    |text| <= 512 || (|text| == 515 && text[512..] == "...")
  }

  lemma CutExactly(text: string)
    ensures IsCut(Cut(text))
    ensures Cut(text) == text <==> IsCut(text)
    ensures |Cut(text)| <= 515
  {
    if |text| > MAX_TEXT {
      assert Cut(text)[MAX_TEXT..] == "...";
      if |text| == MAX_TEXT + 3 {
        assert text == text[..MAX_TEXT] + text[MAX_TEXT..];
      }
    }
  }

  /** The values already in stored form. */
  ghost predicate Clean(v: Value, depth: nat)
    decreases 5 - depth
  {
    if depth > MAX_DEPTH then v == TOO_DEEP
    else match v
      case Str(text) => IsCut(text)
      case Num(_) => true
      case Bool(_) => true
      case Arr(items) =>
        |items| <= MAX_ITEMS && forall i :: 0 <= i < |items| ==> Clean(items[i], depth + 1)
      case Obj(entries) =>
        |entries| <= MAX_ENTRIES
        && forall i :: 0 <= i < |entries| ==>
             if IsSensitive(entries[i].0) then entries[i].1 == REDACTED else Clean(entries[i].1, depth + 1)
      case _ => false
  }

  /** Sanitizing leaves a value alone exactly when it is in stored form. */
  lemma {:induction false} FixedExactly(v: Value, depth: nat)
    ensures Sanitize(v, depth) == v <==> Clean(v, depth)
    decreases 5 - depth
  {
    if depth <= MAX_DEPTH {
      var out := Sanitize(v, depth);
      if v.Str? {
        CutExactly(v.text);
      } else if v.Arr? && |v.items| <= MAX_ITEMS {
        forall i | 0 <= i < |v.items|
          ensures out.items[i] == v.items[i] <==> Clean(v.items[i], depth + 1)
        {
          FixedExactly(v.items[i], depth + 1);
        }
        assert out.items == v.items <==> forall i :: 0 <= i < |v.items| ==> out.items[i] == v.items[i];
      } else if v.Obj? && |v.entries| <= MAX_ENTRIES {
        forall i | 0 <= i < |v.entries|
          ensures out.entries[i] == v.entries[i] <==>
                  if IsSensitive(v.entries[i].0) then v.entries[i].1 == REDACTED else Clean(v.entries[i].1, depth + 1)
        {
          FixedExactly(v.entries[i].1, depth + 1);
          assert v.entries[i] == (v.entries[i].0, v.entries[i].1);
        }
        assert out.entries == v.entries <==> forall i :: 0 <= i < |v.entries| ==> out.entries[i] == v.entries[i];
      }
    }
  }

  /** Every value of another kind that is shown at all has a text the cut would leave alone. */
  ghost predicate OthersAreCut(v: Value, depth: nat)
    decreases 5 - depth
  {
    depth > MAX_DEPTH
    || match v
       case Arr(items) =>
         forall i :: 0 <= i < AtMost(|items|, MAX_ITEMS) ==> OthersAreCut(items[i], depth + 1)
       case Obj(entries) =>
         forall i :: 0 <= i < AtMost(|entries|, MAX_ENTRIES) ==>
           IsSensitive(entries[i].0) || OthersAreCut(entries[i].1, depth + 1)
       case Other(shown) => IsCut(shown)
       case _ => true
  }

  lemma {:induction false} SanitizedIsCleanExactly(v: Value, depth: nat)
    ensures Clean(Sanitize(v, depth), depth) <==> OthersAreCut(v, depth)
    decreases 5 - depth
  {
    if depth <= MAX_DEPTH {
      if v.Str? {
        CutExactly(v.text);
      } else if v.Arr? {
        var out := Sanitize(v, depth);
        forall i | 0 <= i < AtMost(|v.items|, MAX_ITEMS)
          ensures Clean(out.items[i], depth + 1) <==> OthersAreCut(v.items[i], depth + 1)
        {
          SanitizedIsCleanExactly(v.items[i], depth + 1);
        }
        if Clean(out, depth) {
          forall i | 0 <= i < AtMost(|v.items|, MAX_ITEMS) ensures OthersAreCut(v.items[i], depth + 1) {
            assert Clean(out.items[i], depth + 1);
          }
        }
      } else if v.Obj? {
        var out := Sanitize(v, depth);
        forall i | 0 <= i < AtMost(|v.entries|, MAX_ENTRIES)
          ensures IsSensitive(v.entries[i].0)
                  || (Clean(out.entries[i].1, depth + 1) <==> OthersAreCut(v.entries[i].1, depth + 1))
        {
          SanitizedIsCleanExactly(v.entries[i].1, depth + 1);
        }
        if Clean(out, depth) {
          forall i | 0 <= i < AtMost(|v.entries|, MAX_ENTRIES)
            ensures IsSensitive(v.entries[i].0) || OthersAreCut(v.entries[i].1, depth + 1)
          {
            assert out.entries[i].0 == v.entries[i].0;
          }
        }
      }
    }
  }

  /** Sanitizing twice is sanitizing once, exactly for the values whose shown parts of other kinds have
      a text that needs no cutting: the first pass does not cut those, so the second would. */
  lemma IdempotentExactly(v: Value)
    ensures SanitizeSecurityMetadata(SanitizeSecurityMetadata(v)) == SanitizeSecurityMetadata(v)
            <==> OthersAreCut(v, 0)
  {
    FixedExactly(Sanitize(v, 0), 0);
    SanitizedIsCleanExactly(v, 0);
  }

  /** The input that shows it: a value of another kind, a function say, shown by a text of 513 characters. */
  lemma LongFunctionIsCutTwice(shown: string)
    requires |shown| == 513
    ensures SanitizeSecurityMetadata(Other(shown)) == Str(shown)
    ensures SanitizeSecurityMetadata(SanitizeSecurityMetadata(Other(shown))) == Str(shown[..512] + "...")
    ensures SanitizeSecurityMetadata(SanitizeSecurityMetadata(Other(shown))) != SanitizeSecurityMetadata(Other(shown))
  {
    assert |shown[..512] + "..."| == 515;
  }

  /** JSON-like values: of other kinds, only `undefined` occurs in them. */
  ghost predicate JsonLike(v: Value)
    decreases v
  {
    match v
    case Arr(items) => forall i :: 0 <= i < |items| ==> JsonLike(items[i])
    case Obj(entries) => forall i :: 0 <= i < |entries| ==> JsonLike(entries[i].1)
    case Other(_) => v == UNDEFINED
    case _ => true
  }

  lemma {:induction false} JsonLikeIsCut(v: Value, depth: nat)
    requires JsonLike(v)
    ensures OthersAreCut(v, depth)
    decreases 5 - depth
  {
    if depth <= MAX_DEPTH {
      if v.Arr? {
        forall i | 0 <= i < AtMost(|v.items|, MAX_ITEMS) ensures OthersAreCut(v.items[i], depth + 1) {
          JsonLikeIsCut(v.items[i], depth + 1);
        }
      } else if v.Obj? {
        forall i | 0 <= i < AtMost(|v.entries|, MAX_ENTRIES) ensures OthersAreCut(v.entries[i].1, depth + 1) {
          JsonLikeIsCut(v.entries[i].1, depth + 1);
        }
      }
    }
  }

  /** Sanitizing is idempotent on JSON-like values with dates and `undefined`. */
  lemma IdempotentOnJson(v: Value)
    requires JsonLike(v)
    ensures SanitizeSecurityMetadata(SanitizeSecurityMetadata(v)) == SanitizeSecurityMetadata(v)
  {
    JsonLikeIsCut(v, 0);
    IdempotentExactly(v);
  }
}
