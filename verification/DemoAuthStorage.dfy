/** `src/lib/demo-auth-storage.ts`: the accounts made in the demo, kept in `localStorage` beside the
    seeded ones. */
module DemoAuthStorage {
  import opened SecurityTypes
  import opened Sequences
  import opened Text
  import opened KeyedLists

  /** `profile` stands for the fields that the storage only carries along. */
  datatype Account = Account(email: string, password: string, twoFactorCode: string, profile: string)

  const CAPACITY := 25

  /** `normalizeEmail`. */
  function Key(email: string): string {
    ToLower(Trim(email))
  }

  function KeyOf(account: Account): string {
    Key(account.email)
  }

  /** Two spellings of an address are one account's if they differ only in the case of ASCII letters and in the spaces
      around them; and for ASCII addresses only then. */
  lemma SpellingsShareExactly(
    front: string, email: string, back: string, front': string, email': string, back': string)
    requires AllSpace(front) && IsTrimmed(email) && AllSpace(back)
    requires AllSpace(front') && IsTrimmed(email') && AllSpace(back')
    ensures SameButCase(email, email') ==> Key(front + email + back) == Key(front' + email' + back')
    ensures AllAscii(email) && AllAscii(email') && Key(front + email + back) == Key(front' + email' + back') ==>
              SameButCase(email, email')
  {
    TrimExactly(front, email, back);
    TrimExactly(front', email', back');
    if SameButCase(email, email') {
      LowerSame(email, email');
    }
    if AllAscii(email) && AllAscii(email') {
      LowerSameExactly(email, email');
    }
  }

  /** What `localStorage` holds under the accounts key. */
  datatype Item = NoItem | Unreadable | Saved(accounts: seq<Account>)

  class DemoAuthStorage {
    const enabled: bool  // in every build but production
    const browser: bool
    const seeded: seq<Account>
    var item: Item

    constructor (enabled: bool, browser: bool, seeded: seq<Account>)
      ensures this.enabled == enabled && this.browser == browser && this.seeded == seeded
      ensures item == NoItem
    {
      this.enabled, this.browser, this.seeded := enabled, browser, seeded;
      item := NoItem;
    }

    /** `readStoredAccounts`. */
    function Stored(): seq<Account>
      reads this
    {
      if enabled && browser && item.Saved? then item.accounts else []
    }

    /** `upsertStoredDemoAuthAccount`. */
    method UpsertAccount(account: Account)
      modifies this
      ensures item == if enabled && browser then Saved(Upsert(old(Stored()), account, KeyOf, CAPACITY)) else old(item)
    {
      if !enabled { return; }
      var next := Stored();
      var existing := FindAccount(next, KeyOf(account));
      if existing >= 0 {
        next := next[existing := account];
      } else {
        next := [account] + next;
      }
      if browser {
        item := Saved(if |next| <= CAPACITY then next else next[..CAPACITY]);
      }
    }

    /** `getAvailableMockAuthAccounts`. */
    method AvailableAccounts() returns (r: seq<Account>)
      ensures r == if enabled then Merged(seeded + Stored(), KeyOf) else []
    {
      if !enabled { return []; }
      var baseByEmail := SetAll([], [], seeded, KeyOf);
      baseByEmail := SetAll(baseByEmail, [] + seeded, Stored(), KeyOf);
      assert [] + seeded == seeded;
      r := Values(baseByEmail);
    }

    /** `isCustomDemoAuthAccount`. */
    method IsCustomAccount(email: string) returns (custom: bool)
      ensures custom == (enabled && Key(email) !in Keys(seeded, KeyOf) && Key(email) in Keys(Stored(), KeyOf))
    {
      if !enabled { return false; }
      var inSeeded := FindAccount(seeded, Key(email));
      if inSeeded >= 0 { return false; }
      var inStored := FindAccount(Stored(), Key(email));
      custom := inStored >= 0;
    }
  }

  /** `findIndex` by normalised address. */
  method FindAccount(list: seq<Account>, key: string) returns (index: int)
    ensures index == if key in Keys(list, KeyOf) then FirstIndex(Keys(list, KeyOf), key) else -1
  {
    ghost var keys := Keys(list, KeyOf);
    for i := 0 to |list|
      invariant key !in keys[..i]
    {
      assert keys[..i + 1] == keys[..i] + [keys[i]];
      if KeyOf(list[i]) == key {
        FirstIndexIs(keys, key, i);
        return i;
      }
    }
    assert keys[..|list|] == keys;
    return -1;
  }

  /** What is stored after a run of sign-ups that began with nothing stored. */
  function StoredAfter(accounts: seq<Account>): seq<Account> {
    Upserts(accounts, KeyOf, CAPACITY)
  }

  /** Whatever the run, at most twenty-five accounts are stored, each address once however it is spelled;
      the last sign-up is found; and every account is found in its latest form exactly when there were
      no more than twenty-five addresses. */
  lemma RunOfSignUps(accounts: seq<Account>)
    ensures |StoredAfter(accounts)| <= 25 && Once(Keys(StoredAfter(accounts), KeyOf))
    ensures accounts != [] ==>
              var last := accounts[|accounts| - 1];
              Lookup(StoredAfter(accounts), KeyOf(last), KeyOf) == Some(last)
    ensures RemembersAll(accounts, KeyOf, CAPACITY) <==> |KeySet(accounts, KeyOf)| <= 25
  {
    UpsertsRefineMap(accounts, KeyOf, CAPACITY);
    if accounts != [] {
      LastIsFound(accounts, KeyOf, CAPACITY);
    }
    RemembersAllExactly(accounts, KeyOf, CAPACITY);
  }

  /** The listing shows an account exactly when it is the latest stored one of its address, or the latest
      seeded one of an address that is not stored. */
  lemma AvailableExactly(seeded: seq<Account>, stored: seq<Account>, account: Account)
    ensures Once(Keys(Merged(seeded + stored, KeyOf), KeyOf))
    ensures account in Merged(seeded + stored, KeyOf) <==>
            || IsLatest(stored, KeyOf(account), account, KeyOf)
            || (KeyOf(account) !in Keys(stored, KeyOf) && IsLatest(seeded, KeyOf(account), account, KeyOf))
  {
    ListingExactly(seeded, stored, account, KeyOf);
    UniqueDistinct(Keys(seeded, KeyOf) + Keys(stored, KeyOf));
  }
}
