/** `src/lib/guided-run.ts`: the tutorial's state and where it is stored. */
module GuidedRun {
  import opened SecurityTypes
  import opened PercentEncoding

  datatype GuidedRunState = GuidedRunState(visible: bool, step: nat, completed: bool)

  datatype GuidedRunAction = Open | Close | Next | Previous

  const INITIAL := GuidedRunState(true, 0, false)

  function Transition(state: GuidedRunState, action: GuidedRunAction, stepCount: int): GuidedRunState {
    match action
    case Open => INITIAL
    case Close => state.(visible := false)
    case Previous => state.(step := if state.step == 0 then 0 else state.step - 1)
    case Next =>
      if state.step >= stepCount - 1 then state.(visible := false, completed := true)
      else state.(step := state.step + 1)
  }

  function Repeat(state: GuidedRunState, stepCount: int, times: nat): GuidedRunState {
    if times == 0 then state else Transition(Repeat(state, stepCount, times - 1), Next, stepCount)
  }

  /** From the beginning, the tutorial shows one step after another and completes with exactly as many
      `Next` actions as it has steps; more of them change nothing. */
  lemma {:induction false} CompletesAtItsLength(stepCount: nat, times: nat)
    requires stepCount >= 1
    ensures Repeat(INITIAL, stepCount, times) ==
            if times < stepCount then GuidedRunState(true, times, false)
            else GuidedRunState(false, stepCount - 1, true)
  {
    if times != 0 {
      CompletesAtItsLength(stepCount, times - 1);
    }
  }

  /** Going back undoes going on, exactly if there was a step to go on to, or if the tutorial of one step had been
      completed already. */
  lemma PreviousUndoesExactly(state: GuidedRunState, stepCount: int)
    ensures Transition(Transition(state, Next, stepCount), Previous, stepCount) == state <==>
            state.step + 1 < stepCount || (state.step == 0 && state.completed && !state.visible)
  {
  }

  /** Going on undoes going back from any step but the first, as long as the tutorial has that step. */
  lemma NextUndoesExactly(state: GuidedRunState, stepCount: int)
    ensures Transition(Transition(state, Previous, stepCount), Next, stepCount) == state <==>
            || (0 < state.step < stepCount)
            || (state.step == 0 && stepCount <= 1 && state.completed && !state.visible)
  {
  }

  /** Only opening shows a hidden tutorial; it starts at the first step again, not completed. Only the last `Next`
      completes one, and that and `Close` alone hide it. */
  lemma ShowsAndCompletesExactly(state: GuidedRunState, action: GuidedRunAction, stepCount: int)
    ensures var next, last := Transition(state, action, stepCount), state.step + 1 >= stepCount;
            && (next.visible <==> action.Open? || (state.visible && !action.Close? && !(action.Next? && last)))
            && (next.completed <==> (state.completed && !action.Open?) || (action.Next? && last))
  {
  }

  const PREFIX := "hcsc-guided-run:v1:"

  function StorageKey(userId: string, organizationId: string): string {
    PREFIX + (EncodeURIComponent(organizationId) + ":" + EncodeURIComponent(userId))
  }

  /** Splitting at the first separator is unambiguous. */
  lemma SplitUnique(a: string, b: string, c: string, d: string)
    requires a + ":" + b == c + ":" + d
    requires ':' !in a && ':' !in c
    ensures a == c && b == d
  {
    var whole := a + ":" + b;
    assert whole == c + ":" + d;
    assert whole[|a|] == ':' && whole[|c|] == ':';
    assert forall i :: 0 <= i < |a| ==> whole[i] == a[i] && a[i] in a;
    assert forall i :: 0 <= i < |c| ==> whole[i] == c[i] && c[i] in c;
    assert |a| == |c|;
    assert whole[..|a|] == a && whole[..|c|] == c;
    assert whole[|a| + 1..] == b && whole[|c| + 1..] == d;
  }

  /** Two tutorials share a storage key exactly when user and workspace are the same. */
  lemma StorageKeyInjective(user: string, organization: string, user': string, organization': string)
    ensures StorageKey(user, organization) == StorageKey(user', organization')
            <==> user == user' && organization == organization'
  {
    if StorageKey(user, organization) == StorageKey(user', organization') {
      var a, b := EncodeURIComponent(organization), EncodeURIComponent(user);
      var c, d := EncodeURIComponent(organization'), EncodeURIComponent(user');
      PrefixCancels(PREFIX, a + ":" + b, c + ":" + d);
      ComponentIsPlain(organization);
      ComponentIsPlain(organization');
      SplitUnique(a, b, c, d);
      ComponentInjective(user, user');
      ComponentInjective(organization, organization');
    }
  }

  lemma PrefixCancels(prefix: string, s: string, t: string)
    requires prefix + s == prefix + t
    ensures s == t
  {
    assert (prefix + s)[|prefix|..] == s && (prefix + t)[|prefix|..] == t;
  }

  // ---- Where the tutorial is kept ----

  const MAX_SAFE := 9007199254740991

  /** An array has at most this many elements. */
  const MAX_LENGTH := 0xFFFF_FFFF

  /** A stored text: not JSON at all, or with those of the three fields that have the right type; the step
      of a record is any integer. */
  datatype Raw = Unreadable | Record(visible: Option<bool>, step: Option<int>, completed: Option<bool>)

  /** `readGuidedRun`. */
  function ReadState(raw: Option<Raw>): GuidedRunState {
    match raw
    case Some(Record(Some(visible), Some(step), Some(completed))) =>
      if 0 <= step <= MAX_SAFE then GuidedRunState(visible, step, completed) else INITIAL
    case _ => INITIAL
  }

  function Written(state: GuidedRunState): Raw {
    Record(Some(state.visible), Some(state.step), Some(state.completed))
  }

  /** What is written is read back, exactly for steps a number can hold. */
  lemma WrittenReads(state: GuidedRunState)
    ensures ReadState(Some(Written(state))) == state <==> state.step <= 9007199254740991
  {
  }

  /** The browser's storage and the tab's own memory behind it. */
  datatype Browser = Browser(local: map<string, Raw>, memory: map<string, Raw>)

  /** Whether `localStorage` can be read and written; a full one can be read only. */
  datatype Access = Access(readable: bool, writable: bool)

  function Look(browser: Browser, access: Access, key: string): Option<Raw> {
    if access.readable && key in browser.local then Some(browser.local[key])
    else if key in browser.memory then Some(browser.memory[key])
    else None
  }

  function Shown(browser: Browser, access: Access, key: string): GuidedRunState {
    ReadState(Look(browser, access, key))
  }

  function AfterDispatch(
    browser: Browser, access: Access, key: string, action: GuidedRunAction, stepCount: int): Browser
  {
    var value := Written(Transition(Shown(browser, access, key), action, stepCount));
    Browser(if access.writable then browser.local[key := value] else browser.local, browser.memory[key := value])
  }

  /** `src/components/dashboard/use-guided-run.ts`: the hook's storage. */
  class GuidedRunStorage {
    var local: map<string, Raw>
    var memory: map<string, Raw>

    constructor ()
      ensures local == map[] && memory == map[]
    {
      local, memory := map[], map[];
    }

    function Contents(): Browser
      reads this
    {
      Browser(local, memory)
    }

    method Read(access: Access, key: string) returns (raw: Option<Raw>)
      ensures raw == Look(Contents(), access, key)
    {
      if access.readable && key in local { return Some(local[key]); }
      raw := if key in memory then Some(memory[key]) else None;
    }

    method Dispatch(
      access: Access, userId: string, organizationId: string, action: GuidedRunAction, stepCount: int)
      modifies this
      ensures Contents() ==
              AfterDispatch(old(Contents()), access, StorageKey(userId, organizationId), action, stepCount)
    {
      var key := StorageKey(userId, organizationId);
      var raw := Read(access, key);
      var next := Transition(ReadState(raw), action, stepCount);
      memory := memory[key := Written(next)];
      if access.writable {
        local := local[key := Written(next)];
      }
    }
  }

  lemma TransitionStaysSafe(state: GuidedRunState, action: GuidedRunAction, stepCount: int)
    requires state.step <= MAX_SAFE && stepCount <= MAX_LENGTH
    ensures Transition(state, action, stepCount).step <= MAX_SAFE
  {
  }

  /** The tutorial shows an action's effect, exactly unless the storage can be read but not written, holds an
      older value that hides the tab's memory, and the action would have changed something. */
  lemma DispatchShowsExactly(browser: Browser, access: Access, key: string, action: GuidedRunAction, stepCount: int)
    requires stepCount <= MAX_LENGTH
    ensures var before := Shown(browser, access, key);
            Shown(AfterDispatch(browser, access, key, action, stepCount), access, key)
            == Transition(before, action, stepCount)
            <==> || access.writable || !access.readable || key !in browser.local
                 || Transition(before, action, stepCount) == before
  {
    var next := Transition(Shown(browser, access, key), action, stepCount);
    TransitionStaysSafe(Shown(browser, access, key), action, stepCount);
    WrittenReads(next);
  }

  /** The input that shows it: a full storage that holds a tutorial's beginning keeps showing the beginning. */
  lemma FullStorageHides(key: string)
    ensures var browser, access := Browser(map[key := Written(INITIAL)], map[]), Access(true, false);
            && Shown(AfterDispatch(browser, access, key, Next, 2), access, key) == INITIAL
            && Transition(Shown(browser, access, key), Next, 2) == GuidedRunState(true, 1, false)
  {
  }

  /** One user's action in one workspace, and how many steps the tutorial had. */
  datatype Click = Click(userId: string, organizationId: string, action: GuidedRunAction, stepCount: int)

  function AfterClicks(browser: Browser, access: Access, clicks: seq<Click>): Browser {
    if clicks == [] then browser
    else
      var last := clicks[|clicks| - 1];
      AfterDispatch(AfterClicks(browser, access, clicks[..|clicks| - 1]), access,
                    StorageKey(last.userId, last.organizationId), last.action, last.stepCount)
  }

  /** The tutorial of one user in one workspace, stepped through that user's own actions there. */
  function Own(state: GuidedRunState, clicks: seq<Click>, user: string, organization: string): GuidedRunState {
    if clicks == [] then state
    else
      var last := clicks[|clicks| - 1];
      var before := Own(state, clicks[..|clicks| - 1], user, organization);
      if last.userId == user && last.organizationId == organization
      then Transition(before, last.action, last.stepCount) else before
  }

  lemma {:induction false} UnwritableStays(browser: Browser, access: Access, clicks: seq<Click>)
    requires !access.writable
    ensures AfterClicks(browser, access, clicks).local == browser.local
  {
    if clicks != [] {
      UnwritableStays(browser, access, clicks[..|clicks| - 1]);
    }
  }

  /** Whoever else uses the browser, each user's tutorial in each workspace is where that user's own actions there
      have brought it, exactly if the storage can be written, cannot be read, or holds nothing of that
      tutorial, or if those actions lead back to where it started. */
  lemma TutorialsAreSeparate(
    browser: Browser, access: Access, clicks: seq<Click>, user: string, organization: string)
    requires forall i :: 0 <= i < |clicks| ==> clicks[i].stepCount <= MAX_LENGTH
    ensures var key := StorageKey(user, organization);
            var start := Shown(browser, access, key);
            Shown(AfterClicks(browser, access, clicks), access, key) == Own(start, clicks, user, organization)
            <==> || access.writable || !access.readable || key !in browser.local
                 || Own(start, clicks, user, organization) == start
  {
    if access.writable || !access.readable || StorageKey(user, organization) !in browser.local {
      FollowsOwnActions(browser, access, clicks, user, organization);
    } else {
      UnwritableStays(browser, access, clicks);
    }
  }

  lemma {:induction false} FollowsOwnActions(
    browser: Browser, access: Access, clicks: seq<Click>, user: string, organization: string)
    requires access.writable || !access.readable || StorageKey(user, organization) !in browser.local
    requires forall i :: 0 <= i < |clicks| ==> clicks[i].stepCount <= MAX_LENGTH
    ensures Shown(AfterClicks(browser, access, clicks), access, StorageKey(user, organization))
            == Own(Shown(browser, access, StorageKey(user, organization)), clicks, user, organization)
  {
    if clicks != [] {
      var front, last := clicks[..|clicks| - 1], clicks[|clicks| - 1];
      FollowsOwnActions(browser, access, front, user, organization);
      StorageKeyInjective(last.userId, last.organizationId, user, organization);
      var key, before := StorageKey(last.userId, last.organizationId), AfterClicks(browser, access, front);
      if !access.writable {
        UnwritableStays(browser, access, front);
      }
      DispatchShowsExactly(before, access, key, last.action, last.stepCount);
    }
  }
}
