/** The hydration protocol of the store: asynchronous loads as start and finish steps that interleave
    with each other and with user actions. Between two awaits a hydration runs undisturbed, so each
    such stretch is one step. */
module Hydration {
  /** What `sessionStorage` held when an authentication hydration started. `NoAuth` is a stored record
      without its `auth` part, which only a foreign writer leaves behind. */
  datatype Persisted = Absent | NoAuth | Session(authenticated: bool, verified: bool, customAccount: bool)

  datatype Phase =
    | AwaitingUser(persisted: Persisted)
    | LoadingEnvironment
    | Settling

  /** One authentication hydration in flight. The last two fields are history: whether the store was
      reset after the session had been applied, and whether applying it threw. */
  datatype AuthTask = AuthTask(phase: Phase, resetSince: bool, rejected: bool)

  /** The server's answer about the current user. */
  datatype UserPayload = UserPayload(authenticated: bool, complete: bool, verified: bool, exempt: bool)

  datatype HydrationState = HydrationState(
    hydrated: bool, authenticated: bool, cleared: bool,  // meta.auth; cleared: second factor given or waived
    isHydrating: bool, hydrateLoading: bool, isApiMode: bool,
    promiseSet: bool, tasks: seq<AuthTask>,               // authHydrationPromise and the hydrations behind it
    otherLoads: nat)                                      // environment loads started outside a hydration

  const INITIAL := HydrationState(false, false, false, false, false, false, false, [], 0)

  datatype Happening =
    | CallHydrateAuth(persisted: Persisted)
    | UserArrives(task: nat, payload: UserPayload)
    | UserFails(task: nat)
    | AuthLoadFinishes(task: nat, success: bool)
    | Settle(task: nat)
    | CallLoad
    | OtherLoadFinishes(success: bool)
    | SessionSet(authenticated: bool, cleared: bool)  // login or second-factor check
    | LoggedOut
    | ResetData

  function Applied(s: HydrationState, authenticated: bool, cleared: bool): HydrationState {
    s.(hydrated := true, authenticated := authenticated, cleared := cleared)
  }

  function SetPhase(s: HydrationState, task: nat, phase: Phase): HydrationState
    requires task < |s.tasks|
  {
    s.(tasks := s.tasks[task := s.tasks[task].(phase := phase)])
  }

  predicate MayLoad(s: HydrationState) {
    s.authenticated && s.cleared
  }

  function StartLoad(s: HydrationState): HydrationState {
    s.(hydrateLoading := true, isHydrating := true)
  }

  function FinishLoad(s: HydrationState, success: bool): HydrationState {
    s.(isHydrating := false, hydrateLoading := false, isApiMode := s.isApiMode || success)
  }

  /** A stored session of a custom demo account, signed in and verified. */
  predicate IsCustomSession(persisted: Persisted) {
    persisted.Session? && persisted.authenticated && persisted.verified && persisted.customAccount
  }

  function StartHydration(s: HydrationState, fallback: bool, persisted: Persisted): HydrationState {
    if fallback && persisted.NoAuth? then
      s.(promiseSet := true, tasks := s.tasks + [AuthTask(Settling, false, true)])
    else if fallback && IsCustomSession(persisted) then
      Applied(s, true, true).(promiseSet := true, tasks := s.tasks + [AuthTask(Settling, false, false)])
    else
      s.(promiseSet := true, tasks := s.tasks + [AuthTask(AwaitingUser(persisted), false, false)])
  }

  function ApplyUser(s: HydrationState, task: nat, payload: UserPayload): HydrationState
    requires task < |s.tasks|
  {
    var known := payload.authenticated && payload.complete;
    var applied := Applied(s, known, known && (payload.verified || payload.exempt));
    if payload.authenticated && (payload.verified || payload.exempt) && MayLoad(applied) then
      SetPhase(StartLoad(applied), task, LoadingEnvironment)
    else
      SetPhase(applied, task, Settling)
  }

  function ApplyPersisted(s: HydrationState, task: nat, persisted: Persisted): HydrationState
    requires task < |s.tasks|
  {
    var applied := match persisted
                   case Absent => s.(hydrated := true)
                   case NoAuth => Applied(s, false, false)
                   case Session(authenticated, verified, _) => Applied(s, authenticated, verified);
    SetPhase(applied, task, Settling)
  }

  function MarkReset(tasks: seq<AuthTask>): (r: seq<AuthTask>)
    ensures |r| == |tasks|
    ensures forall i :: 0 <= i < |r| ==>
              r[i] == tasks[i].(resetSince := tasks[i].resetSince || !tasks[i].phase.AwaitingUser?)
  {
    seq(|tasks|, i requires 0 <= i < |tasks| =>
      tasks[i].(resetSince := tasks[i].resetSince || !tasks[i].phase.AwaitingUser?))
  }

  /** One step; a happening that is not possible in the state changes nothing. */
  function Next(s: HydrationState, fallback: bool, h: Happening): HydrationState {
    match h
    case CallHydrateAuth(persisted) =>
      if s.hydrated || s.promiseSet then s else StartHydration(s, fallback, persisted)
    case UserArrives(task, payload) =>
      if task < |s.tasks| && s.tasks[task].phase.AwaitingUser? then ApplyUser(s, task, payload) else s
    case UserFails(task) =>
      if task < |s.tasks| && s.tasks[task].phase.AwaitingUser?
      then ApplyPersisted(s, task, s.tasks[task].phase.persisted) else s
    case AuthLoadFinishes(task, success) =>
      if task < |s.tasks| && s.tasks[task].phase.LoadingEnvironment?
      then SetPhase(FinishLoad(s, success), task, Settling) else s
    case Settle(task) =>
      if task < |s.tasks| && s.tasks[task].phase.Settling?
      then s.(promiseSet := false, tasks := s.tasks[..task] + s.tasks[task + 1..]) else s
    case CallLoad => if MayLoad(s) then StartLoad(s).(otherLoads := s.otherLoads + 1) else s
    case OtherLoadFinishes(success) =>
      if s.otherLoads > 0 then FinishLoad(s, success).(otherLoads := s.otherLoads - 1) else s
    case SessionSet(authenticated, cleared) => Applied(s, authenticated, cleared)
    case LoggedOut => Applied(s, false, false).(isApiMode := false)
    case ResetData =>
      INITIAL.(promiseSet := s.promiseSet, tasks := MarkReset(s.tasks), otherLoads := s.otherLoads)
  }

  function Run(s: HydrationState, fallback: bool, hs: seq<Happening>): HydrationState {
    if hs == [] then s else Next(Run(s, fallback, hs[..|hs| - 1]), fallback, hs[|hs| - 1])
  }

  // ---- What every interleaving keeps ----

  ghost predicate LoadInFlight(s: HydrationState) {
    s.otherLoads > 0 || exists i :: 0 <= i < |s.tasks| && s.tasks[i].phase.LoadingEnvironment?
  }

  ghost predicate Inv(s: HydrationState) {
    // at most one hydration, and the promise is set exactly while there is one
    && |s.tasks| <= 1 && (s.promiseSet <==> |s.tasks| == 1)
    // the two loading flags agree, and are off whenever nothing is loading
    && s.isHydrating == s.hydrateLoading
    && (!LoadInFlight(s) ==> !s.isHydrating)
    // an applied session leaves the store hydrated, unless it was reset since or applying it threw
    && (forall i :: 0 <= i < |s.tasks| ==>
          s.tasks[i].phase.AwaitingUser? || s.tasks[i].resetSince || s.tasks[i].rejected || s.hydrated)
  }

  lemma StartKeepsInv(s: HydrationState, fallback: bool, persisted: Persisted)
    requires Inv(s)
    ensures Inv(Next(s, fallback, CallHydrateAuth(persisted)))
  {
    if !s.hydrated && !s.promiseSet {
      var n := StartHydration(s, fallback, persisted);
      assert s.tasks == [] && |n.tasks| == 1 && !n.tasks[0].phase.LoadingEnvironment?;
      assert LoadInFlight(n) == LoadInFlight(s);
    }
  }

  lemma PhaseKeepsInv(s: HydrationState, n: HydrationState, task: nat, phase: Phase)
    requires Inv(s) && task < |s.tasks|
    requires n.tasks == SetPhase(s, task, phase).tasks && n.promiseSet == s.promiseSet
    requires n.isHydrating == n.hydrateLoading
    requires phase.LoadingEnvironment? || n.otherLoads > 0 || !n.isHydrating
    requires n.hydrated || s.tasks[task].resetSince || s.tasks[task].rejected
    ensures Inv(n)
  {
    assert task == 0 && n.tasks == [s.tasks[0].(phase := phase)];
    assert phase.LoadingEnvironment? ==> n.tasks[0].phase.LoadingEnvironment?;
  }

  lemma NoLoad(s: HydrationState, task: nat)
    requires Inv(s) && task < |s.tasks| && !s.tasks[task].phase.LoadingEnvironment?
    ensures s.otherLoads > 0 || !s.isHydrating
  {
    assert task == 0 && |s.tasks| == 1;
  }

  lemma UserKeepsInv(s: HydrationState, task: nat, payload: UserPayload)
    requires Inv(s) && task < |s.tasks| && s.tasks[task].phase.AwaitingUser?
    ensures Inv(ApplyUser(s, task, payload))
  {
    NoLoad(s, task);
    var n := ApplyUser(s, task, payload);
    PhaseKeepsInv(s, n, task, if n.tasks[task].phase.Settling? then Settling else LoadingEnvironment);
  }

  lemma PersistedKeepsInv(s: HydrationState, task: nat)
    requires Inv(s) && task < |s.tasks| && s.tasks[task].phase.AwaitingUser?
    ensures Inv(ApplyPersisted(s, task, s.tasks[task].phase.persisted))
  {
    NoLoad(s, task);
    PhaseKeepsInv(s, ApplyPersisted(s, task, s.tasks[task].phase.persisted), task, Settling);
  }

  lemma LoadKeepsInv(s: HydrationState, task: nat, success: bool)
    requires Inv(s) && task < |s.tasks| && s.tasks[task].phase.LoadingEnvironment?
    ensures Inv(SetPhase(FinishLoad(s, success), task, Settling))
  {
    PhaseKeepsInv(s, SetPhase(FinishLoad(s, success), task, Settling), task, Settling);
  }

  lemma SettleKeepsInv(s: HydrationState, fallback: bool, task: nat)
    requires Inv(s) && task < |s.tasks| && s.tasks[task].phase.Settling?
    ensures Inv(Next(s, fallback, Settle(task)))
    ensures Next(s, fallback, Settle(task)).tasks == []
  {
    NoLoad(s, task);
    assert Next(s, fallback, Settle(task)).tasks == [];
  }

  lemma TaskKeepsInv(s: HydrationState, fallback: bool, h: Happening)
    requires Inv(s)
    requires h.UserArrives? || h.UserFails? || h.AuthLoadFinishes? || h.Settle?
    ensures Inv(Next(s, fallback, h))
  {
    if h.task < |s.tasks| {
      if s.tasks[h.task].phase.AwaitingUser? {
        PersistedKeepsInv(s, h.task);
        UserKeepsInv(s, h.task, if h.UserArrives? then h.payload else UserPayload(false, false, false, false));
      } else if s.tasks[h.task].phase.LoadingEnvironment? {
        LoadKeepsInv(s, h.task, if h.AuthLoadFinishes? then h.success else false);
      } else {
        SettleKeepsInv(s, fallback, h.task);
      }
    }
  }

  lemma NextKeepsInv(s: HydrationState, fallback: bool, h: Happening)
    requires Inv(s)
    ensures Inv(Next(s, fallback, h))
  {
    if h.CallHydrateAuth? {
      StartKeepsInv(s, fallback, h.persisted);
    } else if h.UserArrives? || h.UserFails? || h.AuthLoadFinishes? || h.Settle? {
      TaskKeepsInv(s, fallback, h);
    }
  }

  /** For any interleaving of hydrations, loads, failures and user actions. */
  lemma {:induction false} RunKeepsInv(fallback: bool, hs: seq<Happening>)
    ensures Inv(Run(INITIAL, fallback, hs))
  {
    if hs != [] {
      RunKeepsInv(fallback, hs[..|hs| - 1]);
      NextKeepsInv(Run(INITIAL, fallback, hs[..|hs| - 1]), fallback, hs[|hs| - 1]);
    }
  }

  /** At most one authentication hydration is ever in flight, and whenever no environment load is in
      flight neither loading flag is on, however loads overlap and fail. */
  lemma FlagsSettle(fallback: bool, hs: seq<Happening>)
    ensures var s := Run(INITIAL, fallback, hs);
            && |s.tasks| <= 1
            && (!LoadInFlight(s) ==> !s.isHydrating && !s.hydrateLoading)
  {
    RunKeepsInv(fallback, hs);
  }

  /** A hydration that settles leaves `auth.hydrated` true, unless a reset came after its session was
      applied, or the stored record had no `auth` part. */
  lemma SettledIsHydrated(fallback: bool, hs: seq<Happening>, task: nat)
    requires var s := Run(INITIAL, fallback, hs);
             task < |s.tasks| && s.tasks[task].phase.Settling?
             && !s.tasks[task].resetSince && !s.tasks[task].rejected
    ensures var after := Run(INITIAL, fallback, hs + [Settle(task)]);
            after.hydrated && after.tasks == [] && !after.promiseSet
  {
    RunKeepsInv(fallback, hs);
    assert (hs + [Settle(task)])[..|hs|] == hs;
  }

  // ---- Exactly when the flags are on and the store is hydrated, from the run alone ----

  predicate AwaitsUser(s: HydrationState, task: nat) {
    task < |s.tasks| && s.tasks[task].phase.AwaitingUser?
  }

  /** A load starts. */
  predicate StartsLoad(fallback: bool, s: HydrationState, h: Happening) {
    match h
    case CallLoad => s.authenticated && s.cleared
    case UserArrives(task, payload) =>
      AwaitsUser(s, task) && payload.authenticated && payload.complete && (payload.verified || payload.exempt)
    case _ => false
  }

  /** A load that is in flight finishes. */
  predicate FinishesLoad(fallback: bool, s: HydrationState, h: Happening) {
    match h
    case AuthLoadFinishes(task, _) => task < |s.tasks| && s.tasks[task].phase.LoadingEnvironment?
    case OtherLoadFinishes(_) => s.otherLoads > 0
    case _ => false
  }

  predicate IsReset(fallback: bool, s: HydrationState, h: Happening) {
    h.ResetData?
  }

  predicate LowersFlags(fallback: bool, s: HydrationState, h: Happening) {
    FinishesLoad(fallback, s, h) || IsReset(fallback, s, h)
  }

  /** A session is applied: by a hydration, from the server or from the stored record, or by the user. */
  predicate AppliesSession(fallback: bool, s: HydrationState, h: Happening) {
    match h
    case CallHydrateAuth(persisted) =>
      !s.hydrated && !s.promiseSet && fallback && IsCustomSession(persisted)
    case UserArrives(task, _) => AwaitsUser(s, task)
    case UserFails(task) => AwaitsUser(s, task)
    case SessionSet(_, _) => true
    case LoggedOut => true
    case _ => false
  }

  type Kind = (bool, HydrationState, Happening) -> bool

  /** The i-th happening of a run from the start is of a kind. */
  predicate Is(kind: Kind, fallback: bool, hs: seq<Happening>, i: nat)
    requires i < |hs|
  {
    kind(fallback, Run(INITIAL, fallback, hs[..i]), hs[i])
  }

  /** In the run something of the one kind happened, and nothing of the other since. */
  ghost predicate Since(on: Kind, off: Kind, fallback: bool, hs: seq<Happening>) {
    exists i | 0 <= i < |hs| :: Is(on, fallback, hs, i) && forall j | i < j < |hs| :: !Is(off, fallback, hs, j)
  }

  function HowMany(kind: Kind, fallback: bool, hs: seq<Happening>): nat {
    if hs == [] then 0
    else HowMany(kind, fallback, hs[..|hs| - 1]) + if Is(kind, fallback, hs, |hs| - 1) then 1 else 0
  }

  lemma IsInFront(kind: Kind, fallback: bool, hs: seq<Happening>, i: nat)
    requires i < |hs| - 1
    ensures Is(kind, fallback, hs[..|hs| - 1], i) == Is(kind, fallback, hs, i)
  {
    assert hs[..|hs| - 1][..i] == hs[..i];
  }

  lemma SinceLast(on: Kind, off: Kind, fallback: bool, hs: seq<Happening>)
    requires hs != []
    ensures Since(on, off, fallback, hs) <==>
            || Is(on, fallback, hs, |hs| - 1)
            || (Since(on, off, fallback, hs[..|hs| - 1]) && !Is(off, fallback, hs, |hs| - 1))
  {
    var n, front := |hs| - 1, hs[..|hs| - 1];
    forall i | 0 <= i < n
      ensures Is(on, fallback, front, i) == Is(on, fallback, hs, i)
      ensures Is(off, fallback, front, i) == Is(off, fallback, hs, i)
    {
      IsInFront(on, fallback, hs, i);
      IsInFront(off, fallback, hs, i);
    }
  }

  function LoadsInFlight(s: HydrationState): nat {
    s.otherLoads + if |s.tasks| == 1 && s.tasks[0].phase.LoadingEnvironment? then 1 else 0
  }

  /** What one happening does to the flags, to the session and to the number of loads. */
  predicate StepsExactly(fallback: bool, s: HydrationState, h: Happening) {
    var n := Next(s, fallback, h);
    && (n.isHydrating <==> StartsLoad(fallback, s, h) || (s.isHydrating && !LowersFlags(fallback, s, h)))
    && (n.hydrated <==> AppliesSession(fallback, s, h) || (s.hydrated && !IsReset(fallback, s, h)))
    && LoadsInFlight(n) == LoadsInFlight(s) + (if StartsLoad(fallback, s, h) then 1 else 0)
                                            - (if FinishesLoad(fallback, s, h) then 1 else 0)
  }

  lemma UserSteps(s: HydrationState, fallback: bool, h: Happening)
    requires Inv(s) && h.UserArrives?
    ensures StepsExactly(fallback, s, h)
  {
  }

  lemma FailureSteps(s: HydrationState, fallback: bool, h: Happening)
    requires Inv(s) && h.UserFails?
    ensures StepsExactly(fallback, s, h)
  {
    if AwaitsUser(s, h.task) {
      FailureSettles(s, h.task, s.tasks[h.task].phase.persisted);
      assert Next(s, fallback, h) == ApplyPersisted(s, h.task, s.tasks[h.task].phase.persisted);
    }
  }

  lemma FailureSettles(s: HydrationState, task: nat, persisted: Persisted)
    requires Inv(s) && AwaitsUser(s, task)
    ensures var n := ApplyPersisted(s, task, persisted);
            && n.hydrated && n.isHydrating == s.isHydrating && n.otherLoads == s.otherLoads
            && LoadsInFlight(n) == LoadsInFlight(s)
  {
    assert task == 0 && |s.tasks| == 1;
  }

  lemma LoadedSteps(s: HydrationState, fallback: bool, h: Happening)
    requires Inv(s) && h.AuthLoadFinishes?
    ensures StepsExactly(fallback, s, h)
  {
  }

  lemma SettleSteps(s: HydrationState, fallback: bool, h: Happening)
    requires Inv(s) && h.Settle?
    ensures StepsExactly(fallback, s, h)
  {
    if h.task < |s.tasks| && s.tasks[h.task].phase.Settling? {
      SettleKeepsInv(s, fallback, h.task);
    }
  }

  lemma CallSteps(s: HydrationState, fallback: bool, h: Happening)
    requires Inv(s) && h.CallHydrateAuth?
    ensures StepsExactly(fallback, s, h)
  {
  }

  lemma ResetSteps(s: HydrationState, fallback: bool, h: Happening)
    requires Inv(s) && h.ResetData?
    ensures StepsExactly(fallback, s, h)
  {
  }

  lemma OtherLoadSteps(s: HydrationState, fallback: bool, h: Happening)
    requires Inv(s) && (h.CallLoad? || h.OtherLoadFinishes?)
    ensures StepsExactly(fallback, s, h)
  {
  }

  lemma SessionSteps(s: HydrationState, fallback: bool, h: Happening)
    requires Inv(s) && (h.SessionSet? || h.LoggedOut?)
    ensures StepsExactly(fallback, s, h)
  {
  }

  lemma NextSteps(s: HydrationState, fallback: bool, h: Happening)
    requires Inv(s)
    ensures StepsExactly(fallback, s, h)
  {
    match h
    case CallHydrateAuth(_) => CallSteps(s, fallback, h);
    case UserArrives(_, _) => UserSteps(s, fallback, h);
    case UserFails(_) => FailureSteps(s, fallback, h);
    case AuthLoadFinishes(_, _) => LoadedSteps(s, fallback, h);
    case Settle(_) => SettleSteps(s, fallback, h);
    case ResetData => ResetSteps(s, fallback, h);
    case CallLoad => OtherLoadSteps(s, fallback, h);
    case OtherLoadFinishes(_) => OtherLoadSteps(s, fallback, h);
    case _ => SessionSteps(s, fallback, h);
  }

  /** After every run the flags are on exactly when a load has started since the last load finished and the
      last reset. */
  lemma {:induction false} FlagsExactly(fallback: bool, hs: seq<Happening>)
    ensures Run(INITIAL, fallback, hs).isHydrating <==> Since(StartsLoad, LowersFlags, fallback, hs)
    ensures Run(INITIAL, fallback, hs).isHydrating == Run(INITIAL, fallback, hs).hydrateLoading
  {
    RunKeepsInv(fallback, hs);
    if hs != [] {
      FlagsExactly(fallback, hs[..|hs| - 1]);
      RunKeepsInv(fallback, hs[..|hs| - 1]);
      NextSteps(Run(INITIAL, fallback, hs[..|hs| - 1]), fallback, hs[|hs| - 1]);
      SinceLast(StartsLoad, LowersFlags, fallback, hs);
    }
  }

  /** After every run the store is hydrated exactly when a session has been applied since the last reset. */
  lemma {:induction false} HydratedExactly(fallback: bool, hs: seq<Happening>)
    ensures Run(INITIAL, fallback, hs).hydrated <==> Since(AppliesSession, IsReset, fallback, hs)
  {
    if hs != [] {
      HydratedExactly(fallback, hs[..|hs| - 1]);
      RunKeepsInv(fallback, hs[..|hs| - 1]);
      NextSteps(Run(INITIAL, fallback, hs[..|hs| - 1]), fallback, hs[|hs| - 1]);
      SinceLast(AppliesSession, IsReset, fallback, hs);
    }
  }

  /** A hydration that settles leaves the store hydrated exactly when, since the last reset, a session has
      been applied, by itself or by anyone else. */
  lemma SettlesHydratedExactly(fallback: bool, hs: seq<Happening>, task: nat)
    requires var s := Run(INITIAL, fallback, hs); task < |s.tasks| && s.tasks[task].phase.Settling?
    ensures var after := Run(INITIAL, fallback, hs + [Settle(task)]);
            && (after.hydrated <==> Since(AppliesSession, IsReset, fallback, hs))
            && after.tasks == [] && !after.promiseSet
  {
    RunKeepsInv(fallback, hs);
    HydratedExactly(fallback, hs);
    RunSnoc(fallback, hs, Settle(task));
    SettleEmpties(Run(INITIAL, fallback, hs), fallback, task);
  }

  lemma SettleEmpties(s: HydrationState, fallback: bool, task: nat)
    requires Inv(s) && task < |s.tasks| && s.tasks[task].phase.Settling?
    ensures Next(s, fallback, Settle(task)) == s.(promiseSet := false, tasks := [])
  {
    SettleKeepsInv(s, fallback, task);
  }

  lemma RunSnoc(fallback: bool, hs: seq<Happening>, h: Happening)
    ensures Run(INITIAL, fallback, hs + [h]) == Next(Run(INITIAL, fallback, hs), fallback, h)
  {
    assert (hs + [h])[..|hs|] == hs;
  }

  // ---- What each happening makes of the session ----

  /** A server session counts only if it is complete, and as cleared only if its second factor is verified or
      waived. */
  lemma ServerSession(s: HydrationState, fallback: bool, task: nat, payload: UserPayload)
    requires AwaitsUser(s, task)
    ensures var n := Next(s, fallback, UserArrives(task, payload));
            && (n.authenticated <==> payload.authenticated && payload.complete)
            && (n.cleared <==> payload.authenticated && payload.complete && (payload.verified || payload.exempt))
            && n.isApiMode == s.isApiMode
  {
  }

  /** Without a server the stored session counts as it is, and none leaves things as they were. */
  lemma StoredSession(s: HydrationState, fallback: bool, task: nat)
    requires AwaitsUser(s, task)
    ensures var n := Next(s, fallback, UserFails(task));
            && n.isApiMode == s.isApiMode
            && match s.tasks[task].phase.persisted
               case Absent => n.authenticated == s.authenticated && n.cleared == s.cleared
               case NoAuth => !n.authenticated && !n.cleared
               case Session(authenticated, verified, _) => n.authenticated == authenticated && n.cleared == verified
  {
  }

  /** A stored session of a custom demo account counts at once where local accounts are allowed, and only there. */
  lemma CustomSession(s: HydrationState, fallback: bool, persisted: Persisted)
    ensures var n := Next(s, fallback, CallHydrateAuth(persisted));
            if fallback && !s.hydrated && !s.promiseSet
               && persisted.Session? && persisted.authenticated && persisted.verified && persisted.customAccount
            then n.authenticated && n.cleared && n.hydrated
            else n.authenticated == s.authenticated && n.cleared == s.cleared && n.hydrated == s.hydrated
  {
  }

  /** Logging out and resetting end the session and the server mode; only the reset forgets the hydration. */
  lemma SessionEnds(s: HydrationState, fallback: bool)
    ensures var n := Next(s, fallback, LoggedOut);
            !n.authenticated && !n.cleared && n.hydrated && !n.isApiMode
    ensures var n := Next(s, fallback, ResetData);
            !n.authenticated && !n.cleared && !n.hydrated && !n.isApiMode
  {
  }

  /** A finished load changes no session, and turns the server mode on exactly if it succeeded. */
  lemma LoadKeepsSession(s: HydrationState, fallback: bool, task: nat, success: bool)
    requires task < |s.tasks| && s.tasks[task].phase.LoadingEnvironment?
    ensures var n := Next(s, fallback, AuthLoadFinishes(task, success));
            && n.authenticated == s.authenticated && n.cleared == s.cleared
            && (n.isApiMode <==> s.isApiMode || success)
  {
  }

  /** A load starts only into a session that is signed in and cleared. */
  lemma LoadsNeedASession(s: HydrationState, fallback: bool, h: Happening)
    requires StartsLoad(fallback, s, h)
    ensures Next(s, fallback, h).authenticated && Next(s, fallback, h).cleared
    ensures Next(s, fallback, h).isHydrating && Next(s, fallback, h).hydrateLoading
  {
  }

  // ---- Loads in flight, from the run alone ----

  lemma {:induction false} LoadsCounted(fallback: bool, hs: seq<Happening>)
    ensures LoadsInFlight(Run(INITIAL, fallback, hs))
            == HowMany(StartsLoad, fallback, hs) - HowMany(FinishesLoad, fallback, hs)
  {
    if hs != [] {
      LoadsCounted(fallback, hs[..|hs| - 1]);
      RunKeepsInv(fallback, hs[..|hs| - 1]);
      NextSteps(Run(INITIAL, fallback, hs[..|hs| - 1]), fallback, hs[|hs| - 1]);
    }
  }

  /** Exactly when the flags and the loads disagree: more loads have started than finished, and since the
      last start some other load has finished or the store has been reset. The flags are then off; they
      are never on without a load. */
  lemma FlagsHideExactly(fallback: bool, hs: seq<Happening>)
    ensures var s := Run(INITIAL, fallback, hs);
            && (s.isHydrating != LoadInFlight(s) <==>
                && HowMany(StartsLoad, fallback, hs) > HowMany(FinishesLoad, fallback, hs)
                && !Since(StartsLoad, LowersFlags, fallback, hs))
            && (s.isHydrating != LoadInFlight(s) ==> !s.isHydrating && !s.hydrateLoading)
  {
    var s := Run(INITIAL, fallback, hs);
    RunKeepsInv(fallback, hs);
    LoadsCounted(fallback, hs);
    FlagsExactly(fallback, hs);
    InFlightCounted(s);
  }

  lemma InFlightCounted(s: HydrationState)
    requires Inv(s)
    ensures LoadInFlight(s) <==> LoadsInFlight(s) > 0
    ensures s.isHydrating ==> LoadInFlight(s) && s.hydrateLoading
    ensures !s.isHydrating ==> !s.hydrateLoading
  {
  }

  // ---- Runs that show it ----

  /** While one of two overlapping loads still runs, both flags are off; and so they are after a reset during
      a single load. */
  lemma OverlappingLoadsHide()
    ensures var s := Run(INITIAL, false, [SessionSet(true, true), CallLoad, CallLoad, OtherLoadFinishes(false)]);
            LoadInFlight(s) && !s.isHydrating && !s.hydrateLoading
    ensures var s := Run(INITIAL, false, [SessionSet(true, true), CallLoad, ResetData]);
            LoadInFlight(s) && !s.isHydrating && !s.hydrateLoading
  {
    var start := [SessionSet(true, true)];
    var one := start + [CallLoad];
    var two := one + [CallLoad];
    RunSnoc(false, [], SessionSet(true, true));
    assert [] + start == start;
    RunSnoc(false, start, CallLoad);
    RunSnoc(false, one, CallLoad);
    RunSnoc(false, two, OtherLoadFinishes(false));
    RunSnoc(false, one, ResetData);
    assert two + [OtherLoadFinishes(false)] ==
           [SessionSet(true, true), CallLoad, CallLoad, OtherLoadFinishes(false)];
    assert one + [ResetData] == [SessionSet(true, true), CallLoad, ResetData];
  }

  const VERIFIED := UserPayload(true, true, true, false)

  /** A reset while the environment loads lets the hydration finish with the store not hydrated; signing in
      again before it settles makes it hydrated after all. */
  lemma ResetUnhydrates()
    ensures var hs := [CallHydrateAuth(Absent), UserArrives(0, VERIFIED), ResetData,
                       AuthLoadFinishes(0, true), Settle(0)];
            !Run(INITIAL, false, hs).hydrated && Run(INITIAL, false, hs).tasks == []
    ensures var hs := [CallHydrateAuth(Absent), UserArrives(0, VERIFIED), ResetData, SessionSet(true, true),
                       AuthLoadFinishes(0, true), Settle(0)];
            Run(INITIAL, false, hs).hydrated && Run(INITIAL, false, hs).tasks == []
  {
    var reset := [CallHydrateAuth(Absent), UserArrives(0, VERIFIED), ResetData];
    ResetWhileLoading();
    Finishes(reset);
    RunSnoc(false, reset, SessionSet(true, true));
    Finishes(reset + [SessionSet(true, true)]);
    assert reset + [AuthLoadFinishes(0, true), Settle(0)] ==
           [CallHydrateAuth(Absent), UserArrives(0, VERIFIED), ResetData, AuthLoadFinishes(0, true), Settle(0)];
    assert reset + [SessionSet(true, true)] + [AuthLoadFinishes(0, true), Settle(0)] ==
           [CallHydrateAuth(Absent), UserArrives(0, VERIFIED), ResetData, SessionSet(true, true),
            AuthLoadFinishes(0, true), Settle(0)];
  }

  lemma ResetWhileLoading()
    ensures var s := Run(INITIAL, false, [CallHydrateAuth(Absent), UserArrives(0, VERIFIED), ResetData]);
            !s.hydrated && |s.tasks| == 1 && s.tasks[0].phase.LoadingEnvironment?
  {
    var called := [CallHydrateAuth(Absent)];
    var arrived := called + [UserArrives(0, VERIFIED)];
    RunSnoc(false, [], CallHydrateAuth(Absent));
    assert [] + called == called;
    RunSnoc(false, called, UserArrives(0, VERIFIED));
    RunSnoc(false, arrived, ResetData);
    assert arrived + [ResetData] == [CallHydrateAuth(Absent), UserArrives(0, VERIFIED), ResetData];
  }

  lemma Finishes(hs: seq<Happening>)
    requires var s := Run(INITIAL, false, hs); |s.tasks| == 1 && s.tasks[0].phase.LoadingEnvironment?
    ensures var after := Run(INITIAL, false, hs + [AuthLoadFinishes(0, true), Settle(0)]);
            after.hydrated == Run(INITIAL, false, hs).hydrated && after.tasks == []
  {
    var loaded := hs + [AuthLoadFinishes(0, true)];
    RunSnoc(false, hs, AuthLoadFinishes(0, true));
    RunSnoc(false, loaded, Settle(0));
    assert loaded + [Settle(0)] == hs + [AuthLoadFinishes(0, true), Settle(0)];
  }

  /** A stored record without its `auth` part lets the hydration finish not hydrated, too. */
  lemma BrokenRecordUnhydrates()
    ensures var hs := [CallHydrateAuth(NoAuth), Settle(0)];
            !Run(INITIAL, true, hs).hydrated && Run(INITIAL, true, hs).tasks == []
  {
    var hs := [CallHydrateAuth(NoAuth), Settle(0)];
    assert hs[..1] == [hs[0]] && hs[..1][..0] == [];
    assert Run(INITIAL, true, hs[..1]) == StartHydration(INITIAL, true, NoAuth);
  }
}
