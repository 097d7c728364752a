/** `scripts/reset-user-two-factor.ts`: the operator's two-factor reset, over the tables it touches. */
module TwoFactorReset {
  import opened SecurityTypes
  import opened Text

  datatype Membership = Membership(role: string, organizationId: string)

  datatype UserRow = UserRow(
    email: string, status: string, platformRole: string, mfaEnabled: bool,
    passwordHash: string, memberships: seq<Membership>)

  /** A row that belongs to a user; for a secret or a recovery code the data is its content. */
  datatype Row<+T> = Row(userId: string, data: T)

  datatype SessionStatus = PendingTwoFactor | ActiveSession | Revoked | Expired

  datatype Session = Session(token: string, status: SessionStatus)

  /** What an account held before a reset. */
  datatype Counts = Counts(totpRecords: nat, recoveryCodes: nat, sessions: nat)

  datatype AuditRow = AuditRow(
    userId: Option<string>, organizationId: string, action: string, target: string, before: Option<Counts>)

  /** Users and audit rows are found by their ids. */
  datatype Database = Database(
    users: map<string, UserRow>,
    secrets: seq<Row<string>>, codes: seq<Row<string>>, sessions: seq<Row<Session>>,
    audit: map<string, AuditRow>)

  const RESET_ACTION := "two_factor_operator_reset"

  // ---- Table operations ----

  /** The rows of one user. */
  function RowsOf<T>(rows: seq<Row<T>>, id: string): seq<Row<T>> {
    if rows == [] then []
    else (if rows[0].userId == id then [rows[0]] else []) + RowsOf(rows[1..], id)
  }

  /** `deleteMany` for one user. */
  function Without<T>(rows: seq<Row<T>>, id: string): seq<Row<T>> {
    if rows == [] then []
    else (if rows[0].userId == id then [] else [rows[0]]) + Without(rows[1..], id)
  }

  predicate IsLive(status: SessionStatus) {
    status.ActiveSession? || status.PendingTwoFactor?
  }

  function RevokeOne(row: Row<Session>, id: string): Row<Session> {
    if row.userId == id && IsLive(row.data.status) then row.(data := row.data.(status := Revoked)) else row
  }

  /** `updateMany` of the live sessions of one user. */
  function Revoke(rows: seq<Row<Session>>, id: string): seq<Row<Session>> {
    if rows == [] then [] else [RevokeOne(rows[0], id)] + Revoke(rows[1..], id)
  }

  function CountLive(rows: seq<Row<Session>>, id: string): nat {
    if rows == [] then 0
    else (if rows[0].userId == id && IsLive(rows[0].data.status) then 1 else 0) + CountLive(rows[1..], id)
  }

  function Holdings(db: Database, id: string): Counts {
    Counts(|RowsOf(db.secrets, id)|, |RowsOf(db.codes, id)|, CountLive(db.sessions, id))
  }

  // ---- The command ----

  /** The command line; a missing option reads as an empty text. */
  datatype Command = Command(id: string, email: string, requestId: string, expected: string, apply: bool)

  datatype ResetError =
    | MissingArguments | TargetMismatch | NotIsolated
    | ExactAdminRequired | MembershipRequired | RequestIdCollision

  datatype Mode = AlreadyApplied | Applied | Checked

  datatype Report = Report(
    mode: Mode, before: Counts, resetRecorded: bool, passwordChanged: bool, rolesChanged: bool, after: Counts)

  datatype Result = Ok(report: Report) | Err(error: ResetError)

  /** Where the command runs: the hash of the database it is connected to, and whether that database may
      be used from here at all. */
  datatype Site = Site(fingerprint: string, isolated: bool)

  function FirstAdmin(memberships: seq<Membership>): Option<Membership> {
    if memberships == [] then None
    else if memberships[0].role == "security_admin" then Some(memberships[0])
    else FirstAdmin(memberships[1..])
  }

  /** Why a command is turned down before it reads an account. */
  function Refusal(site: Site, c: Command): Option<ResetError> {
    if c.id == [] || c.email == [] || c.requestId == [] then Some(MissingArguments)
    else if c.apply && c.expected != site.fingerprint then Some(TargetMismatch)
    else if !site.isolated then Some(NotIsolated)
    else None
  }

  predicate IsExactAdmin(db: Database, c: Command) {
    c.id in db.users &&
    var user := db.users[c.id];
    ToLower(user.email) == ToLower(c.email) && user.status == "active" && user.platformRole == "ADMIN"
  }

  /** The request id has been used for this reset. */
  predicate Completed(db: Database, requestId: string, id: string) {
    requestId in db.audit && db.audit[requestId].userId == Some(id) && db.audit[requestId].action == RESET_ACTION
  }

  function Problem(site: Site, db: Database, c: Command): Option<ResetError> {
    if Refusal(site, c).Some? then Refusal(site, c)
    else if !IsExactAdmin(db, c) then Some(ExactAdminRequired)
    else if FirstAdmin(db.users[c.id].memberships).None? then Some(MembershipRequired)
    else if c.requestId in db.audit && !Completed(db, c.requestId, c.id) then Some(RequestIdCollision)
    else None
  }

  /** A command that changes the database. */
  predicate TakesEffect(site: Site, db: Database, c: Command) {
    Problem(site, db, c).None? && c.apply && c.requestId !in db.audit
  }

  function ResetRow(db: Database, c: Command, organizationId: string): AuditRow {
    AuditRow(Some(c.id), organizationId, RESET_ACTION, c.email, Some(Holdings(db, c.id)))
  }

  function Reset(db: Database, c: Command): Database
    requires c.id in db.users && FirstAdmin(db.users[c.id].memberships).Some?
  {
    var user := db.users[c.id];
    Database(
      db.users[c.id := user.(mfaEnabled := false)],
      Without(db.secrets, c.id), Without(db.codes, c.id), Revoke(db.sessions, c.id),
      db.audit[c.requestId := ResetRow(db, c, FirstAdmin(user.memberships).value.organizationId)])
  }

  function After(site: Site, db: Database, c: Command): Database {
    if TakesEffect(site, db, c) then Reset(db, c) else db
  }

  function Outcome(site: Site, db: Database, c: Command): Result {
    match Problem(site, db, c)
    case Some(error) => Err(error)
    case None =>
      var completed := c.requestId in db.audit;
      Ok(Report(
        if completed then AlreadyApplied else if c.apply then Mode.Applied else Checked,
        Holdings(db, c.id), completed || c.apply, false, false, Holdings(After(site, db, c), c.id)))
  }

  /** The database as the script's client sees it. */
  class Client {
    const site: Site
    var users: map<string, UserRow>
    var secrets: seq<Row<string>>
    var codes: seq<Row<string>>
    var sessions: seq<Row<Session>>
    var audit: map<string, AuditRow>

    constructor (site: Site, db: Database)
      ensures this.site == site && Contents() == db
    {
      this.site := site;
      users, secrets, codes, sessions, audit := db.users, db.secrets, db.codes, db.sessions, db.audit;
    }

    ghost function Contents(): Database
      reads this
    {
      Database(users, secrets, codes, sessions, audit)
    }

    method CountHoldings(id: string) returns (r: Counts)
      ensures r == Holdings(Contents(), id)
    {
      r := Counts(|RowsOf(secrets, id)|, |RowsOf(codes, id)|, CountLive(sessions, id));
    }

    /** `main`. */
    method Execute(c: Command) returns (r: Result)
      modifies this
      ensures Contents() == After(site, old(Contents()), c)
      ensures r == Outcome(site, old(Contents()), c)
    {
      if |c.id| == 0 || |c.email| == 0 || |c.requestId| == 0 { return Err(MissingArguments); }
      if c.apply && c.expected != site.fingerprint { return Err(TargetMismatch); }
      if !site.isolated { return Err(NotIsolated); }
      r := InspectOrReset(c);
    }

    /** `inspectOrReset`. */
    method InspectOrReset(c: Command) returns (r: Result)
      requires Refusal(site, c).None?
      modifies this
      ensures Contents() == After(site, old(Contents()), c)
      ensures r == Outcome(site, old(Contents()), c)
    {
      if c.id !in users { return Err(ExactAdminRequired); }
      var user := users[c.id];
      if ToLower(user.email) != ToLower(c.email) || user.status != "active" || user.platformRole != "ADMIN" {
        return Err(ExactAdminRequired);
      }
      var membership := FirstAdmin(user.memberships);
      if membership.None? { return Err(MembershipRequired); }
      var completed := c.requestId in audit;
      if completed && (audit[c.requestId].userId != Some(c.id) || audit[c.requestId].action != RESET_ACTION) {
        return Err(RequestIdCollision);
      }
      assert Problem(site, Contents(), c).None?;
      var before := CountHoldings(c.id);
      if c.apply && !completed {
        secrets := Without(secrets, c.id);
        codes := Without(codes, c.id);
        sessions := Revoke(sessions, c.id);
        users := users[c.id := user.(mfaEnabled := false)];
        audit := audit[c.requestId :=
          AuditRow(Some(c.id), membership.value.organizationId, RESET_ACTION, c.email, Some(before))];
      }
      var after := CountHoldings(c.id);
      r := Ok(Report(
        if completed then AlreadyApplied else if c.apply then Mode.Applied else Checked,
        before, completed || c.apply, false, false, after));
    }
  }

  // ---- One command ----

  lemma {:induction false} RowsOfWithout<T>(rows: seq<Row<T>>, id: string, other: string)
    ensures RowsOf(Without(rows, id), other) == if other == id then [] else RowsOf(rows, other)
  {
    if rows != [] {
      RowsOfWithout(rows[1..], id, other);
      var rest := Without(rows[1..], id);
      if rows[0].userId == id {
        assert Without(rows, id) == rest;
      } else {
        assert ([rows[0]] + rest)[1..] == rest;
      }
    }
  }

  lemma RevokeHead(row: Row<Session>, rest: seq<Row<Session>>, id: string)
    ensures Revoke([row] + rest, id) == [RevokeOne(row, id)] + Revoke(rest, id)
    ensures RowsOf([row] + rest, id) == (if row.userId == id then [row] else []) + RowsOf(rest, id)
    ensures CountLive([row] + rest, id) ==
            CountLive(rest, id) + if row.userId == id && IsLive(row.data.status) then 1 else 0
  {
    assert ([row] + rest)[1..] == rest;
  }

  lemma {:induction false} RowsOfRevoke(rows: seq<Row<Session>>, id: string, other: string)
    ensures RowsOf(Revoke(rows, id), other) == if other == id then Revoke(RowsOf(rows, id), id) else RowsOf(rows, other)
    ensures CountLive(Revoke(rows, id), id) == 0
  {
    if rows != [] {
      RowsOfRevoke(rows[1..], id, other);
      RevokeHead(RevokeOne(rows[0], id), Revoke(rows[1..], id), other);
      RevokeHead(RevokeOne(rows[0], id), Revoke(rows[1..], id), id);
      RevokeHead(rows[0], RowsOf(rows[1..], id), id);
      assert RowsOf(rows, id) == (if rows[0].userId == id then [rows[0]] else []) + RowsOf(rows[1..], id);
      if rows[0].userId != id {
        assert RowsOf(rows, id) == RowsOf(rows[1..], id);
      }
    }
  }

  /** Everything stored for one user. */
  ghost predicate SameRows(before: Database, after: Database, id: string) {
    && (id in before.users <==> id in after.users)
    && (id in before.users ==> before.users[id] == after.users[id])
    && RowsOf(before.secrets, id) == RowsOf(after.secrets, id)
    && RowsOf(before.codes, id) == RowsOf(after.codes, id)
    && RowsOf(before.sessions, id) == RowsOf(after.sessions, id)
  }

  /** A reset leaves its user without secrets, codes and live sessions, keeps the rest of the account,
      touches no other user, and adds one audit row with what was there before. */
  lemma ResetClearsOneUser(site: Site, db: Database, c: Command)
    requires TakesEffect(site, db, c)
    ensures var after := After(site, db, c);
            && RowsOf(after.secrets, c.id) == [] && RowsOf(after.codes, c.id) == []
            && CountLive(after.sessions, c.id) == 0
            && RowsOf(after.sessions, c.id) == Revoke(RowsOf(db.sessions, c.id), c.id)
            && after.users[c.id] == db.users[c.id].(mfaEnabled := false)
    ensures forall other | other != c.id :: SameRows(db, After(site, db, c), other)
    ensures Completed(After(site, db, c), c.requestId, c.id)
    ensures After(site, db, c).audit - {c.requestId} == db.audit
    ensures After(site, db, c).audit[c.requestId].before == Some(Holdings(db, c.id))
  {
    RowsOfWithout(db.secrets, c.id, c.id);
    RowsOfWithout(db.codes, c.id, c.id);
    RowsOfRevoke(db.sessions, c.id, c.id);
    forall other | other != c.id ensures SameRows(db, After(site, db, c), other) {
      RowsOfWithout(db.secrets, c.id, other);
      RowsOfWithout(db.codes, c.id, other);
      RowsOfRevoke(db.sessions, c.id, other);
    }
  }

  /** What the report says is what the database holds: the mode says whether anything changed, and an
      applied reset reports that nothing is left. */
  lemma ReportIsTrue(site: Site, db: Database, c: Command)
    requires Outcome(site, db, c).Ok?
    ensures var report, after := Outcome(site, db, c).report, After(site, db, c);
            && (report.mode == Mode.Applied <==> after != db)
            && (report.mode == Mode.Applied ==> report.after == Counts(0, 0, 0))
            && (report.mode != Mode.Applied ==> report.after == report.before)
            && (report.resetRecorded <==> Completed(after, c.requestId, c.id))
  {
    if TakesEffect(site, db, c) {
      ResetClearsOneUser(site, db, c);
      assert c.requestId in After(site, db, c).audit;
    }
  }

  /** A dry run changes nothing and tells what applying would do: the same refusals, the same replay, and
      where it reports an open check, a reset of exactly what it counted. */
  lemma CheckForetellsApply(site: Site, db: Database, c: Command)
    requires !c.apply && c.expected == site.fingerprint
    ensures After(site, db, c) == db
    ensures var check, applied := Outcome(site, db, c), Outcome(site, db, c.(apply := true));
            if check.Err? then applied == check
            else if check.report.mode == AlreadyApplied then applied.report == check.report.(resetRecorded := true)
            else applied.Ok? && applied.report.mode == Mode.Applied && applied.report.before == check.report.before
  {
  }

  /** Which accounts a command may be for: an active platform administrator with the given mail, in any case, who
      is a security administrator of some organisation. */
  ghost predicate IsNamedAdmin(db: Database, c: Command) {
    && c.id in db.users
    && ToLower(db.users[c.id].email) == ToLower(c.email)
    && db.users[c.id].status == "active" && db.users[c.id].platformRole == "ADMIN"
    && exists i :: 0 <= i < |db.users[c.id].memberships| && db.users[c.id].memberships[i].role == "security_admin"
  }

  lemma {:induction false} AdminFound(memberships: seq<Membership>)
    ensures FirstAdmin(memberships).Some? <==>
            exists i :: 0 <= i < |memberships| && memberships[i].role == "security_admin"
    ensures FirstAdmin(memberships).Some? ==> FirstAdmin(memberships).value in memberships
    ensures FirstAdmin(memberships).Some? ==> FirstAdmin(memberships).value.role == "security_admin"
  {
    if memberships != [] {
      var rest := memberships[1..];
      AdminFound(rest);
      if i :| 0 <= i < |rest| && rest[i].role == "security_admin" {
        assert memberships[i + 1] == rest[i];
      }
      if i :| 0 < i < |memberships| && memberships[i].role == "security_admin" {
        assert rest[i - 1] == memberships[i];
      }
    }
  }

  /** When a command changes the database, exactly: all arguments are given, it is to be applied, it names the database
      it runs on, which may be used from here, its account is a named administrator, and its request id is new. */
  lemma TakesEffectExactly(site: Site, db: Database, c: Command)
    ensures TakesEffect(site, db, c) <==>
            && c.id != "" && c.email != "" && c.requestId != ""
            && c.apply && c.expected == site.fingerprint && site.isolated
            && IsNamedAdmin(db, c) && c.requestId !in db.audit
  {
    if c.id in db.users {
      AdminFound(db.users[c.id].memberships);
    }
  }

  /** When a command is answered at all, exactly: a used request id must be of a reset of the same account. */
  lemma AnsweredExactly(site: Site, db: Database, c: Command)
    ensures Outcome(site, db, c).Ok? <==>
            && c.id != "" && c.email != "" && c.requestId != ""
            && (c.apply ==> c.expected == site.fingerprint) && site.isolated
            && IsNamedAdmin(db, c)
            && (c.requestId in db.audit ==>
                  && db.audit[c.requestId].userId == Some(c.id)
                  && db.audit[c.requestId].action == "two_factor_operator_reset")
  {
    if c.id in db.users {
      AdminFound(db.users[c.id].memberships);
    }
  }

  /** What a reset leaves, row by row: no secret and no code of the user, and each session as it was, but that the
      user's active and pending ones are revoked. */
  lemma ResetLeaves(site: Site, db: Database, c: Command)
    requires TakesEffect(site, db, c)
    ensures forall row :: row in After(site, db, c).secrets <==> row in db.secrets && row.userId != c.id
    ensures forall row :: row in After(site, db, c).codes <==> row in db.codes && row.userId != c.id
    ensures |After(site, db, c).sessions| == |db.sessions|
    ensures forall i | 0 <= i < |db.sessions| ::
              var row := db.sessions[i];
              After(site, db, c).sessions[i] ==
              if row.userId == c.id && (row.data.status == ActiveSession || row.data.status == PendingTwoFactor)
              then row.(data := Session(row.data.token, Revoked)) else row
    ensures var row := After(site, db, c).audit[c.requestId];
            && row.userId == Some(c.id) && row.target == c.email && row.action == "two_factor_operator_reset"
            && exists i :: 0 <= i < |db.users[c.id].memberships|
                           && db.users[c.id].memberships[i] == Membership("security_admin", row.organizationId)
  {
    AdminFound(db.users[c.id].memberships);
    forall row ensures row in After(site, db, c).secrets <==> row in db.secrets && row.userId != c.id {
      WithoutExactly(db.secrets, c.id, row);
    }
    forall row ensures row in After(site, db, c).codes <==> row in db.codes && row.userId != c.id {
      WithoutExactly(db.codes, c.id, row);
    }
    RevokeExactly(db.sessions, c.id);
  }

  lemma {:induction false} WithoutExactly<T>(rows: seq<Row<T>>, id: string, row: Row<T>)
    ensures row in Without(rows, id) <==> row in rows && row.userId != id
  {
    if rows != [] {
      WithoutExactly(rows[1..], id, row);
      assert rows == [rows[0]] + rows[1..];
    }
  }

  lemma {:induction false} RevokeExactly(rows: seq<Row<Session>>, id: string)
    ensures |Revoke(rows, id)| == |rows|
    ensures forall i :: 0 <= i < |rows| ==> Revoke(rows, id)[i] == RevokeOne(rows[i], id)
  {
    if rows != [] {
      RevokeExactly(rows[1..], id);
    }
  }

  // ---- Runs ----

  /** Commands, and whatever else happens to the database. */
  datatype Happening =
    | Run(command: Command)
    | Elsewhere(change: Database -> Database)

  /** The rest of the program adds audit rows but does not drop or rewrite them, and does not write rows
      of the reset's own action. Enrolments, sign-ins and account changes are free. */
  ghost predicate KeepsAudit(change: Database -> Database) {
    forall db: Database, id: string ::
      && (id in db.audit ==> id in change(db).audit && change(db).audit[id] == db.audit[id])
      && (id in change(db).audit && id !in db.audit ==> change(db).audit[id].action != RESET_ACTION)
  }

  ghost predicate Legal(hs: seq<Happening>) {
    forall i | 0 <= i < |hs| :: hs[i].Elsewhere? ==> KeepsAudit(hs[i].change)
  }

  ghost function Next(site: Site, db: Database, h: Happening): Database {
    match h
    case Run(command) => After(site, db, command)
    case Elsewhere(change) => change(db)
  }

  ghost function Reached(site: Site, db: Database, hs: seq<Happening>): Database
    decreases |hs|
  {
    if hs == [] then db else Reached(site, Next(site, db, hs[0]), hs[1..])
  }

  predicate Names(h: Happening, requestId: string) {
    h.Run? && h.command.requestId == requestId
  }

  /** How often a request id takes effect in a run. */
  ghost function Effects(site: Site, db: Database, hs: seq<Happening>, requestId: string): nat
    decreases |hs|
  {
    if hs == [] then 0
    else
      (if Names(hs[0], requestId) && TakesEffect(site, db, hs[0].command) then 1 else 0)
      + Effects(site, Next(site, db, hs[0]), hs[1..], requestId)
  }

  /** The run without the commands that carry a request id. */
  ghost function Erase(hs: seq<Happening>, requestId: string): seq<Happening> {
    if hs == [] then []
    else (if Names(hs[0], requestId) then [] else [hs[0]]) + Erase(hs[1..], requestId)
  }

  lemma NextKeepsAudit(site: Site, db: Database, h: Happening, requestId: string)
    requires h.Elsewhere? ==> KeepsAudit(h.change)
    ensures requestId in db.audit ==>
              requestId in Next(site, db, h).audit && Next(site, db, h).audit[requestId] == db.audit[requestId]
    ensures requestId in Next(site, db, h).audit && requestId !in db.audit ==>
              (Next(site, db, h).audit[requestId].action == RESET_ACTION
               <==> Names(h, requestId) && TakesEffect(site, db, h.command))
  {
  }

  /** A used request id stays used, for the same user and action, and takes no effect any more. */
  lemma {:induction false} UsedIdStays(site: Site, db: Database, hs: seq<Happening>, requestId: string)
    requires Legal(hs) && requestId in db.audit
    ensures requestId in Reached(site, db, hs).audit
    ensures Reached(site, db, hs).audit[requestId] == db.audit[requestId]
    ensures Effects(site, db, hs, requestId) == 0
    decreases |hs|
  {
    if hs != [] {
      NextKeepsAudit(site, db, hs[0], requestId);
      UsedIdStays(site, Next(site, db, hs[0]), hs[1..], requestId);
    }
  }

  /** In any run a request id takes effect at most once, and it does exactly when the run leaves a reset
      row under it that was not there before. */
  lemma {:induction false} AtMostOnce(site: Site, db: Database, hs: seq<Happening>, requestId: string)
    requires Legal(hs)
    ensures Effects(site, db, hs, requestId) <= 1
    ensures var after := Reached(site, db, hs);
            Effects(site, db, hs, requestId) == 1 <==>
            requestId !in db.audit && requestId in after.audit && after.audit[requestId].action == RESET_ACTION
    decreases |hs|
  {
    if requestId in db.audit {
      UsedIdStays(site, db, hs, requestId);
    } else if hs != [] {
      var next := Next(site, db, hs[0]);
      NextKeepsAudit(site, db, hs[0], requestId);
      if requestId in next.audit {
        UsedIdStays(site, next, hs[1..], requestId);
      } else {
        AtMostOnce(site, next, hs[1..], requestId);
      }
    }
  }

  /** After a request id has been used, its commands might as well not be in the run: whatever is enrolled
      or signed in later stays. */
  lemma {:induction false} ReplaysChangeNothing(site: Site, db: Database, hs: seq<Happening>, requestId: string)
    requires Legal(hs) && requestId in db.audit
    ensures Reached(site, db, hs) == Reached(site, db, Erase(hs, requestId))
    decreases |hs|
  {
    if hs != [] {
      var next, rest := Next(site, db, hs[0]), Erase(hs[1..], requestId);
      NextKeepsAudit(site, db, hs[0], requestId);
      ReplaysChangeNothing(site, next, hs[1..], requestId);
      if Names(hs[0], requestId) {
        assert Erase(hs, requestId) == rest;
      } else {
        assert ([hs[0]] + rest)[1..] == rest;
      }
    }
  }

  /** What a used request id answers for ever after: `already_applied` at most, and that only to the user
      it was used for. */
  lemma UsedIdAnswers(site: Site, db: Database, hs: seq<Happening>, c: Command)
    requires Legal(hs) && c.requestId in db.audit
    ensures var outcome := Outcome(site, Reached(site, db, hs), c);
            && (outcome.Ok? ==> outcome.report.mode == AlreadyApplied)
            && (!Completed(db, c.requestId, c.id) ==> outcome.Err?)
  {
    UsedIdStays(site, db, hs, c.requestId);
  }

  // ---- Resets of different users ----

  lemma {:induction false} WithoutCommutes<T>(rows: seq<Row<T>>, id: string, other: string)
    ensures Without(Without(rows, id), other) == Without(Without(rows, other), id)
  {
    if rows != [] {
      WithoutCommutes(rows[1..], id, other);
      WithoutHead(rows[0], rows[1..], id, other);
      WithoutHead(rows[0], rows[1..], other, id);
    }
  }

  lemma WithoutHead<T>(row: Row<T>, rest: seq<Row<T>>, id: string, other: string)
    ensures Without(Without([row] + rest, id), other) ==
            (if row.userId == id || row.userId == other then [] else [row]) + Without(Without(rest, id), other)
  {
    assert ([row] + rest)[1..] == rest;
    var kept := Without(rest, id);
    if row.userId == id {
      assert Without([row] + rest, id) == kept;
    } else {
      assert ([row] + kept)[1..] == kept;
    }
  }

  lemma {:induction false} RevokeCommutes(rows: seq<Row<Session>>, id: string, other: string)
    ensures Revoke(Revoke(rows, id), other) == Revoke(Revoke(rows, other), id)
  {
    if rows != [] {
      RevokeCommutes(rows[1..], id, other);
      assert Revoke(rows, id)[1..] == Revoke(rows[1..], id);
      assert Revoke(rows, other)[1..] == Revoke(rows[1..], other);
    }
  }

  lemma {:induction false} CountLiveOf(rows: seq<Row<Session>>, id: string)
    ensures CountLive(rows, id) == CountLive(RowsOf(rows, id), id)
  {
    if rows != [] {
      CountLiveOf(rows[1..], id);
      RevokeHead(rows[0], RowsOf(rows[1..], id), id);
      if rows[0].userId != id {
        assert RowsOf(rows, id) == RowsOf(rows[1..], id);
      }
    }
  }

  lemma HoldingsSame(db: Database, db': Database, id: string)
    requires SameRows(db, db', id)
    ensures Holdings(db', id) == Holdings(db, id)
  {
    CountLiveOf(db.sessions, id);
    CountLiveOf(db'.sessions, id);
  }

  lemma OthersSame(site: Site, db: Database, c: Command, id: string)
    requires id != c.id
    ensures SameRows(db, After(site, db, c), id)
  {
    if TakesEffect(site, db, c) {
      ResetClearsOneUser(site, db, c);
    }
  }

  /** A command does not see a reset of another user under another request id. */
  lemma ResetIsInvisible(site: Site, db: Database, c: Command, d: Command)
    requires c.id != d.id && c.requestId != d.requestId
    ensures Problem(site, After(site, db, c), d) == Problem(site, db, d)
    ensures TakesEffect(site, After(site, db, c), d) == TakesEffect(site, db, d)
    ensures Holdings(After(site, db, c), d.id) == Holdings(db, d.id)
  {
    OthersSame(site, db, c, d.id);
    HoldingsSame(db, After(site, db, c), d.id);
  }

  lemma UpdatesCommute<K, V>(table: map<K, V>, k: K, l: K, v: V, w: V)
    requires k != l
    ensures table[k := v][l := w] == table[l := w][k := v]
  {
  }

  lemma BothReset(db: Database, c: Command, d: Command)
    requires c.id in db.users && FirstAdmin(db.users[c.id].memberships).Some?
    requires d.id in db.users && FirstAdmin(db.users[d.id].memberships).Some?
    requires c.id != d.id && c.requestId != d.requestId
    requires Holdings(Reset(db, c), d.id) == Holdings(db, d.id)
    requires Holdings(Reset(db, d), c.id) == Holdings(db, c.id)
    ensures Reset(Reset(db, c), d) == Reset(Reset(db, d), c)
  {
    WithoutCommutes(db.secrets, c.id, d.id);
    WithoutCommutes(db.codes, c.id, d.id);
    RevokeCommutes(db.sessions, c.id, d.id);
    var user, other := db.users[c.id], db.users[d.id];
    UpdatesCommute(db.users, c.id, d.id, user.(mfaEnabled := false), other.(mfaEnabled := false));
    UpdatesCommute(db.audit, c.requestId, d.requestId,
                   ResetRow(db, c, FirstAdmin(user.memberships).value.organizationId),
                   ResetRow(db, d, FirstAdmin(other.memberships).value.organizationId));
  }

  /** Commands for different users under different request ids give the same database in either order. */
  lemma ResetsCommute(site: Site, db: Database, c: Command, d: Command)
    requires c.id != d.id && c.requestId != d.requestId
    ensures After(site, After(site, db, c), d) == After(site, After(site, db, d), c)
  {
    ResetIsInvisible(site, db, c, d);
    ResetIsInvisible(site, db, d, c);
    if TakesEffect(site, db, c) && TakesEffect(site, db, d) {
      BothReset(db, c, d);
    }
  }
}
