/** `src/lib/database-isolation.ts`: which database a configuration names, and the guard that keeps
    production and every other environment on different ones. */
module DatabaseIsolation {
  import opened SecurityTypes
  import opened PercentEncoding
  import opened Text

  /** A connection URL as the URL parser splits it. */
  datatype Url = Url(
    protocol: string, hostname: string, port: string, pathname: string,
    queryKeys: seq<string>, hasFragment: bool)

  datatype Target = Target(host: string, port: string, database: string)

  /** The hash of a target; all that matters of it is that it is a function. */
  type Digest = Target -> string

  datatype IsolationError =
    | InvalidUrl | NotPostgres | ForeignParameter | BadDatabaseName | MissingUrl | DirectDiffers
    | BadScope | TestDataInProduction | PinsRequired | MalformedPin | PinMismatch | ProductionDiffers | LiveDatabase

  datatype Result<+T> = Ok(value: T) | Err(error: IsolationError)

  // ---- The target of a URL ----

  const POOLER := "-pooler"
  const POOLER_DOT := "-pooler."
  const NEON := ".neon.tech"

  /** Drops the first "-pooler" that stands before a dot. */
  function RemovePooler(host: string): string {
    if |host| < |POOLER_DOT| then host
    else if host[..|POOLER_DOT|] == POOLER_DOT then host[|POOLER|..]
    else [host[0]] + RemovePooler(host[1..])
  }

  function BaseHost(hostname: string): string {
    StripDot(ToLower(hostname))
  }

  function NormalizeHost(hostname: string): string {
    var host := BaseHost(hostname);
    if EndsWith(host, NEON) then RemovePooler(host) else host
  }

  const ALLOWED := {
    "sslmode", "sslcert", "sslkey", "sslrootcert", "connect_timeout", "connection_limit",
    "pool_timeout", "pgbouncer", "application_name", "channel_binding"}

  function DatabaseName(pathname: string): Option<string> {
    match DecodeURIComponent(if pathname == [] then [] else pathname[1..])
    case None => None
    case Some(name) => if name == [] || '/' in name || '\0' in name then None else Some(name)
  }

  function EffectivePort(url: Url): string {
    if url.port == [] then "5432" else url.port
  }

  function TargetOf(url: Url): Result<Target> {
    if url.protocol !in {"postgres:", "postgresql:"} || url.hostname == [] || url.hasFragment then Err(NotPostgres)
    else if exists i | 0 <= i < |url.queryKeys| :: url.queryKeys[i] !in ALLOWED then Err(ForeignParameter)
    else match DatabaseName(url.pathname)
      case None => Err(BadDatabaseName)
      case Some(name) =>
        Ok(Target(NormalizeHost(url.hostname), EffectivePort(url), name))
  }

  predicate IsLocal(target: Target) {
    target.host in {"localhost", "127.0.0.1", "[::1]"}
  }

  /** `databaseTargetFingerprint` up to the hash. */
  method FindTarget(url: Url) returns (r: Result<Target>)
    ensures r == TargetOf(url)
  {
    if url.protocol !in {"postgres:", "postgresql:"} || |url.hostname| == 0 || url.hasFragment {
      return Err(NotPostgres);
    }
    for i := 0 to |url.queryKeys|
      invariant forall j :: 0 <= j < i ==> url.queryKeys[j] in ALLOWED
    {
      if url.queryKeys[i] !in ALLOWED {
        return Err(ForeignParameter);
      }
    }
    var hostname := ToLower(url.hostname);
    hostname := StripDot(hostname);
    if EndsWith(hostname, NEON) {
      hostname := RemovePooler(hostname);
    }
    var database := DecodeURIComponent(if |url.pathname| == 0 then [] else url.pathname[1..]);
    if database.None? || |database.value| == 0 || '/' in database.value || '\0' in database.value {
      return Err(BadDatabaseName);
    }
    return Ok(Target(hostname, EffectivePort(url), database.value));
  }

  // ---- The guard ----

  /** A connection variable: blank, not a URL, or parsed. */
  datatype Connection = Unset | Unparsed | Parsed(url: Url)

  /** The environment, trimmed; an unset text is empty. */
  datatype Config = Config(
    runtime: Connection, direct: Connection,
    vercelEnv: string, deploymentEnv: string, nodeEnv: string,
    pin: string, productionPin: string)

  datatype Verdict = Verdict(scope: string, fingerprint: string, isLocal: bool)

  function ResolveTarget(connection: Connection): Result<Target> {
    match connection
    case Unset => Err(MissingUrl)
    case Unparsed => Err(InvalidUrl)
    case Parsed(url) => TargetOf(url)
  }

  function ScopeOf(config: Config): string {
    if config.vercelEnv != [] then config.vercelEnv
    else if config.deploymentEnv != [] then config.deploymentEnv
    else if config.nodeEnv != [] then config.nodeEnv
    else "development"
  }

  const SCOPES := {"production", "preview", "development", "test"}

  predicate IsFingerprint(pin: string) {
    |pin| == 64 && forall i | 0 <= i < 64 :: 'a' <= pin[i] <= 'f' || '0' <= pin[i] <= '9'
  }

  function CheckPins(target: Target, digest: Digest, config: Config, production: bool): Option<IsolationError> {
    if (!IsLocal(target) || production) && (config.pin == [] || config.productionPin == []) then Some(PinsRequired)
    else if config.pin != [] && !IsFingerprint(config.pin) then Some(MalformedPin)
    else if config.productionPin != [] && !IsFingerprint(config.productionPin) then Some(MalformedPin)
    else if config.pin != [] && config.pin != digest(target) then Some(PinMismatch)
    else if config.productionPin != [] && production && config.productionPin != digest(target) then
      Some(ProductionDiffers)
    else if config.productionPin != [] && !production && config.productionPin == digest(target) then
      Some(LiveDatabase)
    else None
  }

  function Check(config: Config, testData: bool, digest: Digest): Result<Verdict> {
    match ResolveTarget(config.runtime)
    case Err(error) => Err(error)
    case Ok(target) =>
      match (if config.direct.Unset? then Ok(target) else ResolveTarget(config.direct))
      case Err(error) => Err(error)
      case Ok(other) =>
        if digest(other) != digest(target) then Err(DirectDiffers)
        else
          var scope := ScopeOf(config);
          if scope !in SCOPES then Err(BadScope)
          else if testData && scope == "production" then Err(TestDataInProduction)
          else match CheckPins(target, digest, config, scope == "production")
            case Some(error) => Err(error)
            case None => Ok(Verdict(scope, digest(target), IsLocal(target)))
  }

  /** `assertDatabaseIsolation`. */
  method AssertDatabaseIsolation(config: Config, testData: bool, digest: Digest) returns (r: Result<Verdict>)
    ensures r == Check(config, testData, digest)
  {
    if config.runtime.Unset? { return Err(MissingUrl); }
    if config.runtime.Unparsed? { return Err(InvalidUrl); }
    var target := FindTarget(config.runtime.url);
    if target.Err? { return Err(target.error); }
    var fingerprint := digest(target.value);
    if !config.direct.Unset? {
      if config.direct.Unparsed? { return Err(InvalidUrl); }
      var other := FindTarget(config.direct.url);
      if other.Err? { return Err(other.error); }
      if digest(other.value) != fingerprint { return Err(DirectDiffers); }
    }
    var scope := ScopeOf(config);
    if scope !in SCOPES { return Err(BadScope); }
    var production := scope == "production";
    if testData && production { return Err(TestDataInProduction); }
    var pin, productionPin := config.pin, config.productionPin;
    if (!IsLocal(target.value) || production) && (|pin| == 0 || |productionPin| == 0) {
      return Err(PinsRequired);
    }
    var values := [pin, productionPin];
    for i := 0 to |values|
      invariant forall j :: 0 <= j < i ==> values[j] == [] || IsFingerprint(values[j])
    {
      if values[i] != [] && !IsFingerprint(values[i]) {
        assert values[i] == pin || values[i] == productionPin;
        return Err(MalformedPin);
      }
    }
    assert values[0] == pin && values[1] == productionPin;
    if pin != [] && pin != fingerprint { return Err(PinMismatch); }
    if productionPin != [] && (if production then productionPin != fingerprint else productionPin == fingerprint) {
      return Err(if production then ProductionDiffers else LiveDatabase);
    }
    return Ok(Verdict(scope, fingerprint, IsLocal(target.value)));
  }

  // ---- Separation ----

  /** One of the configuration's two connections, the runtime or the direct one, leads to the target. */
  predicate Reaches(config: Config, target: Target) {
    ResolveTarget(config.runtime) == Ok(target) || ResolveTarget(config.direct) == Ok(target)
  }

  /** Whatever an accepted configuration reaches has the fingerprint it was accepted with. */
  lemma ReachesOneFingerprint(config: Config, testData: bool, digest: Digest, target: Target)
    requires Check(config, testData, digest).Ok? && Reaches(config, target)
    ensures digest(target) == Check(config, testData, digest).value.fingerprint
  {
  }

  /** Once a configuration is accepted for production, none is accepted for anything else under the same
      production pin if any of its connections reaches a host, port and database that a production
      connection reaches, however their URLs spell them. */
  lemma ProductionIsSeparate(production: Config, other: Config, testData: bool, testData': bool, digest: Digest)
    requires Check(production, testData, digest).Ok? && ScopeOf(production) == "production"
    requires ScopeOf(other) != "production" && production.productionPin == other.productionPin
    ensures Check(other, testData', digest).Ok? ==>
              forall target :: !(Reaches(production, target) && Reaches(other, target))
    ensures !testData
  {
    if Check(other, testData', digest).Ok? {
      forall target ensures !(Reaches(production, target) && Reaches(other, target)) {
        if Reaches(production, target) && Reaches(other, target) {
          ReachesOneFingerprint(production, testData, digest, target);
          ReachesOneFingerprint(other, testData', digest, target);
          assert false;
        }
      }
    }
  }

  /** Outside production only a target on this machine is accepted without both pins, and in production none. */
  lemma RemoteNeedsPins(config: Config, testData: bool, digest: Digest)
    requires Check(config, testData, digest).Ok?
    requires config.pin == [] || config.productionPin == []
    ensures ScopeOf(config) != "production"
    ensures ResolveTarget(config.runtime).value.host in {"localhost", "127.0.0.1", "[::1]"}
  {
  }

  // ---- What is accepted, from the configuration's own fields ----

  predicate IsKnownParameter(key: string) {
    || key == "sslmode" || key == "sslcert" || key == "sslkey" || key == "sslrootcert" || key == "connect_timeout"
    || key == "connection_limit" || key == "pool_timeout" || key == "pgbouncer" || key == "application_name"
    || key == "channel_binding"
  }

  lemma KnownExactly(key: string)
    ensures IsKnownParameter(key) <==> key in ALLOWED
  {
  }

  lemma AllKnown(keys: seq<string>)
    ensures (exists i | 0 <= i < |keys| :: keys[i] !in ALLOWED) <==>
            !(forall i | 0 <= i < |keys| :: IsKnownParameter(keys[i]))
  {
    forall i | 0 <= i < |keys| ensures IsKnownParameter(keys[i]) <==> keys[i] in ALLOWED {
      KnownExactly(keys[i]);
    }
  }

  /** Which URLs name a target, exactly: a Postgres URL with a host, without a fragment, with none but the ten known
      parameters, whose path decodes to one non-empty name. */
  lemma TargetExactly(url: Url)
    ensures TargetOf(url).Ok? <==>
            && (url.protocol == "postgres:" || url.protocol == "postgresql:")
            && url.hostname != "" && !url.hasFragment
            && (forall i | 0 <= i < |url.queryKeys| :: IsKnownParameter(url.queryKeys[i]))
            && IsName(DecodeURIComponent(if url.pathname == "" then "" else url.pathname[1..]))
    ensures TargetOf(url).Ok? ==>
              && TargetOf(url).value.host == NormalizeHost(url.hostname)
              && TargetOf(url).value.port == (if url.port == "" then "5432" else url.port)
              && Some(TargetOf(url).value.database)
                 == DecodeURIComponent(if url.pathname == "" then "" else url.pathname[1..])
  {
    AllKnown(url.queryKeys);
  }

  predicate IsName(decoded: Option<string>) {
    decoded.Some? && decoded.value != "" && '/' !in decoded.value && '\0' !in decoded.value
  }

  /** The first of the three variables that is set, or development. */
  predicate IsScope(config: Config, scope: string) {
    if config.vercelEnv != "" then scope == config.vercelEnv
    else if config.deploymentEnv != "" then scope == config.deploymentEnv
    else if config.nodeEnv != "" then scope == config.nodeEnv
    else scope == "development"
  }

  predicate IsHash(pin: string) {
    |pin| == 64 && forall i | 0 <= i < 64 :: '0' <= pin[i] <= '9' || 'a' <= pin[i] <= 'f'
  }

  /** What the pins must be for a target, in a scope. */
  predicate PinsFit(config: Config, scope: string, target: Target, digest: Digest) {
    && (config.pin == "" || (IsHash(config.pin) && config.pin == digest(target)))
    && (config.productionPin == ""
        || (IsHash(config.productionPin) && (scope == "production" <==> config.productionPin == digest(target))))
    && (config.pin == "" || config.productionPin == "" ==>
          scope != "production" && target.host in {"localhost", "127.0.0.1", "[::1]"})
  }

  /** Which configurations pass the guard, exactly. */
  lemma AcceptedExactly(config: Config, testData: bool, digest: Digest, target: Target, scope: string)
    requires ResolveTarget(config.runtime) == Ok(target) && IsScope(config, scope)
    ensures Check(config, testData, digest).Ok? <==>
            && (config.direct.Unset?
                || (ResolveTarget(config.direct).Ok? && digest(ResolveTarget(config.direct).value) == digest(target)))
            && scope in {"production", "preview", "development", "test"}
            && !(testData && scope == "production")
            && PinsFit(config, scope, target, digest)
    ensures Check(config, testData, digest).Ok? ==>
              Check(config, testData, digest).value ==
              Verdict(scope, digest(target), target.host in {"localhost", "127.0.0.1", "[::1]"})
  {
    assert ScopeOf(config) == scope;
    PinsChecked(config, target, digest, scope);
  }

  lemma PinsChecked(config: Config, target: Target, digest: Digest, scope: string)
    ensures CheckPins(target, digest, config, scope == "production").None? <==> PinsFit(config, scope, target, digest)
  {
  }

  // ---- Spellings of one target ----

  lemma {:induction false} NoPooler(host: string)
    ensures RemovePooler(host) == host <==> !Contains(host, POOLER_DOT)
    ensures |RemovePooler(host)| == |host| || |RemovePooler(host)| == |host| - |POOLER|
  {
    if |host| >= |POOLER_DOT| {
      if host[..|POOLER_DOT|] == POOLER_DOT {
        assert OccursAt(host, POOLER_DOT, 0);
      } else {
        assert !OccursAt(host, POOLER_DOT, 0);
        NoPooler(host[1..]);
        ContainsShift(host, POOLER_DOT);
        assert host == [host[0]] + host[1..];
      }
    }
  }

  /** A "-pooler" added to the first label is the one that is dropped. */
  lemma {:induction false} RemovesAdded(first: string, rest: string)
    requires '.' !in first
    requires rest != [] && rest[0] == '.'
    ensures RemovePooler(first + POOLER + rest) == first + rest
  {
    var host := first + POOLER + rest;
    if first == [] {
      assert host == POOLER + rest;
      assert host[..|POOLER_DOT|] == POOLER_DOT;
      assert host[|POOLER|..] == rest;
    } else {
      assert host[7] != '.' by {
        if |first| > 7 {
          assert host[7] == first[7] && first[7] in first;
        } else {
          assert host[7] == POOLER[7 - |first|];
        }
      }
      assert host[1..] == first[1..] + POOLER + rest;
      RemovesAdded(first[1..], rest);
      assert [first[0]] + (first[1..] + rest) == first + rest;
    }
  }

  lemma {:induction false} LowerKeepsDots(s: string)
    ensures '.' in ToLower(s) <==> '.' in s
  {
    if s != [] {
      LowerCharEnds(s[0]);
      LowerKeepsDots(s[1..]);
      assert s == [s[0]] + s[1..];
    }
  }

  lemma StripConcat(front: string, back: string)
    requires back != []
    ensures StripDot(front + back) == front + StripDot(back)
  {
    assert (front + back)[..|front + back| - 1] == front + back[..|back| - 1];
  }

  /** The part of a host from its first dot on keeps that dot when lowered and stripped. */
  lemma RestKeepsDot(rest: string)
    requires rest != [] && rest[0] == '.' && |rest| >= 2
    ensures ToLower(rest) != [] && StripDot(ToLower(rest)) != [] && StripDot(ToLower(rest))[0] == '.'
  {
    ToLowerEnds(rest[1..]);
    assert ToLower(rest) == ['.'] + ToLower(rest[1..]);
  }

  lemma BaseOfSplit(first: string, rest: string)
    requires rest != [] && rest[0] == '.' && |rest| >= 2
    ensures BaseHost(first + rest) == ToLower(first) + StripDot(ToLower(rest))
  {
    ToLowerConcat(first, rest);
    RestKeepsDot(rest);
    StripConcat(ToLower(first), ToLower(rest));
  }

  lemma PoolerIsLower()
    ensures ToLower(POOLER) == POOLER
  {
    ToLowerFixed(POOLER);
  }

  lemma LowerPooled(first: string)
    ensures ToLower(first + POOLER) == ToLower(first) + POOLER
  {
    ToLowerConcat(first, POOLER);
    PoolerIsLower();
  }

  /** The pooled spelling of a Neon host names the same target as the direct one, exactly when no label
      of the direct host ends in "-pooler" already. */
  lemma PooledSpellingExactly(first: string, rest: string)
    requires '.' !in first && |rest| >= 2 && rest[0] == '.'
    requires EndsWith(BaseHost(first + rest), NEON)
    ensures NormalizeHost(first + POOLER + rest) == NormalizeHost(first + rest)
            <==> !Contains(BaseHost(first + rest), POOLER_DOT)
  {
    var low, tail := ToLower(first), StripDot(ToLower(rest));
    BaseOfSplit(first, rest);
    BaseOfSplit(first + POOLER, rest);
    LowerPooled(first);
    LowerKeepsDots(first);
    RestKeepsDot(rest);
    NeonTail(low, tail);
    RemovesAdded(low, tail);
    NoPooler(low + tail);
  }

  /** The Neon suffix of a host starts after its first label. */
  lemma NeonTail(low: string, tail: string)
    requires '.' !in low && EndsWith(low + tail, NEON)
    ensures EndsWith(low + POOLER + tail, NEON)
  {
    var host := low + tail;
    var at := |host| - |NEON|;
    assert host[at] == '.' by { assert host[at..][0] == NEON[0]; }
    assert forall i :: 0 <= i < |low| ==> host[i] == low[i] && low[i] in low;
    assert at >= |low|;
    assert host[at..] == tail[at - |low|..];
    assert (low + POOLER + tail)[at + |POOLER|..] == tail[at - |low|..];
  }

  /** A final dot does not change the host, exactly when there is not one already. */
  lemma FinalDotExactly(hostname: string)
    requires hostname != []
    ensures BaseHost(hostname + ".") == BaseHost(hostname) <==> hostname[|hostname| - 1] != '.'
  {
    DotAppended(hostname);
    ToLowerEnds(hostname);
  }

  lemma DotStripped(host: string)
    ensures StripDot(host + ".") == host
  {
    assert (host + ".")[..|host|] == host;
  }

  lemma DotAppended(hostname: string)
    ensures BaseHost(hostname + ".") == ToLower(hostname)
  {
    ToLowerConcat(hostname, ".");
    ToLowerFixed(".");
    DotStripped(ToLower(hostname));
  }

  // ---- Respelling step by step ----

  /** One change of spelling: case, a final dot where there is none, or the pooled form of a Neon host. */
  ghost predicate RespellsHost(hostname: string, respelled: string) {
    || (hostname != [] && respelled != [] && ToLower(respelled) == ToLower(hostname))
    || (respelled == hostname + "." && hostname != [] && hostname[|hostname| - 1] != '.')
    || exists first, rest :: RespellsPooled(hostname, respelled, first, rest)
  }

  /** `respelled` is the pooled spelling of a direct Neon host. */
  ghost predicate RespellsPooled(hostname: string, respelled: string, first: string, rest: string) {
    && hostname == first + rest && respelled == first + POOLER + rest
    && '.' !in first && |rest| >= 2 && rest[0] == '.'
    && EndsWith(BaseHost(hostname), NEON) && !Contains(BaseHost(hostname), POOLER_DOT)
  }

  /** Hosts each of which respells its neighbour, in the one direction or the other. */
  ghost predicate IsChain(hosts: seq<string>) {
    && hosts != []
    && forall i | 0 < i < |hosts| :: RespellsHost(hosts[i - 1], hosts[i]) || RespellsHost(hosts[i], hosts[i - 1])
  }

  ghost predicate Joined(hostname: string, respelled: string) {
    exists hosts :: IsChain(hosts) && hosts[0] == hostname && hosts[|hosts| - 1] == respelled
  }

  lemma StepSame(hostname: string, respelled: string)
    requires RespellsHost(hostname, respelled)
    ensures NormalizeHost(respelled) == NormalizeHost(hostname)
  {
    if first, rest :| RespellsPooled(hostname, respelled, first, rest) {
      PooledSpellingExactly(first, rest);
    } else if ToLower(respelled) != ToLower(hostname) {
      FinalDotExactly(hostname);
    }
  }

  /** Hosts at the ends of a chain of respellings are the same host. */
  lemma {:induction false} ChainSame(hosts: seq<string>)
    requires IsChain(hosts)
    ensures NormalizeHost(hosts[|hosts| - 1]) == NormalizeHost(hosts[0])
  {
    var n := |hosts| - 1;
    if n > 0 {
      ChainSame(hosts[..n]);
      if RespellsHost(hosts[n - 1], hosts[n]) {
        StepSame(hosts[n - 1], hosts[n]);
      } else {
        StepSame(hosts[n], hosts[n - 1]);
      }
    }
  }

  /** Two URLs for one database: hosts joined by respellings, the same port once the default is filled in,
      the same database name. Protocol, path spelling and query are free. */
  ghost predicate SameDatabase(url: Url, other: Url) {
    && Joined(url.hostname, other.hostname) && EffectivePort(url) == EffectivePort(other)
    && DatabaseName(url.pathname) == DatabaseName(other.pathname)
  }

  /** A respelled URL has the same target, unless it is not an acceptable URL at all. */
  lemma RespelledTarget(url: Url, other: Url)
    requires TargetOf(url).Ok? && SameDatabase(url, other)
    ensures TargetOf(other).Ok? ==> TargetOf(other) == TargetOf(url)
  {
    var hosts :| IsChain(hosts) && hosts[0] == url.hostname && hosts[|hosts| - 1] == other.hostname;
    ChainSame(hosts);
  }

  ghost predicate ConnectsBy(config: Config, url: Url) {
    config.runtime == Parsed(url) || config.direct == Parsed(url)
  }

  lemma AcceptedTargets(config: Config, testData: bool, digest: Digest, url: Url)
    requires Check(config, testData, digest).Ok? && ConnectsBy(config, url)
    ensures TargetOf(url).Ok? && Reaches(config, TargetOf(url).value)
  {
  }

  /** No configuration outside production gets past the guard with any spelling of a production database in
      either of its connections, once production itself has been accepted with the same production pin. */
  lemma EverySpellingIsRefused(
    production: Config, other: Config, testData: bool, testData': bool, digest: Digest, url: Url, respelled: Url)
    requires Check(production, testData, digest).Ok? && ScopeOf(production) == "production"
    requires ScopeOf(other) != "production" && other.productionPin == production.productionPin
    requires ConnectsBy(production, url) && ConnectsBy(other, respelled) && SameDatabase(url, respelled)
    ensures Check(other, testData', digest).Err?
  {
    AcceptedTargets(production, testData, digest, url);
    RespelledTarget(url, respelled);
    if Check(other, testData', digest).Ok? {
      AcceptedTargets(other, testData', digest, respelled);
      ProductionIsSeparate(production, other, testData, testData', digest);
    }
  }

  lemma JoinsPair(a: string, b: string)
    requires RespellsHost(a, b) || RespellsHost(b, a)
    ensures Joined(a, b)
  {
    assert IsChain([a, b]);
  }

  lemma JoinsThree(a: string, b: string, c: string)
    requires RespellsHost(a, b) || RespellsHost(b, a)
    requires RespellsHost(b, c) || RespellsHost(c, b)
    ensures Joined(a, c)
  {
    assert IsChain([a, b, c]);
  }

  lemma PooledStep(first: string, rest: string)
    requires '.' !in first && |rest| >= 2 && rest[0] == '.'
    requires EndsWith(BaseHost(first + rest), NEON) && !Contains(BaseHost(first + rest), POOLER_DOT)
    ensures RespellsHost(first + rest, first + POOLER + rest)
  {
    assert RespellsPooled(first + rest, first + POOLER + rest, first, rest);
  }

  lemma DotStep(hostname: string)
    requires hostname != [] && hostname[|hostname| - 1] != '.'
    ensures RespellsHost(hostname, hostname + ".")
  {
  }

  /** Steps go both ways and combine: a pooled host is joined to its direct spelling, and so is a pooled
      host with a final dot. */
  lemma ChainsCombine(first: string, rest: string)
    requires '.' !in first && |rest| >= 2 && rest[0] == '.' && rest[|rest| - 1] != '.'
    requires EndsWith(BaseHost(first + rest), NEON) && !Contains(BaseHost(first + rest), POOLER_DOT)
    ensures Joined(first + POOLER + rest, first + rest)
    ensures Joined(first + POOLER + rest + ".", first + rest)
  {
    var direct, pooled := first + rest, first + POOLER + rest;
    PooledStep(first, rest);
    JoinsPair(pooled, direct);
    DotStep(pooled);
    JoinsThree(pooled + ".", pooled, direct);
  }

  // ---- A host that has a pooled label of its own ----

  lemma BaseOfLower(host: string)
    requires host != [] && host[|host| - 1] != '.' && forall i :: 0 <= i < |host| ==> !IsCapital(host[i])
    ensures BaseHost(host) == host
  {
    ToLowerFixed(host);
  }

  lemma ExampleParts(host: string, pooled: string) returns (first: string, rest: string)
    requires host == "a-pooler.neon.tech" && pooled == "a-pooler-pooler.neon.tech"
    ensures '.' !in first && |first| == 8 && first[1..] == POOLER && rest == NEON
    ensures host == first + rest && pooled == first + POOLER + rest
    ensures forall i :: 0 <= i < |host| ==> !IsCapital(host[i])
  {
    first, rest := "a-pooler", ".neon.tech";
  }

  lemma PooledLabelDiffers(first: string)
    requires '.' !in first && |first| == 8 && first[1..] == POOLER
    requires forall i :: 0 <= i < |first + NEON| ==> !IsCapital((first + NEON)[i])
    ensures NormalizeHost(first + POOLER + NEON) != NormalizeHost(first + NEON)
  {
    var host := first + NEON;
    BaseOfLower(host);
    assert host[1..9] == POOLER_DOT;
    assert OccursAt(host, POOLER_DOT, 1);
    assert host[|first|..] == NEON;
    PooledSpellingExactly(first, NEON);
  }

  /** The input that shows it: adding "-pooler" to the first label gives another host. */
  lemma PooledLabelFails(host: string, pooled: string)
    requires host == "a-pooler.neon.tech" && pooled == "a-pooler-pooler.neon.tech"
    ensures NormalizeHost(pooled) != NormalizeHost(host)
  {
    var first, rest := ExampleParts(host, pooled);
    PooledLabelDiffers(first);
  }
}
