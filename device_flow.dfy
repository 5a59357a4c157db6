/**
 * The `login` command: the client side of the OAuth 2.0 Device Authorization
 * Grant (RFC 8628) as written in server/src/cli/commands/auth/login.ts.
 *
 * Real timers are replaced by the list of delays handed to `setTimeout`
 * (milliseconds), the authorization server by the sequence of its answers,
 * and `process.exit` by an outcome value.
 */
module DeviceFlow {
  import opened Wrappers

  /** Default server URL of the CLI. */
  const DefaultServerUrl := "http://localhost:3005"
  /** Polling interval in seconds when the device-code answer omits it (section 3.2 of RFC 8628). */
  const DefaultInterval := 5
  /** Seconds added to the interval on `slow_down` (section 3.5 of RFC 8628). */
  const SlowDownIncrement := 5
  /** Grant type of the token request (section 3.4 of RFC 8628). */
  const DeviceCodeGrantType := "urn:ietf:params:oauth:grant-type:device_code"
  const RequestedScope := "openid profile email"

  // ---------------------------------------------------------------------------
  // One poll
  // ---------------------------------------------------------------------------

  /** The `data` object of a successful token answer, resolved as a whole. */
  datatype TokenData = TokenData(accessToken: Option<string>, tokenType: Option<string>, expiresIn: Option<int>)

  /** The `error` object of a failed token answer. */
  datatype ErrorBody = ErrorBody(error: string, description: Option<string>)

  /** What one `authClient.device.token(...)` call gives back. */
  datatype TokenReply =
    | Answered(data: Option<TokenData>, error: Option<ErrorBody>)
    | Threw(message: string)

  /** The error codes of section 3.5 of RFC 8628 that the poller tells apart. */
  datatype ErrorKind = AuthorizationPending | SlowDown | AccessDenied | ExpiredToken | Unrecognised

  function Classify(code: string): (k: ErrorKind)
    ensures k == AuthorizationPending <==> code == "authorization_pending"
    ensures k == SlowDown <==> code == "slow_down"
    ensures k == AccessDenied <==> code == "access_denied"
    ensures k == ExpiredToken <==> code == "expired_token"
  {
    if code == "authorization_pending" then AuthorizationPending
    else if code == "slow_down" then SlowDown
    else if code == "access_denied" then AccessDenied
    else if code == "expired_token" then ExpiredToken
    else Unrecognised
  }

  datatype TokenRequest = TokenRequest(grantType: string, deviceCode: string, clientId: string)

  function MakeTokenRequest(deviceCode: string, clientId: string): (r: TokenRequest)
    ensures r.grantType == DeviceCodeGrantType
    ensures r.deviceCode == deviceCode && r.clientId == clientId
  {
    TokenRequest(DeviceCodeGrantType, deviceCode, clientId)
  }

  /** What one tick of `poll` decides. */
  datatype Step =
    | Reschedule(interval: int)   // setTimeout(poll, interval * 1000)
    | Resolve(data: TokenData)    // resolve(data); no new timer
    | Stall                       // return without timer, resolve or reject
    | ExitProcess(code: int)      // process.exit(code)
    | Reject(message: string)     // reject(error); no new timer

  predicate HasAccessToken(reply: TokenReply) {
    reply.Answered? && reply.data.Some? && Truthy(reply.data.value.accessToken)
  }

  predicate IsSlowDown(reply: TokenReply) {
    reply.Answered? && !HasAccessToken(reply) && reply.error.Some? && Classify(reply.error.value.error) == SlowDown
  }

  /** One tick of `pollForToken`: the decision taken on one answer at the current interval. */
  function PollStep(interval: int, reply: TokenReply): (s: Step)
    ensures s.Resolve? <==> HasAccessToken(reply)
    ensures s.Resolve? ==> reply.data == Some(s.data)
    ensures s.Reschedule? ==> s.interval == interval + (if IsSlowDown(reply) then SlowDownIncrement else 0)
    ensures s.Reject? <==> reply.Threw?
    ensures s.ExitProcess? ==> s.code == 1
    ensures s.Stall? <==> reply.Answered? && !HasAccessToken(reply) && reply.error.Some?
                          && Classify(reply.error.value.error) in {AccessDenied, ExpiredToken}
    ensures s.Reschedule? <==> reply.Answered? && !HasAccessToken(reply)
                               && (reply.error.None? || Classify(reply.error.value.error) in {AuthorizationPending, SlowDown})
  {
    match reply
    case Threw(message) => Reject(message)
    case Answered(data, error) =>
      if data.Some? && Truthy(data.value.accessToken) then Resolve(data.value)
      else if error.Some? then
        match Classify(error.value.error)
        case AuthorizationPending => Reschedule(interval)
        case SlowDown => Reschedule(interval + SlowDownIncrement)
        case AccessDenied => Stall
        case ExpiredToken => Stall
        case Unrecognised => ExitProcess(1)
      else Reschedule(interval)
  }

  // ---------------------------------------------------------------------------
  // The polling session
  // ---------------------------------------------------------------------------

  datatype PollOutcome =
    | Resolved(data: TokenData)
    | Stalled
    | Exited(code: int)
    | Rejected(message: string)
    | Pending   // the answers ran out while a timer is still set

  predicate Terminal(o: PollOutcome) { !o.Pending? }

  /** The rest of a session from a moment when a timer for `interval` is set. */
  datatype Run = Run(delays: seq<int>, requests: nat, outcome: PollOutcome, interval: int)

  /** Replays the answers in order; `delays` holds each new timer's delay in milliseconds. */
  function Drive(interval: int, replies: seq<TokenReply>): (r: Run)
    ensures r.requests <= |replies|
    decreases |replies|
  {
    if replies == [] then Run([], 0, Pending, interval)
    else
      match PollStep(interval, replies[0])
      case Reschedule(next) =>
        var rest := Drive(next, replies[1..]);
        Run([next * 1000] + rest.delays, rest.requests + 1, rest.outcome, rest.interval)
      case Resolve(data) => Run([], 1, Resolved(data), interval)
      case Stall => Run([], 1, Stalled, interval)
      case ExitProcess(code) => Run([], 1, Exited(code), interval)
      case Reject(message) => Run([], 1, Rejected(message), interval)
  }

  /** Everything one `pollForToken` call does, given the server's answers in order. */
  datatype PollTrace = PollTrace(delays: seq<int>, requests: seq<TokenRequest>, outcome: PollOutcome, finalInterval: int)

  function PollSpec(deviceCode: string, clientId: string, interval: int, replies: seq<TokenReply>): (t: PollTrace)
    ensures |t.delays| >= 1 && t.delays[0] == interval * 1000
    ensures |t.requests| <= |replies|
    ensures forall r <- t.requests :: r.grantType == DeviceCodeGrantType
  {
    var run := Drive(interval, replies);
    PollTrace([interval * 1000] + run.delays, seq(run.requests, _ => MakeTokenRequest(deviceCode, clientId)),
              run.outcome, run.interval)
  }

  /** A run that continues a session which already set the timers `delays` and sent `done` requests. */
  function Resume(delays: seq<int>, done: nat, rest: Run): Run {
    Run(delays + rest.delays, done + rest.requests, rest.outcome, rest.interval)
  }

  lemma ResumeTwice(delays: seq<int>, done: nat, more: seq<int>, k: nat, rest: Run)
    ensures Resume(delays, done, Resume(more, k, rest)) == Resume(delays + more, done + k, rest)
  {
    assert delays + (more + rest.delays) == (delays + more) + rest.delays;
  }

  /** The session from answer `i` on, one step unfolded. */
  lemma DriveUnfold(interval: int, replies: seq<TokenReply>, i: nat)
    requires i < |replies|
    ensures PollStep(interval, replies[i]).Reschedule? ==>
              var next := PollStep(interval, replies[i]).interval;
              Drive(interval, replies[i..]) == Resume([next * 1000], 1, Drive(next, replies[i + 1..]))
    ensures !PollStep(interval, replies[i]).Reschedule? ==>
              Drive(interval, replies[i..]) == Run([], 1, Settle(PollStep(interval, replies[i])), interval)
  {
    assert replies[i..][0] == replies[i] && replies[i..][1..] == replies[i + 1..];
  }

  /** `pollForToken`: schedules the first poll one interval ahead and reschedules after each answer. */
  method PollForToken(deviceCode: string, clientId: string, interval: int, replies: seq<TokenReply>)
    returns (trace: PollTrace)
    ensures trace == PollSpec(deviceCode, clientId, interval, replies)
  {
    var pollingInterval := interval;
    var delays := [pollingInterval * 1000];
    var requests: seq<TokenRequest> := [];
    var i := 0;
    while i < |replies|
      invariant 0 <= i <= |replies|
      invariant |delays| >= 1 && delays[0] == interval * 1000
      invariant requests == seq(i, _ => MakeTokenRequest(deviceCode, clientId))
      invariant Drive(interval, replies) == Resume(delays[1..], i, Drive(pollingInterval, replies[i..]))
    {
      requests := requests + [MakeTokenRequest(deviceCode, clientId)];
      var step := PollStep(pollingInterval, replies[i]);
      DriveUnfold(pollingInterval, replies, i);
      i := i + 1;
      match step {
        case Reschedule(next) =>
          assert (delays + [next * 1000])[1..] == delays[1..] + [next * 1000];
          ResumeTwice(delays[1..], i - 1, [next * 1000], 1, Drive(next, replies[i..]));
          pollingInterval := next;
          delays := delays + [pollingInterval * 1000];
        case Resolve(data) =>
          return PollTrace(delays, requests, Resolved(data), pollingInterval);
        case Stall =>
          return PollTrace(delays, requests, Stalled, pollingInterval);
        case ExitProcess(code) =>
          return PollTrace(delays, requests, Exited(code), pollingInterval);
        case Reject(message) =>
          return PollTrace(delays, requests, Rejected(message), pollingInterval);
      }
    }
    trace := PollTrace(delays, requests, Pending, pollingInterval);
  }

  // ---------------------------------------------------------------------------
  // Properties of a polling session
  // ---------------------------------------------------------------------------

  /** A reply after which the poller sets a new timer. */
  predicate Continues(reply: TokenReply) {
    reply.Answered? && !HasAccessToken(reply)
    && (reply.error.None? || Classify(reply.error.value.error) in {AuthorizationPending, SlowDown})
  }

  /** How a session ends on a step that sets no timer. */
  function Settle(s: Step): PollOutcome
    requires !s.Reschedule?
  {
    match s
    case Resolve(data) => Resolved(data)
    case Stall => Stalled
    case ExitProcess(code) => Exited(code)
    case Reject(message) => Rejected(message)
  }

  lemma {:induction false} DriveShape(interval: int, replies: seq<TokenReply>)
    ensures var r := Drive(interval, replies);
            && |r.delays| + (if r.outcome.Pending? then 0 else 1) == r.requests
            && (r.outcome.Pending? ==> r.requests == |replies|)
            && (forall k :: 0 <= k < |r.delays| ==> Continues(replies[k]))
            && r.interval >= interval
            && (Terminal(r.outcome) ==>
                  && !Continues(replies[r.requests - 1])
                  && r.outcome == Settle(PollStep(r.interval, replies[r.requests - 1])))
    decreases |replies|
  {
    if replies != [] {
      var step := PollStep(interval, replies[0]);
      if step.Reschedule? {
        var rest := Drive(step.interval, replies[1..]);
        DriveShape(step.interval, replies[1..]);
        var r := Drive(interval, replies);
        forall k | 0 <= k < |r.delays| ensures Continues(replies[k]) {
          if k > 0 { assert replies[k] == replies[1..][k - 1]; }
        }
        if Terminal(r.outcome) {
          assert replies[r.requests - 1] == replies[1..][rest.requests - 1];
        }
      }
    }
  }

  /**
   * The shape of a session: timers and requests alternate, so at most one
   * request is ever in flight; every request but a final one got an answer
   * that sets a new timer; a session that ended did so on the answer to its
   * last request, and looked at no answer after it.
   */
  lemma SessionShape(deviceCode: string, clientId: string, interval: int, replies: seq<TokenReply>)
    ensures var t := PollSpec(deviceCode, clientId, interval, replies);
            && t.delays[0] == interval * 1000
            && |t.delays| == |t.requests| + (if t.outcome.Pending? then 1 else 0)
            && |t.requests| <= |replies|
            && (t.outcome.Pending? ==> |t.requests| == |replies|)
            && (forall k :: 0 <= k < |t.delays| - 1 ==> Continues(replies[k]))
            && (Terminal(t.outcome) ==>
                  && !Continues(replies[|t.requests| - 1])
                  && t.outcome == Settle(PollStep(t.finalInterval, replies[|t.requests| - 1])))
            && forall r <- t.requests :: r == MakeTokenRequest(deviceCode, clientId)
  {
    DriveShape(interval, replies);
  }

  /** Once a session has ended, answers that would have come later change nothing. */
  lemma {:induction false} NoPollAfterTerminal(interval: int, replies: seq<TokenReply>, later: seq<TokenReply>)
    requires Terminal(Drive(interval, replies).outcome)
    ensures Drive(interval, replies + later) == Drive(interval, replies)
    decreases |replies|
  {
    assert replies != [];
    assert (replies + later)[0] == replies[0];
    var step := PollStep(interval, replies[0]);
    if step.Reschedule? {
      assert (replies + later)[1..] == replies[1..] + later;
      NoPollAfterTerminal(step.interval, replies[1..], later);
    }
  }

  /** Milliseconds a reply adds to the next delay. */
  function SlowDownDelta(reply: TokenReply): int {
    if IsSlowDown(reply) then SlowDownIncrement * 1000 else 0
  }

  /** Each delay is the previous one plus 5 s after `slow_down` and the same otherwise. */
  predicate FollowsReplies(d: seq<int>, replies: seq<TokenReply>) {
    && |d| <= |replies| + 1
    && forall k :: 0 <= k < |d| - 1 ==> d[k + 1] == d[k] + SlowDownDelta(replies[k])
  }

  lemma {:induction false} DriveDelays(interval: int, replies: seq<TokenReply>)
    ensures FollowsReplies([interval * 1000] + Drive(interval, replies).delays, replies)
    decreases |replies|
  {
    if replies != [] {
      var step := PollStep(interval, replies[0]);
      if step.Reschedule? {
        DriveDelays(step.interval, replies[1..]);
        var rest := Drive(step.interval, replies[1..]);
        var d' := [step.interval * 1000] + rest.delays;
        var d := [interval * 1000] + d';
        assert d == [interval * 1000] + Drive(interval, replies).delays;
        forall k | 0 <= k < |d| - 1
          ensures d[k + 1] == d[k] + SlowDownDelta(replies[k])
        {
          if k > 0 {
            assert replies[k] == replies[1..][k - 1];
            assert d[k + 1] == d'[k] && d[k] == d'[k - 1];
          }
        }
      }
    }
  }

  lemma {:induction false} IncreasingUpTo(d: seq<int>, j: nat, k: nat)
    requires forall i :: 0 <= i < |d| - 1 ==> d[i] <= d[i + 1]
    requires j <= k < |d|
    ensures d[j] <= d[k]
    decreases k - j
  {
    if j < k { IncreasingUpTo(d, j + 1, k); }
  }

  /**
   * The delays of a session follow the answers: `slow_down` adds exactly
   * 5000 ms, every other answer that sets a timer keeps it, so the delays
   * never decrease and none is shorter than the first interval.
   */
  lemma PollDelays(deviceCode: string, clientId: string, interval: int, replies: seq<TokenReply>)
    ensures FollowsReplies(PollSpec(deviceCode, clientId, interval, replies).delays, replies)
    ensures var d := PollSpec(deviceCode, clientId, interval, replies).delays;
            forall j, k :: 0 <= j <= k < |d| ==> interval * 1000 <= d[j] <= d[k]
  {
    DriveDelays(interval, replies);
    var d := PollSpec(deviceCode, clientId, interval, replies).delays;
    forall i | 0 <= i < |d| - 1 ensures d[i] <= d[i + 1] {
      assert SlowDownDelta(replies[i]) >= 0;
    }
    forall j, k | 0 <= j <= k < |d| ensures interval * 1000 <= d[j] <= d[k] {
      IncreasingUpTo(d, 0, j);
      IncreasingUpTo(d, j, k);
    }
  }

  /** The RFC 8628 example run: two `slow_down`s, then a token, at the default interval. */
  lemma SlowDownTwiceThenToken(deviceCode: string, clientId: string, data: TokenData)
    requires data.accessToken == Some("tok")
    ensures var slow := Answered(None, Some(ErrorBody("slow_down", None)));
            var t := PollSpec(deviceCode, clientId, DefaultInterval, [slow, slow, Answered(Some(data), None)]);
            t.delays == [5000, 10000, 15000] && |t.requests| == 3 && t.outcome == Resolved(data)
  {
    var slow := Answered(None, Some(ErrorBody("slow_down", None)));
    var granted := Answered(Some(data), None);
    assert Drive(15, [granted]) == Run([], 1, Resolved(data), 15);
    assert [slow, slow, granted][1..] == [slow, granted] && [slow, granted][1..] == [granted];
    assert Drive(10, [slow, granted]) == Run([15000], 2, Resolved(data), 15);
  }

  /** `expired_token` ends polling after one request, with no timer left and nothing resolved. */
  lemma ExpiredTokenStops(deviceCode: string, clientId: string, later: seq<TokenReply>)
    ensures var t := PollSpec(deviceCode, clientId, DefaultInterval, [Answered(None, Some(ErrorBody("expired_token", None)))] + later);
            t.delays == [5000] && |t.requests| == 1 && t.outcome == Stalled
  {
    var expired := [Answered(None, Some(ErrorBody("expired_token", None)))];
    assert Drive(DefaultInterval, expired).outcome == Stalled;
    NoPollAfterTerminal(DefaultInterval, expired, later);
  }

  // ---------------------------------------------------------------------------
  // loginAction
  // ---------------------------------------------------------------------------

  /** The option object commander hands to the action, keyed as commander names options. */
  type CliOptions = map<string, string>

  function Lookup(opts: CliOptions, key: string): Option<string> {
    if key in opts then Some(opts[key]) else None
  }

  /**
   * What commander builds from `--server-url` and `--client-id`: it stores them
   * under the camel-cased keys `serverUrl` and `clientId`, falling back to the
   * declared defaults (the server URL constant, and the environment's client id
   * when that is set).
   */
  function CommanderOptions(serverUrlFlag: Option<string>, clientIdFlag: Option<string>, envClientId: Option<string>): (o: CliOptions)
    ensures Lookup(o, "serverUrl") == Some(if serverUrlFlag.Some? then serverUrlFlag.value else DefaultServerUrl)
    ensures Lookup(o, "clientId") == if clientIdFlag.Some? then clientIdFlag else envClientId
    ensures "serverURL" !in o
  {
    var withUrl := map["serverUrl" := if serverUrlFlag.Some? then serverUrlFlag.value else DefaultServerUrl];
    if clientIdFlag.Some? then withUrl["clientId" := clientIdFlag.value]
    else if envClientId.Some? then withUrl["clientId" := envClientId.value]
    else withUrl
  }

  /** The zod schema of `loginAction` keeps only the keys `serverURL` and `clientId`. */
  datatype LoginOptions = LoginOptions(serverURL: Option<string>, clientId: Option<string>)

  function ParseOptions(opts: CliOptions): (r: LoginOptions)
    ensures r.serverURL.Some? <==> "serverURL" in opts
    ensures r.clientId.Some? <==> "clientId" in opts
  {
    LoginOptions(Lookup(opts, "serverURL"), Lookup(opts, "clientId"))
  }

  /** The server URL exactly as `loginAction` computes it: `options.serverURL || URL`. */
  function ServerUrlAsWritten(opts: CliOptions): (r: string)
    ensures "serverURL" !in opts ==> r == DefaultServerUrl
    ensures r == DefaultServerUrl || r == opts["serverURL"]
  {
    OrElse(ParseOptions(opts).serverURL, Some(DefaultServerUrl)).value
  }

  /** The schema key differs in case from the key commander sets, so `--server-url` is never used. */
  lemma ServerUrlFlagIgnored(url: string, clientIdFlag: Option<string>, envClientId: Option<string>)
    ensures ServerUrlAsWritten(CommanderOptions(Some(url), clientIdFlag, envClientId)) == DefaultServerUrl
  {
  }

  /** The server URL as evidently intended: the value commander stored for `--server-url`, else the default. */
  function ServerUrl(opts: CliOptions): (r: string)
    ensures "serverUrl" in opts && opts["serverUrl"] != "" ==> r == opts["serverUrl"]
    ensures !("serverUrl" in opts && opts["serverUrl"] != "") ==> r == DefaultServerUrl
  {
    OrElse(Lookup(opts, "serverUrl"), Some(DefaultServerUrl)).value
  }

  /** With the intended key, a non-empty `--server-url` is the server the login talks to. */
  lemma ServerUrlFlagHonoured(url: string, clientIdFlag: Option<string>, envClientId: Option<string>)
    ensures var server := ServerUrl(CommanderOptions(Some(url), clientIdFlag, envClientId));
            && (url != "" ==> server == url)
            && (url == "" ==> server == DefaultServerUrl)
  {
  }

  /** `options.clientId || CLIENT_ID`. */
  function ClientId(opts: CliOptions, envClientId: Option<string>): (r: Option<string>)
    ensures "clientId" in opts && opts["clientId"] != "" ==> r == Some(opts["clientId"])
    ensures !("clientId" in opts && opts["clientId"] != "") ==> r == envClientId
  {
    OrElse(ParseOptions(opts).clientId, envClientId)
  }

  /** The destructuring default `interval = 5`, which applies only when the field is absent. */
  function IntervalOrDefault(interval: Option<int>): (r: int)
    ensures interval.None? ==> r == DefaultInterval
    ensures interval.Some? ==> r == interval.value
  {
    if interval.Some? then interval.value else DefaultInterval
  }

  datatype ReauthAnswer = Reauthenticate | KeepSession | PromptCancelled

  /** The part of the device-code answer the flow uses (section 3.2 of RFC 8628). */
  datatype DeviceCodeData = DeviceCodeData(deviceCode: string, userCode: string, interval: Option<int>, expiresIn: int)

  datatype DeviceCodeReply =
    | CodeIssued(data: DeviceCodeData)
    | CodeError(error: string)
    | CodeThrew(message: string)

  /** Everything outside the CLI that `loginAction` consults, in the order it does. */
  datatype LoginEnv = LoginEnv(
    envClientId: Option<string>,     // GITHUB_CLIENT_ID
    storedToken: bool,               // getStoredToken() gave a token
    tokenExpired: bool,              // isTokenExpired()
    reauth: ReauthAnswer,            // the re-authenticate prompt
    deviceCodeReply: DeviceCodeReply,
    tokenReplies: seq<TokenReply>,   // the answers to successive polls
    saveSucceeds: bool)              // storeToken(token)

  datatype DeviceCodeRequest = DeviceCodeRequest(clientId: string, scope: string)

  datatype LoginStatus =
    | ExitedWith(code: int)
    | LoggedIn
    | Waiting   // pollForToken's promise never settles

  datatype LoginRun = LoginRun(
    status: LoginStatus,
    authServer: Option<string>,              // the base URL the auth client was created with
    deviceCodeRequest: Option<DeviceCodeRequest>,
    poll: Option<PollTrace>,
    savedToken: Option<TokenData>,           // the token handed to storeToken
    saveWarning: bool)                       // "Failed to save token locally."

  /** `loginAction`: a series of early exits around one polling session. */
  method LoginAction(opts: CliOptions, env: LoginEnv) returns (run: LoginRun)
    ensures !Truthy(ClientId(opts, env.envClientId)) ==>
              run == LoginRun(ExitedWith(1), None, None, None, None, false)
    ensures Truthy(ClientId(opts, env.envClientId)) && env.storedToken && !env.tokenExpired && env.reauth != Reauthenticate ==>
              run == LoginRun(ExitedWith(0), None, None, None, None, false)
    ensures run.authServer.Some? <==> run.deviceCodeRequest.Some?
    ensures run.deviceCodeRequest.Some? ==>
              && run.authServer == Some(ServerUrl(opts))
              && run.deviceCodeRequest.value == DeviceCodeRequest(ClientId(opts, env.envClientId).value, RequestedScope)
    ensures run.poll.Some? <==> run.deviceCodeRequest.Some? && env.deviceCodeReply.CodeIssued?
    ensures run.poll.Some? ==>
              run.poll.value == PollSpec(env.deviceCodeReply.data.deviceCode, ClientId(opts, env.envClientId).value,
                                         IntervalOrDefault(env.deviceCodeReply.data.interval), env.tokenReplies)
    ensures run.deviceCodeRequest.Some? && !env.deviceCodeReply.CodeIssued? ==> run.status == ExitedWith(1)
    ensures run.savedToken.Some? <==> run.poll.Some? && run.poll.value.outcome.Resolved?
    ensures run.savedToken.Some? ==> run.savedToken.value == run.poll.value.outcome.data
    ensures run.status == LoggedIn <==> run.savedToken.Some?
    ensures run.saveWarning <==> run.savedToken.Some? && !env.saveSucceeds
    ensures run.poll.Some? && run.poll.value.outcome.Rejected? ==> run.status == ExitedWith(1)
    ensures run.poll.Some? && run.poll.value.outcome.Exited? ==> run.status == ExitedWith(1)
    ensures run.status == Waiting <==> run.poll.Some? && run.poll.value.outcome in {Stalled, Pending}
  {
    var options := ParseOptions(opts);
    var serverUrl := ServerUrl(opts);
    var clientId := OrElse(options.clientId, env.envClientId);
    if !Truthy(clientId) {
      return LoginRun(ExitedWith(1), None, None, None, None, false);
    }
    if env.storedToken && !env.tokenExpired {
      if env.reauth != Reauthenticate {
        return LoginRun(ExitedWith(0), None, None, None, None, false);
      }
    }
    var request := DeviceCodeRequest(clientId.value, RequestedScope);
    var data;
    match env.deviceCodeReply {
      case CodeThrew(_) =>
        return LoginRun(ExitedWith(1), Some(serverUrl), Some(request), None, None, false);
      case CodeError(_) =>
        return LoginRun(ExitedWith(1), Some(serverUrl), Some(request), None, None, false);
      case CodeIssued(d) =>
        data := d;
    }
    var trace := PollForToken(data.deviceCode, clientId.value, IntervalOrDefault(data.interval), env.tokenReplies);
    match trace.outcome {
      case Resolved(token) =>
        var saved := env.saveSucceeds;
        run := LoginRun(LoggedIn, Some(serverUrl), Some(request), Some(trace), Some(token), !saved);
      case Rejected(_) =>
        run := LoginRun(ExitedWith(1), Some(serverUrl), Some(request), Some(trace), None, false);
      case Exited(code) =>
        SessionShape(data.deviceCode, clientId.value, IntervalOrDefault(data.interval), env.tokenReplies);
        run := LoginRun(ExitedWith(code), Some(serverUrl), Some(request), Some(trace), None, false);
      case Stalled =>
        run := LoginRun(Waiting, Some(serverUrl), Some(request), Some(trace), None, false);
      case Pending =>
        run := LoginRun(Waiting, Some(serverUrl), Some(request), Some(trace), None, false);
    }
  }
}
