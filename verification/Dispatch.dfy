/** Retry and failover of one request: `dispatch` of internal/executor/middleware_dispatch.go and the
    closing step of middleware_egress.go, as functions of what the outside world does.

    Everything that the loops do not decide themselves comes in a script of turns, one per pass of
    the inner loop: what the context says at each point it is looked at, whether quota, conversion
    and provider slot allow the attempt, and how the attempt ends.  A script that is too short
    leaves the run unfinished. */
module Dispatch {
  import opened Options

  // ---------------------------------------------------------------- errors

  datatype Scope = NoScope | RequestScope | ModelScope | KeyScope | EndpointScope | ProviderScope

  /** What dispatch looks at in a ProxyError: `network` says the reason is a network error,
      `connectFailure` that it is the failure to connect, `streamText` and `bedrockText` that its
      text has the words looked for, `hinted` that it names a time to wait, `disconnected` that it
      is about a client that has gone. */
  datatype ProxyError = ProxyError(
    scope: Scope, network: bool, retryable: bool, status: int,
    connectFailure: bool, streamText: bool, bedrockText: bool, hinted: bool, disconnected: bool)

  datatype Context = Alive | Canceled | DeadlineExceeded

  datatype Failure =
    | Proxy(error: ProxyError)
    | Plain(gone: bool)
    | Stopped(context: Context)
    | NoQuota
    | Exhausted

  predicate Disconnected(f: Failure) {
    match f
    case Proxy(p) => p.disconnected
    case Plain(gone) => gone
    case _ => false
  }

  function Normalize(p: ProxyError): ProxyError {
    if p.connectFailure then p.(scope := ProviderScope, network := true, retryable := true) else p
  }

  predicate IsStreamRead(p: ProxyError) {
    p.scope.ProviderScope? && p.network && p.streamText
  }

  predicate DisabledRetryable(p: ProxyError) {
    && !(p.scope.RequestScope? && p.status == 400 && p.bedrockText)
    && (400 <= p.status < 600 || IsStreamRead(p))
  }

  predicate RetriesCommitted(p: ProxyError) {
    p.retryable && IsStreamRead(p)
  }

  /** The policies that apply to every failed attempt. */
  function Judged(p: ProxyError, disabled: bool): ProxyError {
    var p1 := Normalize(p);
    var p2 := if disabled && DisabledRetryable(p1) then p1.(retryable := true) else p1;
    if IsStreamRead(p2) then p2.(retryable := true) else p2
  }

  /** forceRetryUpstreamErrorIfSafe */
  function Forced(p: ProxyError, context: Context, wrote: bool, enabled: bool): ProxyError {
    if !enabled || p.retryable || !context.Alive? || (wrote && !RetriesCommitted(p)) then p
    else if p.scope.RequestScope? || p.scope.KeyScope? then p
    else if 400 <= p.status < 500 && p.status != 429 then p
    else if p.scope.ProviderScope? || p.scope.EndpointScope? || p.scope.ModelScope? then p.(retryable := true)
    else p
  }

  predicate DefersCooldown(p: ProxyError, attempt: int, maxRetries: int) {
    p.retryable && p.network && !p.hinted && attempt < maxRetries
  }

  // ---------------------------------------------------------------- what the world does

  /** A matched route; `models` are the candidates for the request's model, `key` the place where a
      successful candidate is remembered. */
  datatype Route = Route(
    provider: nat, models: seq<string>, maxRetries: int, disabled: bool, smart: bool, limit: int, force: bool,
    key: string, start: Context)

  datatype Conversion = Fine | Refused(error: ProxyError)

  datatype Turn = Turn(
    top: Context, quota: bool, conversion: Conversion, slot: bool,
    error: Option<Failure>, finalizeFails: Option<ProxyError>, wrote: bool,
    atRecord: Context, atCheck: Context, atForce: Context, atCooldown: Context, atWait: Context)

  predicate UsesSmart(r: Route) {
    r.disabled && r.smart && |r.models| > 1
  }

  function Limit(r: Route): nat
    ensures Limit(r) >= 1
  {
    if r.limit <= 0 then 1 else r.limit
  }

  // ---------------------------------------------------------------- the request and its attempts

  datatype Status = InProgress | Completed | Failed | Cancelled | Rejected

  /** One execution of an adapter: who, with which model, whether the client saw anything of it,
      and the error it ended with. */
  datatype Trial = Trial(provider: nat, model: string, wrote: bool, error: Option<Failure>)

  /** `acquired` and `released` are the providers whose slots were taken and given back, in order. */
  datatype State = State(
    status: Status, lastErr: Option<Failure>, attempts: seq<Status>, open: bool, count: nat,
    acquired: seq<nat>, released: seq<nat>, log: seq<Trial>, cooled: seq<nat>, memory: map<string, string>)

  function Fresh(memory: map<string, string>): State {
    State(InProgress, None, [], false, 0, [], [], [], [], memory)
  }

  function FailureStatus(context: Context, f: Option<Failure>): Status {
    if context.Canceled? && f.Some? && Disconnected(f.value) then Cancelled else Failed
  }

  datatype Verdict = Return | NextRoute | Again(attempt: int, candidate: nat)

  function TakeSlot(s: State, r: Route): State {
    s.(acquired := s.acquired + [r.provider])
  }

  /** An attempt record is opened. */
  function Begin(s: State): State {
    s.(attempts := s.attempts + [InProgress], open := true, count := s.count + 1)
  }

  function ErrorOf(turn: Turn): Option<Failure> {
    if turn.finalizeFails.Some? then Some(Proxy(turn.finalizeFails.value)) else turn.error
  }

  /** The adapter runs, and the slot is given back whatever happens. */
  function Execute(s: State, r: Route, model: string, turn: Turn): State {
    s.(released := s.released + [r.provider],
       log := s.log + [Trial(r.provider, model, turn.wrote, ErrorOf(turn))])
  }

  function Ran(s: State, r: Route, model: string, turn: Turn): State {
    Execute(Begin(TakeSlot(s, r)), r, model, turn)
  }

  function CloseAttempt(s: State, status: Status): State {
    if s.attempts == [] then s else s.(attempts := s.attempts[|s.attempts| - 1 := status], open := false)
  }

  function Succeed(s: State, r: Route, model: string): State {
    var s1 := CloseAttempt(s, Completed);
    s1.(memory := if UsesSmart(r) && r.key != "" && model != "" then s1.memory[r.key := model] else s1.memory,
        status := Completed, lastErr := None)
  }

  /** Only the outcome of the request and the cooldowns may differ. */
  predicate SameAttempts(s: State, t: State) {
    t == s.(status := t.status, lastErr := t.lastErr, cooled := t.cooled)
  }

  /** A request that is given up has failed or was cancelled; otherwise it goes on. */
  predicate FailsOrGoesOn(s: State, t: State, verdict: Verdict) {
    t.lastErr.Some? && if verdict.Return? then t.status.Failed? || t.status.Cancelled? else t.status == s.status
  }

  /** What follows a failed attempt that may be retried. */
  function Advance(s: State, r: Route, attempt: int, candidate: nat, p: ProxyError,
                   turn: Turn): (result: (State, Verdict))
    ensures SameAttempts(s, result.0) && (s.lastErr.Some? ==> FailsOrGoesOn(s, result.0, result.1))
    ensures result.0.cooled == s.cooled
  {
    if UsesSmart(r) && attempt + 1 >= Limit(r) then
      var next := if candidate + 1 >= |r.models| && r.disabled then 0 else candidate + 1;
      (s, if next < |r.models| then Again(0, next) else NextRoute)
    else if (attempt < r.maxRetries || r.disabled) && !turn.atWait.Alive? then
      (s.(status := FailureStatus(turn.atWait, Some(Proxy(p))), lastErr := Some(Stopped(turn.atWait))), Return)
    else (s, Again(attempt + 1, candidate))
  }

  /** After a failure that is a ProxyError. */
  function HandleProxyError(s: State, r: Route, attempt: int, candidate: nat, p: ProxyError,
                            turn: Turn): (result: (State, Verdict))
    ensures SameAttempts(s, result.0) && FailsOrGoesOn(s, result.0, result.1)
  {
    var judged := Judged(p, r.disabled);
    var s0 := s.(lastErr := Some(Proxy(judged)));
    if turn.wrote && !RetriesCommitted(judged) then (s0.(status := Failed), Return)
    else if !turn.atCheck.Alive? then
      (s0.(status := FailureStatus(turn.atCheck, Some(Proxy(judged))), lastErr := Some(Stopped(turn.atCheck))), Return)
    else
      var final := Forced(judged, turn.atForce, turn.wrote, r.force);
      var s1 := s0.(lastErr := Some(Proxy(final)));
      if final.scope.RequestScope? && !final.retryable then (s1.(status := Failed), Return)
      else
        var cools := !turn.atCooldown.Canceled? && !r.disabled && !DefersCooldown(final, attempt, r.maxRetries)
                     && !final.scope.RequestScope?;
        var s2 := if cools then s1.(cooled := s1.cooled + [r.provider]) else s1;
        if !final.retryable then (s2, NextRoute) else Advance(s2, r, attempt, candidate, final, turn)
  }

  function HandleFailure(s: State, r: Route, attempt: int, candidate: nat, f: Failure, turn: Turn): (State, Verdict) {
    var s1 := CloseAttempt(s, FailureStatus(turn.atRecord, Some(f))).(lastErr := Some(f));
    if f.Proxy? then HandleProxyError(s1, r, attempt, candidate, f.error, turn)
    else if turn.wrote then (s1.(status := Failed), Return)
    else (s1, NextRoute)
  }

  const BUSY := ProxyError(ProviderScope, false, true, 429, false, false, false, false, false)

  /** One pass of the inner loop, from the quota check on. */
  function Attempt(s: State, r: Route, attempt: int, candidate: nat, turn: Turn): (State, Verdict)
    requires candidate < |r.models|
  {
    if !turn.quota then (s.(status := Rejected, lastErr := Some(NoQuota)), Return)
    else if turn.conversion.Refused? then (s.(lastErr := Some(Proxy(turn.conversion.error))), NextRoute)
    else if !turn.slot then (s.(lastErr := Some(Proxy(BUSY))), NextRoute)
    else
      var model := r.models[candidate];
      var s1 := Ran(s, r, model, turn);
      if ErrorOf(turn).None? then (Succeed(s1, r, model), Return)
      else HandleFailure(s1, r, attempt, candidate, ErrorOf(turn).value, turn)
  }

  // ---------------------------------------------------------------- the loops

  datatype Exit = Done | Over | Starved

  /** The inner loop; Over means that the next route is tried, Starved that the script ended. */
  function RouteLoop(s: State, r: Route, attempt: int, candidate: nat, turns: seq<Turn>): (State, Exit, seq<Turn>)
    decreases |turns|
  {
    if attempt > r.maxRetries && !r.disabled then (s, Over, turns)
    else if turns == [] then (s, Starved, [])
    else
      var turn, rest := turns[0], turns[1..];
      if !turn.top.Alive? then (s.(lastErr := Some(Stopped(turn.top))), Done, rest)
      else if candidate >= |r.models| then (s, Over, rest)
      else
        match Attempt(s, r, attempt, candidate, turn)
        case (s1, Return) => (s1, Done, rest)
        case (s1, NextRoute) => (s1, Over, rest)
        case (s1, Again(a, c)) => RouteLoop(s1, r, a, c, rest)
  }

  function IndexOf(models: seq<string>, model: string): nat
    decreases |models|
  {
    if models == [] || models[0] == model then 0 else 1 + IndexOf(models[1..], model)
  }

  /** smartMappingStartIndex */
  function StartIndex(memory: map<string, string>, r: Route): nat {
    if !UsesSmart(r) || r.key == "" || r.key !in memory || memory[r.key] == "" || memory[r.key] !in r.models then 0
    else IndexOf(r.models, memory[r.key])
  }

  function RoutesLoop(s: State, routes: seq<Route>, turns: seq<Turn>): (State, Exit)
    decreases |routes|
  {
    if routes == [] then (s, Over)
    else if !routes[0].start.Alive? then (s.(lastErr := Some(Stopped(routes[0].start))), Done)
    else
      match RouteLoop(s, routes[0], 0, StartIndex(s.memory, routes[0]), turns)
      case (s1, Over, rest) => RoutesLoop(s1, routes[1..], rest)
      case (s1, exit, _) => (s1, exit)
  }

  /** When every route has failed. */
  function GiveUp(s: State): State {
    s.(status := Failed, lastErr := if s.lastErr.None? then Some(Exhausted) else s.lastErr)
  }

  /** egress: what is still open is closed. */
  function Egress(s: State, end: Context): State {
    var s1 := if s.status.InProgress? then s.(status := FailureStatus(end, s.lastErr)) else s;
    if s1.open && s1.attempts != [] && s1.attempts[|s1.attempts| - 1].InProgress?
    then s1.(attempts := s1.attempts[|s1.attempts| - 1 := FailureStatus(end, s1.lastErr)]) else s1
  }

  /** The whole request; Starved if the script was too short. */
  function Handle(memory: map<string, string>, routes: seq<Route>, turns: seq<Turn>, end: Context): (State, Exit) {
    match RoutesLoop(Fresh(memory), routes, turns)
    case (s, Over) => (Egress(GiveUp(s), end), Done)
    case (s, Done) => (Egress(s, end), Done)
    case (s, Starved) => (s, Starved)
  }

  // ---------------------------------------------------------------- what every run keeps

  /** Between passes: nothing is open, every attempt but a completed last one has failed, and every
      slot that was taken for an execution was given back before the next was taken. */
  ghost predicate Books(s: State) {
    && !s.open && s.count == |s.attempts| == |s.log| == |s.acquired| && s.acquired == s.released
    && (forall k :: 0 <= k < |s.attempts| ==>
          && s.acquired[k] == s.log[k].provider
          && if s.log[k].error.None? then s.attempts[k].Completed?
             else s.attempts[k].Failed? || s.attempts[k].Cancelled?)
  }

  /** While the loops go on no attempt has succeeded. */
  ghost predicate NoneSucceeded(log: seq<Trial>) {
    forall k :: 0 <= k < |log| ==> log[k].error.Some?
  }

  /** The request completed, with the last attempt and no other; or it did not, and no attempt did. */
  ghost predicate Settled(s: State) {
    && Books(s)
    && (s.status.Completed? <==> s.lastErr.None?)
    && (if s.status.Completed? then s.log != [] && s.log[|s.log| - 1].error.None? && NoneSucceeded(s.log[..|s.log| - 1])
        else NoneSucceeded(s.log))
  }

  ghost predicate Running(s: State) {
    Books(s) && s.status.InProgress? && NoneSucceeded(s.log)
  }

  /** A trial that failed closes its record as failed. */
  lemma {:induction false} FailureBooks(s: State, r: Route, attempt: int, candidate: nat, turn: Turn)
    requires Running(s) && candidate < |r.models| && ErrorOf(turn).Some?
    ensures var (s', verdict) :=
        HandleFailure(Ran(s, r, r.models[candidate], turn), r, attempt, candidate, ErrorOf(turn).value, turn);
            if verdict.Return? then Settled(s') && !s'.status.InProgress? else Running(s') && s'.lastErr.Some?
  {
    hide HandleProxyError;
    var s1, f := Ran(s, r, r.models[candidate], turn), ErrorOf(turn).value;
    var closed := CloseAttempt(s1, FailureStatus(turn.atRecord, Some(f)));
    assert Running(closed);
    assert forall t :: SameAttempts(closed.(lastErr := Some(f)), t) && t.status.InProgress? ==> Running(t);
    assert forall t ::
      SameAttempts(closed.(lastErr := Some(f)), t) && t.lastErr.Some? && (t.status.Failed? || t.status.Cancelled?) ==>
        Settled(t);
    if !f.Proxy? && turn.wrote {
      assert SameAttempts(closed.(lastErr := Some(f)), closed.(lastErr := Some(f), status := Failed));
    }
  }

  lemma {:induction false} SuccessBooks(s: State, r: Route, candidate: nat, turn: Turn)
    requires Running(s) && candidate < |r.models| && ErrorOf(turn).None?
    ensures var s' := Succeed(Ran(s, r, r.models[candidate], turn), r, r.models[candidate]);
            Settled(s') && s'.status.Completed?
  {
    var s' := Succeed(Ran(s, r, r.models[candidate], turn), r, r.models[candidate]);
    assert s'.log[..|s'.log| - 1] == s.log;
  }

  lemma {:induction false} AttemptBooks(s: State, r: Route, attempt: int, candidate: nat, turn: Turn)
    requires Running(s) && candidate < |r.models|
    ensures var (s', verdict) := Attempt(s, r, attempt, candidate, turn);
            if verdict.Return? then Settled(s') && !s'.status.InProgress? else Running(s')
  {
    hide HandleFailure, Succeed;
    if turn.quota && turn.conversion.Fine? && turn.slot {
      if ErrorOf(turn).Some? {
        FailureBooks(s, r, attempt, candidate, turn);
      } else {
        SuccessBooks(s, r, candidate, turn);
      }
    }
  }

  lemma {:induction false} StoppedSettled(s: State, context: Context)
    requires Running(s)
    ensures Settled(s.(lastErr := Some(Stopped(context))))
  {
  }

  lemma {:induction false} RouteLoopBooks(s: State, r: Route, attempt: int, candidate: nat, turns: seq<Turn>)
    requires Running(s)
    ensures var (s', exit, _) := RouteLoop(s, r, attempt, candidate, turns);
            match exit
            case Done => Settled(s')
            case _ => Running(s')
    decreases |turns|
  {
    hide Attempt, Books, NoneSucceeded, Settled, Running;
    if turns != [] {
      StoppedSettled(s, turns[0].top);
    }
    if !(attempt > r.maxRetries && !r.disabled) && turns != [] && turns[0].top.Alive? && candidate < |r.models| {
      AttemptBooks(s, r, attempt, candidate, turns[0]);
      match Attempt(s, r, attempt, candidate, turns[0])
      case (s1, Again(a, c)) => RouteLoopBooks(s1, r, a, c, turns[1..]);
      case _ =>
    }
  }

  lemma {:induction false} RoutesLoopBooks(s: State, routes: seq<Route>, turns: seq<Turn>)
    requires Running(s)
    ensures var (s', exit) := RoutesLoop(s, routes, turns);
            match exit
            case Done => Settled(s')
            case _ => Running(s')
    decreases |routes|
  {
    hide RouteLoop, Books, NoneSucceeded, Settled, Running;
    if routes != [] {
      StoppedSettled(s, routes[0].start);
    }
    if routes != [] && routes[0].start.Alive? {
      RouteLoopBooks(s, routes[0], 0, StartIndex(s.memory, routes[0]), turns);
      match RouteLoop(s, routes[0], 0, StartIndex(s.memory, routes[0]), turns)
      case (s1, Over, rest) => RoutesLoopBooks(s1, routes[1..], rest);
      case _ =>
    }
  }

  /** Every run that ends leaves a final status, an error exactly if the request did not complete,
      final attempt records, as many as there were executions, and every slot given back. */
  lemma {:induction false} EndsSettled(memory: map<string, string>, routes: seq<Route>, turns: seq<Turn>, end: Context)
    ensures var (s, exit) := Handle(memory, routes, turns, end);
            exit.Done? ==>
              && !s.status.InProgress? && Settled(s)
              && (forall k :: 0 <= k < |s.attempts| ==> !s.attempts[k].InProgress?)
  {
    hide RoutesLoop;
    RoutesLoopBooks(Fresh(memory), routes, turns);
  }

  // ---------------------------------------------------------------- termination

  /** How often a route may be tried. */
  function Budget(r: Route): nat {
    if r.maxRetries < 0 then 0 else r.maxRetries + 1
  }

  function TotalBudget(routes: seq<Route>): nat {
    if routes == [] then 0 else Budget(routes[0]) + TotalBudget(routes[1..])
  }

  lemma {:induction false} AttemptLogs(s: State, r: Route, attempt: int, candidate: nat, turn: Turn)
    requires candidate < |r.models|
    ensures var (s', verdict) := Attempt(s, r, attempt, candidate, turn);
            && s'.log == (if turn.quota && turn.conversion.Fine? && turn.slot
                          then s.log + [Trial(r.provider, r.models[candidate], turn.wrote, ErrorOf(turn))] else s.log)
            && (verdict.Again? && !r.disabled ==> verdict == Again(attempt + 1, candidate))
  {
    hide Judged, Forced, DefersCooldown;
  }

  lemma {:induction false} RouteLoopEnds(s: State, r: Route, attempt: int, candidate: nat, turns: seq<Turn>)
    requires !r.disabled && attempt >= 0
    ensures var (s', exit, rest) := RouteLoop(s, r, attempt, candidate, turns);
            var need := if attempt > r.maxRetries then 0 else r.maxRetries + 1 - attempt;
            && |s'.log| <= |s.log| + need
            && (|turns| >= need ==> !exit.Starved? && |rest| >= |turns| - need)
    decreases |turns|
  {
    hide Attempt;
    if attempt <= r.maxRetries && turns != [] && turns[0].top.Alive? && candidate < |r.models| {
      AttemptLogs(s, r, attempt, candidate, turns[0]);
      match Attempt(s, r, attempt, candidate, turns[0])
      case (s1, Again(a, c)) => RouteLoopEnds(s1, r, a, c, turns[1..]);
      case _ =>
    }
  }

  lemma {:induction false} RoutesLoopEnds(s: State, routes: seq<Route>, turns: seq<Turn>)
    requires forall r :: r in routes ==> !r.disabled
    ensures var (s', exit) := RoutesLoop(s, routes, turns);
            && |s'.log| <= |s.log| + TotalBudget(routes)
            && (|turns| >= TotalBudget(routes) ==> !exit.Starved?)
    decreases |routes|
  {
    hide RouteLoop;
    if routes != [] && routes[0].start.Alive? {
      RouteLoopEnds(s, routes[0], 0, StartIndex(s.memory, routes[0]), turns);
      match RouteLoop(s, routes[0], 0, StartIndex(s.memory, routes[0]), turns)
      case (s1, Over, rest) => RoutesLoopEnds(s1, routes[1..], rest);
      case _ =>
    }
  }

  /** If no provider disables error cooldown, the run ends after at most `maxRetries + 1` passes for
      each route, and executes no more adapters than that. */
  lemma {:induction false} Terminates(memory: map<string, string>, routes: seq<Route>, turns: seq<Turn>, end: Context)
    requires forall r :: r in routes ==> !r.disabled
    ensures var (s, exit) := Handle(memory, routes, turns, end);
            && |s.log| <= TotalBudget(routes)
            && (|turns| >= TotalBudget(routes) ==> exit.Done?)
  {
    hide RoutesLoop;
    RoutesLoopEnds(Fresh(memory), routes, turns);
  }

  /** A provider that disables error cooldown is tried as long as its attempts fail retryably: there
      is no bound on the executions then. */
  lemma {:induction false} DisabledGoesOn(s: State, r: Route, attempt: int, candidate: nat, turns: seq<Turn>)
    requires r.disabled && candidate < |r.models| && forall t :: t in turns ==> FailsRetryably(r, t)
    ensures var (s', exit, _) := RouteLoop(s, r, attempt, candidate, turns);
            exit.Starved? && |s'.log| == |s.log| + |turns|
    decreases |turns|
  {
    hide Attempt, FailsRetryably;
    if turns != [] {
      assert turns[0] in turns;
      AlivePass(r, turns[0]);
      DisabledPass(s, r, attempt, candidate, turns[0]);
      var (s1, verdict) := Attempt(s, r, attempt, candidate, turns[0]);
      DisabledGoesOn(s1, r, verdict.attempt, verdict.candidate, turns[1..]);
    }
  }

  lemma {:induction false} DisabledPass(s: State, r: Route, attempt: int, candidate: nat, turn: Turn)
    requires r.disabled && candidate < |r.models| && FailsRetryably(r, turn)
    ensures var (s', verdict) := Attempt(s, r, attempt, candidate, turn);
            verdict.Again? && verdict.candidate < |r.models| && |s'.log| == |s.log| + 1
  {
    hide Judged, Forced;
  }

  // ---------------------------------------------------------------- no splicing

  /** The client saw nothing of the attempt, or it broke off while the upstream's stream was read. */
  predicate MayBeFollowed(t: Trial) {
    t.wrote ==> t.error.Some? && t.error.value.Proxy? && IsStreamRead(Normalize(t.error.value.error))
  }

  /** Only the last attempt may be one that must not be followed. */
  ghost predicate Unspliced(log: seq<Trial>) {
    forall k :: 0 <= k < |log| - 1 ==> MayBeFollowed(log[k])
  }

  ghost predicate Open(log: seq<Trial>) {
    forall k :: 0 <= k < |log| ==> MayBeFollowed(log[k])
  }

  lemma {:induction false} JudgedStreamRead(p: ProxyError, disabled: bool)
    ensures IsStreamRead(Judged(p, disabled)) <==> IsStreamRead(Normalize(p))
  {
  }

  lemma {:induction false} AttemptOpen(s: State, r: Route, attempt: int, candidate: nat, turn: Turn)
    requires Open(s.log) && candidate < |r.models|
    ensures var (s', verdict) := Attempt(s, r, attempt, candidate, turn);
            Unspliced(s'.log) && (!verdict.Return? ==> Open(s'.log))
  {
    hide Judged, Forced, DefersCooldown, Advance;
    if turn.error.Some? && turn.error.value.Proxy? {
      JudgedStreamRead(turn.error.value.error, r.disabled);
    }
    if turn.finalizeFails.Some? {
      JudgedStreamRead(turn.finalizeFails.value, r.disabled);
    }
  }

  lemma {:induction false} RouteLoopOpen(s: State, r: Route, attempt: int, candidate: nat, turns: seq<Turn>)
    requires Open(s.log)
    ensures var (s', exit, _) := RouteLoop(s, r, attempt, candidate, turns);
            Unspliced(s'.log) && (!exit.Done? ==> Open(s'.log))
    decreases |turns|
  {
    hide Attempt;
    if !(attempt > r.maxRetries && !r.disabled) && turns != [] && turns[0].top.Alive? && candidate < |r.models| {
      AttemptOpen(s, r, attempt, candidate, turns[0]);
      match Attempt(s, r, attempt, candidate, turns[0])
      case (s1, Again(a, c)) => RouteLoopOpen(s1, r, a, c, turns[1..]);
      case _ =>
    }
  }

  lemma {:induction false} RoutesLoopOpen(s: State, routes: seq<Route>, turns: seq<Turn>)
    requires Open(s.log)
    ensures Unspliced(RoutesLoop(s, routes, turns).0.log)
    decreases |routes|
  {
    hide RouteLoop;
    if routes != [] && routes[0].start.Alive? {
      RouteLoopOpen(s, routes[0], 0, StartIndex(s.memory, routes[0]), turns);
      match RouteLoop(s, routes[0], 0, StartIndex(s.memory, routes[0]), turns)
      case (s1, Over, rest) => RoutesLoopOpen(s1, routes[1..], rest);
      case _ =>
    }
  }

  /** An attempt of which the client saw something is followed by another only if its upstream's
      stream broke off; without such failures at most one attempt, the last, reaches the client. */
  lemma {:induction false} NoSplicing(memory: map<string, string>, routes: seq<Route>, turns: seq<Turn>, end: Context)
    ensures var log := Handle(memory, routes, turns, end).0.log;
            && Unspliced(log)
            && ((forall k :: 0 <= k < |log| && log[k].error.Some? && log[k].error.value.Proxy? ==>
                   !IsStreamRead(Normalize(log[k].error.value.error)))
                ==> forall k :: 0 <= k < |log| && log[k].wrote ==> k == |log| - 1)
  {
    hide RoutesLoop, Normalize, IsStreamRead;
    RoutesLoopOpen(Fresh(memory), routes, turns);
    var log := Handle(memory, routes, turns, end).0.log;
    forall k | 0 <= k < |log| - 1 && log[k].wrote
      ensures log[k].error.Some? && log[k].error.value.Proxy? && IsStreamRead(Normalize(log[k].error.value.error))
    {
      assert MayBeFollowed(log[k]);
    }
  }

  /** The smart mapping goes on to the next candidate: with several candidates, at a provider that
      disables error cooldown, after as many attempts as the route allows for one. */
  predicate Switches(r: Route, attempt: nat) {
    r.disabled && r.smart && |r.models| > 1 && attempt + 1 >= r.limit
  }

  /** Where a failed attempt that is retried waits first: not when the smart mapping switches, and not
      after the last retry. */
  predicate Waits(r: Route, attempt: nat) {
    !Switches(r, attempt) && (attempt < r.maxRetries || r.disabled)
  }

  /** After a failed attempt of which the client saw something, the loops go on exactly if the
      upstream's stream broke off, and neither the check nor the wait finds the context ended. */
  lemma {:induction false} WrittenGoesOnExactly(s: State, r: Route, attempt: nat, candidate: nat, turn: Turn)
    requires candidate < |r.models| && turn.quota && turn.conversion.Fine? && turn.slot
    requires turn.wrote && ErrorOf(turn).Some?
    ensures !Attempt(s, r, attempt, candidate, turn).1.Return?
       <==> && ErrorOf(turn).value.Proxy? && IsStreamRead(Normalize(ErrorOf(turn).value.error))
            && turn.atCheck.Alive? && (Waits(r, attempt) ==> turn.atWait.Alive?)
  {
    hide Normalize, IsStreamRead, Judged;
    if ErrorOf(turn).value.Proxy? {
      var p := ErrorOf(turn).value.error;
      JudgedStreamRead(p, r.disabled);
      if IsStreamRead(Normalize(p)) {
        BrokenStreamJudged(p, r.disabled);
      }
    }
  }

  lemma {:induction false} BrokenStreamJudged(p: ProxyError, disabled: bool)
    requires IsStreamRead(Normalize(p))
    ensures var judged := Judged(p, disabled); judged.retryable && judged.scope.ProviderScope?
  {
  }

  /** Nothing stands in the way of the attempt, and the context stays alive. */
  function Undisturbed(error: Option<Failure>, wrote: bool): Turn {
    Turn(Alive, true, Fine, true, error, None, wrote, Alive, Alive, Alive, Alive, Alive)
  }

  /** So two attempts can reach the same client, on any route with a retry left: the first breaks off
      with the upstream's stream, the second completes. */
  lemma {:induction false} SplicingOccurs(memory: map<string, string>, r: Route, p: ProxyError, end: Context)
    requires r.start.Alive? && r.models != [] && r.maxRetries >= 1 && IsStreamRead(Normalize(p))
    ensures var turns := [Undisturbed(Some(Proxy(p)), true), Undisturbed(None, true)];
            var (s, exit) := Handle(memory, [r], turns, end);
            && exit.Done? && s.status.Completed?
            && |s.log| == 2 && s.log[0].wrote && s.log[1].wrote
  {
    hide Attempt, Normalize, IsStreamRead;
    var first, second := Undisturbed(Some(Proxy(p)), true), Undisturbed(None, true);
    var turns, s, c := [first, second], Fresh(memory), StartIndex(memory, r);
    StartInRange(memory, r);
    assert turns[1..] == [second] && [second][1..] == [];
    WrittenGoesOnExactly(s, r, 0, c, first);
    BrokenPass(s, r, c, p);
    var (s1, verdict) := Attempt(s, r, 0, c, first);
    CompletedPass(s1, r, verdict.attempt, verdict.candidate);
    assert RouteLoop(s1, r, verdict.attempt, verdict.candidate, [second]).1.Done?;
    assert RouteLoop(s, r, 0, c, turns) == RouteLoop(s1, r, verdict.attempt, verdict.candidate, [second]);
  }

  lemma {:induction false} BrokenPass(s: State, r: Route, candidate: nat, p: ProxyError)
    requires candidate < |r.models| && r.maxRetries >= 1 && IsStreamRead(Normalize(p))
    ensures var turn := Undisturbed(Some(Proxy(p)), true);
            var (s', verdict) := Attempt(s, r, 0, candidate, turn);
            && verdict.Again? && verdict.attempt <= r.maxRetries && verdict.candidate < |r.models|
            && s'.log == s.log + [Trial(r.provider, r.models[candidate], true, Some(Proxy(p)))]
  {
    hide Normalize, IsStreamRead, Judged;
    JudgedStreamRead(p, r.disabled);
    BrokenStreamJudged(p, r.disabled);
  }

  lemma {:induction false} CompletedPass(s: State, r: Route, attempt: int, candidate: nat)
    requires candidate < |r.models|
    ensures var (s', verdict) := Attempt(s, r, attempt, candidate, Undisturbed(None, true));
            && verdict.Return? && s'.status.Completed?
            && s'.log == s.log + [Trial(r.provider, r.models[candidate], true, None)]
  {
  }

  // ---------------------------------------------------------------- smart mapping

  /** A pass that executes and fails in a way that may be retried, while the context is alive. */
  predicate FailsRetryably(r: Route, turn: Turn) {
    && turn.top.Alive? && turn.quota && turn.conversion.Fine? && turn.slot && turn.atCheck.Alive? && turn.atWait.Alive?
    && ErrorOf(turn).Some? && ErrorOf(turn).value.Proxy?
    && var judged := Judged(ErrorOf(turn).value.error, r.disabled);
       && (turn.wrote ==> RetriesCommitted(judged))
       && Forced(judged, turn.atForce, turn.wrote, r.force).retryable
  }

  /** The candidate of the k-th attempt from now. */
  function Turning(r: Route, candidate: nat, attempt: nat, k: nat): nat
    requires r.models != []
  {
    (candidate + (attempt + k) / Limit(r)) % |r.models|
  }

  lemma {:induction false} ModStep(c: nat, x: nat, n: nat)
    requires n > 0 && c < n
    ensures (c + 1 + x) % n == ((if c + 1 >= n then 0 else c + 1) + x) % n
  {
    if c + 1 >= n {
      AddModulus(x, n);
    }
  }

  lemma {:induction false} AddModulus(x: nat, n: nat)
    requires n > 0
    ensures (n + x) % n == x % n
  {
    assert n + x == (x / n + 1) * n + x % n;
    DivModUnique(n + x, n, x / n + 1, x % n);
  }

  lemma {:induction false} DivModUnique(a: nat, n: nat, q: nat, m: nat)
    requires n > 0 && a == q * n + m && m < n
    ensures a / n == q && a % n == m
  {
    Quotients(n, q, m, a / n, a % n);
  }

  lemma {:induction false} Quotients(n: nat, q: nat, m: nat, q': nat, m': nat)
    requires m < n && m' < n && q * n + m == q' * n + m'
    ensures q == q' && m == m'
  {
    if q < q' {
      assert q' * n == q * n + (q' - q) * n;
      AtLeastOnce(q' - q, n);
    } else if q' < q {
      assert q * n == q' * n + (q - q') * n;
      AtLeastOnce(q - q', n);
    }
  }

  lemma {:induction false} AtLeastOnce(x: nat, n: nat)
    requires x >= 1
    ensures x * n >= n
  {
  }

  lemma {:induction false} DivNext(k: nat, limit: nat)
    requires limit > 0
    ensures (limit + k) / limit == 1 + k / limit
  {
    assert limit + k == (1 + k / limit) * limit + k % limit;
    DivModUnique(limit + k, limit, 1 + k / limit, k % limit);
  }

  lemma {:induction false} RetryPass(s: State, r: Route, attempt: int, candidate: nat, turn: Turn)
    requires UsesSmart(r) && 0 <= attempt < Limit(r) && candidate < |r.models| && FailsRetryably(r, turn)
    ensures var (s', verdict) := Attempt(s, r, attempt, candidate, turn);
            && s'.log == s.log + [Trial(r.provider, r.models[candidate], turn.wrote, ErrorOf(turn))]
            && verdict == if attempt + 1 < Limit(r) then Again(attempt + 1, candidate)
                          else Again(0, if candidate + 1 >= |r.models| then 0 else candidate + 1)
  {
    hide Judged, Forced;
  }

  lemma {:induction false} RoundRobinFrom(s: State, r: Route, attempt: nat, candidate: nat, turns: seq<Turn>)
    requires UsesSmart(r) && attempt < Limit(r) && candidate < |r.models|
    requires forall t :: t in turns ==> FailsRetryably(r, t)
    ensures var log := RouteLoop(s, r, attempt, candidate, turns).0.log;
            && |log| == |s.log| + |turns|
            && (forall k :: 0 <= k < |s.log| ==> log[k] == s.log[k])
            && (forall k :: 0 <= k < |turns| ==>
                  log[|s.log| + k].model == r.models[Turning(r, candidate, attempt, k)])
    decreases |turns|
  {
    hide Attempt, FailsRetryably;
    if turns != [] {
      assert turns[0] in turns;
      assert turns[0].top.Alive? by { AlivePass(r, turns[0]); }
      RetryPass(s, r, attempt, candidate, turns[0]);
      var (s1, verdict) := Attempt(s, r, attempt, candidate, turns[0]);
      RoundRobinFrom(s1, r, verdict.attempt, verdict.candidate, turns[1..]);
      var log := RouteLoop(s, r, attempt, candidate, turns).0.log;
      FirstTurn(r, candidate, attempt);
      forall k | 0 <= k < |turns| ensures log[|s.log| + k].model == r.models[Turning(r, candidate, attempt, k)] {
        if k > 0 {
          TurnOn(r, candidate, attempt, k - 1);
          assert log[|s1.log| + (k - 1)].model == r.models[Turning(r, verdict.candidate, verdict.attempt, k - 1)];
        } else {
          assert log[|s.log|] == s1.log[|s.log|];
        }
      }
    }
  }

  lemma {:induction false} AlivePass(r: Route, turn: Turn)
    requires FailsRetryably(r, turn)
    ensures turn.top.Alive?
  {
  }

  lemma {:induction false} FirstTurn(r: Route, candidate: nat, attempt: nat)
    requires attempt < Limit(r) && candidate < |r.models|
    ensures Turning(r, candidate, attempt, 0) == candidate
  {
    DivModUnique(attempt, Limit(r), 0, attempt);
    DivModUnique(candidate, |r.models|, 0, candidate);
  }

  lemma {:induction false} TurnOn(r: Route, candidate: nat, attempt: nat, k: nat)
    requires attempt < Limit(r) && candidate < |r.models|
    ensures Turning(r, candidate, attempt, k + 1)
         == if attempt + 1 < Limit(r) then Turning(r, candidate, attempt + 1, k)
            else Turning(r, if candidate + 1 >= |r.models| then 0 else candidate + 1, 0, k)
  {
    var limit := Limit(r);
    if attempt + 1 < limit {
      assert attempt + (k + 1) == (attempt + 1) + k;
    } else {
      assert attempt + (k + 1) == limit + k;
      DivNext(k, limit);
      assert 0 + k == k;
      ModStep(candidate, k / limit, |r.models|);
    }
  }

  /** On a route with smart mapping the k-th attempt uses candidate `(start + k / limit) mod n`, as
      long as the attempts fail retryably. */
  lemma {:induction false} RoundRobin(s: State, r: Route, turns: seq<Turn>)
    requires UsesSmart(r) && forall t :: t in turns ==> FailsRetryably(r, t)
    ensures var start, log := StartIndex(s.memory, r), RouteLoop(s, r, 0, StartIndex(s.memory, r), turns).0.log;
            && start < |r.models| && |log| == |s.log| + |turns|
            && (forall k :: 0 <= k < |turns| ==>
                log[|s.log| + k].model == r.models[(start + k / Limit(r)) % |r.models|])
  {
    hide RouteLoop;
    StartInRange(s.memory, r);
    var start := StartIndex(s.memory, r);
    RoundRobinFrom(s, r, 0, start, turns);
    var log := RouteLoop(s, r, 0, start, turns).0.log;
    forall k | 0 <= k < |turns| ensures log[|s.log| + k].model == r.models[(start + k / Limit(r)) % |r.models|] {
      assert log[|s.log| + k].model == r.models[Turning(r, start, 0, k)];
      assert 0 + k == k;
    }
  }

  lemma {:induction false} StartInRange(memory: map<string, string>, r: Route)
    requires r.models != []
    ensures StartIndex(memory, r) < |r.models|
    ensures if r.disabled && r.smart && |r.models| > 1
               && r.key != "" && r.key in memory && memory[r.key] != "" && memory[r.key] in r.models
            then r.models[StartIndex(memory, r)] == memory[r.key]
            else StartIndex(memory, r) == 0
  {
    if UsesSmart(r) && r.key != "" && r.key in memory && memory[r.key] != "" && memory[r.key] in r.models {
      IndexFound(r.models, memory[r.key]);
      assert StartIndex(memory, r) == IndexOf(r.models, memory[r.key]);
    } else {
      assert StartIndex(memory, r) == 0;
    }
  }

  lemma {:induction false} IndexFound(models: seq<string>, model: string)
    requires model in models
    ensures IndexOf(models, model) < |models| && models[IndexOf(models, model)] == model
    decreases |models|
  {
    if models[0] != model {
      assert model in models[1..];
      IndexFound(models[1..], model);
    }
  }

  /** The candidate that succeeded is the one the next request starts with. */
  lemma {:induction false} SuccessIsRemembered(s: State, r: Route, model: string)
    requires UsesSmart(r) && r.key != "" && model != "" && model in r.models
    ensures var start := StartIndex(Succeed(s, r, model).memory, r); start < |r.models| && r.models[start] == model
  {
    StartInRange(Succeed(s, r, model).memory, r);
  }

  /** Every candidate is tried within `n * limit` attempts. */
  lemma {:induction false} EveryCandidateTried(s: State, r: Route, turns: seq<Turn>, c: nat)
    requires UsesSmart(r) && forall t :: t in turns ==> FailsRetryably(r, t)
    requires c < |r.models| && |turns| >= |r.models| * Limit(r)
    ensures var log := RouteLoop(s, r, 0, StartIndex(s.memory, r), turns).0.log;
            exists k :: |s.log| <= k < |s.log| + |r.models| * Limit(r) && k < |log| && log[k].model == r.models[c]
  {
    hide RouteLoop, FailsRetryably, Limit;
    RoundRobin(s, r, turns);
    var start := StartIndex(s.memory, r);
    var k := Due(|r.models|, Limit(r), start, c);
    var log := RouteLoop(s, r, 0, start, turns).0.log;
    assert log[|s.log| + k].model == r.models[(start + k / Limit(r)) % |r.models|];
  }

  /** When candidate `c` is due. */
  lemma {:induction false} Due(n: nat, limit: nat, start: nat, c: nat) returns (k: nat)
    requires start < n && c < n && limit >= 1
    ensures k < n * limit && (start + k / limit) % n == c
  {
    var ahead := if c >= start then c - start else c + n - start;
    k := ahead * limit;
    AtLeastOnce(n - ahead, limit);
    assert n * limit == ahead * limit + (n - ahead) * limit;
    DivModUnique(k, limit, ahead, 0);
    DivModUnique(start + ahead, n, if c >= start then 0 else 1, c);
  }

  // ---------------------------------------------------------------- cooldowns

  /** A pass that fails with a network error to be retried, and nothing said about when. */
  predicate FailsOnNetwork(r: Route, turn: Turn) {
    && FailsRetryably(r, turn) && !turn.atCooldown.Canceled?
    && var final := Forced(Judged(ErrorOf(turn).value.error, r.disabled), turn.atForce, turn.wrote, r.force);
       final.network && !final.hinted && !final.scope.RequestScope?
  }

  lemma {:induction false} NetworkPass(s: State, r: Route, attempt: int, candidate: nat, turn: Turn)
    requires !r.disabled && candidate < |r.models| && FailsOnNetwork(r, turn)
    ensures var (s', verdict) := Attempt(s, r, attempt, candidate, turn);
            && verdict == Again(attempt + 1, candidate)
            && s'.cooled == if attempt < r.maxRetries then s.cooled else s.cooled + [r.provider]
  {
    hide Judged, Forced;
  }

  /** A provider that keeps failing on the network is set to cool down once, with its last retry. */
  lemma {:induction false} CooledOnce(s: State, r: Route, attempt: nat, candidate: nat, turns: seq<Turn>)
    requires !r.disabled && candidate < |r.models| && attempt <= r.maxRetries && |turns| > r.maxRetries - attempt
    requires forall t :: t in turns ==> FailsOnNetwork(r, t)
    ensures var (s', exit, _) := RouteLoop(s, r, attempt, candidate, turns);
            exit.Over? && s'.cooled == s.cooled + [r.provider]
    decreases |turns|
  {
    hide Attempt, FailsOnNetwork;
    assert turns[0] in turns;
    assert turns[0].top.Alive? by { AliveNetwork(r, turns[0]); }
    NetworkPass(s, r, attempt, candidate, turns[0]);
    var (s1, verdict) := Attempt(s, r, attempt, candidate, turns[0]);
    if attempt < r.maxRetries {
      CooledOnce(s1, r, attempt + 1, candidate, turns[1..]);
    }
  }

  lemma {:induction false} AliveNetwork(r: Route, turn: Turn)
    requires FailsOnNetwork(r, turn)
    ensures turn.top.Alive?
  {
  }

  // ---------------------------------------------------------------- which requests end

  /** A route whose provider disables error cooldown, with a candidate to try, comes before any route
      at whose start the context has ended. */
  predicate Endless(routes: seq<Route>) {
    && routes != [] && routes[0].start.Alive?
    && ((routes[0].disabled && routes[0].models != []) || Endless(routes[1..]))
  }

  /** The passes a request may take that is not endless. */
  function Allowance(routes: seq<Route>): nat {
    if routes == [] then 0
    else (if routes[0].disabled then 1 else Budget(routes[0])) + Allowance(routes[1..])
  }

  lemma {:induction false} NoCandidate(s: State, r: Route, turns: seq<Turn>)
    requires r.disabled && r.models == []
    ensures var (s', exit, rest) := RouteLoop(s, r, 0, 0, turns);
            s'.log == s.log && (turns != [] ==> !exit.Starved? && rest == turns[1..])
  {
    hide Attempt;
  }

  lemma {:induction false} RoutesLoopBounded(s: State, routes: seq<Route>, turns: seq<Turn>)
    requires !Endless(routes)
    ensures var (s', exit) := RoutesLoop(s, routes, turns);
            && |s'.log| <= |s.log| + Allowance(routes)
            && (|turns| >= Allowance(routes) ==> !exit.Starved?)
    decreases |routes|
  {
    hide RouteLoop;
    if routes != [] && routes[0].start.Alive? {
      var r := routes[0];
      if r.disabled {
        NoCandidate(s, r, turns);
      } else {
        RouteLoopEnds(s, r, 0, StartIndex(s.memory, r), turns);
      }
      match RouteLoop(s, r, 0, StartIndex(s.memory, r), turns)
      case (s1, Over, rest) => RoutesLoopBounded(s1, routes[1..], rest);
      case _ =>
    }
  }

  /** A network error of the provider, before anything was written. */
  const NETWORK_DOWN := ProxyError(ProviderScope, true, true, 503, false, false, false, false, false)

  const DOWN := Undisturbed(Some(Proxy(NETWORK_DOWN)), false)

  /** No slot is free. */
  const BUSY_TURN := Undisturbed(None, false).(slot := false)

  function Repeat(turn: Turn, n: nat): (r: seq<Turn>)
    ensures |r| == n && forall t :: t in r ==> t == turn
  {
    if n == 0 then [] else [turn] + Repeat(turn, n - 1)
  }

  function Skip(r: Route): seq<Turn> {
    if !r.disabled && r.maxRetries < 0 then [] else [BUSY_TURN]
  }

  /** No slot is free on any route before the endless one, and there the network is down `n` times. */
  function Outage(routes: seq<Route>, n: nat): seq<Turn>
    requires Endless(routes)
  {
    if routes[0].disabled && routes[0].models != [] then Repeat(DOWN, n)
    else Skip(routes[0]) + Outage(routes[1..], n)
  }

  lemma {:induction false} Skipped(s: State, r: Route, turns: seq<Turn>)
    requires !(r.disabled && r.models != [])
    ensures var (s', exit, rest) := RouteLoop(s, r, 0, StartIndex(s.memory, r), Skip(r) + turns);
            s'.log == s.log && exit.Over? && rest == turns
  {
    if Skip(r) == [] {
      assert [] + turns == turns;
    } else {
      assert (Skip(r) + turns)[1..] == turns;
    }
  }

  lemma {:induction false} DownRetryable(r: Route)
    ensures FailsRetryably(r, DOWN)
  {
  }

  lemma {:induction false} RoutesLoopEndless(s: State, routes: seq<Route>, n: nat)
    requires Endless(routes)
    ensures var (s', exit) := RoutesLoop(s, routes, Outage(routes, n)); exit.Starved? && |s'.log| == |s.log| + n
    decreases |routes|
  {
    hide RouteLoop, StartIndex, Skip, FailsRetryably;
    var r := routes[0];
    if r.disabled && r.models != [] {
      StartInRange(s.memory, r);
      DownRetryable(r);
      DisabledGoesOn(s, r, 0, StartIndex(s.memory, r), Repeat(DOWN, n));
    } else {
      Skipped(s, r, Outage(routes[1..], n));
      var (s1, _, rest) := RouteLoop(s, r, 0, StartIndex(s.memory, r), Outage(routes, n));
      RoutesLoopEndless(s1, routes[1..], n);
    }
  }

  /** Whatever the world does, and whatever is remembered, the request executes no more than `n`
      adapters, and ends within `n` passes. */
  ghost predicate EndsWithin(routes: seq<Route>, n: nat) {
    forall memory, turns, end :: var (s, exit) := Handle(memory, routes, turns, end);
      |s.log| <= n && (|turns| >= n ==> exit.Done?)
  }

  /** There is such a bound exactly for the requests that are not endless. */
  lemma {:induction false} EndsExactly(routes: seq<Route>)
    ensures (exists n: nat :: EndsWithin(routes, n)) <==> !Endless(routes)
  {
    hide RoutesLoop, Endless;
    if Endless(routes) {
      forall n: nat ensures !EndsWithin(routes, n) {
        RoutesLoopEndless(Fresh(map[]), routes, n + 1);
        var (s, exit) := Handle(map[], routes, Outage(routes, n + 1), Alive);
        assert |s.log| == n + 1;
      }
    } else {
      var n := Allowance(routes);
      forall memory, turns, end ensures var (s, exit) := Handle(memory, routes, turns, end);
        |s.log| <= n && (|turns| >= n ==> exit.Done?)
      {
        RoutesLoopBounded(Fresh(memory), routes, turns);
      }
      assert EndsWithin(routes, n);
    }
  }

  // ---------------------------------------------------------------- what a pass leads to

  /** The upstream's stream broke off. */
  predicate StreamBroke(p: ProxyError) {
    (p.connectFailure || (p.scope.ProviderScope? && p.network)) && p.streamText
  }

  /** The failure may be retried: by itself, because the provider is never cooled down, or because
      the route forces it for failures that are not the request's. */
  predicate MayRetry(r: Route, p: ProxyError, turn: Turn) {
    || p.retryable || p.connectFailure || StreamBroke(p)
    || (r.disabled && 400 <= p.status < 600 && !(p.scope.RequestScope? && p.status == 400 && p.bedrockText))
    || (r.force && turn.atForce.Alive? && !turn.wrote
        && (p.scope.ProviderScope? || p.scope.EndpointScope? || p.scope.ModelScope?)
        && (p.status < 400 || p.status == 429 || p.status >= 500))
  }

  predicate OfRequest(p: ProxyError) {
    p.scope.RequestScope? && !p.connectFailure
  }

  /** The failed execution is the last of the request: the client has seen part of it, it has gone, or
      the request itself is at fault. */
  predicate EndsRequest(r: Route, attempt: nat, f: Failure, turn: Turn) {
    if f.Proxy? then
      || (turn.wrote && !StreamBroke(f.error))
      || !turn.atCheck.Alive?
      || (OfRequest(f.error) && !MayRetry(r, f.error, turn))
      || (MayRetry(r, f.error, turn) && Waits(r, attempt) && !turn.atWait.Alive?)
    else turn.wrote
  }

  predicate Executes(turn: Turn) {
    turn.quota && turn.conversion.Fine? && turn.slot
  }

  /** The client went away, and the failure is about that. */
  predicate GoneAtEnd(r: Route, f: Failure, turn: Turn) {
    && f.Proxy? && f.error.disconnected && (turn.wrote ==> StreamBroke(f.error))
    && (turn.atCheck.Canceled? || (turn.atCheck.Alive? && MayRetry(r, f.error, turn) && turn.atWait.Canceled?))
  }

  predicate Disconnects(f: Failure) {
    (f.Proxy? && f.error.disconnected) || (f.Plain? && f.gone)
  }

  /** The same failure, but for what the policies set in it. */
  predicate SameFailure(f: Failure, e: Option<Failure>) {
    && e.Some?
    && if f.Proxy? then
         e.value.Proxy?
         && e.value.error == f.error.(scope := e.value.error.scope, network := e.value.error.network,
                                      retryable := e.value.error.retryable)
       else e.value == f
  }

  /** The error after a failed execution: the context's, if that has ended, else the failure. */
  predicate Reports(r: Route, attempt: nat, f: Failure, turn: Turn, e: Option<Failure>) {
    if f.Proxy? && (turn.wrote ==> StreamBroke(f.error)) && !turn.atCheck.Alive? then e == Some(Stopped(turn.atCheck))
    else if f.Proxy? && (turn.wrote ==> StreamBroke(f.error)) && MayRetry(r, f.error, turn) && Waits(r, attempt)
            && !turn.atWait.Alive? then e == Some(Stopped(turn.atWait))
    else SameFailure(f, e)
  }

  /** The provider is set to cool down: the failure is its own, and not to be retried on the network. */
  predicate Cools(r: Route, attempt: nat, f: Failure, turn: Turn) {
    && f.Proxy? && (turn.wrote ==> StreamBroke(f.error)) && turn.atCheck.Alive? && !turn.atCooldown.Canceled?
    && !r.disabled && !OfRequest(f.error)
    && !(MayRetry(r, f.error, turn) && (f.error.network || f.error.connectFailure) && !f.error.hinted
         && attempt < r.maxRetries)
  }

  /** What becomes of the request after a failed execution. */
  predicate FailureLeadsTo(s: State, r: Route, attempt: nat, candidate: nat, f: Failure, turn: Turn, s': State,
                           verdict: Verdict) {
    && (verdict.Return? <==> EndsRequest(r, attempt, f, turn))
    && (verdict.NextRoute? <==> !EndsRequest(r, attempt, f, turn) && (f.Proxy? ==> !MayRetry(r, f.error, turn)))
    && (verdict.Again? ==>
          if Switches(r, attempt)
          then verdict == Again(0, if candidate + 1 < |r.models| then candidate + 1 else 0)
          else verdict == Again(attempt + 1, candidate))
    && s'.status == (if !verdict.Return? then s.status else if GoneAtEnd(r, f, turn) then Cancelled else Failed)
    && Reports(r, attempt, f, turn, s'.lastErr)
    && s'.cooled == s.cooled + (if Cools(r, attempt, f, turn) then [r.provider] else [])
    && s'.memory == s.memory
  }

  function RecordOf(f: Failure, turn: Turn): Status {
    if turn.atRecord.Canceled? && Disconnects(f) then Cancelled else Failed
  }

  /** A success is remembered for the next request, where the smart mapping has a choice. */
  function Remembers(memory: map<string, string>, r: Route, model: string): map<string, string> {
    if r.disabled && r.smart && |r.models| > 1 && r.key != "" && model != "" then memory[r.key := model] else memory
  }

  /** The request found no free slot: that counts as the provider being too busy. */
  predicate NoSlot(e: Option<Failure>) {
    e == Some(Proxy(ProxyError(ProviderScope, false, true, 429, false, false, false, false, false)))
  }

  /** A response that cannot be converted in the end fails the attempt, whatever the adapter said. */
  function Outcome(turn: Turn): Option<Failure> {
    match turn.finalizeFails
    case Some(p) => Some(Proxy(p))
    case None => turn.error
  }

  /** The error that is kept of a pass that did not end the request. */
  predicate Kept(turn: Turn, e: Option<Failure>) {
    if Executes(turn) then Outcome(turn).Some? && SameFailure(Outcome(turn).value, e)
    else if turn.conversion.Refused? then e == Some(Proxy(turn.conversion.error))
    else NoSlot(e)
  }

  /** What becomes of the request after one pass. */
  predicate LeadsTo(s: State, r: Route, attempt: nat, candidate: nat, turn: Turn, s': State, verdict: Verdict)
    requires candidate < |r.models|
  {
    if !turn.quota then
      verdict.Return? && s' == s.(status := Rejected, lastErr := Some(NoQuota))
    else if !Executes(turn) then
      && verdict.NextRoute?
      && s' == s.(lastErr := s'.lastErr) && Kept(turn, s'.lastErr)
    else if Outcome(turn).None? then
      verdict.Return? && s'.status.Completed? && s'.lastErr.None? && s'.cooled == s.cooled
      && s'.attempts == s.attempts + [Completed]
      && s'.memory == Remembers(s.memory, r, r.models[candidate])
    else
      FailureLeadsTo(s, r, attempt, candidate, Outcome(turn).value, turn, s', verdict)
      && s'.attempts == s.attempts + [RecordOf(Outcome(turn).value, turn)]
  }

  lemma {:induction false} JudgedExactly(p: ProxyError, r: Route, turn: Turn)
    ensures var judged := Judged(p, r.disabled); var final := Forced(judged, turn.atForce, turn.wrote, r.force);
            && (RetriesCommitted(judged) <==> StreamBroke(p))
            && ((turn.wrote ==> StreamBroke(p)) ==> (final.retryable <==> MayRetry(r, p, turn)))
            && (final.scope.RequestScope? <==> OfRequest(p)) && final.hinted == p.hinted
            && (final.network <==> p.network || p.connectFailure) && judged.disconnected == p.disconnected
            && SameFailure(Proxy(p), Some(Proxy(judged))) && SameFailure(Proxy(p), Some(Proxy(final)))
  {
  }

  lemma {:induction false} ProxyErrorExactly(s: State, r: Route, attempt: nat, candidate: nat, p: ProxyError,
                                             turn: Turn)
    requires candidate < |r.models|
    ensures var (s', verdict) := HandleProxyError(s, r, attempt, candidate, p, turn);
            FailureLeadsTo(s, r, attempt, candidate, Proxy(p), turn, s', verdict)
  {
    hide Judged, Forced, StreamBroke, MayRetry, OfRequest, RetriesCommitted, SameFailure;
    JudgedExactly(p, r, turn);
    assert s.cooled + [] == s.cooled;
  }

  lemma {:induction false} FailureExactly(s: State, r: Route, attempt: nat, candidate: nat, f: Failure, turn: Turn)
    requires candidate < |r.models| && s.attempts != []
    ensures var (s', verdict) := HandleFailure(s, r, attempt, candidate, f, turn);
            && FailureLeadsTo(s, r, attempt, candidate, f, turn, s', verdict) && s'.log == s.log
            && s'.attempts == s.attempts[|s.attempts| - 1 := RecordOf(f, turn)]
  {
    hide HandleProxyError, MayRetry, EndsRequest, Cools;
    var s1 := CloseAttempt(s, FailureStatus(turn.atRecord, Some(f))).(lastErr := Some(f));
    if f.Proxy? {
      ProxyErrorExactly(s1, r, attempt, candidate, f.error, turn);
    } else {
      PlainEnds(r, attempt, f, turn);
      assert s.cooled + [] == s.cooled;
    }
  }

  lemma {:induction false} PlainEnds(r: Route, attempt: nat, f: Failure, turn: Turn)
    requires !f.Proxy?
    ensures (EndsRequest(r, attempt, f, turn) <==> turn.wrote) && !Cools(r, attempt, f, turn)
  {
  }

  /** Exactly when a pass ends the request, goes to the next route, or tries again; and what it leaves. */
  lemma {:induction false} PassExactly(s: State, r: Route, attempt: nat, candidate: nat, turn: Turn)
    requires candidate < |r.models|
    ensures var (s', verdict) := Attempt(s, r, attempt, candidate, turn);
            && LeadsTo(s, r, attempt, candidate, turn, s', verdict)
            && s'.log == s.log + (if Executes(turn)
                                  then [Trial(r.provider, r.models[candidate], turn.wrote, Outcome(turn))] else [])
  {
    hide HandleFailure, MayRetry, EndsRequest, Cools, Reports;
    assert s.log + [] == s.log;
    var s1 := Ran(s, r, r.models[candidate], turn);
    assert s1.attempts == s.attempts + [InProgress];
    assert forall status :: s1.attempts[|s.attempts| := status] == s.attempts + [status];
    if Executes(turn) && ErrorOf(turn).Some? {
      FailureExactly(s1, r, attempt, candidate, ErrorOf(turn).value, turn);
    }
  }

  // ---------------------------------------------------------------- from route to route

  /** The route is tried at all, as far as it is up to the route. */
  predicate Tried(r: Route) {
    r.start.Alive? && r.models != [] && (r.disabled || r.maxRetries >= 0)
  }

  /** The pass fails, and neither ends the request nor may be retried on the same route. */
  predicate PassesOn(r: Route, turn: Turn) {
    && turn.top.Alive? && turn.quota
    && (Executes(turn) ==>
          ErrorOf(turn).Some? && !EndsRequest(r, 0, ErrorOf(turn).value, turn)
          && (ErrorOf(turn).value.Proxy? ==> !MayRetry(r, ErrorOf(turn).value.error, turn)))
  }

  /** The executions when the k-th pass is the one of the k-th route. */
  function Trials(memory: map<string, string>, routes: seq<Route>, turns: seq<Turn>): seq<Trial>
    requires |turns| <= |routes| && forall r :: r in routes ==> Tried(r)
  {
    if turns == [] then []
    else
      assert Tried(routes[0]);
      StartInRange(memory, routes[0]);
      var model := routes[0].models[StartIndex(memory, routes[0])];
      (if Executes(turns[0]) then [Trial(routes[0].provider, model, turns[0].wrote, ErrorOf(turns[0]))] else [])
      + Trials(memory, routes[1..], turns[1..])
  }

  lemma {:induction false} OnePass(s: State, r: Route, turns: seq<Turn>)
    requires Tried(r) && turns != [] && turns[0].top.Alive?
    ensures var c := StartIndex(s.memory, r);
            && c < |r.models|
            && var (s', verdict) := Attempt(s, r, 0, c, turns[0]);
               && (verdict.Return? ==> RouteLoop(s, r, 0, c, turns) == (s', Done, turns[1..]))
               && (verdict.NextRoute? ==> RouteLoop(s, r, 0, c, turns) == (s', Over, turns[1..]))
  {
    hide Attempt, StartIndex;
    StartInRange(s.memory, r);
  }

  lemma {:induction false} OnePassOn(s: State, r: Route, turns: seq<Turn>)
    requires Tried(r) && turns != [] && PassesOn(r, turns[0])
    ensures var c := StartIndex(s.memory, r);
            && c < |r.models|
            && var s' := Attempt(s, r, 0, c, turns[0]).0;
               && RouteLoop(s, r, 0, c, turns) == (s', Over, turns[1..])
               && s'.memory == s.memory && Kept(turns[0], s'.lastErr) && s'.status == s.status
               && s'.log == s.log + Trials(s.memory, [r], [turns[0]])
  {
    hide Attempt, StartIndex, MayRetry, StreamBroke, SameFailure, RouteLoop, Cools;
    OnePass(s, r, turns);
    var c, turn := StartIndex(s.memory, r), turns[0];
    PassExactly(s, r, 0, c, turn);
    assert [r][1..] == [] && [turn][1..] == [] && Trials(s.memory, [], []) == [];
  }

  predicate Succeeds(turn: Turn) {
    turn.top.Alive? && Executes(turn) && ErrorOf(turn).None?
  }

  lemma {:induction false} FirstTrial(memory: map<string, string>, routes: seq<Route>, turns: seq<Turn>, k: nat)
    requires 0 < k <= |routes| && k <= |turns| && forall r :: r in routes ==> Tried(r)
    ensures Trials(memory, routes[..k], turns[..k])
         == Trials(memory, [routes[0]], [turns[0]]) + Trials(memory, routes[1..][..k - 1], turns[1..][..k - 1])
  {
    hide StartIndex;
    assert routes[..k][1..] == routes[1..][..k - 1] && turns[..k][1..] == turns[1..][..k - 1];
    assert [routes[0]][1..] == [] && [turns[0]][1..] == [] && Trials(memory, [], []) == [];
  }

  lemma {:induction false} NoTrials(memory: map<string, string>)
    ensures Trials(memory, [], []) == []
  {
  }

  /** Routes that pass the request on are executed once each, with their first candidate; the first one
      that succeeds completes the request. */
  lemma {:induction false} RoutesFailOver(s: State, routes: seq<Route>, turns: seq<Turn>, k: nat)
    requires k < |routes| && k < |turns| && forall r :: r in routes ==> Tried(r)
    requires (forall i :: 0 <= i < k ==> PassesOn(routes[i], turns[i])) && Succeeds(turns[k])
    ensures var (s', exit) := RoutesLoop(s, routes, turns);
            && exit.Done? && s'.status.Completed?
            && s'.log == s.log + Trials(s.memory, routes[..k + 1], turns[..k + 1])
    decreases k
  {
    hide RouteLoop, Attempt, PassesOn, StartIndex, Trials;
    var r, turn := routes[0], turns[0];
    assert Tried(r);
    FirstTrial(s.memory, routes, turns, k + 1);
    if k == 0 {
      OnePass(s, r, turns);
      PassExactly(s, r, 0, StartIndex(s.memory, r), turn);
      OneTrial(s.memory, r, turn);
      NoTrials(s.memory);
      assert routes[1..][..0] == [] && turns[1..][..0] == [];
    } else {
      OnePassOn(s, r, turns);
      assert forall q :: q in routes[1..] ==> q in routes;
      forall i | 0 <= i < k - 1 ensures PassesOn(routes[1..][i], turns[1..][i]) {
        assert PassesOn(routes[i + 1], turns[i + 1]);
      }
      RoutesFailOver(Attempt(s, r, 0, StartIndex(s.memory, r), turn).0, routes[1..], turns[1..], k - 1);
    }
  }

  lemma {:induction false} OneTrial(memory: map<string, string>, r: Route, turn: Turn)
    requires Tried(r) && Executes(turn)
    ensures var c := StartIndex(memory, r);
            c < |r.models| && Trials(memory, [r], [turn]) == [Trial(r.provider, r.models[c], turn.wrote, ErrorOf(turn))]
            && Trials(memory, [r][1..], [turn][1..]) == []
  {
    hide StartIndex;
    StartInRange(memory, r);
    assert [r][1..] == [] && [turn][1..] == [];
  }

  lemma {:induction false} LastTrial(memory: map<string, string>, routes: seq<Route>, turns: seq<Turn>)
    requires |turns| == |routes| > 0 && (forall r :: r in routes ==> Tried(r)) && Executes(turns[|turns| - 1])
    ensures var log, n := Trials(memory, routes, turns), |turns| - 1;
            log != [] && log[|log| - 1].provider == routes[n].provider && log[|log| - 1].error == ErrorOf(turns[n])
    decreases |turns|
  {
    hide StartIndex;
    if |turns| == 1 {
      assert Trials(memory, routes[1..], turns[1..]) == [];
    } else {
      assert forall q :: q in routes[1..] ==> q in routes;
      LastTrial(memory, routes[1..], turns[1..]);
    }
  }

  /** The request moves on from route to route until one succeeds: each is executed once, unless there
      was no slot for it or its conversion failed, and the last execution is the one that succeeds. */
  lemma {:induction false} FailsOver(memory: map<string, string>, routes: seq<Route>, turns: seq<Turn>, k: nat,
                                     end: Context)
    requires k < |routes| && k < |turns| && forall r :: r in routes ==> Tried(r)
    requires (forall i :: 0 <= i < k ==> PassesOn(routes[i], turns[i])) && Succeeds(turns[k])
    ensures var (s, exit) := Handle(memory, routes, turns, end);
            && exit.Done? && s.status.Completed? && s.lastErr.None?
            && s.log == Trials(memory, routes[..k + 1], turns[..k + 1])
            && s.log != [] && s.log[|s.log| - 1].provider == routes[k].provider && s.log[|s.log| - 1].error.None?
  {
    hide RoutesLoop, Trials, PassesOn, NoneSucceeded;
    RoutesFailOver(Fresh(memory), routes, turns, k);
    EndsSettled(memory, routes, turns, end);
    LastTrial(memory, routes[..k + 1], turns[..k + 1]);
    assert [] + Trials(memory, routes[..k + 1], turns[..k + 1]) == Trials(memory, routes[..k + 1], turns[..k + 1]);
  }

  lemma {:induction false} RoutesAllFail(s: State, routes: seq<Route>, turns: seq<Turn>)
    requires |routes| <= |turns| && forall r :: r in routes ==> Tried(r)
    requires forall i :: 0 <= i < |routes| ==> PassesOn(routes[i], turns[i])
    ensures var (s', exit) := RoutesLoop(s, routes, turns); var n := |routes|;
            && exit.Over? && s'.log == s.log + Trials(s.memory, routes, turns[..n])
            && (if n == 0 then s' == s else Kept(turns[n - 1], s'.lastErr))
    decreases |routes|
  {
    hide RouteLoop, Attempt, PassesOn, StartIndex, Trials, Kept;
    var n := |routes|;
    if n == 0 {
      assert Trials(s.memory, [], []) == [] by { NoTrials(s.memory); }
    } else {
      assert Tried(routes[0]);
      OnePassOn(s, routes[0], turns);
      FirstTrial(s.memory, routes, turns, n);
      assert routes[..n] == routes && routes[1..][..n - 1] == routes[1..];
      assert forall q :: q in routes[1..] ==> q in routes;
      forall i | 0 <= i < n - 1 ensures PassesOn(routes[1..][i], turns[1..][i]) {
        assert PassesOn(routes[i + 1], turns[i + 1]);
      }
      RoutesAllFail(Attempt(s, routes[0], 0, StartIndex(s.memory, routes[0]), turns[0]).0, routes[1..], turns[1..]);
    }
  }

  /** If every route passes the request on, it fails after one execution of each, with the last error. */
  lemma {:induction false} AllFail(memory: map<string, string>, routes: seq<Route>, turns: seq<Turn>, end: Context)
    requires |routes| <= |turns| && forall r :: r in routes ==> Tried(r)
    requires forall i :: 0 <= i < |routes| ==> PassesOn(routes[i], turns[i])
    ensures var (s, exit) := Handle(memory, routes, turns, end); var n := |routes|;
            && exit.Done? && s.status.Failed? && s.log == Trials(memory, routes, turns[..n])
            && (if n == 0 then s.lastErr == Some(Exhausted) else Kept(turns[n - 1], s.lastErr))
  {
    hide RoutesLoop, Trials, PassesOn;
    RoutesAllFail(Fresh(memory), routes, turns);
    assert [] + Trials(memory, routes, turns[..|routes|]) == Trials(memory, routes, turns[..|routes|]);
  }

  // ---------------------------------------------------------------- when the client has gone

  /** The passes that execute before the first that finds the context ended. */
  function Executable(turns: seq<Turn>): nat {
    if turns == [] || !turns[0].top.Alive? then 0
    else (if Executes(turns[0]) then 1 else 0) + Executable(turns[1..])
  }

  lemma {:induction false} RouteLoopStops(s: State, r: Route, attempt: int, candidate: nat, turns: seq<Turn>)
    ensures var (s', exit, rest) := RouteLoop(s, r, attempt, candidate, turns);
            |s'.log| + (if exit.Over? then Executable(rest) else 0) <= |s.log| + Executable(turns)
    decreases |turns|
  {
    hide Attempt;
    if !(attempt > r.maxRetries && !r.disabled) && turns != [] && turns[0].top.Alive? && candidate < |r.models| {
      AttemptLogs(s, r, attempt, candidate, turns[0]);
      match Attempt(s, r, attempt, candidate, turns[0])
      case (s1, Again(a, c)) => RouteLoopStops(s1, r, a, c, turns[1..]);
      case _ =>
    }
  }

  lemma {:induction false} RoutesLoopStops(s: State, routes: seq<Route>, turns: seq<Turn>)
    ensures |RoutesLoop(s, routes, turns).0.log| <= |s.log| + Executable(turns)
    decreases |routes|
  {
    hide RouteLoop;
    if routes != [] && routes[0].start.Alive? {
      RouteLoopStops(s, routes[0], 0, StartIndex(s.memory, routes[0]), turns);
      match RouteLoop(s, routes[0], 0, StartIndex(s.memory, routes[0]), turns)
      case (s1, Over, rest) => RoutesLoopStops(s1, routes[1..], rest);
      case _ =>
    }
  }

  /** Nothing is executed once a pass has found that the context has ended. */
  lemma {:induction false} NoneAfterEnd(memory: map<string, string>, routes: seq<Route>, turns: seq<Turn>, end: Context)
    ensures |Handle(memory, routes, turns, end).0.log| <= Executable(turns)
  {
    hide RoutesLoop;
    RoutesLoopStops(Fresh(memory), routes, turns);
  }

  // ---------------------------------------------------------------- cancelled requests

  /** The last execution failed because the client had gone. */
  predicate ClientGone(log: seq<Trial>) {
    log != [] && log[|log| - 1].error.Some? && Disconnects(log[|log| - 1].error.value)
  }

  /** A request that has not been decided when the loops end was stopped by its context. */
  predicate Decided(s: State) {
    && (s.status.Cancelled? ==> ClientGone(s.log))
    && (s.status.InProgress? ==> s.lastErr.Some? && s.lastErr.value.Stopped?)
  }

  lemma {:induction false} AttemptDecided(s: State, r: Route, attempt: nat, candidate: nat, turn: Turn)
    requires candidate < |r.models| && s.status.InProgress?
    ensures var (s', verdict) := Attempt(s, r, attempt, candidate, turn);
            && (if verdict.Return? then Decided(s') else s'.status.InProgress?)
            && (verdict.Again? ==> verdict.attempt >= 0)
  {
    hide Attempt, MayRetry, EndsRequest, Cools, Reports, StreamBroke;
    PassExactly(s, r, attempt, candidate, turn);
  }

  lemma {:induction false} RouteLoopDecided(s: State, r: Route, attempt: nat, candidate: nat, turns: seq<Turn>)
    requires s.status.InProgress?
    ensures var (s', exit, _) := RouteLoop(s, r, attempt, candidate, turns);
            if exit.Done? then Decided(s') else s'.status.InProgress?
    decreases |turns|
  {
    hide Attempt, ClientGone;
    if !(attempt > r.maxRetries && !r.disabled) && turns != [] && turns[0].top.Alive? && candidate < |r.models| {
      AttemptDecided(s, r, attempt, candidate, turns[0]);
      match Attempt(s, r, attempt, candidate, turns[0])
      case (s1, Again(a, c)) => RouteLoopDecided(s1, r, a, c, turns[1..]);
      case _ =>
    }
  }

  lemma {:induction false} RoutesLoopDecided(s: State, routes: seq<Route>, turns: seq<Turn>)
    requires s.status.InProgress?
    ensures var (s', exit) := RoutesLoop(s, routes, turns); if exit.Done? then Decided(s') else s'.status.InProgress?
    decreases |routes|
  {
    hide RouteLoop, ClientGone;
    if routes != [] && routes[0].start.Alive? {
      RouteLoopDecided(s, routes[0], 0, StartIndex(s.memory, routes[0]), turns);
      match RouteLoop(s, routes[0], 0, StartIndex(s.memory, routes[0]), turns)
      case (s1, Over, rest) => RoutesLoopDecided(s1, routes[1..], rest);
      case _ =>
    }
  }

  /** A request counts as cancelled only if its last execution failed because the client had gone. */
  lemma {:induction false} CancelledByClient(memory: map<string, string>, routes: seq<Route>, turns: seq<Turn>,
                                             end: Context)
    ensures var (s, exit) := Handle(memory, routes, turns, end);
            exit.Done? && s.status.Cancelled? ==> ClientGone(s.log)
  {
    hide RoutesLoop, ClientGone;
    RoutesLoopDecided(Fresh(memory), routes, turns);
  }
}
