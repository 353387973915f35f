/** The dispatcher as the program has it: nested loops over routes and attempts that update the
    request, its attempt records and the provider slots in place.  The methods do what the functions
    of Dispatch say. */
module Dispatcher {
  import opened Options
  import D = Dispatch

  class Request {
    var status: D.Status
    var lastErr: Option<D.Failure>

    /** The attempt records, whether the last one is the current attempt, and the attempt counter. */
    var attempts: seq<D.Status>
    var current: bool
    var attemptCount: nat

    /** The providers whose slots were taken and given back. */
    var acquired: seq<nat>
    var released: seq<nat>

    var log: seq<D.Trial>
    var cooled: seq<nat>
    var smartMappingSuccess: map<string, string>

    ghost function View(): D.State
      reads this
    {
      D.State(status, lastErr, attempts, current, attemptCount, acquired, released, log, cooled, smartMappingSuccess)
    }

    constructor (memory: map<string, string>)
      ensures View() == D.Fresh(memory)
    {
      status, lastErr, attempts, current, attemptCount := D.InProgress, None, [], false, 0;
      acquired, released, log, cooled, smartMappingSuccess := [], [], [], [], memory;
    }

    /** A slot of the provider is taken and an attempt record opened. */
    method Begin(r: D.Route)
      modifies this`acquired, this`attempts, this`current, this`attemptCount
      ensures View() == D.Begin(D.TakeSlot(old(View()), r)) && attempts != []
    {
      acquired := acquired + [r.provider];
      attempts := attempts + [D.InProgress];
      current := true;
      attemptCount := attemptCount + 1;
    }

    /** The adapter runs, and the slot is given back whatever happens. */
    method Execute(r: D.Route, model: string, turn: D.Turn) returns (err: Option<D.Failure>)
      modifies this`released, this`log
      ensures View() == D.Execute(old(View()), r, model, turn) && err == D.ErrorOf(turn)
    {
      err := turn.error;
      released := released + [r.provider];
      if turn.finalizeFails.Some? {
        err := Some(D.Proxy(turn.finalizeFails.value));
      }
      log := log + [D.Trial(r.provider, model, turn.wrote, err)];
    }

    method Attempt(r: D.Route, attempt: int, candidate: nat, turn: D.Turn) returns (verdict: D.Verdict)
      requires candidate < |r.models|
      modifies this
      ensures (View(), verdict) == D.Attempt(old(View()), r, attempt, candidate, turn)
    {
      hide D.HandleFailure;
      if !turn.quota {
        status, lastErr := D.Rejected, Some(D.NoQuota);
        return D.Return;
      }
      if turn.conversion.Refused? {
        lastErr := Some(D.Proxy(turn.conversion.error));
        return D.NextRoute;
      }
      if !turn.slot {
        lastErr := Some(D.Proxy(D.BUSY));
        return D.NextRoute;
      }
      Begin(r);
      var model := r.models[candidate];
      var err := Execute(r, model, turn);
      if err.None? {
        attempts := attempts[|attempts| - 1 := D.Completed];
        current := false;
        if D.UsesSmart(r) && r.key != "" && model != "" {
          smartMappingSuccess := smartMappingSuccess[r.key := model];
        }
        status, lastErr := D.Completed, None;
        return D.Return;
      }
      verdict := HandleFailure(r, attempt, candidate, err.value, turn);
    }

    method HandleFailure(r: D.Route, attempt: int, candidate: nat, f: D.Failure, turn: D.Turn)
        returns (verdict: D.Verdict)
      requires attempts != []
      modifies this
      ensures (View(), verdict) == D.HandleFailure(old(View()), r, attempt, candidate, f, turn)
    {
      hide D.Judged, D.Forced, D.RetriesCommitted, D.DefersCooldown, D.Advance;
      lastErr := Some(f);
      attempts := attempts[|attempts| - 1 := D.FailureStatus(turn.atRecord, Some(f))];
      current := false;
      if !f.Proxy? {
        if turn.wrote {
          status := D.Failed;
          return D.Return;
        }
        return D.NextRoute;
      }
      var p := D.Judged(f.error, r.disabled);
      lastErr := Some(D.Proxy(p));
      if turn.wrote && !D.RetriesCommitted(p) {
        status := D.Failed;
        return D.Return;
      }
      if !turn.atCheck.Alive? {
        status := D.FailureStatus(turn.atCheck, Some(D.Proxy(p)));
        lastErr := Some(D.Stopped(turn.atCheck));
        return D.Return;
      }
      p := D.Forced(p, turn.atForce, turn.wrote, r.force);
      lastErr := Some(D.Proxy(p));
      if p.scope.RequestScope? && !p.retryable {
        status := D.Failed;
        return D.Return;
      }
      if !turn.atCooldown.Canceled? {
        if !r.disabled && !D.DefersCooldown(p, attempt, r.maxRetries) {
          if !p.scope.RequestScope? {
            cooled := cooled + [r.provider];
          }
        }
      }
      if !p.retryable {
        return D.NextRoute;
      }
      verdict := Advance(r, attempt, candidate, p, turn);
    }

    method Advance(r: D.Route, attempt: int, candidate: nat, p: D.ProxyError, turn: D.Turn) returns (verdict: D.Verdict)
      modifies this`status, this`lastErr
      ensures (View(), verdict) == D.Advance(old(View()), r, attempt, candidate, p, turn)
    {
      if D.UsesSmart(r) && attempt + 1 >= D.Limit(r) {
        var next := candidate + 1;
        if next >= |r.models| && r.disabled {
          next := 0;
        }
        if next < |r.models| {
          return D.Again(0, next);
        }
        return D.NextRoute;
      }
      if attempt < r.maxRetries || r.disabled {
        if !turn.atWait.Alive? {
          status := D.FailureStatus(turn.atWait, Some(D.Proxy(p)));
          lastErr := Some(D.Stopped(turn.atWait));
          return D.Return;
        }
      }
      return D.Again(attempt + 1, candidate);
    }

    method StartIndex(r: D.Route) returns (start: nat)
      ensures start == D.StartIndex(smartMappingSuccess, r)
    {
      if !D.UsesSmart(r) || r.key == "" || r.key !in smartMappingSuccess {
        return 0;
      }
      var last := smartMappingSuccess[r.key];
      if last == "" {
        return 0;
      }
      for i := 0 to |r.models|
        invariant last !in r.models[..i]
        invariant D.IndexOf(r.models, last) == i + D.IndexOf(r.models[i..], last)
      {
        assert r.models[i..][0] == r.models[i] && r.models[i..][1..] == r.models[i + 1..];
        if r.models[i] == last {
          return i;
        }
        assert r.models[..i + 1] == r.models[..i] + [r.models[i]];
      }
      assert r.models[..|r.models|] == r.models;
      return 0;
    }

    /** The loops; `turns` is what the outside world will do. */
    method Dispatch(routes: seq<D.Route>, turns: seq<D.Turn>) returns (exit: D.Exit)
      modifies this
      ensures (View(), exit) == match D.RoutesLoop(old(View()), routes, turns)
                                case (s, Over) => (D.GiveUp(s), D.Done)
                                case (s, e) => (s, e)
    {
      hide D.Attempt;
      var left := turns;
      ghost var whole := D.RoutesLoop(View(), routes, turns);
      for i := 0 to |routes|
        invariant D.RoutesLoop(View(), routes[i..], left) == whole
      {
        var r := routes[i];
        assert routes[i..][0] == r && routes[i..][1..] == routes[i + 1..];
        if !r.start.Alive? {
          lastErr := Some(D.Stopped(r.start));
          return D.Done;
        }
        var candidate: nat := StartIndex(r);
        var attempt := 0;
        ghost var inner := D.RouteLoop(View(), r, attempt, candidate, left);
        var over := false;
        while !over
          invariant if over then inner == (View(), D.Over, left)
                    else D.RouteLoop(View(), r, attempt, candidate, left) == inner
          decreases |left|, !over
        {
          if attempt > r.maxRetries && !r.disabled {
            over := true;
            break;
          }
          if |left| == 0 {
            return D.Starved;
          }
          var turn := left[0];
          if !turn.top.Alive? {
            lastErr := Some(D.Stopped(turn.top));
            return D.Done;
          }
          left := left[1..];
          if candidate >= |r.models| {
            over := true;
            break;
          }
          var verdict := Attempt(r, attempt, candidate, turn);
          match verdict {
            case Return => return D.Done;
            case NextRoute => over := true;
            case Again(a, c) => attempt, candidate := a, c;
          }
        }
      }
      assert routes[|routes|..] == [];
      status := D.Failed;
      if lastErr.None? {
        lastErr := Some(D.Exhausted);
      }
      return D.Done;
    }

    method Egress(end: D.Context)
      modifies this`status, this`attempts
      ensures View() == D.Egress(old(View()), end)
    {
      if status == D.InProgress {
        status := D.FailureStatus(end, lastErr);
      }
      if current && attempts != [] && attempts[|attempts| - 1] == D.InProgress {
        attempts := attempts[|attempts| - 1 := D.FailureStatus(end, lastErr)];
      }
    }
  }

  /** One request from start to end, provided the script is long enough. */
  method Handle(memory: map<string, string>, routes: seq<D.Route>, turns: seq<D.Turn>, end: D.Context)
    returns (request: Request, exit: D.Exit)
    ensures (request.View(), exit) == D.Handle(memory, routes, turns, end)
  {
    hide D.RoutesLoop;
    request := new Request(memory);
    exit := request.Dispatch(routes, turns);
    if exit.Done? {
      request.Egress(end);
    }
  }
}
