/** Several instances, one store, and a bus that loses, repeats and reorders events.

    Whatever is published stays on the wire: an event may be delivered any number of times, in any
    order, or never.  Time moves between the steps.  A mutation is two steps, because the program
    calls the store twice: first the write, then the bump of the generation.  In between, the
    instance keeps its own lock, but other instances go on. */
module CooldownProtocol {
  import opened Options
  import opened CooldownStores
  import opened Cooldowns

  // ---------------------------------------------------------------- mutations

  datatype Op =
    | SetUntil(key: Key, until: int, reason: string, ifLater: bool)
    | Clear(key: Key)
    | Success(key: Key)
    | Update(key: Key, until: int)
    | Failure(key: Key, reason: string, scope: Scope, explicit: Option<int>, duration: int)

  function Mutation(l: Local, s: Store, op: Op, now: int, f: Faults): Outcome {
    match op
    case SetUntil(key, until, reason, ifLater) => SetCooldown(l, s, key, until, reason, ifLater, now, f)
    case Clear(key) => ClearCooldown(l, s, key, now, f)
    case Success(key) => ClearOne(l, s, key, now, f)
    case Update(key, until) => UpdateCooldown(l, s, key, until, now, f)
    case Failure(key, reason, scope, explicit, duration) =>
      RecordFailure(l, s, key, reason, scope, explicit, duration, now, f)
  }

  /** What an operation comes down to, at the time it runs. */
  datatype Effect =
    | Nothing
    | DropOne(key: Key)
    | DropAll(p: nat)
    | Put(key: Key, until: int, reason: string, ifLater: bool)

  function PutOrDrop(key: Key, until: int, reason: string, ifLater: bool, now: int): Effect {
    if until <= now then DropOne(key) else Put(key, until, reason, ifLater)
  }

  function ClearEffect(key: Key): Effect {
    if key.client == "" && key.model == "" then DropAll(key.provider) else DropOne(key)
  }

  function EffectOf(l: Local, op: Op, now: int): Effect {
    match op
    case SetUntil(key, until, reason, ifLater) => PutOrDrop(key, until, reason, ifLater, now)
    case Clear(key) => ClearEffect(key)
    case Success(key) => DropOne(key)
    case Update(key, until) =>
      if until <= now then ClearEffect(key)
      else Put(key, until, if key in l.reasons then l.reasons[key] else UNKNOWN, false)
    case Failure(key, reason, scope, explicit, duration) =>
      if scope.RequestScope? then Nothing
      else if explicit.Some? then PutOrDrop(ScopedKey(key, scope), explicit.value, reason, false, now)
      else PutOrDrop(ScopedKey(key, scope), now + duration, reason, true, now)
  }

  /** The first half of a mutation: the store is written, and the local maps follow. */
  function WriteOf(l: Local, s: Store, op: Op, now: int, f: Faults): Written {
    match EffectOf(l, op, now)
    case Nothing => Written(l, s, false)
    case DropOne(key) => WriteOne(l, s, key, f)
    case DropAll(p) => WriteAll(l, s, p, f)
    case Put(key, until, reason, ifLater) => WriteUntil(l, s, key, until, reason, ifLater, f)
  }

  predicate About(e: Effect, p: nat) {
    match e
    case Nothing => true
    case DropOne(key) => key.provider == p
    case DropAll(q) => q == p
    case Put(key, _, _, _) => key.provider == p
  }

  /** A mutation is its write, and the bump of the generation if the store took the write. */
  lemma {:induction false} WriteThenBump(l: Local, s: Store, op: Op, now: int, f: Faults)
    ensures Mutation(l, s, op, now, f) == Finish(WriteOf(l, s, op, now, f), op.key.provider, now, f)
    ensures About(EffectOf(l, op, now), op.key.provider)
    ensures EffectOf(l, op, now).Put? ==> EffectOf(l, op, now).until > now
  {
    hide WriteOne, WriteAll, WriteUntil, BumpAndPublish;
  }

  // ---------------------------------------------------------------- steps

  /** A reload that has listed the store but not yet installed the result. */
  datatype Pending = Pending(instance: nat, provider: nat, listed: Entries, target: int)

  /** `owed` says which instances have written and for which provider they have yet to bump. */
  datatype System = System(locals: seq<Local>, store: Store, wire: set<Event>, reloads: seq<Pending>,
                           owed: map<nat, nat>, now: int)

  datatype Step =
    | Write(instance: nat, op: Op, faults: Faults)
    | Bump(instance: nat, faults: Faults)
    | Deliver(instance: nat, event: Event, faults: Faults)
    | Sync(instance: nat, provider: nat, every: int, faults: Faults)
    | BeginReload(instance: nat, provider: nat, target: int)
    | EndReload(index: nat, faults: Faults)
    | Cleanup(instance: nat)
    | Tick(to: int)

  /** An instance of the system that is not in the middle of a mutation. */
  predicate Free(y: System, i: nat) {
    i < |y.locals| && i !in y.owed
  }

  /** A reload aims at a generation that was read from the store, or came with an event, before. */
  predicate Enabled(y: System, step: Step) {
    match step
    case Write(i, _, _) => Free(y, i)
    case Bump(i, _) => i < |y.locals| && i in y.owed
    case Deliver(i, e, _) => Free(y, i) && e in y.wire
    case Sync(i, _, _, _) => Free(y, i)
    case BeginReload(i, p, target) => i < |y.locals| && target <= Generation(y.store, p)
    case EndReload(k, _) => k < |y.reloads| && Free(y, y.reloads[k].instance)
    case Cleanup(i) => Free(y, i)
    case Tick(to) => y.now <= to
  }

  function Elements(events: seq<Event>): set<Event> {
    set e | e in events
  }

  function WithLocal(y: System, i: nat, l: Local): System
    requires i < |y.locals|
  {
    y.(locals := y.locals[i := l])
  }

  function AfterWrite(y: System, i: nat, op: Op, f: Faults): System
    requires Free(y, i)
  {
    var w := WriteOf(y.locals[i], y.store, op, y.now, f);
    WithLocal(y, i, w.local).(store := w.store, owed := if w.bumps then y.owed[i := op.key.provider] else y.owed)
  }

  function AfterBump(y: System, i: nat, f: Faults): System
    requires i < |y.locals| && i in y.owed
  {
    var o := BumpAndPublish(y.locals[i], y.store, y.owed[i], y.now, f);
    WithLocal(y, i, o.local).(store := o.store, wire := y.wire + Elements(o.events), owed := y.owed - {i})
  }

  /** What a reload that was begun aims at when it ends. */
  function Target(y: System, k: nat, f: Faults): int
    requires k < |y.reloads|
  {
    var r := y.reloads[k];
    if r.target != 0 then r.target else if f.read then 0 else Generation(y.store, r.provider)
  }

  function Installed(y: System, k: nat, f: Faults): Local
    requires k < |y.reloads| && y.reloads[k].instance < |y.locals|
  {
    var r := y.reloads[k];
    Install(y.locals[r.instance], r.provider, r.listed, Target(y, k, f), y.now)
  }

  function Next(y: System, step: Step): System
    requires Enabled(y, step)
  {
    match step
    case Write(i, op, f) => AfterWrite(y, i, op, f)
    case Bump(i, f) => AfterBump(y, i, f)
    case Deliver(i, e, f) => WithLocal(y, i, ApplyRemoteEvent(y.locals[i], y.store, e, y.now, f))
    case Sync(i, p, every, f) => WithLocal(y, i, SyncGeneration(y.locals[i], y.store, p, every, y.now, f))
    case BeginReload(i, p, target) =>
      y.(reloads := y.reloads + [Pending(i, p, Live(y.store.entries, p, y.now), target)])
    case EndReload(k, f) =>
      WithLocal(y, y.reloads[k].instance, Installed(y, k, f)).(reloads := y.reloads[..k] + y.reloads[k + 1..])
    case Cleanup(i) => WithLocal(y, i, CleanupExpired(y.locals[i], y.now))
    case Tick(to) => y.(now := to)
  }

  function Initial(n: nat, now: int): System {
    System(seq(n, i => EMPTY_LOCAL), EMPTY_STORE, {}, [], map[], now)
  }

  ghost predicate IsRun(y: System, steps: seq<Step>)
    decreases |steps|
  {
    steps == [] || (Enabled(y, steps[0]) && IsRun(Next(y, steps[0]), steps[1..]))
  }

  function After(y: System, steps: seq<Step>): System
    requires IsRun(y, steps)
    decreases |steps|
  {
    if steps == [] then y else After(Next(y, steps[0]), steps[1..])
  }

  lemma {:induction false} RunSplit(y: System, a: seq<Step>, b: seq<Step>)
    requires IsRun(y, a + b)
    ensures IsRun(y, a) && IsRun(After(y, a), b) && After(y, a + b) == After(After(y, a), b)
    decreases |a|
  {
    hide Next, Enabled;
    if a == [] {
      assert a + b == b;
    } else {
      assert (a + b)[0] == a[0] && (a + b)[1..] == a[1..] + b;
      RunSplit(Next(y, a[0]), a[1..], b);
    }
  }

  // ---------------------------------------------------------------- what a mutation does to generations

  /** Nothing happened to the generations, or the provider's went up by one, here and in the store. */
  predicate Announced(l: Local, s: Store, p: nat, o: Outcome) {
    || (o.store == s && o.local.generations == l.generations && o.events == [])
    || (o.store.generations == s.generations && o.local.generations == l.generations && o.events == [])
    || (&& o.store.generations == s.generations[p := Generation(s, p) + 1]
        && o.local.generations == l.generations[p := Generation(s, p) + 1]
        && forall e :: e in o.events ==> e == Event(p, Generation(s, p) + 1))
  }

  lemma {:induction false} WriteGenerations(l: Local, s: Store, op: Op, now: int, f: Faults)
    ensures var w := WriteOf(l, s, op, now, f);
            && w.local.generations == l.generations && w.store.generations == s.generations
            && (w.bumps ==> !f.write)
            && (!w.bumps ==> w.store == s)
  {
    hide EffectOf;
  }

  lemma {:induction false} BumpGenerations(l: Local, s: Store, p: nat, now: int, f: Faults)
    ensures var o := BumpAndPublish(l, s, p, now, f);
            && Announced(l, s, p, o)
            && o.local.cooldowns == l.cooldowns && o.store.entries == s.entries
            && (if f.bump then o == Outcome(l, s, [])
                else Generation(o.store, p) == KnownGeneration(o.local, p) == Generation(s, p) + 1)
  {
  }

  /** Generations move only when the write to the store went through, and by one; and no change
      of the store's entries goes unannounced unless the announcement itself failed. */
  lemma {:induction false} MutationGenerations(l: Local, s: Store, op: Op, now: int, f: Faults)
    ensures var o := Mutation(l, s, op, now, f);
            && Announced(l, s, op.key.provider, o)
            && (f.write ==> o.store == s)
            && (o.store.generations != s.generations ==>
                  !f.write && Generation(o.store, op.key.provider) == Generation(s, op.key.provider) + 1)
            && (o.store != s && !f.bump ==> Generation(o.store, op.key.provider) == Generation(s, op.key.provider) + 1)
            && (f.bump ==> o.store.generations == s.generations)
  {
    hide Mutation, WriteOf, BumpAndPublish;
    WriteThenBump(l, s, op, now, f);
    WriteGenerations(l, s, op, now, f);
    var w := WriteOf(l, s, op, now, f);
    BumpGenerations(w.local, w.store, op.key.provider, now, f);
  }

  // ---------------------------------------------------------------- generations, in every run

  /** No one is ahead of the store: not an instance, not an event, not a reload under way. */
  ghost predicate Safe(y: System) {
    && (forall i :: i in y.owed ==> i < |y.locals|)
    && (forall i, p: nat :: 0 <= i < |y.locals| ==> KnownGeneration(y.locals[i], p) <= Generation(y.store, p))
    && (forall e :: e in y.wire ==> e.generation <= Generation(y.store, e.provider))
    && (forall k :: 0 <= k < |y.reloads| ==> y.reloads[k].target <= Generation(y.store, y.reloads[k].provider))
  }

  /** No generation goes back. */
  ghost predicate Forward(y: System, z: System) {
    && |z.locals| == |y.locals| && y.wire <= z.wire && y.now <= z.now
    && (forall p: nat :: Generation(y.store, p) <= Generation(z.store, p))
    && (forall i, p: nat :: 0 <= i < |y.locals| ==> KnownGeneration(y.locals[i], p) <= KnownGeneration(z.locals[i], p))
  }

  lemma {:induction false} WriteSafe(y: System, i: nat, op: Op, f: Faults)
    requires Safe(y) && Free(y, i)
    ensures Safe(AfterWrite(y, i, op, f)) && Forward(y, AfterWrite(y, i, op, f))
  {
    hide WriteOf;
    WriteGenerations(y.locals[i], y.store, op, y.now, f);
    var w := WriteOf(y.locals[i], y.store, op, y.now, f);
    assert forall q: nat :: KnownGeneration(w.local, q) == KnownGeneration(y.locals[i], q);
    assert forall q: nat :: Generation(w.store, q) == Generation(y.store, q);
  }

  lemma {:induction false} BumpSafe(y: System, i: nat, f: Faults)
    requires Safe(y) && i < |y.locals| && i in y.owed
    ensures Safe(AfterBump(y, i, f)) && Forward(y, AfterBump(y, i, f))
  {
    hide BumpAndPublish;
    var l, s, p := y.locals[i], y.store, y.owed[i];
    var o := BumpAndPublish(l, s, p, y.now, f);
    BumpGenerations(l, s, p, y.now, f);
    assert KnownGeneration(l, p) <= Generation(s, p);
    assert forall q: nat :: Generation(s, q) <= Generation(o.store, q);
    assert forall q: nat :: KnownGeneration(l, q) <= KnownGeneration(o.local, q) <= Generation(o.store, q);
  }

  lemma {:induction false} InstallGenerations(l: Local, p: nat, listed: Entries, target: int, now: int)
    ensures var l' := Install(l, p, listed, target, now);
            forall q: nat :: KnownGeneration(l', q)
              == if q == p && target > KnownGeneration(l, p) then target else KnownGeneration(l, q)
  {
  }

  lemma {:induction false} ReloadGenerations(l: Local, s: Store, p: nat, target: int, now: int, f: Faults)
    requires target <= Generation(s, p) && forall q: nat :: KnownGeneration(l, q) <= Generation(s, q)
    ensures var l' := Reload(l, s, p, target, now, f);
            forall q: nat :: KnownGeneration(l, q) <= KnownGeneration(l', q) <= Generation(s, q)
  {
    hide Install;
    var g := if target != 0 then target else if f.read then 0 else Generation(s, p);
    InstallGenerations(l, p, Live(s.entries, p, now), g, now);
    assert f.read && target == 0 ==> g <= Generation(s, p);
  }

  /** Replacing one instance's view by one that knows more, but not more than the store. */
  lemma {:induction false} LocalSafe(y: System, i: nat, l: Local)
    requires Safe(y) && i < |y.locals|
    requires forall p: nat :: KnownGeneration(y.locals[i], p) <= KnownGeneration(l, p) <= Generation(y.store, p)
    ensures Safe(WithLocal(y, i, l)) && Forward(y, WithLocal(y, i, l))
  {
  }

  lemma {:induction false} DeliverSafe(y: System, i: nat, e: Event, f: Faults)
    requires Safe(y) && i < |y.locals| && e in y.wire
    ensures var z := WithLocal(y, i, ApplyRemoteEvent(y.locals[i], y.store, e, y.now, f)); Safe(z) && Forward(y, z)
  {
    hide Reload;
    ReloadGenerations(y.locals[i], y.store, e.provider, e.generation, y.now, f);
    LocalSafe(y, i, ApplyRemoteEvent(y.locals[i], y.store, e, y.now, f));
  }

  lemma {:induction false} SyncSafe(y: System, i: nat, p: nat, every: int, f: Faults)
    requires Safe(y) && i < |y.locals|
    ensures var z := WithLocal(y, i, SyncGeneration(y.locals[i], y.store, p, every, y.now, f)); Safe(z) && Forward(y, z)
  {
    hide Reload;
    ReloadGenerations(y.locals[i], y.store, p, Generation(y.store, p), y.now, f);
    LocalSafe(y, i, SyncGeneration(y.locals[i], y.store, p, every, y.now, f));
  }

  lemma {:induction false} EndReloadSafe(y: System, k: nat, f: Faults)
    requires Safe(y) && Enabled(y, EndReload(k, f))
    ensures Safe(Next(y, EndReload(k, f))) && Forward(y, Next(y, EndReload(k, f)))
  {
    hide Install;
    var r := y.reloads[k];
    assert KnownGeneration(y.locals[r.instance], r.provider) <= Generation(y.store, r.provider);
    InstallGenerations(y.locals[r.instance], r.provider, r.listed, Target(y, k, f), y.now);
    LocalSafe(y, r.instance, Installed(y, k, f));
  }

  lemma {:induction false} StepSafe(y: System, step: Step)
    requires Safe(y) && Enabled(y, step)
    ensures Safe(Next(y, step)) && Forward(y, Next(y, step))
  {
    hide ApplyRemoteEvent, SyncGeneration, Installed, AfterWrite, AfterBump;
    match step
    case Write(i, op, f) =>
      WriteSafe(y, i, op, f);
    case Bump(i, f) =>
      BumpSafe(y, i, f);
    case Deliver(i, e, f) =>
      DeliverSafe(y, i, e, f);
    case Sync(i, p, every, f) =>
      SyncSafe(y, i, p, every, f);
    case BeginReload(i, p, target) =>
    case EndReload(k, f) =>
      EndReloadSafe(y, k, f);
    case Cleanup(i) =>
      LocalSafe(y, i, CleanupExpired(y.locals[i], y.now));
    case Tick(to) =>
  }

  lemma {:induction false} ForwardTrans(x: System, y: System, z: System)
    requires Forward(x, y) && Forward(y, z)
    ensures Forward(x, z)
  {
  }

  lemma {:induction false} RunSafe(y: System, steps: seq<Step>)
    requires Safe(y) && IsRun(y, steps)
    ensures Safe(After(y, steps)) && Forward(y, After(y, steps))
    decreases |steps|
  {
    hide Safe, Forward, Next, Enabled;
    if steps == [] {
      assert Forward(y, y) by { Still(y); }
    } else {
      StepSafe(y, steps[0]);
      RunSafe(Next(y, steps[0]), steps[1..]);
      ForwardTrans(y, Next(y, steps[0]), After(y, steps));
    }
  }

  lemma {:induction false} Still(y: System)
    ensures Forward(y, y)
  {
  }

  /** In every run, with any failures of the store, any treatment of the events and reloads that
      other steps overtake: no generation goes back, and none is ahead of the store's. */
  lemma {:induction false} GenerationsSafe(n: nat, now: int, steps: seq<Step>)
    requires IsRun(Initial(n, now), steps)
    ensures Safe(After(Initial(n, now), steps))
    ensures forall m :: 0 <= m <= |steps| ==>
              IsRun(Initial(n, now), steps[..m])
                  && Forward(After(Initial(n, now), steps[..m]), After(Initial(n, now), steps))
  {
    hide Next, Enabled, Forward;
    var y := Initial(n, now);
    assert Safe(y);
    RunSafe(y, steps);
    forall m | 0 <= m <= |steps|
      ensures IsRun(y, steps[..m]) && Forward(After(y, steps[..m]), After(y, steps))
    {
      assert steps[..m] + steps[m..] == steps;
      RunSplit(y, steps[..m], steps[m..]);
      RunSafe(y, steps[..m]);
      RunSafe(After(y, steps[..m]), steps[m..]);
    }
  }

  /** The store's generation rises only in a bump, by one, and only for the provider written before. */
  lemma {:induction false} GenerationRises(y: System, step: Step, p: nat)
    requires Enabled(y, step) && Generation(y.store, p) != Generation(Next(y, step).store, p)
    ensures step.Bump? && !step.faults.bump && y.owed[step.instance] == p
    ensures Generation(Next(y, step).store, p) == Generation(y.store, p) + 1
  {
    hide WriteOf, BumpAndPublish, ApplyRemoteEvent, SyncGeneration, Install;
    if step.Write? {
      WriteGenerations(y.locals[step.instance], y.store, step.op, y.now, step.faults);
    } else if step.Bump? {
      BumpGenerations(y.locals[step.instance], y.store, y.owed[step.instance], y.now, step.faults);
    }
  }

  /** The last thing the instance did to the store was a write for `p` that the store took. */
  ghost predicate WroteLast(steps: seq<Step>, i: nat, p: nat) {
    exists k :: 0 <= k < |steps|
      && steps[k].Write? && steps[k].instance == i && steps[k].op.key.provider == p && !steps[k].faults.write
      && forall m :: k < m < |steps| ==> !((steps[m].Write? || steps[m].Bump?) && steps[m].instance == i)
  }

  /** Whoever is about to bump has written before, and not bumped since: no generation rises without
      a successful write. */
  lemma {:induction false} OwedWasWritten(n: nat, now: int, steps: seq<Step>, i: nat)
    requires IsRun(Initial(n, now), steps) && i in After(Initial(n, now), steps).owed
    ensures WroteLast(steps, i, After(Initial(n, now), steps).owed[i])
    decreases |steps|
  {
    hide Next, Enabled, Initial, WriteOf;
    assert Initial(n, now).owed == map[] by { NothingOwed(n, now); }
    var m := |steps| - 1;
    assert steps != [];
    var before, step := steps[..m], steps[m];
    assert before + [step] == steps;
    RunSplit(Initial(n, now), before, [step]);
    var y := After(Initial(n, now), before);
    LastStep(y, step);
    OwedNext(y, step, i);
    if !(step.Write? && step.instance == i) {
      OwedWasWritten(n, now, before, i);
      var k :| 0 <= k < |before|
        && before[k].Write? && before[k].instance == i && before[k].op.key.provider == y.owed[i]
            && !before[k].faults.write
        && forall j :: k < j < |before| ==> !((before[j].Write? || before[j].Bump?) && before[j].instance == i);
      assert steps[k] == before[k];
    }
  }

  lemma {:induction false} NothingOwed(n: nat, now: int)
    ensures Initial(n, now).owed == map[]
  {
  }

  lemma {:induction false} LastStep(y: System, step: Step)
    requires IsRun(y, [step])
    ensures Enabled(y, step) && After(y, [step]) == Next(y, step)
  {
    hide Next, Enabled;
    assert [step][1..] == [];
  }

  lemma {:induction false} OwedNext(y: System, step: Step, i: nat)
    requires Enabled(y, step) && i in Next(y, step).owed
    ensures step.Write? && step.instance == i ==> !step.faults.write && Next(y, step).owed[i] == step.op.key.provider
    ensures step.Bump? ==> step.instance != i
    ensures !(step.Write? && step.instance == i) ==> i in y.owed && y.owed[i] == Next(y, step).owed[i]
  {
    hide WriteOf, BumpAndPublish, ApplyRemoteEvent, SyncGeneration, Install;
    if step.Write? {
      WriteGenerations(y.locals[step.instance], y.store, step.op, y.now, step.faults);
    }
  }

  // ---------------------------------------------------------------- what a mutation does to entries

  /** The entries of other providers are left alone. */
  predicate OthersKept(l: Local, s: Store, p: nat, l': Local, s': Store) {
    Without(l'.cooldowns, p) == Without(l.cooldowns, p) && Without(s'.entries, p) == Without(s.entries, p)
  }

  lemma {:induction false} WriteKeepsOthers(l: Local, s: Store, op: Op, now: int, f: Faults)
    ensures var w := WriteOf(l, s, op, now, f); OthersKept(l, s, op.key.provider, w.local, w.store)
  {
    hide EffectOf, Without;
    WriteThenBump(l, s, op, now, f);
    match EffectOf(l, op, now)
    case Nothing =>
    case DropOne(key) =>
      WithoutKey(l.cooldowns, key, 0);
      WithoutKey(s.entries, key, 0);
    case DropAll(p) =>
      WithoutAll(l.cooldowns, p);
      WithoutAll(s.entries, p);
    case Put(key, until, reason, ifLater) =>
      WithoutKey(l.cooldowns, key, until);
      WithoutKey(s.entries, key, until);
  }

  lemma {:induction false} MutationKeepsOthers(l: Local, s: Store, op: Op, now: int, f: Faults)
    ensures var o := Mutation(l, s, op, now, f); OthersKept(l, s, op.key.provider, o.local, o.store)
  {
    hide Mutation, WriteOf, BumpAndPublish, Without;
    WriteThenBump(l, s, op, now, f);
    WriteKeepsOthers(l, s, op, now, f);
    var w := WriteOf(l, s, op, now, f);
    BumpGenerations(w.local, w.store, op.key.provider, now, f);
  }

  lemma {:induction false} WithoutKey(entries: Entries, key: Key, until: int)
    ensures Without(entries - {key}, key.provider) == Without(entries, key.provider)
    ensures Without(entries[key := until], key.provider) == Without(entries, key.provider)
  {
  }

  lemma {:induction false} WithoutAll(entries: Entries, p: nat)
    ensures Without(Without(entries, p), p) == Without(entries, p)
    ensures Without(entries - KeysOf(entries, p), p) == Without(entries, p)
  {
  }

  lemma {:induction false} OthersLive(a: Entries, b: Entries, p: nat, q: nat, now: int)
    requires Without(a, p) == Without(b, p) && q != p
    ensures Live(a, q, now) == Live(b, q, now)
  {
    assert forall k :: k in a && k.provider == q ==> k in Without(a, p);
    assert forall k :: k in b && k.provider == q ==> k in Without(b, p);
  }

  /** Nothing of the provider is left, whatever was there. */
  predicate WipesProvider(op: Op, now: int) {
    op.key.client == "" && op.key.model == "" && (op.Clear? || (op.Update? && op.until <= now))
  }

  function Touched(op: Op): Key {
    if op.Failure? then ScopedKey(op.key, op.scope) else op.key
  }

  lemma {:induction false} EffectKey(l: Local, op: Op, now: int)
    ensures var e := EffectOf(l, op, now);
            && (e.DropOne? || e.Put? ==> e.key == Touched(op))
            && (e.DropAll? <==> WipesProvider(op, now))
  {
  }

  /** After a write that goes through, the instance agrees with the store exactly if it did before up
      to the key that was written - even if it had not seen the last generation. */
  lemma {:induction false} WriteAgreesExactly(l: Local, s: Store, op: Op, now: int, f: Faults)
    requires WriteOf(l, s, op, now, f).bumps
    ensures var w, p := WriteOf(l, s, op, now, f), op.key.provider;
            Agrees(w.local, w.store, p, now) <==> WipesProvider(op, now) || AgreesBut(l, s, p, now, Touched(op))
  {
    hide Live, EffectOf, WipesProvider, Touched;
    WriteThenBump(l, s, op, now, f);
    EffectKey(l, op, now);
    match EffectOf(l, op, now)
    case Nothing =>
    case DropOne(key) =>
      DropKey(l.cooldowns, s.entries, key.provider, now, key);
    case DropAll(p) =>
      WipeAgrees(l, s, p, now);
    case Put(key, until, reason, ifLater) =>
      PutKey(l.cooldowns, s.entries, key.provider, now, key, until);
  }

  /** The same of the whole mutation, if nothing comes between its halves. */
  lemma {:induction false} MutationAgreesExactly(l: Local, s: Store, op: Op, now: int, f: Faults)
    requires WriteOf(l, s, op, now, f).bumps
    ensures var o, p := Mutation(l, s, op, now, f), op.key.provider;
            Agrees(o.local, o.store, p, now) <==> WipesProvider(op, now) || AgreesBut(l, s, p, now, Touched(op))
  {
    hide Mutation, WriteOf, BumpAndPublish, Live, WipesProvider, AgreesBut, Touched;
    WriteThenBump(l, s, op, now, f);
    WriteAgreesExactly(l, s, op, now, f);
    var w := WriteOf(l, s, op, now, f);
    BumpGenerations(w.local, w.store, op.key.provider, now, f);
  }

  lemma {:induction false} WipeAgrees(l: Local, s: Store, p: nat, now: int)
    ensures Live(l.cooldowns - KeysOf(l.cooldowns, p), p, now) == Live(Without(s.entries, p), p, now) == map[]
  {
  }

  lemma {:induction false} DropKey(a: Entries, b: Entries, p: nat, now: int, key: Key)
    ensures Live(a - {key}, p, now) == Live(b - {key}, p, now) <==> Live(a, p, now) - {key} == Live(b, p, now) - {key}
  {
    assert Live(a - {key}, p, now) == Live(a, p, now) - {key};
    assert Live(b - {key}, p, now) == Live(b, p, now) - {key};
  }

  lemma {:induction false} PutKey(a: Entries, b: Entries, p: nat, now: int, key: Key, until: int)
    ensures Live(a[key := until], p, now) == Live(b[key := until], p, now)
        <==> Live(a, p, now) - {key} == Live(b, p, now) - {key}
  {
    DropKey(a, b, p, now, key);
    DropKey(a[key := until], b[key := until], p, now, key);
    assert a[key := until] - {key} == a - {key} && b[key := until] - {key} == b - {key};
    LiveOfKey(a[key := until], p, now, key);
    LiveOfKey(b[key := until], p, now, key);
    var x, y := Live(a[key := until], p, now), Live(b[key := until], p, now);
    if x - {key} == y - {key} {
      forall k ensures (k in x <==> k in y) && (k in x ==> x[k] == y[k]) {
        assert k != key ==> (k in x <==> k in x - {key}) && (k in y <==> k in y - {key});
      }
      assert x == y;
    }
  }

  lemma {:induction false} LiveOfKey(entries: Entries, p: nat, now: int, key: Key)
    ensures key in Live(entries, p, now) <==> key in entries && key.provider == p && now < entries[key]
    ensures key in Live(entries, p, now) ==> Live(entries, p, now)[key] == entries[key]
  {
  }

  /** A reload puts the instance in agreement, whatever generation it aims at. */
  lemma {:induction false} InstallAgrees(l: Local, s: Store, p: nat, target: int, now: int)
    ensures Agrees(Install(l, p, Live(s.entries, p, now), target, now), s, p, now)
    ensures Without(Install(l, p, Live(s.entries, p, now), target, now).cooldowns, p) == Without(l.cooldowns, p)
  {
  }

  /** Reading the generation again restores agreement if it has changed; without failures. */
  lemma {:induction false} SyncRestores(l: Local, s: Store, p: nat, every: int, now: int)
    requires KnownGeneration(l, p) <= Generation(s, p)
    requires KnownGeneration(l, p) == Generation(s, p) ==> Agrees(l, s, p, now)
    ensures var l' := SyncGeneration(l, s, p, every, now, NO_FAULTS); var window := if every <= 0 then 2000 else every;
            (p in l.lastSync && now - l.lastSync[p] < window)
            || (KnownGeneration(l', p) == Generation(s, p) && Agrees(l', s, p, now))
  {
    hide Install, Live;
    InstallAgrees(l, s, p, Generation(s, p), now);
    InstallGenerations(l, p, Live(s.entries, p, now), Generation(s, p), now);
  }

  /** Later less is live, here as in the store. */
  lemma {:induction false} AgreesLater(l: Local, s: Store, p: nat, now: int, later: int)
    requires Agrees(l, s, p, now) && now <= later
    ensures Agrees(l, s, p, later)
  {
    var a, b := Live(l.cooldowns, p, now), Live(s.entries, p, now);
    assert forall k :: k in Live(l.cooldowns, p, later) ==> k in a && a[k] == l.cooldowns[k];
    assert forall k :: k in Live(s.entries, p, later) ==> k in b && b[k] == s.entries[k];
  }

  lemma {:induction false} CleanupKeepsLive(l: Local, p: nat, now: int)
    ensures Live(CleanupExpired(l, now).cooldowns, p, now) == Live(l.cooldowns, p, now)
  {
  }

  // ---------------------------------------------------------------- agreement, in every run

  /** No mutation of provider `p` is half done. */
  predicate Quiet(y: System, p: nat) {
    forall i :: i in y.owed ==> y.owed[i] != p
  }

  /** Whoever knows the store's generation of a provider holds exactly the store's live entries,
      unless a mutation of it is half done. */
  ghost predicate Coherent(y: System) {
    forall i, p: nat ::
      0 <= i < |y.locals| && Quiet(y, p) && KnownGeneration(y.locals[i], p) == Generation(y.store, p) ==>
      Agrees(y.locals[i], y.store, p, y.now)
  }

  /** Whoever is about to bump holds what the store holds, and a reload installs its own provider only. */
  ghost predicate Ready(y: System) {
    && (forall i :: i in y.owed && i < |y.locals| ==> Agrees(y.locals[i], y.store, y.owed[i], y.now))
    && (forall k, key :: 0 <= k < |y.reloads| && key in y.reloads[k].listed ==> key.provider == y.reloads[k].provider)
  }

  ghost predicate Sound(y: System) {
    Safe(y) && Coherent(y) && Ready(y)
  }

  /** A write that the store takes: the writer held the store's entries, up to the key it writes, and
      if another mutation of the provider is half done, the write changes nothing that is live.
      A write that fails: only an instance that knows the store's generation, and puts a cooldown
      that the store does not have, is wrong by it. */
  predicate FitsWrite(y: System, i: nat, op: Op, f: Faults)
    requires Free(y, i)
  {
    var l, s, p := y.locals[i], y.store, op.key.provider;
    var w, e := WriteOf(l, s, op, y.now, f), EffectOf(l, op, y.now);
    if w.bumps then
      && (WipesProvider(op, y.now) || AgreesBut(l, s, p, y.now, Touched(op)))
      && (Quiet(y, p) || Live(w.store.entries, p, y.now) == Live(s.entries, p, y.now))
    else
      f.write && e.Put? && Quiet(y, p) && KnownGeneration(l, p) == Generation(s, p) ==>
        e.key in s.entries && s.entries[e.key] == e.until
  }

  /** A bump that fails: unless someone else is yet to bump, whoever knows the old generation must
      hold what was written all the same. */
  predicate FitsBump(y: System, i: nat, f: Faults)
    requires i in y.owed
  {
    var p := y.owed[i];
    f.bump && (forall j :: j in y.owed && j != i ==> y.owed[j] != p) ==>
      forall j :: 0 <= j < |y.locals| && KnownGeneration(y.locals[j], p) == Generation(y.store, p) ==>
        Agrees(y.locals[j], y.store, p, y.now)
  }

  /** The end of a reload: what it listed is still what the store has, unless the instance is behind
      the store even then, or will be. */
  predicate FitsInstall(y: System, k: nat, f: Faults)
    requires k < |y.reloads| && y.reloads[k].instance < |y.locals|
  {
    var p, g := y.reloads[k].provider, Generation(y.store, y.reloads[k].provider);
    Quiet(y, p) && (Target(y, k, f) == g || KnownGeneration(y.locals[y.reloads[k].instance], p) == g) ==>
      Live(y.reloads[k].listed, p, y.now) == Live(y.store.entries, p, y.now)
  }

  /** Lost events, and failures to publish, to list or to read a generation, never matter. */
  predicate Fits(y: System, step: Step)
    requires Enabled(y, step)
  {
    match step
    case Write(i, op, f) => FitsWrite(y, i, op, f)
    case Bump(i, f) => FitsBump(y, i, f)
    case EndReload(k, f) => FitsInstall(y, k, f)
    case _ => true
  }

  ghost predicate FittingRun(y: System, steps: seq<Step>)
    requires IsRun(y, steps)
    decreases |steps|
  {
    steps == [] || (Fits(y, steps[0]) && FittingRun(Next(y, steps[0]), steps[1..]))
  }

  /** Mutations that are half done are finished, in any order, without failures. */
  predicate Settles(steps: seq<Step>) {
    forall step :: step in steps ==> step.Bump? && step.faults == NO_FAULTS
  }

  ghost predicate SettlesCoherent(y: System) {
    forall rest :: IsRun(y, rest) && Settles(rest) ==> Coherent(After(y, rest))
  }

  /** So it is before and after every step. */
  ghost predicate AlwaysCoherent(y: System, steps: seq<Step>)
    requires IsRun(y, steps)
    decreases |steps|
  {
    SettlesCoherent(y) && (steps == [] || AlwaysCoherent(Next(y, steps[0]), steps[1..]))
  }

  /** One instance looked at the store again for provider `p`, or did nothing to it. */
  lemma {:induction false} LocalCoherent(y: System, i: nat, p: nat, l: Local)
    requires Coherent(y) && i < |y.locals|
    requires Quiet(y, p) && KnownGeneration(l, p) == Generation(y.store, p) ==> Agrees(l, y.store, p, y.now)
    requires forall q: nat :: q != p ==> KnownGeneration(l, q) == KnownGeneration(y.locals[i], q)
    requires forall q: nat :: q != p ==> Live(l.cooldowns, q, y.now) == Live(y.locals[i].cooldowns, q, y.now)
    ensures Coherent(WithLocal(y, i, l))
  {
    hide Live, Quiet;
    var z := WithLocal(y, i, l);
    forall j, q: nat | 0 <= j < |z.locals| && Quiet(z, q) && KnownGeneration(z.locals[j], q) == Generation(z.store, q)
      ensures Agrees(z.locals[j], z.store, q, z.now)
    {
      assert Quiet(y, q) by { SameOwed(y, z, q); }
      if KnownGeneration(y.locals[j], q) == Generation(y.store, q) {
        assert Agrees(y.locals[j], y.store, q, y.now);
      }
    }
  }

  lemma {:induction false} SameOwed(y: System, z: System, p: nat)
    requires y.owed == z.owed
    ensures Quiet(y, p) <==> Quiet(z, p)
  {
  }

  /** A view that differs in one provider's entries. */
  lemma {:induction false} OthersSame(y: System, i: nat, p: nat, l: Local)
    requires i < |y.locals| && Without(l.cooldowns, p) == Without(y.locals[i].cooldowns, p)
    ensures forall q: nat :: q != p ==> Live(l.cooldowns, q, y.now) == Live(y.locals[i].cooldowns, q, y.now)
  {
    hide Live, Without;
    forall q: nat | q != p ensures Live(l.cooldowns, q, y.now) == Live(y.locals[i].cooldowns, q, y.now) {
      OthersLive(l.cooldowns, y.locals[i].cooldowns, p, q, y.now);
    }
  }

  // ---------------------------------------------------------------- writes

  lemma {:induction false} TakenWriteSound(y: System, i: nat, op: Op, f: Faults)
    requires Sound(y) && Free(y, i) && FitsWrite(y, i, op, f)
    requires WriteOf(y.locals[i], y.store, op, y.now, f).bumps
    ensures Coherent(AfterWrite(y, i, op, f)) && Ready(AfterWrite(y, i, op, f))
  {
    hide Live, WriteOf, EffectOf, WipesProvider, AgreesBut, Safe, Without;
    var p, z, w := op.key.provider, AfterWrite(y, i, op, f), WriteOf(y.locals[i], y.store, op, y.now, f);
    WriteAgreesExactly(y.locals[i], y.store, op, y.now, f);
    WriteGenerations(y.locals[i], y.store, op, y.now, f);
    WriteKeepsOthers(y.locals[i], y.store, op, y.now, f);
    OthersSame(y, i, p, w.local);
    forall q: nat | q != p ensures Live(w.store.entries, q, y.now) == Live(y.store.entries, q, y.now) {
      OthersLive(w.store.entries, y.store.entries, p, q, y.now);
    }
    forall j | j in z.owed && j < |z.locals| ensures Agrees(z.locals[j], z.store, z.owed[j], z.now) {
      if j != i {
        assert Agrees(y.locals[j], y.store, y.owed[j], y.now);
      }
    }
    forall j, q: nat | 0 <= j < |z.locals| && Quiet(z, q) && KnownGeneration(z.locals[j], q) == Generation(z.store, q)
      ensures Agrees(z.locals[j], z.store, q, z.now)
    {
      assert z.owed[i] == p;
      assert forall k :: k in y.owed ==> k in z.owed && z.owed[k] == y.owed[k];
      assert Quiet(y, q);
      assert Agrees(y.locals[j], y.store, q, y.now);
    }
  }

  /** What a write leaves here if the store did not take it. */
  lemma {:induction false} UntakenWrite(l: Local, s: Store, op: Op, now: int, f: Faults)
    requires !WriteOf(l, s, op, now, f).bumps
    ensures var w, e := WriteOf(l, s, op, now, f), EffectOf(l, op, now);
            w.local.cooldowns == if f.write && e.Put? then l.cooldowns[e.key := e.until] else l.cooldowns
  {
    hide EffectOf;
  }

  lemma {:induction false} UntakenWriteSound(y: System, i: nat, op: Op, f: Faults)
    requires Sound(y) && Free(y, i) && !WriteOf(y.locals[i], y.store, op, y.now, f).bumps
    ensures Ready(AfterWrite(y, i, op, f))
    ensures FitsWrite(y, i, op, f) <==> Coherent(AfterWrite(y, i, op, f))
  {
    hide Live, WriteOf, EffectOf, Safe, Without;
    var l, s, p, z := y.locals[i], y.store, op.key.provider, AfterWrite(y, i, op, f);
    var w, e := WriteOf(l, s, op, y.now, f), EffectOf(l, op, y.now);
    UntakenWrite(l, s, op, y.now, f);
    WriteGenerations(l, s, op, y.now, f);
    WriteKeepsOthers(l, s, op, y.now, f);
    OthersSame(y, i, p, w.local);
    assert z == WithLocal(y, i, w.local);
    SameOwed(y, z, p);
    if Quiet(y, p) && KnownGeneration(l, p) == Generation(s, p) {
      assert Agrees(l, s, p, y.now);
      if f.write && e.Put? {
        WriteThenBump(l, s, op, y.now, f);
        HeldAgreesExactly(l.cooldowns, s.entries, p, y.now, e.key, e.until);
      }
      assert Agrees(w.local, s, p, y.now) <==> FitsWrite(y, i, op, f);
      assert z.locals[i] == w.local;
    }
    if FitsWrite(y, i, op, f) {
      LocalCoherent(y, i, p, w.local);
    }
  }

  lemma {:induction false} HeldAgreesExactly(a: Entries, b: Entries, p: nat, now: int, key: Key, until: int)
    requires Live(a, p, now) == Live(b, p, now) && key.provider == p && until > now
    ensures Live(a[key := until], p, now) == Live(b, p, now) <==> key in b && b[key] == until
  {
    hide Live;
    LiveOfKey(a[key := until], p, now, key);
    LiveOfKey(b, p, now, key);
    if key in b && b[key] == until {
      PutKey(a, b, p, now, key, until);
      assert b[key := until] == b;
    }
  }

  // ---------------------------------------------------------------- bumps

  lemma {:induction false} BumpSound(y: System, i: nat, f: Faults)
    requires Sound(y) && i < |y.locals| && i in y.owed
    ensures Ready(AfterBump(y, i, f))
    ensures FitsBump(y, i, f) <==> Coherent(AfterBump(y, i, f))
  {
    hide Live, AfterBump, Quiet;
    var p, z := y.owed[i], AfterBump(y, i, f);
    BumpLeaves(y, i, f);
    BumpQuiet(y, i, f);
    BumpRaises(y, i, f);
    assert Agrees(y.locals[i], y.store, p, y.now);
    assert forall j, q: nat :: 0 <= j < |y.locals| ==>
      (Agrees(z.locals[j], z.store, q, z.now) <==> Agrees(y.locals[j], y.store, q, y.now));
    forall j, q: nat | 0 <= j < |z.locals| && Quiet(z, q) && KnownGeneration(z.locals[j], q) == Generation(z.store, q)
        && (q != p || !f.bump)
      ensures Agrees(z.locals[j], z.store, q, z.now)
    {
      if q == p {
        assert KnownGeneration(y.locals[j], p) <= Generation(y.store, p);
      }
    }
  }

  lemma {:induction false} BumpQuiet(y: System, i: nat, f: Faults)
    requires i < |y.locals| && i in y.owed
    ensures var z := AfterBump(y, i, f);
            && (Quiet(z, y.owed[i]) <==> forall j :: j in y.owed && j != i ==> y.owed[j] != y.owed[i])
            && (forall q: nat :: q != y.owed[i] ==> (Quiet(z, q) <==> Quiet(y, q)))
  {
    hide BumpAndPublish;
    var z := AfterBump(y, i, f);
    assert forall j :: j in z.owed <==> j in y.owed && j != i;
    assert forall j :: j in z.owed ==> z.owed[j] == y.owed[j];
  }

  lemma {:induction false} BumpRaises(y: System, i: nat, f: Faults)
    requires i < |y.locals| && i in y.owed
    ensures var z, p := AfterBump(y, i, f), y.owed[i];
            if f.bump then z.locals == y.locals && z.store == y.store
            else Generation(z.store, p) == Generation(y.store, p) + 1
  {
    hide BumpAndPublish;
    BumpGenerations(y.locals[i], y.store, y.owed[i], y.now, f);
  }

  /** A bump changes no entries, and the generations of its own provider only. */
  lemma {:induction false} BumpLeaves(y: System, i: nat, f: Faults)
    requires i < |y.locals| && i in y.owed
    ensures var z := AfterBump(y, i, f);
            && |z.locals| == |y.locals| && z.now == y.now && z.owed == y.owed - {i} && z.reloads == y.reloads
            && z.store.entries == y.store.entries
            && (forall j :: 0 <= j < |y.locals| ==> z.locals[j].cooldowns == y.locals[j].cooldowns)
            && (forall q: nat :: q != y.owed[i] ==> Generation(z.store, q) == Generation(y.store, q))
            && (forall j, q: nat :: 0 <= j < |y.locals| && (j != i || q != y.owed[i]) ==>
                  KnownGeneration(z.locals[j], q) == KnownGeneration(y.locals[j], q))
  {
    hide BumpAndPublish;
    BumpGenerations(y.locals[i], y.store, y.owed[i], y.now, f);
  }

  // ---------------------------------------------------------------- reloads

  lemma {:induction false} ReloadSound(y: System, i: nat, p: nat, target: int, f: Faults)
    requires Coherent(y) && i < |y.locals|
    ensures Coherent(WithLocal(y, i, Reload(y.locals[i], y.store, p, target, y.now, f)))
  {
    hide Install, Live, Without, Quiet;
    var l, listed := y.locals[i], Live(y.store.entries, p, y.now);
    if f.list {
      LocalCoherent(y, i, p, l);
    } else {
      var g := if target != 0 then target else if f.read then 0 else Generation(y.store, p);
      var l' := Install(l, p, listed, g, y.now);
      InstallAgrees(l, y.store, p, g, y.now);
      InstallGenerations(l, p, listed, g, y.now);
      OthersSame(y, i, p, l');
      LocalCoherent(y, i, p, l');
    }
  }

  lemma {:induction false} InstallLive(l: Local, p: nat, listed: Entries, target: int, now: int)
    requires forall key :: key in listed ==> key.provider == p
    ensures var l' := Install(l, p, listed, target, now);
            Live(l'.cooldowns, p, now) == Live(listed, p, now) && Without(l'.cooldowns, p) == Without(l.cooldowns, p)
  {
  }

  lemma {:induction false} InstallSound(y: System, k: nat, f: Faults)
    requires Sound(y) && k < |y.reloads| && Free(y, y.reloads[k].instance)
    ensures Ready(Next(y, EndReload(k, f)))
    ensures FitsInstall(y, k, f) <==> Coherent(Next(y, EndReload(k, f)))
  {
    hide Live, Install, Without;
    var r, l', z := y.reloads[k], Installed(y, k, f), Next(y, EndReload(k, f));
    var i, p, g := r.instance, r.provider, Generation(y.store, r.provider);
    assert KnownGeneration(y.locals[i], p) <= g && Target(y, k, f) <= g;
    InstallLive(y.locals[i], p, r.listed, Target(y, k, f), y.now);
    InstallGenerations(y.locals[i], p, r.listed, Target(y, k, f), y.now);
    OthersSame(y, i, p, l');
    SameOwed(y, z, p);
    ReloadGone(y, z, k);
    if FitsInstall(y, k, f) {
      LocalCoherent(y, i, p, l');
      SameCoherent(WithLocal(y, i, l'), z);
    } else {
      assert z.locals[i] == l' && KnownGeneration(l', p) == g && !Agrees(l', z.store, p, z.now);
    }
  }

  lemma {:induction false} ReloadGone(y: System, z: System, k: nat)
    requires k < |y.reloads| && z.reloads == y.reloads[..k] + y.reloads[k + 1..]
    ensures forall m :: 0 <= m < |z.reloads| ==> z.reloads[m] in y.reloads
  {
  }

  /** Coherence does not depend on reloads and events under way. */
  lemma {:induction false} SameCoherent(y: System, z: System)
    requires Coherent(y) && z.locals == y.locals && z.store == y.store && z.owed == y.owed && z.now == y.now
    ensures Coherent(z)
  {
    hide Agrees;
    assert forall p: nat :: Quiet(z, p) ==> Quiet(y, p);
  }

  // ---------------------------------------------------------------- every step

  lemma {:induction false} TickSound(y: System, to: int)
    requires Sound(y) && y.now <= to
    ensures Coherent(y.(now := to)) && Ready(y.(now := to))
  {
    hide Live, Safe;
    var z := y.(now := to);
    forall j, q: nat | 0 <= j < |z.locals| && Quiet(z, q) && KnownGeneration(z.locals[j], q) == Generation(z.store, q)
      ensures Agrees(z.locals[j], z.store, q, z.now)
    {
      assert Quiet(y, q);
      assert Agrees(y.locals[j], y.store, q, y.now);
      AgreesLater(y.locals[j], y.store, q, y.now, to);
    }
    forall j | j in z.owed && j < |z.locals| ensures Agrees(z.locals[j], z.store, z.owed[j], z.now) {
      AgreesLater(y.locals[j], y.store, y.owed[j], y.now, to);
    }
  }

  /** Replacing the view of an instance that owes nothing. */
  lemma {:induction false} LocalReady(y: System, i: nat, l: Local)
    requires Ready(y) && Free(y, i)
    ensures Ready(WithLocal(y, i, l))
  {
  }

  lemma {:induction false} CleanupSound(y: System, i: nat)
    requires Coherent(y) && i < |y.locals|
    ensures Coherent(WithLocal(y, i, CleanupExpired(y.locals[i], y.now)))
  {
    hide Live, Quiet;
    var l := CleanupExpired(y.locals[i], y.now);
    forall q: nat ensures Live(l.cooldowns, q, y.now) == Live(y.locals[i].cooldowns, q, y.now) {
      CleanupKeepsLive(y.locals[i], q, y.now);
    }
    LocalCoherent(y, i, 0, l);
  }

  lemma {:induction false} SyncSound(y: System, i: nat, p: nat, every: int, f: Faults)
    requires Coherent(y) && i < |y.locals|
    ensures Coherent(WithLocal(y, i, SyncGeneration(y.locals[i], y.store, p, every, y.now, f)))
  {
    hide Live, Reload, Quiet;
    ReloadSound(y, i, p, Generation(y.store, p), f);
    LocalCoherent(y, i, p, y.locals[i]);
    LocalCoherent(y, i, p, y.locals[i].(lastSync := y.locals[i].lastSync[p := y.now]));
  }

  lemma {:induction false} BeginReady(y: System, i: nat, p: nat, target: int)
    requires Ready(y)
    ensures Ready(y.(reloads := y.reloads + [Pending(i, p, Live(y.store.entries, p, y.now), target)]))
  {
  }

  lemma {:induction false} StepSound(y: System, step: Step)
    requires Sound(y) && Enabled(y, step) && Fits(y, step)
    ensures Sound(Next(y, step))
  {
    StepSafe(y, step);
    hide Live, Reload, Safe, Coherent, Ready, FitsWrite, FitsBump, FitsInstall, AfterWrite, AfterBump, Forward;
    match step
    case Write(i, op, f) =>
      if WriteOf(y.locals[i], y.store, op, y.now, f).bumps {
        TakenWriteSound(y, i, op, f);
      } else {
        UntakenWriteSound(y, i, op, f);
      }
    case Bump(i, f) =>
      BumpSound(y, i, f);
    case Deliver(i, e, f) =>
      ReloadSound(y, i, e.provider, e.generation, f);
      LocalCoherent(y, i, e.provider, y.locals[i]);
      LocalReady(y, i, ApplyRemoteEvent(y.locals[i], y.store, e, y.now, f));
    case Sync(i, p, every, f) =>
      SyncSound(y, i, p, every, f);
      LocalReady(y, i, SyncGeneration(y.locals[i], y.store, p, every, y.now, f));
    case BeginReload(i, p, target) =>
      SameCoherent(y, Next(y, step));
      BeginReady(y, i, p, target);
    case EndReload(k, f) =>
      InstallSound(y, k, f);
    case Cleanup(i) =>
      CleanupSound(y, i);
      LocalReady(y, i, CleanupExpired(y.locals[i], y.now));
    case Tick(to) =>
      TickSound(y, to);
  }

  lemma {:induction false} RunSound(y: System, steps: seq<Step>)
    requires Sound(y) && IsRun(y, steps) && FittingRun(y, steps)
    ensures Sound(After(y, steps))
    decreases |steps|
  {
    hide Sound, Next, Enabled, Fits;
    if steps != [] {
      StepSound(y, steps[0]);
      RunSound(Next(y, steps[0]), steps[1..]);
    }
  }

  // ---------------------------------------------------------------- nothing less will do

  /** Once someone who is about to bump is wrong, letting it bump last makes it wrong for good. */
  lemma {:induction false} SettleBreaks(z: System, p: nat, last: nat) returns (steps: seq<Step>)
    requires Safe(z) && last in z.owed && z.owed[last] == p && !Agrees(z.locals[last], z.store, p, z.now)
    ensures IsRun(z, steps) && Settles(steps) && !Coherent(After(z, steps))
    decreases |z.owed|
  {
    hide BumpAndPublish, Agrees, Forward;
    var k := last;
    if d :| d in z.owed && z.owed[d] == p && d != last {
      k := d;
    }
    var step := Bump(k, NO_FAULTS);
    var y := Next(z, step);
    BumpLeaves(z, k, NO_FAULTS);
    StepSafe(z, step);
    SameAgreement(y.locals[last], z.locals[last], y.store, z.store, p, z.now);
    if k == last {
      steps := [step];
      BumpGenerations(z.locals[last], z.store, p, z.now, NO_FAULTS);
      assert Quiet(y, p) && KnownGeneration(y.locals[last], p) == Generation(y.store, p);
      assert !Coherent(y);
      assert steps[1..] == [];
    } else {
      assert |y.owed| < |z.owed| by { Fewer(z.owed, k); }
      var rest := SettleBreaks(y, p, last);
      steps := [step] + rest;
      assert steps[1..] == rest;
    }
  }

  lemma {:induction false} SameAgreement(l: Local, l': Local, s: Store, s': Store, p: nat, now: int)
    requires l.cooldowns == l'.cooldowns && s.entries == s'.entries
    ensures Agrees(l, s, p, now) <==> Agrees(l', s', p, now)
  {
  }

  lemma {:induction false} Fewer(owed: map<nat, nat>, k: nat)
    requires k in owed
    ensures |owed - {k}| < |owed|
  {
    assert (owed - {k}).Keys == owed.Keys - {k};
    assert |owed.Keys - {k}| == |owed.Keys| - 1;
  }

  /** A write that the store takes and that does not fit leaves someone wrong who is about to bump. */
  lemma {:induction false} TakenMisfitBreaks(y: System, i: nat, op: Op, f: Faults)
    requires Sound(y) && Free(y, i) && !FitsWrite(y, i, op, f)
    requires WriteOf(y.locals[i], y.store, op, y.now, f).bumps
    ensures !SettlesCoherent(AfterWrite(y, i, op, f))
  {
    hide Live, WriteOf, EffectOf, WipesProvider, AgreesBut, Safe, Without, Coherent, IsRun, After, Settles, Forward;
    var p, z, w := op.key.provider, AfterWrite(y, i, op, f), WriteOf(y.locals[i], y.store, op, y.now, f);
    WriteAgreesExactly(y.locals[i], y.store, op, y.now, f);
    WriteSafe(y, i, op, f);
    var last := i;
    if Agrees(w.local, w.store, p, y.now) {
      assert !Quiet(y, p);
      last :| last in y.owed && y.owed[last] == p;
      assert last < |y.locals| by { OwedBounded(y, last); }
      assert Agrees(y.locals[last], y.store, p, y.now);
    }
    var steps := SettleBreaks(z, p, last);
  }

  lemma {:induction false} OwedBounded(y: System, i: nat)
    requires Safe(y) && i in y.owed
    ensures i < |y.locals|
  {
  }

  lemma {:induction false} MisfitBreaks(y: System, step: Step)
    requires Sound(y) && Enabled(y, step) && !Fits(y, step)
    ensures !SettlesCoherent(Next(y, step))
  {
    hide Live, Safe, Coherent, Ready, FitsWrite, FitsBump, FitsInstall, AfterWrite, AfterBump, SettlesCoherent;
    match step
    case Write(i, op, f) =>
      if WriteOf(y.locals[i], y.store, op, y.now, f).bumps {
        TakenMisfitBreaks(y, i, op, f);
      } else {
        UntakenWriteSound(y, i, op, f);
        AtOnce(Next(y, step));
      }
    case Bump(i, f) =>
      BumpSound(y, i, f);
      AtOnce(Next(y, step));
    case EndReload(k, f) =>
      InstallSound(y, k, f);
      AtOnce(Next(y, step));
    case _ =>
  }

  lemma {:induction false} AtOnce(y: System)
    ensures SettlesCoherent(y) ==> Coherent(y)
  {
    hide Coherent;
    assert IsRun(y, []) && Settles([]) && After(y, []) == y;
  }

  lemma {:induction false} SettlingFits(y: System, rest: seq<Step>)
    requires IsRun(y, rest) && Settles(rest)
    ensures FittingRun(y, rest)
    decreases |rest|
  {
    hide Next;
    if rest != [] {
      assert rest[0] in rest;
      SettlingFits(Next(y, rest[0]), rest[1..]);
    }
  }

  lemma {:induction false} FitsIffCoherent(y: System, steps: seq<Step>)
    requires Sound(y) && IsRun(y, steps)
    ensures FittingRun(y, steps) <==> AlwaysCoherent(y, steps)
    decreases |steps|
  {
    hide Safe, Coherent, Ready, Next, Enabled, Fits, Settles;
    forall rest | IsRun(y, rest) && Settles(rest) ensures Coherent(After(y, rest)) {
      SettlingFits(y, rest);
      RunSound(y, rest);
    }
    if steps != [] {
      if Fits(y, steps[0]) {
        StepSound(y, steps[0]);
        FitsIffCoherent(Next(y, steps[0]), steps[1..]);
      } else {
        MisfitBreaks(y, steps[0]);
      }
    }
  }

  /** Every run from the start, with any failures, any treatment of events and any overtaking: the
      steps fit exactly if at no time, once the mutations under way are finished, an instance that
      knows the store's generation differs from the store. */
  lemma {:induction false} AgreementExactly(n: nat, now: int, steps: seq<Step>)
    requires IsRun(Initial(n, now), steps)
    ensures FittingRun(Initial(n, now), steps) <==> AlwaysCoherent(Initial(n, now), steps)
  {
    hide IsRun, FittingRun, AlwaysCoherent;
    assert Sound(Initial(n, now));
    FitsIffCoherent(Initial(n, now), steps);
  }

  /** When a bump that fails right after its write does harm, as it could be known before the write:
      unless the write changes nothing that is live, it does if another instance is up to date. */
  lemma {:induction false} FailedBumpExactly(y: System, i: nat, op: Op, f: Faults, f': Faults)
    requires Sound(y) && Free(y, i) && Quiet(y, op.key.provider) && f'.bump
    requires WriteOf(y.locals[i], y.store, op, y.now, f).bumps && FitsWrite(y, i, op, f)
    ensures var p, z := op.key.provider, AfterBump(AfterWrite(y, i, op, f), i, f');
            (Coherent(z)
             <==> || Live(AfterWrite(y, i, op, f).store.entries, p, y.now) == Live(y.store.entries, p, y.now)
                  || forall j :: 0 <= j < |y.locals| && j != i ==>
                       KnownGeneration(y.locals[j], p) != Generation(y.store, p))
  {
    hide Live, WriteOf, EffectOf, FitsWrite, AfterBump, Safe, Forward;
    var p, z := op.key.provider, AfterWrite(y, i, op, f);
    StepSound(y, Write(i, op, f));
    BumpSound(z, i, f');
    WriteGenerations(y.locals[i], y.store, op, y.now, f);
    assert forall j :: j in z.owed && j != i ==> j in y.owed && z.owed[j] == y.owed[j];
    assert FitsBump(z, i, f') <==> forall j ::
      0 <= j < |y.locals| && KnownGeneration(z.locals[j], p) == Generation(z.store, p) ==>
        Agrees(z.locals[j], z.store, p, z.now);
    assert Agrees(z.locals[i], z.store, p, z.now);
    forall j | 0 <= j < |y.locals| && j != i && KnownGeneration(y.locals[j], p) == Generation(y.store, p)
      ensures Agrees(z.locals[j], z.store, p, z.now)
        <==> Live(z.store.entries, p, y.now) == Live(y.store.entries, p, y.now)
    {
      assert Agrees(y.locals[j], y.store, p, y.now);
    }
  }

  // ---------------------------------------------------------------- a premise that callers can meet

  /** Writes and bumps do not fail, reloads are one step; who writes has seen the provider's last
      generation, and no other mutation of the provider is half done. */
  predicate Clean(y: System, step: Step)
    requires Enabled(y, step)
  {
    match step
    case Write(i, op, f) =>
      && !f.write && Quiet(y, op.key.provider)
      && KnownGeneration(y.locals[i], op.key.provider) == Generation(y.store, op.key.provider)
    case Bump(_, f) => !f.bump
    case EndReload(_, _) => false
    case _ => true
  }

  ghost predicate CleanRun(y: System, steps: seq<Step>)
    requires IsRun(y, steps)
    decreases |steps|
  {
    steps == [] || (Clean(y, steps[0]) && CleanRun(Next(y, steps[0]), steps[1..]))
  }

  lemma {:induction false} CleanFits(y: System, step: Step)
    requires Sound(y) && Enabled(y, step) && Clean(y, step)
    ensures Fits(y, step)
  {
    hide Live, WriteOf, EffectOf, WipesProvider, Safe;
    if step.Write? {
      var p := step.op.key.provider;
      assert Agrees(y.locals[step.instance], y.store, p, y.now);
      assert AgreesBut(y.locals[step.instance], y.store, p, y.now, Touched(step.op));
    }
  }

  lemma {:induction false} CleanRunFits(y: System, steps: seq<Step>)
    requires Sound(y) && IsRun(y, steps) && CleanRun(y, steps)
    ensures FittingRun(y, steps)
    decreases |steps|
  {
    hide Sound, Next, Enabled, Clean, Fits;
    if steps != [] {
      CleanFits(y, steps[0]);
      StepSound(y, steps[0]);
      CleanRunFits(Next(y, steps[0]), steps[1..]);
    }
  }

  /** In every clean run from the start, under any loss, repetition and reordering of events. */
  lemma {:induction false} CachesAgree(n: nat, now: int, steps: seq<Step>)
    requires IsRun(Initial(n, now), steps) && CleanRun(Initial(n, now), steps)
    ensures Coherent(After(Initial(n, now), steps))
  {
    hide IsRun, After, CleanRun, FittingRun, Coherent;
    assert Sound(Initial(n, now)) by { StartSound(n, now); }
    CleanRunFits(Initial(n, now), steps);
    RunSound(Initial(n, now), steps);
  }

  lemma {:induction false} StartSound(n: nat, now: int)
    ensures Sound(Initial(n, now))
  {
  }

  // ---------------------------------------------------------------- one instance

  /** Writes and bumps do not fail, and no reload is overtaken. */
  predicate Calm(step: Step) {
    match step
    case Write(_, _, f) => !f.write
    case Bump(_, f) => !f.bump
    case EndReload(_, _) => false
    case _ => true
  }

  /** A lone instance has always seen the last generation. */
  ghost predicate Alone(y: System) {
    |y.locals| == 1 && forall p: nat :: KnownGeneration(y.locals[0], p) == Generation(y.store, p)
  }

  lemma {:induction false} AloneBump(y: System, f: Faults)
    requires Alone(y) && 0 in y.owed
    ensures Alone(AfterBump(y, 0, f))
  {
    hide BumpAndPublish;
    var o := BumpAndPublish(y.locals[0], y.store, y.owed[0], y.now, f);
    BumpGenerations(y.locals[0], y.store, y.owed[0], y.now, f);
    assert y.locals[0 := o.local][0] == o.local;
    forall q: nat ensures KnownGeneration(o.local, q) == Generation(o.store, q) {
      assert KnownGeneration(y.locals[0], q) == Generation(y.store, q);
    }
  }

  lemma {:induction false} AloneStep(y: System, step: Step)
    requires Alone(y) && Safe(y) && Enabled(y, step) && Calm(step)
    ensures Clean(y, step) && Alone(Next(y, step))
  {
    hide Live, WriteOf, Install, AfterBump;
    match step
    case Write(i, op, f) =>
      WriteGenerations(y.locals[0], y.store, op, y.now, f);
      var w := WriteOf(y.locals[0], y.store, op, y.now, f);
      assert y.locals[0 := w.local][0] == w.local;
      assert KnownGeneration(y.locals[0], op.key.provider) == Generation(y.store, op.key.provider);
      assert forall q: nat :: KnownGeneration(w.local, q) == KnownGeneration(y.locals[0], q);
      assert forall q: nat :: Generation(w.store, q) == Generation(y.store, q);
    case Bump(i, f) =>
      AloneBump(y, f);
    case Deliver(i, e, f) =>
      assert e.generation <= Generation(y.store, e.provider);
    case Sync(i, p, every, f) =>
    case BeginReload(i, p, target) =>
    case Cleanup(i) =>
    case Tick(to) =>
  }

  lemma {:induction false} AloneRun(y: System, steps: seq<Step>)
    requires Alone(y) && Safe(y) && IsRun(y, steps) && forall step :: step in steps ==> Calm(step)
    ensures CleanRun(y, steps) && Alone(After(y, steps))
    decreases |steps|
  {
    hide Alone, Safe, Next, Enabled, Clean, Calm, Forward;
    if steps != [] {
      assert steps[0] in steps;
      StepSafe(y, steps[0]);
      AloneStep(y, steps[0]);
      AloneRun(Next(y, steps[0]), steps[1..]);
    }
  }

  lemma {:induction false} LoneAgrees(now: int, steps: seq<Step>, p: nat)
    requires IsRun(Initial(1, now), steps) && forall step :: step in steps ==> Calm(step)
    ensures var y := After(Initial(1, now), steps);
            |y.locals| == 1 && Agrees(y.locals[0], y.store, p, y.now) && now <= y.now
  {
    hide IsRun, After, CleanRun, FittingRun, Agrees, Calm;
    var start := Initial(1, now);
    StartSound(1, now);
    AloneRun(start, steps);
    CleanRunFits(start, steps);
    RunSound(start, steps);
    RunSafe(start, steps);
    var y := After(start, steps);
    if !Quiet(y, p) {
      assert 0 in y.owed && y.owed[0] == p;
    }
  }

  /** One instance, whose writes and bumps do not fail, always holds what the store holds; it takes a
      client and model to be cooling down exactly if a live key of the store says so, and until the
      latest end that those keys have. */
  lemma {:induction false} OneInstance(now: int, steps: seq<Step>, p: nat, client: string, model: string)
    requires IsRun(Initial(1, now), steps) && forall step :: step in steps ==> Calm(step)
    ensures var y := After(Initial(1, now), steps);
            && |y.locals| == 1 && Agrees(y.locals[0], y.store, p, y.now)
            && (InCooldown(y.locals[0], p, client, model, y.now)
                <==> exists k :: k in Live(y.store.entries, p, y.now) && Concerns(k, p, client, model))
    ensures var y := After(Initial(1, now), steps);
            var u, live := CooldownUntil(y.locals[0], p, client, model, y.now), Live(y.store.entries, p, y.now);
            now >= 0 ==>
              && (forall k :: k in live && Concerns(k, p, client, model) ==> live[k] <= u)
              && (u != 0 ==> exists k :: k in live && Concerns(k, p, client, model) && live[k] == u)
              && (u == 0 ==> forall k :: k in live ==> !Concerns(k, p, client, model))
  {
    hide Live, Concerns, InCooldown, CooldownUntil, IsRun, After, Calm;
    LoneAgrees(now, steps, p);
    var y := After(Initial(1, now), steps);
    InCooldownExactly(y.locals[0], p, client, model, y.now);
    if now >= 0 {
      UntilIsLatest(y.locals[0], p, client, model, y.now);
    }
  }

  /** There a failure timed by its policy moves no end of a cooldown earlier. */
  lemma {:induction false} OneInstanceNeverShortens(now: int, steps: seq<Step>, key: Key, reason: string,
                                                    scope: Scope, duration: int,
                                 p: nat, client: string, model: string)
    requires now >= 0 && duration > 0
    requires IsRun(Initial(1, now), steps) && forall step :: step in steps ==> Calm(step)
    ensures var y := After(Initial(1, now), steps);
            && |y.locals| == 1
            && CooldownUntil(y.locals[0], p, client, model, y.now)
               <= CooldownUntil(RecordFailure(y.locals[0], y.store, key, reason, scope, None, duration, y.now,
                   NO_FAULTS).local,
                                p, client, model, y.now)
  {
    hide CooldownUntil, RecordFailure, InCooldown, IsRun, After, Calm;
    LoneAgrees(now, steps, key.provider);
    var y := After(Initial(1, now), steps);
    FailureNeverShortens(y.locals[0], y.store, key, reason, scope, duration, y.now, NO_FAULTS, p, client, model);
  }

  // ---------------------------------------------------------------- runs that end wrong

  const ONE := Key(1, "a", "")
  const TWO := Key(1, "b", "")
  const WRITE_FAILS := NO_FAULTS.(write := true)
  const BUMP_FAILS := NO_FAULTS.(bump := true)

  function SetOf(key: Key): Op {
    SetUntil(key, 100000, UNKNOWN, false)
  }

  /** Nothing is half done, the instance knows the store's generation, and yet it lacks a cooldown
      that the store holds. */
  ghost predicate Lacks(y: System, i: nat, key: Key) {
    && i < |y.locals| && y.owed == map[]
    && KnownGeneration(y.locals[i], key.provider) == Generation(y.store, key.provider)
    && key in Live(y.store.entries, key.provider, y.now) && key !in Live(y.locals[i].cooldowns, key.provider, y.now)
  }

  /** The first `k` steps lead from `y` to `z`. */
  ghost predicate Leads(y: System, steps: seq<Step>, k: nat, z: System) {
    k <= |steps| && IsRun(y, steps[..k]) && After(y, steps[..k]) == z
  }

  lemma {:induction false} NoStep(y: System, steps: seq<Step>)
    ensures Leads(y, steps, 0, y)
  {
  }

  lemma {:induction false} OneStep(y: System, steps: seq<Step>, k: nat, z: System)
    requires Leads(y, steps, k, z) && k < |steps| && Enabled(z, steps[k])
    ensures Leads(y, steps, k + 1, Next(z, steps[k]))
  {
    hide Next, Enabled;
    assert steps[..k + 1] == steps[..k] + [steps[k]];
    RunJoin(y, steps[..k], steps[k]);
  }

  lemma {:induction false} RunJoin(y: System, a: seq<Step>, step: Step)
    requires IsRun(y, a) && Enabled(After(y, a), step)
    ensures IsRun(y, a + [step]) && After(y, a + [step]) == Next(After(y, a), step)
    decreases |a|
  {
    hide Next, Enabled;
    if a == [] {
      assert a + [step] == [step] && [step][1..] == [];
    } else {
      assert (a + [step])[0] == a[0] && (a + [step])[1..] == a[1..] + [step];
      RunJoin(Next(y, a[0]), a[1..], step);
    }
  }

  lemma {:induction false} AllSteps(y: System, steps: seq<Step>, z: System)
    requires Leads(y, steps, |steps|, z)
    ensures IsRun(y, steps) && After(y, steps) == z
  {
    assert steps[..|steps|] == steps;
  }

  function Held(y: System, i: nat, key: Key): System
    requires i < |y.locals|
  {
    WithLocal(y, i, Hold(y.locals[i], key, 100000, UNKNOWN)).(
      store := y.store.(entries := y.store.entries[key := 100000]), owed := y.owed[i := key.provider])
  }

  lemma {:induction false} SetStep(y: System, i: nat, key: Key)
    requires Free(y, i) && y.now < 100000
    ensures var step := Write(i, SetOf(key), NO_FAULTS); Enabled(y, step) && Next(y, step) == Held(y, i, key)
  {
  }

  function Raised(y: System, i: nat): System
    requires i < |y.locals| && i in y.owed
  {
    var l, p, g := y.locals[i], y.owed[i], Generation(y.store, y.owed[i]) + 1;
    WithLocal(y, i, l.(generations := l.generations[p := g], lastSync := l.lastSync[p := y.now])).(
      store := y.store.(generations := y.store.generations[p := g]), wire := y.wire + {Event(p, g)},
      owed := y.owed - {i})
  }

  lemma {:induction false} BumpStep(y: System, i: nat)
    requires i < |y.locals| && i in y.owed
    ensures var step := Bump(i, NO_FAULTS); Enabled(y, step) && Next(y, step) == Raised(y, i)
  {
    var p, g := y.owed[i], Generation(y.store, y.owed[i]) + 1;
    assert Elements([Event(p, g)]) == {Event(p, g)};
  }

  /** The store shows the instance nothing new: an old event, and a look at an equal generation. */
  lemma {:induction false} NothingNew(y: System, i: nat, e: Event)
    requires Free(y, i) && e in y.wire && e.generation <= KnownGeneration(y.locals[i], e.provider)
    ensures var step := Deliver(i, e, NO_FAULTS); Enabled(y, step) && Next(y, step) == y
  {
    assert y.locals[i := y.locals[i]] == y.locals;
  }

  lemma {:induction false} LookStep(y: System, i: nat, p: nat)
    requires Free(y, i) && KnownGeneration(y.locals[i], p) == Generation(y.store, p)
    ensures var step := Sync(i, p, 2000, NO_FAULTS);
            Enabled(y, step)
            && var z := Next(y, step);
               && |z.locals| == |y.locals| && z.store == y.store && z.owed == y.owed && z.now == y.now
               && z.locals[i].cooldowns == y.locals[i].cooldowns && z.locals[i].generations == y.locals[i].generations
  {
  }

  /** The second instance writes before it has heard of the first one's write; then it hears of
      it, and after a while it looks at the generation again. */
  const STALE_WRITE := [
    Write(0, SetOf(ONE), NO_FAULTS), Bump(0, NO_FAULTS), Write(1, SetOf(TWO), NO_FAULTS), Bump(1, NO_FAULTS),
    Deliver(1, Event(1, 1), NO_FAULTS), Tick(10000), Sync(1, 1, 2000, NO_FAULTS)
  ]

  /** Its own generation has skipped the other's: the event counts as old, the generations are
      equal, and the first instance's entry stays unknown. */
  lemma {:induction false} StaleWriteDisagrees()
    ensures IsRun(Initial(2, 0), STALE_WRITE) && Lacks(After(Initial(2, 0), STALE_WRITE), 1, ONE)
  {
    hide Next, Enabled, IsRun, After, Leads;
    var y := Initial(2, 0);
    NoStep(y, STALE_WRITE);
    SetStep(y, 0, ONE);
    OneStep(y, STALE_WRITE, 0, y);
    var y1 := Held(y, 0, ONE);
    BumpStep(y1, 0);
    OneStep(y, STALE_WRITE, 1, y1);
    var y2 := Raised(y1, 0);
    SetStep(y2, 1, TWO);
    OneStep(y, STALE_WRITE, 2, y2);
    var y3 := Held(y2, 1, TWO);
    BumpStep(y3, 1);
    OneStep(y, STALE_WRITE, 3, y3);
    var y4 := Raised(y3, 1);
    NothingNew(y4, 1, Event(1, 1));
    OneStep(y, STALE_WRITE, 4, y4);
    TickStep(y4, 10000);
    OneStep(y, STALE_WRITE, 5, y4);
    var y6 := y4.(now := 10000);
    LookStep(y6, 1, 1);
    OneStep(y, STALE_WRITE, 6, y6);
    var y7 := Next(y6, STALE_WRITE[6]);
    AllSteps(y, STALE_WRITE, y7);
    assert y7.owed == map[];
  }

  lemma {:induction false} TickStep(y: System, to: int)
    requires y.now <= to
    ensures Enabled(y, Tick(to)) && Next(y, Tick(to)) == y.(now := to)
  {
  }

  /** Both instances know the store's generation when they write, but the second writes and bumps
      between the first one's write and its bump. */
  const OVERLAP := [
    Write(0, SetOf(ONE), NO_FAULTS), Write(1, SetOf(TWO), NO_FAULTS), Bump(1, NO_FAULTS), Bump(0, NO_FAULTS),
    Deliver(0, Event(1, 1), NO_FAULTS), Tick(10000), Sync(0, 1, 2000, NO_FAULTS)
  ]

  lemma {:induction false} OverlapDisagrees()
    ensures IsRun(Initial(2, 0), OVERLAP) && Lacks(After(Initial(2, 0), OVERLAP), 0, TWO)
  {
    hide Next, Enabled, IsRun, After, Leads;
    var y := Initial(2, 0);
    NoStep(y, OVERLAP);
    SetStep(y, 0, ONE);
    OneStep(y, OVERLAP, 0, y);
    var y1 := Held(y, 0, ONE);
    SetStep(y1, 1, TWO);
    OneStep(y, OVERLAP, 1, y1);
    var y2 := Held(y1, 1, TWO);
    BumpStep(y2, 1);
    OneStep(y, OVERLAP, 2, y2);
    var y3 := Raised(y2, 1);
    BumpStep(y3, 0);
    OneStep(y, OVERLAP, 3, y3);
    var y4 := Raised(y3, 0);
    NothingNew(y4, 0, Event(1, 1));
    OneStep(y, OVERLAP, 4, y4);
    TickStep(y4, 10000);
    OneStep(y, OVERLAP, 5, y4);
    var y6 := y4.(now := 10000);
    LookStep(y6, 0, 1);
    OneStep(y, OVERLAP, 6, y6);
    var y7 := Next(y6, OVERLAP[6]);
    AllSteps(y, OVERLAP, y7);
    assert y7.owed == map[];
  }

  /** The write goes through and the bump fails: the other instance sees nothing new. */
  const FAILED_BUMP := [Write(0, SetOf(ONE), NO_FAULTS), Bump(0, BUMP_FAILS), Tick(10000), Sync(1, 1, 2000, NO_FAULTS)]

  lemma {:induction false} FailedBumpDisagrees()
    ensures IsRun(Initial(2, 0), FAILED_BUMP) && Lacks(After(Initial(2, 0), FAILED_BUMP), 1, ONE)
  {
    hide Next, Enabled, IsRun, After, Leads;
    var y := Initial(2, 0);
    NoStep(y, FAILED_BUMP);
    SetStep(y, 0, ONE);
    OneStep(y, FAILED_BUMP, 0, y);
    var y1 := Held(y, 0, ONE);
    FailedBumpStep(y1, 0);
    OneStep(y, FAILED_BUMP, 1, y1);
    var y2 := y1.(owed := y1.owed - {0});
    TickStep(y2, 10000);
    OneStep(y, FAILED_BUMP, 2, y2);
    var y3 := y2.(now := 10000);
    LookStep(y3, 1, 1);
    OneStep(y, FAILED_BUMP, 3, y3);
    var y4 := Next(y3, FAILED_BUMP[3]);
    AllSteps(y, FAILED_BUMP, y4);
    assert y4.owed == map[];
  }

  lemma {:induction false} FailedBumpStep(y: System, i: nat)
    requires i < |y.locals| && i in y.owed
    ensures var step := Bump(i, BUMP_FAILS); Enabled(y, step) && Next(y, step) == y.(owed := y.owed - {i})
  {
    assert y.locals[i := y.locals[i]] == y.locals;
    assert y.wire + Elements([]) == y.wire;
  }

  /** The write fails: the writer holds a cooldown of which the store knows nothing. */
  const FAILED_WRITE := [Write(0, SetOf(ONE), WRITE_FAILS), Sync(0, 1, 2000, NO_FAULTS)]

  lemma {:induction false} FailedWriteDisagrees()
    ensures IsRun(Initial(2, 0), FAILED_WRITE)
    ensures var y := After(Initial(2, 0), FAILED_WRITE);
            && |y.locals| == 2 && y.owed == map[] && KnownGeneration(y.locals[0], 1) == Generation(y.store, 1)
            && ONE in Live(y.locals[0].cooldowns, 1, y.now) && ONE !in y.store.entries
  {
    hide Next, Enabled, IsRun, After, Leads;
    var y := Initial(2, 0);
    NoStep(y, FAILED_WRITE);
    FailedSetStep(y, 0, ONE);
    OneStep(y, FAILED_WRITE, 0, y);
    var y1 := WithLocal(y, 0, Forget(Hold(y.locals[0], ONE, 100000, UNKNOWN), 1));
    LookStep(y1, 0, 1);
    OneStep(y, FAILED_WRITE, 1, y1);
    var y2 := Next(y1, FAILED_WRITE[1]);
    AllSteps(y, FAILED_WRITE, y2);
  }

  lemma {:induction false} FailedSetStep(y: System, i: nat, key: Key)
    requires Free(y, i) && y.now < 100000
    ensures var step := Write(i, SetOf(key), WRITE_FAILS);
            Enabled(y, step)
            && Next(y, step) == WithLocal(y, i, Forget(Hold(y.locals[i], key, 100000, UNKNOWN), key.provider))
  {
  }

  /** The second instance reloads twice at once, on an event and on a look at the generation.  The
      first reload ends, the instance writes, and the second reload puts back what it listed before. */
  const OVERTAKEN_RELOAD := [
    Write(0, SetOf(ONE), NO_FAULTS), Bump(0, NO_FAULTS), BeginReload(1, 1, 1), BeginReload(1, 1, 1),
    EndReload(0, NO_FAULTS), Write(1, SetOf(TWO), NO_FAULTS), Bump(1, NO_FAULTS), EndReload(0, NO_FAULTS)
  ]

  lemma {:induction false} OvertakenReloadDisagrees()
    ensures IsRun(Initial(2, 0), OVERTAKEN_RELOAD) && Lacks(After(Initial(2, 0), OVERTAKEN_RELOAD), 1, TWO)
  {
    hide Next, Enabled, IsRun, After, Leads, Install, Live;
    var y := Initial(2, 0);
    NoStep(y, OVERTAKEN_RELOAD);
    SetStep(y, 0, ONE);
    OneStep(y, OVERTAKEN_RELOAD, 0, y);
    var y1 := Held(y, 0, ONE);
    BumpStep(y1, 0);
    OneStep(y, OVERTAKEN_RELOAD, 1, y1);
    var y2 := Raised(y1, 0);
    var r := Pending(1, 1, Live(y2.store.entries, 1, 0), 1);
    ListedKeys(y2.store.entries, 1, 0);
    BeginStep(y2, 1, 1, 1);
    OneStep(y, OVERTAKEN_RELOAD, 2, y2);
    var y3 := y2.(reloads := y2.reloads + [r]);
    BeginStep(y3, 1, 1, 1);
    OneStep(y, OVERTAKEN_RELOAD, 3, y3);
    var y4 := y3.(reloads := y3.reloads + [r]);
    assert y4.reloads == [r] + [r];
    EndStep(y4, r, [r]);
    InstallGenerations(y4.locals[1], 1, r.listed, 1, 0);
    OneStep(y, OVERTAKEN_RELOAD, 4, y4);
    var y5 := WithLocal(y4, 1, Install(y4.locals[1], 1, r.listed, 1, 0)).(reloads := [r]);
    SetStep(y5, 1, TWO);
    OneStep(y, OVERTAKEN_RELOAD, 5, y5);
    var y6 := Held(y5, 1, TWO);
    BumpStep(y6, 1);
    OneStep(y, OVERTAKEN_RELOAD, 6, y6);
    var y7 := Raised(y6, 1);
    LiveOfKey(y7.store.entries, 1, 0, TWO);
    StaleInstall(y7, r, TWO);
    OneStep(y, OVERTAKEN_RELOAD, 7, y7);
    var y8 := Next(y7, EndReload(0, NO_FAULTS));
    AllSteps(y, OVERTAKEN_RELOAD, y8);
  }

  /** Installing what was listed before the key was set takes the key away. */
  lemma {:induction false} StaleInstall(y: System, r: Pending, key: Key)
    requires y.reloads == [r] && Free(y, r.instance) && y.owed == map[] && r.target != 0 && r.provider == key.provider
    requires key !in r.listed && forall k :: k in r.listed ==> k.provider == r.provider
    requires r.target <= KnownGeneration(y.locals[r.instance], r.provider) == Generation(y.store, r.provider)
    requires key in Live(y.store.entries, key.provider, y.now)
    ensures Enabled(y, EndReload(0, NO_FAULTS)) && Lacks(Next(y, EndReload(0, NO_FAULTS)), r.instance, key)
  {
    hide Next, Enabled, Install, Live;
    EndStep(y, r, []);
    InstallGenerations(y.locals[r.instance], r.provider, r.listed, r.target, y.now);
    InstallLive(y.locals[r.instance], r.provider, r.listed, r.target, y.now);
    LiveOfKey(r.listed, r.provider, y.now, key);
  }

  lemma {:induction false} ListedKeys(entries: Entries, p: nat, now: int)
    ensures forall k :: k in Live(entries, p, now) ==> k in entries && k.provider == p
  {
  }

  lemma {:induction false} BeginStep(y: System, i: nat, p: nat, target: int)
    requires i < |y.locals| && target <= Generation(y.store, p)
    ensures var step := BeginReload(i, p, target);
            Enabled(y, step)
            && Next(y, step) == y.(reloads := y.reloads + [Pending(i, p, Live(y.store.entries, p, y.now), target)])
  {
  }

  lemma {:induction false} EndStep(y: System, r: Pending, rest: seq<Pending>)
    requires y.reloads == [r] + rest && Free(y, r.instance) && r.target != 0
    ensures var step := EndReload(0, NO_FAULTS);
            Enabled(y, step)
            && Next(y, step) == WithLocal(y, r.instance,
                Install(y.locals[r.instance], r.provider, r.listed, r.target, y.now))
                                .(reloads := rest)
  {
    hide Install;
    assert y.reloads[..0] + y.reloads[1..] == rest;
  }
}
