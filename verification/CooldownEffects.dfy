/** What a mutation means for everyone: which cooldowns hold after it, here and in the store, how long
    another instance can miss it, and what it learns from the event. */
module CooldownEffects {
  import opened Options
  import opened CooldownStores
  import opened Cooldowns
  import opened CooldownProtocol

  // ---------------------------------------------------------------- what holds after a mutation

  /** The key that a failure puts on cooldown: the whole provider, one client of it, or one model of it. */
  function Frozen(key: Key, scope: Scope): Key {
    Key(key.provider, if scope.ProviderScope? then "" else key.client, if scope.ModelScope? then key.model else "")
  }

  function Cleared(live: Entries, key: Key): Entries {
    if key.client == key.model == "" then map[] else live - {key}
  }

  /** What holds for the provider after an operation, told by what held before. */
  function LiveAfter(live: Entries, op: Op, now: int): Entries {
    match op
    case SetUntil(key, until, _, ifLater) =>
      if until <= now then live - {key}
      else if ifLater && key in live && live[key] > until then live
      else live[key := until]
    case Clear(key) => Cleared(live, key)
    case Success(key) => live - {key}
    case Update(key, until) => if until <= now then Cleared(live, key) else live[key := until]
    case Failure(key, _, scope, explicit, duration) =>
      var frozen := Frozen(key, scope);
      var end := if explicit.Some? then explicit.value else now + duration;
      if scope.RequestScope? then live
      else if end <= now then live - {frozen}
      else if explicit.None? && frozen in live && live[frozen] > end then live
      else live[frozen := end]
  }

  lemma {:induction false} LiveDrop(entries: Entries, p: nat, now: int, key: Key)
    ensures Live(entries - {key}, p, now) == Live(entries, p, now) - {key}
  {
  }

  lemma {:induction false} LivePut(entries: Entries, p: nat, now: int, key: Key, until: int)
    requires key.provider == p && now < until
    ensures Live(entries[key := until], p, now) == Live(entries, p, now)[key := until]
  {
  }

  lemma {:induction false} LiveNone(l: Local, s: Store, p: nat, now: int)
    ensures Live(l.cooldowns - KeysOf(l.cooldowns, p), p, now) == map[] == Live(Without(s.entries, p), p, now)
  {
  }

  lemma {:induction false} DropLive(l: Local, s: Store, key: Key, now: int, f: Faults)
    requires !f.write
    ensures var w, p := WriteOne(l, s, key, f), key.provider;
            && Live(w.store.entries, p, now) == Live(s.entries, p, now) - {key}
            && Live(w.local.cooldowns, p, now) == Live(l.cooldowns, p, now) - {key}
  {
    hide Live;
    LiveDrop(s.entries, key.provider, now, key);
    LiveDrop(l.cooldowns, key.provider, now, key);
  }

  lemma {:induction false} PutLive(l: Local, s: Store, key: Key, until: int, reason: string, ifLater: bool, now: int,
                                   f: Faults)
    requires !f.write && until > now
    ensures var w, p := WriteUntil(l, s, key, until, reason, ifLater, f), key.provider;
            var live := Live(s.entries, p, now);
            if ifLater && key in live && live[key] > until
            then w.store == s && w.local.cooldowns == l.cooldowns
            else Live(w.store.entries, p, now) == live[key := until]
                 && Live(w.local.cooldowns, p, now) == Live(l.cooldowns, p, now)[key := until]
  {
    LivePut(s.entries, key.provider, now, key, until);
    LivePut(l.cooldowns, key.provider, now, key, until);
  }

  lemma {:induction false} WriteLive(l: Local, s: Store, op: Op, now: int, f: Faults)
    requires !f.write && Agrees(l, s, op.key.provider, now)
    ensures var w, p := WriteOf(l, s, op, now, f), op.key.provider;
            Live(w.store.entries, p, now) == Live(w.local.cooldowns, p, now)
                == LiveAfter(Live(s.entries, p, now), op, now)
  {
    hide Live, WriteOne, WriteUntil;
    match EffectOf(l, op, now)
    case Nothing =>
    case DropOne(key) => DropLive(l, s, key, now, f);
    case DropAll(p) => LiveNone(l, s, p, now);
    case Put(key, until, reason, ifLater) => PutLive(l, s, key, until, reason, ifLater, now, f);
  }

  /** While an instance agrees with the store, and its write goes through, what holds afterwards is what
      the operation says, here as in the store; nothing else about other providers changes. */
  lemma {:induction false} MutationLive(l: Local, s: Store, op: Op, now: int, f: Faults)
    requires !f.write && Agrees(l, s, op.key.provider, now)
    ensures var o, p := Mutation(l, s, op, now, f), op.key.provider;
            && Live(o.store.entries, p, now) == Live(o.local.cooldowns, p, now)
                   == LiveAfter(Live(s.entries, p, now), op, now)
            && OthersKept(l, s, p, o.local, o.store)
  {
    hide Mutation, WriteOf, Live, LiveAfter, OthersKept;
    WriteThenBump(l, s, op, now, f);
    WriteLive(l, s, op, now, f);
    FinishKeepsEntries(WriteOf(l, s, op, now, f), op.key.provider, now, f);
    MutationKeepsOthers(l, s, op, now, f);
  }

  /** Whom a failure keeps away from the provider. */
  predicate KeepsAway(key: Key, scope: Scope, client: string, model: string) {
    match scope
    case RequestScope => false
    case ModelScope => key.client in {"", client} && key.model in {"", model}
    case KeyScope => key.client in {"", client}
    case EndpointScope => key.client in {"", client}
    case ProviderScope => true
  }

  /** After a failure that counts, exactly those are kept away who were before or whom it concerns. */
  lemma {:induction false} FailureKeepsAway(l: Local, s: Store, key: Key, reason: string, scope: Scope,
      explicit: Option<int>, duration: int, now: int, f: Faults, client: string, model: string)
    requires !f.write && Agrees(l, s, key.provider, now)
    requires if explicit.Some? then explicit.value > now else duration > 0
    ensures var l' := RecordFailure(l, s, key, reason, scope, explicit, duration, now, f).local;
            (InCooldown(l', key.provider, client, model, now)
             <==> InCooldown(l, key.provider, client, model, now) || KeepsAway(key, scope, client, model))
  {
    hide Live, RecordFailure, InCooldown;
    var op, p := Failure(key, reason, scope, explicit, duration), key.provider;
    MutationLive(l, s, op, now, f);
    var l' := RecordFailure(l, s, key, reason, scope, explicit, duration, now, f).local;
    InCooldownExactly(l, p, client, model, now);
    InCooldownExactly(l', p, client, model, now);
    var live, after, frozen := Live(l.cooldowns, p, now), Live(l'.cooldowns, p, now), Frozen(key, scope);
    assert !scope.RequestScope? ==> (KeepsAway(key, scope, client, model) <==> Concerns(frozen, p, client, model));
    assert forall k :: k in after <==> k in live || (k == frozen && !scope.RequestScope?);
  }

  /** After a success or a clearing that goes through, those are kept away whom another key concerns. */
  lemma {:induction false} ClearedFor(l: Local, s: Store, op: Op, now: int, f: Faults, client: string, model: string)
    requires (op.Success? || op.Clear?) && !f.write && Agrees(l, s, op.key.provider, now)
    ensures var l', p := Mutation(l, s, op, now, f).local, op.key.provider;
            (InCooldown(l', p, client, model, now)
             <==> && !(op.Clear? && op.key.client == "" && op.key.model == "")
                  && exists k :: k in Live(l.cooldowns, p, now) && k != op.key && Concerns(k, p, client, model))
  {
    hide Live, Mutation, InCooldown;
    MutationLive(l, s, op, now, f);
    InCooldownExactly(Mutation(l, s, op, now, f).local, op.key.provider, client, model, now);
  }

  // ---------------------------------------------------------------- news

  /** A mutation that the store took, and a bump and a publication that did not fail, send one event
      with the new generation. */
  lemma {:induction false} MutationTells(l: Local, s: Store, op: Op, now: int, f: Faults)
    requires !f.bump && !f.publish && WriteOf(l, s, op, now, f).bumps
    ensures var o, p := Mutation(l, s, op, now, f), op.key.provider;
            o.events == [Event(p, Generation(s, p) + 1)] && Generation(o.store, p) == Generation(s, p) + 1
  {
    hide WriteOf, Mutation;
    WriteThenBump(l, s, op, now, f);
    WriteGenerations(l, s, op, now, f);
  }

  /** An event that is news makes the instance list the store: it then holds what the store holds at
      that moment, and knows the event's generation.  An event that is none changes nothing. */
  lemma {:induction false} NewsArrives(l: Local, s: Store, e: Event, now: int, f: Faults)
    ensures var l', p := ApplyRemoteEvent(l, s, e, now, f), e.provider;
            if e.generation > KnownGeneration(l, p) && !f.list then
              && Agrees(l', s, p, now) && (e.generation != 0 ==> KnownGeneration(l', p) == e.generation)
              && Without(l'.cooldowns, p) == Without(l.cooldowns, p)
              && (forall q: nat :: q != p ==> KnownGeneration(l', q) == KnownGeneration(l, q))
            else l' == l
  {
    hide Install, Live, Without;
    var p := e.provider;
    var g := if e.generation != 0 then e.generation else if f.read then 0 else Generation(s, p);
    InstallAgrees(l, s, p, g, now);
    InstallGenerations(l, p, Live(s.entries, p, now), g, now);
  }

  /** The generations are counts. */
  ghost predicate Counts(y: System) {
    forall p: nat :: Generation(y.store, p) >= 0
  }

  lemma {:induction false} CountsInRuns(n: nat, now: int, steps: seq<Step>)
    requires IsRun(Initial(n, now), steps)
    ensures Counts(After(Initial(n, now), steps))
  {
    hide IsRun, After;
    GenerationsSafe(n, now, steps);
    assert steps[..0] == [];
    NoneTaken(Initial(n, now));
    assert Forward(After(Initial(n, now), steps[..0]), After(Initial(n, now), steps));
  }

  lemma {:induction false} NoneTaken(y: System)
    ensures IsRun(y, []) && After(y, []) == y
  {
  }

  /** In every clean run: an up-to-date instance changes something, and its event reaches another one.
      Then that one holds exactly what the operation left, and knows the store's generation. */
  lemma {:induction false} NewsSpreads(n: nat, now: int, steps: seq<Step>, i: nat, j: nat, op: Op)
    requires IsRun(Initial(n, now), steps) && CleanRun(Initial(n, now), steps)
    requires var y, p := After(Initial(n, now), steps), op.key.provider;
             && i != j && Free(y, i) && Free(y, j) && Quiet(y, p)
             && KnownGeneration(y.locals[i], p) == Generation(y.store, p)
             && WriteOf(y.locals[i], y.store, op, y.now, NO_FAULTS).bumps
    ensures var y, p := After(Initial(n, now), steps), op.key.provider;
            var e, run := Event(p, Generation(y.store, p) + 1), [Write(i, op, NO_FAULTS), Bump(i, NO_FAULTS)];
            && IsRun(y, run + [Deliver(j, e, NO_FAULTS)])
            && var z := After(y, run + [Deliver(j, e, NO_FAULTS)]);
               && |z.locals| == |y.locals|
               && KnownGeneration(z.locals[j], p) == Generation(z.store, p) == e.generation
               && Live(z.locals[j].cooldowns, p, y.now) == Live(z.store.entries, p, y.now)
                      == LiveAfter(Live(y.store.entries, p, y.now), op, y.now)
  {
    hide IsRun, After, CleanRun, Coherent, WriteOf, LiveAfter, Live, ApplyRemoteEvent;
    var y, p := After(Initial(n, now), steps), op.key.provider;
    CachesAgree(n, now, steps);
    CountsInRuns(n, now, steps);
    GenerationsSafe(n, now, steps);
    assert Agrees(y.locals[i], y.store, p, y.now) by { UpToDate(y, i, p); }
    var w := WriteOf(y.locals[i], y.store, op, y.now, NO_FAULTS);
    WriteLive(y.locals[i], y.store, op, y.now, NO_FAULTS);
    WriteGenerations(y.locals[i], y.store, op, y.now, NO_FAULTS);
    var a := AfterWrite(y, i, op, NO_FAULTS);
    var b := AfterBump(a, i, NO_FAULTS);
    var e := Event(p, Generation(y.store, p) + 1);
    assert b.wire == y.wire + {e} by { OneEvent(a, i); }
    NewsArrives(b.locals[j], b.store, e, b.now, NO_FAULTS);
    ThreeSteps(y, Write(i, op, NO_FAULTS), Bump(i, NO_FAULTS), Deliver(j, e, NO_FAULTS));
  }

  lemma {:induction false} UpToDate(y: System, i: nat, p: nat)
    requires Coherent(y) && i < |y.locals| && Quiet(y, p) && KnownGeneration(y.locals[i], p) == Generation(y.store, p)
    ensures Agrees(y.locals[i], y.store, p, y.now)
  {
  }

  lemma {:induction false} OneEvent(y: System, i: nat)
    requires i < |y.locals| && i in y.owed
    ensures var p := y.owed[i];
            AfterBump(y, i, NO_FAULTS).wire == y.wire + {Event(p, Generation(y.store, p) + 1)}
  {
  }

  lemma {:induction false} ThreeSteps(y: System, a: Step, b: Step, c: Step)
    requires Enabled(y, a) && Enabled(Next(y, a), b) && Enabled(Next(Next(y, a), b), c)
    ensures IsRun(y, [a, b] + [c]) && After(y, [a, b] + [c]) == Next(Next(Next(y, a), b), c)
  {
    hide Next, Enabled;
    var z := Next(Next(y, a), b);
    assert [a, b] + [c] == [a, b, c] && [a, b, c][1..] == [b, c] && [b, c][1..] == [c] && [c][1..] == [];
    NoneTaken(Next(z, c));
    assert IsRun(z, [c]) && After(z, [c]) == Next(z, c);
    assert IsRun(Next(y, a), [b, c]) && After(Next(y, a), [b, c]) == After(z, [c]);
  }

  // ---------------------------------------------------------------- looking at the store

  /** Once an instance has looked at a provider's generation, it does not look again within the window,
      whatever has become of the store. */
  lemma {:induction false} SyncThrottled(l: Local, s: Store, p: nat, every: int, now: int, f: Faults)
    requires !f.list
    ensures var l', window := SyncGeneration(l, s, p, every, now, f), if every <= 0 then 2000 else every;
            if p in l.lastSync && now - l.lastSync[p] < window then l' == l
            else forall s', later, f' :: later - now < window ==> SyncGeneration(l', s', p, every, later, f') == l'
  {
    hide Live;
  }

  /** A write that the store refused or could not take makes the next query look at the store. */
  lemma {:induction false} RefusedLooksAgain(l: Local, s: Store, op: Op, now: int, f: Faults, every: int)
    requires !WriteOf(l, s, op, now, f).bumps && !(op.Failure? && op.scope.RequestScope?)
    requires KnownGeneration(l, op.key.provider) < Generation(s, op.key.provider)
    ensures var w, p := WriteOf(l, s, op, now, f), op.key.provider;
            var l' := SyncGeneration(w.local, w.store, p, every, now, NO_FAULTS);
            KnownGeneration(l', p) == Generation(s, p) && Agrees(l', s, p, now)
  {
    hide Install, Live;
    var w, p := WriteOf(l, s, op, now, f), op.key.provider;
    WriteGenerations(l, s, op, now, f);
    SyncRestores(w.local, s, p, every, now);
  }

  // ---------------------------------------------------------------- reasons

  /** Every cooldown has a reason, and every reason a cooldown. */
  predicate Reasoned(l: Local) {
    l.reasons.Keys == l.cooldowns.Keys
  }

  ghost predicate AllReasoned(y: System) {
    forall i :: 0 <= i < |y.locals| ==> Reasoned(y.locals[i])
  }

  /** The reason that an operation gives for a key, if it gives one. */
  function ReasonGiven(l: Local, op: Op, now: int, key: Key): Option<string> {
    match op
    case SetUntil(k, until, reason, _) => if k == key && until > now then Some(reason) else None
    case Update(k, until) =>
      if k == key && until > now then Some(if k in l.reasons then l.reasons[k] else "unknown") else None
    case Failure(k, reason, scope, explicit, duration) =>
      var end := if explicit.Some? then explicit.value else now + duration;
      if Frozen(k, scope) == key && !scope.RequestScope? && end > now then Some(reason) else None
    case _ => None
  }

  lemma {:induction false} GivenByEffect(l: Local, op: Op, now: int, k: Key)
    ensures var e := EffectOf(l, op, now);
            ReasonGiven(l, op, now, k) == if e.Put? && e.key == k then Some(e.reason) else None
  {
  }

  /** The reasons after a write that gives `given`. */
  predicate ReasonsFollow(l: Local, l': Local, key: Key, given: Option<string>) {
    && Reasoned(l')
    && forall k :: k in l'.cooldowns ==>
         if given.Some? && k == key then l'.reasons[k] == given.value
         else k in l.reasons && l'.reasons[k] == l.reasons[k]
  }

  lemma {:induction false} DropReasons(l: Local, keys: set<Key>, key: Key)
    requires Reasoned(l)
    ensures ReasonsFollow(l, Drop(l, keys), key, None)
  {
  }

  lemma {:induction false} PutReasons(l: Local, s: Store, key: Key, until: int, reason: string, ifLater: bool,
                                      f: Faults)
    requires Reasoned(l)
    ensures var w := WriteUntil(l, s, key, until, reason, ifLater, f);
            ReasonsFollow(l, w.local, key, if w.bumps || f.write then Some(reason) else None)
  {
  }

  /** A write gives its reason to its key, if it counts here, and leaves the other reasons alone. */
  lemma {:induction false} WriteReasons(l: Local, s: Store, op: Op, now: int, f: Faults)
    requires Reasoned(l)
    ensures var w := WriteOf(l, s, op, now, f);
            && Reasoned(w.local)
            && forall k :: k in w.local.cooldowns ==>
                 var given := ReasonGiven(l, op, now, k);
                 if given.Some? && (w.bumps || f.write) then w.local.reasons[k] == given.value
                 else k in l.reasons && w.local.reasons[k] == l.reasons[k]
  {
    hide EffectOf, ReasonGiven, WriteUntil, Drop;
    forall k ensures var e := EffectOf(l, op, now);
      ReasonGiven(l, op, now, k) == if e.Put? && e.key == k then Some(e.reason) else None
    {
      GivenByEffect(l, op, now, k);
    }
    match EffectOf(l, op, now)
    case Nothing =>
    case DropOne(key) => DropReasons(l, {key}, key);
    case DropAll(p) => DropReasons(l, KeysOf(l.cooldowns, p), op.key);
    case Put(key, until, reason, ifLater) => PutReasons(l, s, key, until, reason, ifLater, f);
  }

  /** What a reload takes over from the store has no known reason. */
  lemma {:induction false} ReloadReasons(l: Local, p: nat, listed: Entries, target: int, now: int)
    requires Reasoned(l) && forall k :: k in listed ==> k.provider == p
    ensures var l' := Install(l, p, listed, target, now);
            && Reasoned(l')
            && forall k :: k in l'.cooldowns ==>
                 if k.provider == p then l'.reasons[k] == "unknown"
                 else k in l.reasons && l'.reasons[k] == l.reasons[k]
  {
  }

  /** The cleanup drops exactly what is over, with its reasons. */
  lemma {:induction false} CleanupDrops(l: Local, now: int)
    requires Reasoned(l)
    ensures var l' := CleanupExpired(l, now);
            && Reasoned(l')
            && (forall k :: k in l'.cooldowns <==> k in l.cooldowns && now <= l.cooldowns[k])
            && (forall k :: k in l'.cooldowns ==>
                  l'.cooldowns[k] == l.cooldowns[k] && l'.reasons[k] == l.reasons[k])
            && l'.generations == l.generations
  {
  }

  lemma {:induction false} StepReasoned(y: System, step: Step)
    requires AllReasoned(y) && Listing(y) && Enabled(y, step)
    ensures AllReasoned(Next(y, step)) && Listing(Next(y, step))
  {
    hide Install, CleanupExpired, WriteOf, Live;
    match step
    case Write(i, op, f) => WriteReasons(y.locals[i], y.store, op, y.now, f);
    case Bump(i, f) =>
    case Deliver(i, e, f) => ReloadReasoned(y.locals[i], y.store, e.provider, e.generation, y.now, f);
    case Sync(i, p, every, f) => ReloadReasoned(y.locals[i], y.store, p, Generation(y.store, p), y.now, f);
    case BeginReload(i, p, target) => LiveOf(y.store.entries, p, y.now);
    case EndReload(k, f) =>
      var r := y.reloads[k];
      ReloadReasons(y.locals[r.instance], r.provider, r.listed, Target(y, k, f), y.now);
    case Cleanup(i) => CleanupDrops(y.locals[i], y.now);
    case Tick(to) =>
  }

  lemma {:induction false} LiveOf(entries: Entries, p: nat, now: int)
    ensures forall k :: k in Live(entries, p, now) ==> k.provider == p
  {
  }

  lemma {:induction false} ReloadReasoned(l: Local, s: Store, p: nat, target: int, now: int, f: Faults)
    requires Reasoned(l)
    ensures Reasoned(Reload(l, s, p, target, now, f))
  {
    hide Install, Live;
    var g := if target != 0 then target else if f.read then 0 else Generation(s, p);
    LiveOf(s.entries, p, now);
    ReloadReasons(l, p, Live(s.entries, p, now), g, now);
  }

  /** A reload under way has listed entries of its own provider, for an instance that exists. */
  ghost predicate Listing(y: System) {
    forall k :: 0 <= k < |y.reloads| ==>
      forall key :: key in y.reloads[k].listed ==> key.provider == y.reloads[k].provider
  }

  lemma {:induction false} RunReasoned(y: System, steps: seq<Step>)
    requires AllReasoned(y) && Listing(y) && IsRun(y, steps)
    ensures AllReasoned(After(y, steps))
    decreases |steps|
  {
    hide AllReasoned, Listing, Next, Enabled;
    if steps != [] {
      StepReasoned(y, steps[0]);
      RunReasoned(Next(y, steps[0]), steps[1..]);
    }
  }

  /** In every run, with any failures and any overtaking, cooldowns and reasons belong together. */
  lemma {:induction false} ReasonsKept(n: nat, now: int, steps: seq<Step>)
    requires IsRun(Initial(n, now), steps)
    ensures AllReasoned(After(Initial(n, now), steps))
  {
    hide IsRun, After;
    RunReasoned(Initial(n, now), steps);
  }
}
