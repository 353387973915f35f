/** What one instance does to its cooldowns and to the shared store: internal/cooldown/manager.go
    and the generation protocol of internal/cooldown/events.go, as functions on values.

    The current time and the failures of store and bus are arguments.  An operation that the
    program runs under its lock is one step here. */
module Cooldowns {
  import opened Options
  import opened CooldownStores

  /** The local view of one instance.  A missing generation is 0, a missing sync time is long ago. */
  datatype Local = Local(cooldowns: Entries, reasons: map<Key, string>, generations: map<nat, int>,
      lastSync: map<nat, int>)

  const EMPTY_LOCAL := Local(map[], map[], map[], map[])

  /** The event that tells other instances of a provider's new generation. */
  datatype Event = Event(provider: nat, generation: int)

  /** Which calls fail: a write or delete, BumpGeneration, Publish, ListByProvider, GetGeneration. */
  datatype Faults = Faults(write: bool, bump: bool, publish: bool, list: bool, read: bool)

  const NO_FAULTS := Faults(false, false, false, false, false)

  datatype Outcome = Outcome(local: Local, store: Store, events: seq<Event>)

  /** What is there once the store has answered the write: if it took it, the generation has still to
      be bumped. */
  datatype Written = Written(local: Local, store: Store, bumps: bool)

  const UNKNOWN := "unknown"

  function KnownGeneration(l: Local, p: nat): int {
    if p in l.generations then l.generations[p] else 0
  }

  // ---------------------------------------------------------------- mutations

  /** The next read of provider `p` will look at the store again. */
  function Forget(l: Local, p: nat): Local {
    l.(lastSync := l.lastSync - {p})
  }

  function BumpAndPublish(l: Local, s: Store, p: nat, now: int, f: Faults): Outcome {
    if f.bump then Outcome(l, s, [])
    else
      var s' := Bumped(s, p);
      var g := Generation(s', p);
      Outcome(l.(generations := l.generations[p := g], lastSync := l.lastSync[p := now]), s',
              if f.publish then [] else [Event(p, g)])
  }

  function Drop(l: Local, keys: set<Key>): Local {
    l.(cooldowns := l.cooldowns - keys, reasons := l.reasons - keys)
  }

  /** The second half of every mutation. */
  function Finish(w: Written, p: nat, now: int, f: Faults): Outcome {
    if w.bumps then BumpAndPublish(w.local, w.store, p, now, f) else Outcome(w.local, w.store, [])
  }

  function WriteOne(l: Local, s: Store, key: Key, f: Faults): Written {
    if f.write then Written(Forget(l, key.provider), s, false)
    else Written(Drop(l, {key}), s.(entries := s.entries - {key}), true)
  }

  /** One key is cleared in the store, then here. */
  function ClearOne(l: Local, s: Store, key: Key, now: int, f: Faults): Outcome {
    Finish(WriteOne(l, s, key, f), key.provider, now, f)
  }

  function KeysOf(entries: Entries, p: nat): set<Key> {
    set k | k in entries && k.provider == p
  }

  function WriteAll(l: Local, s: Store, p: nat, f: Faults): Written {
    if f.write then Written(Forget(l, p), s, false)
    else Written(Drop(l, KeysOf(l.cooldowns, p)), s.(entries := Without(s.entries, p)), true)
  }

  function ClearAll(l: Local, s: Store, p: nat, now: int, f: Faults): Outcome {
    Finish(WriteAll(l, s, p, f), p, now, f)
  }

  function ClearCooldown(l: Local, s: Store, key: Key, now: int, f: Faults): Outcome {
    if key.client == "" && key.model == "" then ClearAll(l, s, key.provider, now, f) else ClearOne(l, s, key, now, f)
  }

  function Hold(l: Local, key: Key, until: int, reason: string): Local {
    l.(cooldowns := l.cooldowns[key := until], reasons := l.reasons[key := reason])
  }

  function WriteUntil(l: Local, s: Store, key: Key, until: int, reason: string, ifLater: bool, f: Faults): Written {
    if f.write then Written(Forget(Hold(l, key, until, reason), key.provider), s, false)
    else if ifLater && Rejects(s, key, until) then Written(Forget(l, key.provider), s, false)
    else Written(Hold(l, key, until, reason), s.(entries := s.entries[key := until]), true)
  }

  /** setCooldownLocked */
  function SetCooldown(l: Local, s: Store, key: Key, until: int, reason: string, ifLater: bool, now: int,
                       f: Faults): Outcome {
    if until <= now then ClearOne(l, s, key, now, f)
    else Finish(WriteUntil(l, s, key, until, reason, ifLater, f), key.provider, now, f)
  }

  function UpdateCooldown(l: Local, s: Store, key: Key, until: int, now: int, f: Faults): Outcome {
    if until <= now then ClearCooldown(l, s, key, now, f)
    else SetCooldown(l, s, key, until, if key in l.reasons then l.reasons[key] else UNKNOWN, false, now, f)
  }

  datatype Scope = RequestScope | ModelScope | KeyScope | EndpointScope | ProviderScope

  function ScopedKey(key: Key, scope: Scope): Key {
    match scope
    case KeyScope => key.(model := "")
    case EndpointScope => key.(model := "")
    case ProviderScope => key.(client := "", model := "")
    case _ => key
  }

  /** `explicit` is the end time the upstream gave; otherwise the policy's duration counts. */
  function RecordFailure(l: Local, s: Store, key: Key, reason: string, scope: Scope, explicit: Option<int>,
                         duration: int, now: int, f: Faults): Outcome {
    if scope.RequestScope? then Outcome(l, s, [])
    else if explicit.Some? then SetCooldown(l, s, ScopedKey(key, scope), explicit.value, reason, false, now, f)
    else SetCooldown(l, s, ScopedKey(key, scope), now + duration, reason, true, now, f)
  }

  // ---------------------------------------------------------------- reading the store again

  /** The second half of reloadProvider: `listed` is what the store listed some time before. */
  function Install(l: Local, p: nat, listed: Entries, target: int, now: int): Local {
    var kept := l.reasons - KeysOf(l.cooldowns, p);
    Local(Without(l.cooldowns, p) + listed,
          (map k | k in listed :: UNKNOWN) + kept,
          if target > KnownGeneration(l, p) then l.generations[p := target] else l.generations,
          l.lastSync[p := now])
  }

  function Reload(l: Local, s: Store, p: nat, target: int, now: int, f: Faults): Local {
    if f.list then l
    else
      var g := if target != 0 then target else if f.read then 0 else Generation(s, p);
      Install(l, p, Live(s.entries, p, now), g, now)
  }

  /** An event counts only if it is news. */
  function ApplyRemoteEvent(l: Local, s: Store, e: Event, now: int, f: Faults): Local {
    if e.generation <= KnownGeneration(l, e.provider) then l else Reload(l, s, e.provider, e.generation, now, f)
  }

  function SyncGeneration(l: Local, s: Store, p: nat, every: int, now: int, f: Faults): Local {
    var window := if every <= 0 then 2000 else every;
    if p in l.lastSync && now - l.lastSync[p] < window then l
    else if f.read || Generation(s, p) == KnownGeneration(l, p) then l.(lastSync := l.lastSync[p := now])
    else Reload(l, s, p, Generation(s, p), now, f)
  }

  function Expired(l: Local, now: int): set<Key> {
    set k | k in l.cooldowns && now > l.cooldowns[k]
  }

  function CleanupExpired(l: Local, now: int): Local {
    Drop(l, Expired(l, now))
  }

  // ---------------------------------------------------------------- queries

  predicate Holds(l: Local, key: Key, now: int) {
    key in l.cooldowns && now < l.cooldowns[key]
  }

  predicate InCooldown(l: Local, p: nat, client: string, model: string, now: int) {
    || Holds(l, Key(p, "", ""), now)
    || (client != "" && Holds(l, Key(p, client, ""), now))
    || (model != "" && Holds(l, Key(p, "", model), now))
    || (client != "" && model != "" && Holds(l, Key(p, client, model), now))
  }

  function Later(l: Local, key: Key, now: int, latest: int): int {
    if Holds(l, key, now) && l.cooldowns[key] > latest then l.cooldowns[key] else latest
  }

  /** The latest end among the keys that hold; 0 is the zero time. */
  function LatestOf(l: Local, keys: seq<Key>, now: int): int {
    if keys == [] then 0 else Later(l, keys[|keys| - 1], now, LatestOf(l, keys[..|keys| - 1], now))
  }

  function Levels(p: nat, client: string, model: string): seq<Key> {
    [Key(p, "", ""), Key(p, client, ""), Key(p, "", model), Key(p, client, model)]
  }

  function CooldownUntil(l: Local, p: nat, client: string, model: string, now: int): int {
    LatestOf(l, Levels(p, client, model), now)
  }

  lemma {:induction false} LatestAmong(l: Local, keys: seq<Key>, now: int)
    ensures var u := LatestOf(l, keys, now);
            && u >= 0
            && (forall i :: 0 <= i < |keys| && Holds(l, keys[i], now) ==> l.cooldowns[keys[i]] <= u)
            && (u == 0 || exists i :: 0 <= i < |keys| && Holds(l, keys[i], now) && l.cooldowns[keys[i]] == u)
    decreases |keys|
  {
    if keys != [] {
      var n := |keys| - 1;
      LatestAmong(l, keys[..n], now);
      var u0 := LatestOf(l, keys[..n], now);
      if LatestOf(l, keys, now) != u0 {
        assert Holds(l, keys[n], now);
      } else if u0 != 0 {
        var i :| 0 <= i < n && Holds(l, keys[..n][i], now) && l.cooldowns[keys[..n][i]] == u0;
        assert keys[i] == keys[..n][i];
      }
      forall i | 0 <= i < |keys| && Holds(l, keys[i], now) ensures l.cooldowns[keys[i]] <= LatestOf(l, keys, now) {
        assert i < n ==> keys[..n][i] == keys[i];
      }
    }
  }

  /** The keys that speak about this client and model. */
  predicate Concerns(key: Key, p: nat, client: string, model: string) {
    key.provider == p && key.client in {"", client} && key.model in {"", model}
  }

  lemma {:induction false} InCooldownExactly(l: Local, p: nat, client: string, model: string, now: int)
    ensures InCooldown(l, p, client, model, now)
       <==> exists k :: k in Live(l.cooldowns, p, now) && Concerns(k, p, client, model)
  {
    var live := Live(l.cooldowns, p, now);
    if InCooldown(l, p, client, model, now) {
      var k := if Holds(l, Key(p, "", ""), now) then Key(p, "", "")
               else if Holds(l, Key(p, client, ""), now) then Key(p, client, "")
               else if Holds(l, Key(p, "", model), now) then Key(p, "", model)
               else Key(p, client, model);
      assert k in live && Concerns(k, p, client, model);
    }
    if k :| k in live && Concerns(k, p, client, model) {
      assert Holds(l, k, now) && k == Key(p, k.client, k.model);
    }
  }

  /** The latest end among the keys that hold, and the zero time if none does. */
  lemma {:induction false} UntilIsLatest(l: Local, p: nat, client: string, model: string, now: int)
    requires now >= 0
    ensures var u, live := CooldownUntil(l, p, client, model, now), Live(l.cooldowns, p, now);
            && (forall k :: k in live && Concerns(k, p, client, model) ==> live[k] <= u)
            && (u == 0 || exists k :: k in live && Concerns(k, p, client, model) && live[k] == u)
            && (u != 0 <==> InCooldown(l, p, client, model, now))
  {
    hide LatestOf;
    var u, live, keys := CooldownUntil(l, p, client, model, now), Live(l.cooldowns, p, now), Levels(p, client, model);
    LatestAmong(l, keys, now);
    InCooldownExactly(l, p, client, model, now);
    forall k | k in live && Concerns(k, p, client, model) ensures live[k] <= u {
      AmongLevels(k, p, client, model);
      var i :| 0 <= i < |keys| && keys[i] == k;
      assert Holds(l, keys[i], now);
    }
    if u != 0 {
      var i :| 0 <= i < |keys| && Holds(l, keys[i], now) && l.cooldowns[keys[i]] == u;
      assert keys[i] in live && Concerns(keys[i], p, client, model) && live[keys[i]] == u;
    }
  }

  lemma {:induction false} AmongLevels(k: Key, p: nat, client: string, model: string)
    requires Concerns(k, p, client, model)
    ensures exists i :: 0 <= i < 4 && Levels(p, client, model)[i] == k
  {
    assert k == Key(p, k.client, k.model);
    var i := if k.client == "" then (if k.model == "" then 0 else 2) else if k.model == "" then 1 else 3;
    assert Levels(p, client, model)[i] == k;
  }

  // ---------------------------------------------------------------- agreement with the store

  /** The instance holds what the store holds for provider `p`. */
  predicate Agrees(l: Local, s: Store, p: nat, now: int) {
    Live(l.cooldowns, p, now) == Live(s.entries, p, now)
  }

  /** Agreement up to one key. */
  predicate AgreesBut(l: Local, s: Store, p: nat, now: int, key: Key) {
    Live(l.cooldowns, p, now) - {key} == Live(s.entries, p, now) - {key}
  }

  // ---------------------------------------------------------------- failures that shorten a cooldown

  /** The end that holds for a key now holds no more, or is earlier. */
  predicate Earlier(l: Local, l': Local, key: Key, now: int) {
    Holds(l, key, now) && !(Holds(l', key, now) && l.cooldowns[key] <= l'.cooldowns[key])
  }

  /** A failure timed by its policy meets a later end, and nothing stops it: the store cannot be
      written, or does not know of the later end. */
  predicate Overwrites(l: Local, s: Store, key: Key, scope: Scope, duration: int, now: int, f: Faults) {
    var k := ScopedKey(key, scope);
    && !scope.RequestScope?
    && Holds(l, k, now) && l.cooldowns[k] > now + duration
    && (if duration <= 0 then !f.write else f.write || !Rejects(s, k, now + duration))
  }

  /** Which ends such a failure moves earlier: the one of its own key, in that case and no other. */
  lemma {:induction false} FailureMovesEarlier(l: Local, s: Store, key: Key, reason: string, scope: Scope,
                                               duration: int, now: int, f: Faults, k: Key)
    ensures var l' := RecordFailure(l, s, key, reason, scope, None, duration, now, f).local;
            Earlier(l, l', k, now) <==> k == ScopedKey(key, scope) && Overwrites(l, s, key, scope, duration, now, f)
    ensures var l' := RecordFailure(l, s, key, reason, scope, None, duration, now, f).local;
            k != ScopedKey(key, scope) ==>
              (Holds(l', k, now) <==> Holds(l, k, now)) && (Holds(l, k, now) ==> l'.cooldowns[k] == l.cooldowns[k])
  {
    hide RecordFailure, ScopedKey;
    FailureLeaves(l, s, key, reason, scope, duration, now, f);
  }

  lemma {:induction false} FailureLeaves(l: Local, s: Store, key: Key, reason: string, scope: Scope, duration: int,
                                         now: int, f: Faults)
    ensures var l', k := RecordFailure(l, s, key, reason, scope, None, duration, now, f).local, ScopedKey(key, scope);
            l'.cooldowns == if scope.RequestScope? then l.cooldowns
                            else if duration <= 0 then (if f.write then l.cooldowns else l.cooldowns - {k})
                            else if !f.write && Rejects(s, k, now + duration) then l.cooldowns
                            else l.cooldowns[k := now + duration]
  {
    hide Finish, ScopedKey;
    var k := ScopedKey(key, scope);
    if !scope.RequestScope? {
      FinishKeepsEntries(WriteOne(l, s, k, f), k.provider, now, f);
      FinishKeepsEntries(WriteUntil(l, s, k, now + duration, reason, true, f), k.provider, now, f);
    }
  }

  lemma {:induction false} FinishKeepsEntries(w: Written, p: nat, now: int, f: Faults)
    ensures var o := Finish(w, p, now, f);
            o.local.cooldowns == w.local.cooldowns && o.local.reasons == w.local.reasons
                && o.store.entries == w.store.entries
  {
  }

  /** The key has the latest end of all that concern this client and model, and no other has the same. */
  ghost predicate DecidesAlone(l: Local, k: Key, p: nat, client: string, model: string, now: int) {
    && Holds(l, k, now) && Concerns(k, p, client, model)
    && forall o :: o in Live(l.cooldowns, p, now) && Concerns(o, p, client, model) && o != k ==>
         l.cooldowns[o] < l.cooldowns[k]
  }

  /** When a failure timed by its policy moves the end that GetCooldownUntil reports earlier. */
  lemma {:induction false} FailureShortensExactly(l: Local, s: Store, key: Key, reason: string, scope: Scope,
                                                  duration: int,
                                                  now: int, f: Faults, p: nat, client: string, model: string)
    requires now >= 0
    ensures var l' := RecordFailure(l, s, key, reason, scope, None, duration, now, f).local;
            (CooldownUntil(l', p, client, model, now) < CooldownUntil(l, p, client, model, now)
             <==> Overwrites(l, s, key, scope, duration, now, f)
                  && DecidesAlone(l, ScopedKey(key, scope), p, client, model, now))
  {
    hide CooldownUntil, RecordFailure, Overwrites, InCooldown;
    var l' := RecordFailure(l, s, key, reason, scope, None, duration, now, f).local;
    var k, u, u' := ScopedKey(key, scope), CooldownUntil(l, p, client, model, now),
        CooldownUntil(l', p, client, model, now);
    UntilIsLatest(l, p, client, model, now);
    UntilIsLatest(l', p, client, model, now);
    forall o ensures Earlier(l, l', o, now) <==> o == k && Overwrites(l, s, key, scope, duration, now, f) {
      FailureMovesEarlier(l, s, key, reason, scope, duration, now, f, o);
    }
    forall o | o != k ensures Holds(l', o, now) <==> Holds(l, o, now)
      ensures Holds(l, o, now) ==> l'.cooldowns[o] == l.cooldowns[o]
    {
      FailureMovesEarlier(l, s, key, reason, scope, duration, now, f, o);
    }
    var live, live' := Live(l.cooldowns, p, now), Live(l'.cooldowns, p, now);
    if u' < u {
      var m :| m in live && Concerns(m, p, client, model) && live[m] == u;
      assert m in live' ==> live'[m] <= u';
      assert Earlier(l, l', m, now);
      forall o | o in live && Concerns(o, p, client, model) && o != k ensures l.cooldowns[o] < l.cooldowns[k] {
        assert o in live' && live'[o] <= u';
      }
    }
    if Overwrites(l, s, key, scope, duration, now, f) && DecidesAlone(l, k, p, client, model, now) {
      assert Earlier(l, l', k, now) && k in live && 0 <= now < live[k] <= u;
      assert forall m :: m in live' && Concerns(m, p, client, model) && m != k ==> m in live && live[m] < u;
    }
  }

  /** So it never does while instance and store agree and the write goes through. */
  lemma {:induction false} FailureNeverShortens(l: Local, s: Store, key: Key, reason: string, scope: Scope,
                                                duration: int,
                                                now: int, f: Faults, p: nat, client: string, model: string)
    requires duration > 0 && now >= 0 && Agrees(l, s, key.provider, now) && !f.write
    ensures var l' := RecordFailure(l, s, key, reason, scope, None, duration, now, f).local;
            CooldownUntil(l, p, client, model, now) <= CooldownUntil(l', p, client, model, now)
  {
    hide CooldownUntil, RecordFailure, DecidesAlone;
    FailureShortensExactly(l, s, key, reason, scope, duration, now, f, p, client, model);
    var k := ScopedKey(key, scope);
    if Holds(l, k, now) {
      assert k in Live(l.cooldowns, key.provider, now);
      assert Live(l.cooldowns, key.provider, now)[k] == Live(s.entries, key.provider, now)[k];
    }
  }

  /** Both ways to overwrite a later end occur: the store cannot be written, or another instance has
      cleared the cooldown there and this one has not heard of it. */
  lemma {:induction false} OverwriteOccurs(cleared: bool)
    ensures var key, f := Key(1, "", ""), NO_FAULTS.(write := !cleared);
            var l, s := Local(map[key := 100], map[], map[], map[]),
                Store(if cleared then map[] else map[key := 100], map[]);
            var l' := RecordFailure(l, s, key, UNKNOWN, ProviderScope, None, 5, 10, f).local;
            (Agrees(l, s, 1, 10) <==> !cleared)
            && CooldownUntil(l', 1, "c", "m", 10) < CooldownUntil(l, 1, "c", "m", 10)
  {
    hide CooldownUntil, RecordFailure;
    var key, f := Key(1, "", ""), NO_FAULTS.(write := !cleared);
    var l, s := Local(map[key := 100], map[], map[], map[]), Store(if cleared then map[] else map[key := 100], map[]);
    FailureShortensExactly(l, s, key, UNKNOWN, ProviderScope, 5, 10, f, 1, "c", "m");
    assert key in Live(l.cooldowns, 1, 10);
    assert cleared ==> key !in Live(s.entries, 1, 10);
  }
}
