/** The cooldown manager as an object that holds its maps and talks to a store.  Each method does
    what the function of the same name in Cooldowns says; failures are arguments. */
module CooldownManager {
  import opened Options
  import opened CooldownStores
  import C = Cooldowns

  class Manager {
    var cooldowns: Entries
    var reasons: map<Key, string>
    var providerGen: map<nat, int>
    var lastGenSync: map<nat, int>
    var genSyncEvery: int
    const store: MemoryStore

    /** The events published so far. */
    var published: seq<C.Event>

    ghost function View(): C.Local
      reads this
    {
      C.Local(cooldowns, reasons, providerGen, lastGenSync)
    }

    ghost function Result(before: seq<C.Event>): C.Outcome
      reads this, store
      requires before <= published
    {
      C.Outcome(View(), store.View(), published[|before|..])
    }

    constructor (store: MemoryStore)
      ensures View() == C.EMPTY_LOCAL && this.store == store && published == [] && genSyncEvery == 2000
    {
      this.store := store;
      cooldowns, reasons, providerGen, lastGenSync, genSyncEvery := map[], map[], map[], map[], 2000;
      published := [];
    }

    method BumpAndPublish(p: nat, now: int, f: C.Faults)
      modifies this`providerGen, this`lastGenSync, this`published, store`generation
      ensures old(published) <= published
      ensures Result(old(published)) == C.BumpAndPublish(old(View()), old(store.View()), p, now, f)
    {
      if f.bump {
        return;
      }
      var gen := store.BumpGeneration(p);
      providerGen := providerGen[p := gen];
      lastGenSync := lastGenSync[p := now];
      if !f.publish {
        published := published + [C.Event(p, gen)];
      }
    }

    method ClearOne(key: Key, now: int, f: C.Faults)
      modifies this`cooldowns, this`reasons, this`providerGen, this`lastGenSync, this`published, store
      ensures old(published) <= published
      ensures Result(old(published)) == C.ClearOne(old(View()), old(store.View()), key, now, f)
    {
      if f.write {
        lastGenSync := lastGenSync - {key.provider};
        return;
      }
      store.Delete(key);
      cooldowns := cooldowns - {key};
      reasons := reasons - {key};
      BumpAndPublish(key.provider, now, f);
    }

    method ClearAll(p: nat, now: int, f: C.Faults)
      modifies this`cooldowns, this`reasons, this`providerGen, this`lastGenSync, this`published, store
      ensures old(published) <= published
      ensures Result(old(published)) == C.ClearAll(old(View()), old(store.View()), p, now, f)
    {
      if f.write {
        lastGenSync := lastGenSync - {p};
        return;
      }
      store.DeleteByProvider(p);
      DropProvider(p);
      BumpAndPublish(p, now, f);
    }

    /** Every local entry of the provider goes, with its reason. */
    method DropProvider(p: nat)
      modifies this`cooldowns, this`reasons
      ensures cooldowns == Without(old(cooldowns), p) == old(cooldowns) - C.KeysOf(old(cooldowns), p)
      ensures reasons == old(reasons) - C.KeysOf(old(cooldowns), p)
    {
      var keys := cooldowns.Keys;
      while keys != {}
        invariant keys <= old(cooldowns.Keys)
        invariant forall k :: k in cooldowns <==> k in old(cooldowns) && (k in keys || k.provider != p)
        invariant forall k :: k in cooldowns ==> cooldowns[k] == old(cooldowns)[k]
        invariant forall k :: k in reasons <==>
            k in old(reasons) && !(k in old(cooldowns) && k !in keys && k.provider == p)
        invariant forall k :: k in reasons ==> reasons[k] == old(reasons)[k]
        decreases keys
      {
        SomeKey(keys);
        var k: Key :| k in keys;
        keys := keys - {k};
        if k.provider == p {
          cooldowns := cooldowns - {k};
          reasons := reasons - {k};
        }
      }
    }

    method ClearCooldown(key: Key, now: int, f: C.Faults)
      modifies this`cooldowns, this`reasons, this`providerGen, this`lastGenSync, this`published, store
      ensures old(published) <= published
      ensures Result(old(published)) == C.ClearCooldown(old(View()), old(store.View()), key, now, f)
    {
      if key.client == "" && key.model == "" {
        ClearAll(key.provider, now, f);
      } else {
        ClearOne(key, now, f);
      }
    }

    method RecordSuccess(key: Key, now: int, f: C.Faults)
      modifies this`cooldowns, this`reasons, this`providerGen, this`lastGenSync, this`published, store
      ensures old(published) <= published
      ensures Result(old(published)) == C.ClearOne(old(View()), old(store.View()), key, now, f)
    {
      ClearOne(key, now, f);
    }

    method SetCooldown(key: Key, until: int, reason: string, useIfLater: bool, now: int, f: C.Faults)
      modifies this`cooldowns, this`reasons, this`providerGen, this`lastGenSync, this`published, store
      ensures old(published) <= published
      ensures Result(old(published))
          == C.SetCooldown(old(View()), old(store.View()), key, until, reason, useIfLater, now, f)
    {
      hide C.BumpAndPublish, C.ClearOne;
      if until <= now {
        ClearOne(key, now, f);
        return;
      }
      var storeAccepted, storeRejected := true, false;
      if f.write {
        storeAccepted := false;
      } else if useIfLater {
        var ok := store.SetIfLater(key, until);
        storeAccepted, storeRejected := ok, !ok;
      } else {
        store.Set(key, until);
      }
      if !storeRejected {
        cooldowns := cooldowns[key := until];
        reasons := reasons[key := reason];
      }
      if storeRejected {
        lastGenSync := lastGenSync - {key.provider};
      } else if storeAccepted {
        BumpAndPublish(key.provider, now, f);
      } else {
        lastGenSync := lastGenSync - {key.provider};
      }
    }

    method UpdateCooldown(key: Key, until: int, now: int, f: C.Faults)
      modifies this`cooldowns, this`reasons, this`providerGen, this`lastGenSync, this`published, store
      ensures old(published) <= published
      ensures Result(old(published)) == C.UpdateCooldown(old(View()), old(store.View()), key, until, now, f)
    {
      hide C.SetCooldown, C.ClearCooldown;
      if until <= now {
        ClearCooldown(key, now, f);
        return;
      }
      var reason := C.UNKNOWN;
      if key in reasons {
        reason := reasons[key];
      }
      SetCooldown(key, until, reason, false, now, f);
    }

    method RecordFailure(key: Key, reason: string, scope: C.Scope, explicitUntil: Option<int>, duration: int,
                         now: int, f: C.Faults)
      returns (until: Option<int>)
      modifies this`cooldowns, this`reasons, this`providerGen, this`lastGenSync, this`published, store
      ensures old(published) <= published
      ensures Result(old(published))
           == C.RecordFailure(old(View()), old(store.View()), key, reason, scope, explicitUntil, duration, now, f)
      ensures until == if scope.RequestScope? then None else if explicitUntil.Some? then explicitUntil
          else Some(now + duration)
    {
      hide C.SetCooldown;
      if scope.RequestScope? {
        return None;
      }
      var effective := key;
      match scope {
        case KeyScope => effective := effective.(model := "");
        case EndpointScope => effective := effective.(model := "");
        case ProviderScope => effective := effective.(client := "", model := "");
        case _ =>
      }
      if explicitUntil.Some? {
        SetCooldown(effective, explicitUntil.value, reason, false, now, f);
        return explicitUntil;
      }
      SetCooldown(effective, now + duration, reason, true, now, f);
      return Some(now + duration);
    }

    /** What the store listed goes in; a reason that is known stays. */
    method InstallEntries(entries: Entries)
      modifies this`cooldowns, this`reasons
      ensures cooldowns == old(cooldowns) + entries
      ensures reasons == (map k | k in entries :: C.UNKNOWN) + old(reasons)
    {
      var keys := entries.Keys;
      while keys != {}
        invariant keys <= entries.Keys
        invariant forall k :: k in cooldowns <==> k in old(cooldowns) || k in entries.Keys - keys
        invariant forall k :: k in cooldowns ==>
            cooldowns[k] == if k in entries.Keys - keys then entries[k] else old(cooldowns)[k]
        invariant forall k :: k in reasons <==> k in old(reasons) || k in entries.Keys - keys
        invariant forall k :: k in reasons ==> reasons[k] == if k in old(reasons) then old(reasons)[k] else C.UNKNOWN
        decreases keys
      {
        SomeKey(keys);
        var k: Key :| k in keys;
        keys := keys - {k};
        cooldowns := cooldowns[k := entries[k]];
        if k !in reasons {
          reasons := reasons[k := C.UNKNOWN];
        }
      }
    }

    method ReloadProvider(p: nat, targetGen: int, now: int, f: C.Faults)
      modifies this`cooldowns, this`reasons, this`providerGen, this`lastGenSync
      ensures View() == C.Reload(old(View()), store.View(), p, targetGen, now, f)
    {
      if f.list {
        return;
      }
      var entries := store.ListByProvider(p, now);
      var target := targetGen;
      if target == 0 && !f.read {
        target := store.GetGeneration(p);
      }
      DropProvider(p);
      InstallEntries(entries);
      var current := if p in providerGen then providerGen[p] else 0;
      if target > current {
        providerGen := providerGen[p := target];
      }
      lastGenSync := lastGenSync[p := now];
    }

    method ApplyRemoteEvent(e: C.Event, now: int, f: C.Faults)
      modifies this`cooldowns, this`reasons, this`providerGen, this`lastGenSync
      ensures View() == C.ApplyRemoteEvent(old(View()), store.View(), e, now, f)
    {
      hide C.Reload;
      var current := if e.provider in providerGen then providerGen[e.provider] else 0;
      if e.generation <= current {
        return;
      }
      ReloadProvider(e.provider, e.generation, now, f);
    }

    method SyncProviderGeneration(p: nat, now: int, f: C.Faults)
      modifies this`cooldowns, this`reasons, this`providerGen, this`lastGenSync
      ensures View() == C.SyncGeneration(old(View()), store.View(), p, genSyncEvery, now, f)
    {
      hide C.Reload;
      var every := if genSyncEvery <= 0 then 2000 else genSyncEvery;
      if p in lastGenSync && now - lastGenSync[p] < every {
        return;
      }
      if f.read {
        lastGenSync := lastGenSync[p := now];
        return;
      }
      var remote := store.GetGeneration(p);
      if remote == (if p in providerGen then providerGen[p] else 0) {
        lastGenSync := lastGenSync[p := now];
        return;
      }
      ReloadProvider(p, remote, now, f);
    }

    method IsInCooldown(p: nat, client: string, model: string, now: int, f: C.Faults) returns (frozen: bool)
      modifies this`cooldowns, this`reasons, this`providerGen, this`lastGenSync
      ensures View() == C.SyncGeneration(old(View()), store.View(), p, genSyncEvery, now, f)
      ensures frozen <==> exists k :: k in Live(cooldowns, p, now) && C.Concerns(k, p, client, model)
    {
      SyncProviderGeneration(p, now, f);
      C.InCooldownExactly(View(), p, client, model, now);
      if Frozen(Key(p, "", ""), now) {
        return true;
      }
      if client != "" && Frozen(Key(p, client, ""), now) {
        return true;
      }
      if model != "" && Frozen(Key(p, "", model), now) {
        return true;
      }
      if client != "" && model != "" && Frozen(Key(p, client, model), now) {
        return true;
      }
      return false;
    }

    predicate Frozen(key: Key, now: int)
      reads this
    {
      key in cooldowns && now < cooldowns[key]
    }

    method GetCooldownUntil(p: nat, client: string, model: string, now: int, f: C.Faults) returns (until: int)
      modifies this`cooldowns, this`reasons, this`providerGen, this`lastGenSync
      ensures View() == C.SyncGeneration(old(View()), store.View(), p, genSyncEvery, now, f)
      ensures until == C.CooldownUntil(View(), p, client, model, now)
    {
      SyncProviderGeneration(p, now, f);
      var keys := [Key(p, "", ""), Key(p, client, ""), Key(p, "", model), Key(p, client, model)];
      until := 0;
      for i := 0 to |keys|
        invariant until == C.LatestOf(View(), keys[..i], now)
      {
        if Frozen(keys[i], now) {
          if cooldowns[keys[i]] > until {
            until := cooldowns[keys[i]];
          }
        }
        assert keys[..i + 1][..i] == keys[..i];
      }
      assert keys[..4] == keys;
    }

    method CleanupExpired(now: int)
      modifies this`cooldowns, this`reasons
      ensures View() == C.CleanupExpired(old(View()), now)
    {
      var keys := cooldowns.Keys;
      while keys != {}
        invariant keys <= old(cooldowns.Keys)
        invariant forall k :: k in cooldowns <==> k in old(cooldowns) && (k in keys || now <= old(cooldowns)[k])
        invariant forall k :: k in cooldowns ==> cooldowns[k] == old(cooldowns)[k]
        invariant forall k :: k in reasons <==>
            k in old(reasons) && !(k in old(cooldowns) && k !in keys && now > old(cooldowns)[k])
        invariant forall k :: k in reasons ==> reasons[k] == old(reasons)[k]
        decreases keys
      {
        SomeKey(keys);
        var k: Key :| k in keys;
        keys := keys - {k};
        if now > cooldowns[k] {
          cooldowns := cooldowns - {k};
          reasons := reasons - {k};
        }
      }
      assert cooldowns == old(cooldowns) - C.Expired(old(View()), now);
      assert reasons == old(reasons) - C.Expired(old(View()), now);
    }
  }
}
