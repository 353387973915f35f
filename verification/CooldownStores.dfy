/** The cooldown store that instances share: an end time per key and a generation per provider.
    internal/cooldown/store_memory.go, and the SetIfLater script of store_redis.go.
    Times are integers (milliseconds). */
module CooldownStores {
  import opened Options

  /** Empty `client` or `model` stands for all of them. */
  datatype Key = Key(provider: nat, client: string, model: string)

  type Entries = map<Key, int>

  datatype Store = Store(entries: Entries, generations: map<nat, int>)

  const EMPTY_STORE := Store(map[], map[])

  function Generation(s: Store, p: nat): int {
    if p in s.generations then s.generations[p] else 0
  }

  /** The entries of provider `p` that still hold at `now`. */
  function Live(entries: Entries, p: nat, now: int): Entries {
    map k | k in entries && k.provider == p && now < entries[k] :: entries[k]
  }

  predicate Rejects(s: Store, key: Key, until: int) {
    key in s.entries && s.entries[key] > until
  }

  function StoredIfLater(s: Store, key: Key, until: int): Store {
    if Rejects(s, key, until) then s else s.(entries := s.entries[key := until])
  }

  function Without(entries: Entries, p: nat): Entries {
    map k | k in entries && k.provider != p :: entries[k]
  }

  function Bumped(s: Store, p: nat): Store {
    s.(generations := s.generations[p := Generation(s, p) + 1])
  }

  // ---------------------------------------------------------------- the store as an object

  class MemoryStore {
    var entries: Entries
    var generation: map<nat, int>

    ghost function View(): Store
      reads this
    {
      Store(entries, generation)
    }

    constructor ()
      ensures View() == EMPTY_STORE
    {
      entries, generation := map[], map[];
    }

    method ListByProvider(p: nat, now: int) returns (out: Entries)
      ensures out == Live(entries, p, now)
    {
      out := map[];
      var keys := entries.Keys;
      while keys != {}
        invariant keys <= entries.Keys
        invariant forall k :: k in out <==> k in entries.Keys - keys && k.provider == p && now < entries[k]
        invariant forall k :: k in out ==> out[k] == entries[k]
        decreases keys
      {
        SomeKey(keys);
        var k: Key :| k in keys;
        keys := keys - {k};
        if k.provider == p && now < entries[k] {
          out := out[k := entries[k]];
        }
      }
    }

    method Set(key: Key, until: int)
      modifies this`entries
      ensures entries == old(entries)[key := until]
    {
      entries := entries[key := until];
    }

    method SetIfLater(key: Key, until: int) returns (accepted: bool)
      modifies this`entries
      ensures accepted == !Rejects(old(View()), key, until)
      ensures View() == StoredIfLater(old(View()), key, until)
    {
      if key in entries && entries[key] > until {
        return false;
      }
      entries := entries[key := until];
      return true;
    }

    method Delete(key: Key)
      modifies this`entries
      ensures entries == old(entries) - {key}
    {
      entries := entries - {key};
    }

    method DeleteByProvider(p: nat)
      modifies this`entries
      ensures entries == Without(old(entries), p)
    {
      var keys := entries.Keys;
      while keys != {}
        invariant keys <= old(entries.Keys)
        invariant forall k :: k in entries <==> k in old(entries) && (k in keys || k.provider != p)
        invariant forall k :: k in entries ==> entries[k] == old(entries)[k]
        decreases keys
      {
        SomeKey(keys);
        var k: Key :| k in keys;
        keys := keys - {k};
        if k.provider == p {
          entries := entries - {k};
        }
      }
    }

    method GetGeneration(p: nat) returns (g: int)
      ensures g == Generation(View(), p)
    {
      g := if p in generation then generation[p] else 0;
    }

    method BumpGeneration(p: nat) returns (g: int)
      modifies this`generation
      ensures View() == Bumped(old(View()), p) && g == Generation(View(), p)
    {
      g := (if p in generation then generation[p] else 0) + 1;
      generation := generation[p := g];
    }
  }

  lemma {:induction false} SomeKey(keys: set<Key>)
    requires keys != {}
    ensures exists k :: k in keys
  {
  }

  // ---------------------------------------------------------------- many writers, one key

  /** One call of SetIfLater on a key: what the caller's clock says, and Redis's when the script runs. */
  datatype Call = Call(until: int, now: int, at: int)

  /** A Redis value, and when Redis lets it vanish. */
  datatype Stored = Stored(until: int, expires: int)

  function Submission(w: Call): Stored {
    Stored(w.until, w.at + (w.until - w.now))
  }

  function At(value: Option<Stored>, now: int): Option<Stored> {
    if value.Some? && now < value.value.expires then value else None
  }

  /** The script on the value of the key; the first result says whether it wrote. */
  function Script(value: Option<Stored>, w: Call): (bool, Option<Stored>) {
    var current := At(value, w.at);
    if current.Some? && current.value.until > w.until then (false, current)
    else if w.until - w.now <= 0 then (false, current)
    else (true, Some(Submission(w)))
  }

  /** The script says yes exactly if it has written, and that is if no later end is there and the end
      lies ahead on the caller's clock; otherwise it leaves the key alone. */
  lemma {:induction false} ScriptAnswers(value: Option<Stored>, w: Call)
    ensures var (yes, left) := Script(value, w);
            var there := value.Some? && w.at < value.value.expires;
            && left == (if yes then Some(Stored(w.until, w.at + w.until - w.now)) else if there then value else None)
            && (yes <==> w.until > w.now && (there ==> value.value.until <= w.until))
  {
  }

  function Scripts(value: Option<Stored>, writes: seq<Call>): Option<Stored> {
    if writes == [] then value else Script(Scripts(value, writes[..|writes| - 1]), writes[|writes| - 1]).1
  }

  predicate Submitted(writes: seq<Call>, v: Stored) {
    exists i :: 0 <= i < |writes| && Submission(writes[i]) == v
  }

  predicate Candidate(base: Option<Stored>, writes: seq<Call>, v: Stored) {
    base == Some(v) || Submitted(writes, v)
  }

  /** The latest of the base and of what was submitted, if Redis keeps any of it beyond `now`. */
  ghost predicate IsLatest(r: Option<Stored>, base: Option<Stored>, writes: seq<Call>, now: int) {
    match r
    case None => forall v :: Candidate(base, writes, v) ==> v.expires <= now
    case Some(m) => m.expires > now && Candidate(base, writes, m) && forall v :: Candidate(base, writes, v) ==>
        v.until <= m.until
  }

  /** The scripts run one after the other on Redis's clock. */
  ghost predicate InOrder(writes: seq<Call>, end: int) {
    && (forall i, j :: 0 <= i < j < |writes| ==> writes[i].at <= writes[j].at)
    && (forall i :: 0 <= i < |writes| ==> writes[i].at <= end)
  }

  /** What ends later is not given up earlier. */
  ghost predicate Aligned(base: Option<Stored>, writes: seq<Call>) {
    forall v, w :: Candidate(base, writes, v) && Candidate(base, writes, w) && v.until <= w.until ==>
        v.expires <= w.expires
  }

  lemma {:induction false} ScriptNext(value: Option<Stored>, base: Option<Stored>, before: seq<Call>, w: Call, end: int)
    requires IsLatest(At(value, w.at), base, before, w.at) && Aligned(base, before + [w]) && w.at <= end
    ensures IsLatest(At(Script(value, w).1, end), base, before + [w], end)
  {
    CandidateNext(base, before, w);
    hide Candidate;
    var all := before + [w];
    assert Candidate(base, all, Submission(w));
    assert forall v :: Candidate(base, before, v) ==> Candidate(base, all, v);
  }

  /** What is left in the end is the latest of all times submitted: the order of the writers does
      not matter. */
  lemma {:induction false} ScriptsKeepLatest(base: Option<Stored>, writes: seq<Call>, end: int)
    requires InOrder(writes, end) && Aligned(base, writes)
    ensures IsLatest(At(Scripts(base, writes), end), base, writes, end)
    decreases |writes|
  {
    hide Script, IsLatest, Candidate;
    if writes == [] {
      NoCalls(base, end);
    } else {
      var n := |writes| - 1;
      var before, w := writes[..n], writes[n];
      assert before + [w] == writes;
      assert InOrder(before, w.at) by {
        assert forall i :: 0 <= i < n ==> before[i] == writes[i];
      }
      CandidateNext(base, before, w);
      ScriptsKeepLatest(base, before, w.at);
      ScriptNext(Scripts(base, before), base, before, w, end);
    }
  }

  lemma {:induction false} NoCalls(base: Option<Stored>, end: int)
    ensures IsLatest(At(base, end), base, [], end)
  {
  }

  lemma {:induction false} CandidateNext(base: Option<Stored>, before: seq<Call>, w: Call)
    ensures forall v :: Candidate(base, before + [w], v) <==> Candidate(base, before, v) || v == Submission(w)
  {
    forall v ensures Candidate(base, before + [w], v) <==> Candidate(base, before, v) || v == Submission(w) {
      var all := before + [w];
      assert all[|before|] == w;
      assert forall i :: 0 <= i < |before| ==> all[i] == before[i];
    }
  }

  lemma {:induction false} LatestUnique(a: Option<Stored>, b: Option<Stored>, base: Option<Stored>,
                                        writes: seq<Call>, now: int)
    requires IsLatest(a, base, writes, now) && IsLatest(b, base, writes, now) && Aligned(base, writes)
    ensures a == b
  {
    if a.Some? && b.Some? {
      assert a.value.until == b.value.until && a.value.expires == b.value.expires;
    }
  }

  /** Two interleavings of the same calls, each at its own times, leave the same value. */
  lemma {:induction false} OrderDoesNotMatter(base: Option<Stored>, a: seq<Call>, b: seq<Call>, end: int)
    requires InOrder(a, end) && InOrder(b, end) && Aligned(base, a)
    requires forall v :: Submitted(a, v) <==> Submitted(b, v)
    ensures At(Scripts(base, a), end) == At(Scripts(base, b), end)
  {
    assert forall v :: Candidate(base, a, v) <==> Candidate(base, b, v);
    ScriptsKeepLatest(base, a, end);
    ScriptsKeepLatest(base, b, end);
    LatestUnique(At(Scripts(base, a), end), At(Scripts(base, b), end), base, a, end);
  }

  // ---------------------------------------------------------------- which clocks will do

  /** What the key holds first and every call come from one of the instances; `skews` says how far the
      clock of each is ahead of Redis's, `who` makes the calls. */
  ghost predicate Clocked(skews: seq<int>, base: Option<Stored>, writes: seq<Call>, who: seq<nat>) {
    && (base.Some? ==> exists a :: 0 <= a < |skews| && base.value.expires == base.value.until - skews[a])
    && |who| == |writes|
    && (forall i :: 0 <= i < |writes| ==> who[i] < |skews| && writes[i].now == writes[i].at + skews[who[i]])
  }

  ghost predicate SameSkew(skews: seq<int>) {
    forall a, b :: 0 <= a < |skews| && 0 <= b < |skews| ==> skews[a] == skews[b]
  }

  /** Whatever the instances submit, and whenever, the latest is left. */
  ghost predicate AlwaysLatest(skews: seq<int>) {
    forall base, writes, who, end :: Clocked(skews, base, writes, who) && InOrder(writes, end) ==>
      IsLatest(At(Scripts(base, writes), end), base, writes, end)
  }

  /** The same calls in another order leave the same. */
  ghost predicate OrderIrrelevant(skews: seq<int>) {
    forall base, a, b, who, who', end ::
      && Clocked(skews, base, a, who) && Clocked(skews, base, b, who')
      && InOrder(a, end) && InOrder(b, end) && (forall v :: Submitted(a, v) <==> Submitted(b, v)) ==>
        At(Scripts(base, a), end) == At(Scripts(base, b), end)
  }

  lemma {:induction false} SameSkewAligns(skews: seq<int>, base: Option<Stored>, writes: seq<Call>, who: seq<nat>)
    requires Clocked(skews, base, writes, who) && SameSkew(skews)
    ensures Aligned(base, writes)
  {
    if |skews| > 0 {
      assert forall v :: Candidate(base, writes, v) ==> v.expires == v.until - skews[0];
    }
  }

  function Pair(until: int, first: int, second: int): seq<Call> {
    [Call(until, first, 0), Call(until, second, 0)]
  }

  /** Two instances submit the same end at the same time: what is left goes when the second says. */
  lemma {:induction false} PairLeaves(until: int, first: int, second: int)
    requires until > first && until > second
    ensures Scripts(None, Pair(until, first, second)) == Some(Stored(until, until - second))
    ensures forall v :: Submitted(Pair(until, first, second), v)
                   <==> v == Stored(until, until - first) || v == Stored(until, until - second)
  {
    var writes := Pair(until, first, second);
    assert writes[..1] == [writes[0]] && writes[..1][..0] == [];
    assert Scripts(None, writes[..1]) == Some(Stored(until, until - first));
    assert Submission(writes[0]) == Stored(until, until - first);
    assert Submission(writes[1]) == Stored(until, until - second);
  }

  /** If instance `a` is ahead of `b` and both submit an end that `a` takes for near, `a` last, then the
      value is gone while the one of `b` would still hold; the other order keeps it. */
  lemma {:induction false} SkewLosesLatest(skews: seq<int>, a: nat, b: nat)
    requires a < |skews| && b < |skews| && skews[b] < skews[a]
    ensures !AlwaysLatest(skews) && !OrderIrrelevant(skews)
  {
    hide Scripts, Submitted, IsLatest;
    var until := skews[a] + 1;
    var lost, kept := Pair(until, skews[b], skews[a]), Pair(until, skews[a], skews[b]);
    PairLeaves(until, skews[b], skews[a]);
    PairLeaves(until, skews[a], skews[b]);
    var v := Stored(until, until - skews[b]);
    assert Clocked(skews, None, lost, [b, a]) && Clocked(skews, None, kept, [a, b]);
    assert InOrder(lost, 1) && InOrder(kept, 1);
    assert At(Scripts(None, lost), 1) == None && At(Scripts(None, kept), 1) == Some(v);
    assert Candidate(None, lost, v) && v.expires > 1;
    assert !IsLatest(None, None, lost, 1) by { StillThere(lost, v, 1); }
  }

  lemma {:induction false} StillThere(writes: seq<Call>, v: Stored, now: int)
    requires Candidate(None, writes, v) && v.expires > now
    ensures !IsLatest(None, None, writes, now)
  {
  }

  /** SetIfLater is safe exactly for clocks that are all ahead of Redis's by the same: only then is it
      always the latest that is left, and only then does the order of the writers not matter. */
  lemma {:induction false} ClocksExactly(skews: seq<int>)
    ensures AlwaysLatest(skews) <==> SameSkew(skews)
    ensures OrderIrrelevant(skews) <==> SameSkew(skews)
  {
    hide Scripts, Submitted, IsLatest, Clocked, InOrder, At;
    if SameSkew(skews) {
      forall base, writes, who, end | Clocked(skews, base, writes, who) && InOrder(writes, end)
        ensures IsLatest(At(Scripts(base, writes), end), base, writes, end)
      {
        SameSkewAligns(skews, base, writes, who);
        ScriptsKeepLatest(base, writes, end);
      }
      forall base, a, b, who, who', end
        | Clocked(skews, base, a, who) && Clocked(skews, base, b, who') && InOrder(a, end) && InOrder(b, end)
          && forall v :: Submitted(a, v) <==> Submitted(b, v)
        ensures At(Scripts(base, a), end) == At(Scripts(base, b), end)
      {
        SameSkewAligns(skews, base, a, who);
        OrderDoesNotMatter(base, a, b, end);
      }
    } else {
      var a, b :| 0 <= a < |skews| && 0 <= b < |skews| && skews[b] < skews[a];
      SkewLosesLatest(skews, a, b);
    }
  }

  // ---------------------------------------------------------------- the same on the memory store

  /** SetIfLater calls on one key of the memory store, one after the other. */
  function StoredAll(s: Store, key: Key, untils: seq<int>): Store {
    if untils == [] then s else StoredIfLater(StoredAll(s, key, untils[..|untils| - 1]), key, untils[|untils| - 1])
  }

  /** The key holds the largest of what it held and what was submitted; nothing else changes. */
  lemma {:induction false} MemoryKeepsLatest(s: Store, key: Key, untils: seq<int>)
    ensures var r := StoredAll(s, key, untils);
            && r.entries - {key} == s.entries - {key} && r.generations == s.generations
            && (key in r.entries <==> key in s.entries || untils != [])
            && (key in r.entries ==>
                  && (r.entries[key] in untils || (key in s.entries && s.entries[key] == r.entries[key]))
                  && (key in s.entries ==> s.entries[key] <= r.entries[key])
                  && (forall t :: t in untils ==> t <= r.entries[key]))
    decreases |untils|
  {
    if untils != [] {
      var n := |untils| - 1;
      MemoryKeepsLatest(s, key, untils[..n]);
      assert untils == untils[..n] + [untils[n]];
      assert (StoredAll(s, key, untils).entries - {key}) == (StoredAll(s, key, untils[..n]).entries - {key});
    }
  }

  /** Both stores take the same calls to the same end, if there is one clock and the end has not come. */
  lemma {:induction false} StoresAgree(key: Key, writes: seq<Call>, end: int)
    requires InOrder(writes, end) && forall i :: 0 <= i < |writes| ==> writes[i].now == writes[i].at
    ensures var m, r := StoredAll(EMPTY_STORE, key, Untils(writes)).entries, At(Scripts(None, writes), end);
            r == if key in m && end < m[key] then Some(Stored(m[key], m[key])) else None
  {
    hide Scripts, StoredAll, Aligned;
    SameSkewAligns([0], None, writes, seq(|writes|, i => 0));
    ScriptsKeepLatest(None, writes, end);
    MemoryKeepsLatest(EMPTY_STORE, key, Untils(writes));
    OneClock(writes);
  }

  lemma {:induction false} OneClock(writes: seq<Call>)
    requires forall i :: 0 <= i < |writes| ==> writes[i].now == writes[i].at
    ensures forall v :: Candidate(None, writes, v) <==> v.until in Untils(writes) && v.expires == v.until
  {
    forall v ensures Candidate(None, writes, v) <==> v.until in Untils(writes) && v.expires == v.until {
      assert forall i :: 0 <= i < |writes| ==> Untils(writes)[i] == writes[i].until;
      if Submitted(writes, v) {
        var i :| 0 <= i < |writes| && Submission(writes[i]) == v;
        assert Untils(writes)[i] == v.until;
      }
      if v.until in Untils(writes) && v.expires == v.until {
        var i :| 0 <= i < |writes| && Untils(writes)[i] == v.until;
        assert Submission(writes[i]) == v;
      }
    }
  }

  function Untils(writes: seq<Call>): seq<int> {
    seq(|writes|, i requires 0 <= i < |writes| => writes[i].until)
  }
}
