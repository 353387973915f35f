/** The keys of an integer-keyed map in increasing order: sortedKeys of
    internal/converter/openai_to_codex.go. */
module SortedKeys {

  /** A set is empty or has an element. */
  lemma {:induction false} Inhabited(s: set<int>)
    ensures s == {} || exists k :: k in s
  {
    if forall k :: k !in s {
      assert s == {};
    }
  }

  /** The keys in increasing order. */
  function Sorted(keys: set<int>): (r: seq<int>)
    ensures forall k :: k in r <==> k in keys
    ensures forall i, j :: 0 <= i < j < |r| ==> r[i] < r[j]
  {
    if keys == {} then [] else
      LeastExists(keys);
      var least :| least in keys && forall k :: k in keys ==> least <= k;
      var rest := Sorted(keys - {least});
      LeastFirst(keys, least, rest);
      [least] + rest
  }

  lemma {:induction false} LeastFirst(keys: set<int>, least: int, rest: seq<int>)
    requires least in keys && forall k :: k in keys ==> least <= k
    requires forall k :: k in rest <==> k in keys - {least}
    requires forall i, j :: 0 <= i < j < |rest| ==> rest[i] < rest[j]
    ensures forall k :: k in [least] + rest <==> k in keys
    ensures forall i, j :: 0 <= i < j < |[least] + rest| ==> ([least] + rest)[i] < ([least] + rest)[j]
  {
    forall j | 0 <= j < |rest| ensures least < rest[j] {
      assert rest[j] in rest;
    }
  }

  lemma {:induction false} LeastExists(keys: set<int>)
    requires keys != {}
    ensures exists least :: least in keys && forall k :: k in keys ==> least <= k
  {
    Inhabited(keys);
    var some :| some in keys;
    var rest := keys - {some};
    assert keys == rest + {some};
    if rest != {} {
      LeastExists(rest);
      var low :| low in rest && forall k :: k in rest ==> low <= k;
      var least := if low < some then low else some;
      assert least in keys && forall k :: k in keys ==> least <= k;
    }
  }

  lemma {:induction false} SortedHead(keys: set<int>, least: int)
    requires least in keys && forall k :: k in keys ==> least <= k
    ensures Sorted(keys) == [least] + Sorted(keys - {least})
  {
  }
}
