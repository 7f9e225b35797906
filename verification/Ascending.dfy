/** The keys of a map in ascending order, as Go code sorts them before walking a map. */
module Ascending {

  predicate Increasing(ids: seq<nat>) {
    forall i, j :: 0 <= i < j < |ids| ==> ids[i] < ids[j]
  }

  function Insert(ids: seq<nat>, id: nat): seq<nat> {
    if ids == [] || id < ids[0] then [id] + ids else [ids[0]] + Insert(ids[1..], id)
  }

  lemma {:induction false} InsertKeepsOrder(ids: seq<nat>, id: nat)
    requires Increasing(ids) && id !in ids
    ensures Increasing(Insert(ids, id))
    ensures forall k :: k in Insert(ids, id) <==> k == id || k in ids
  {
    if ids != [] && !(id < ids[0]) {
      InsertKeepsOrder(ids[1..], id);
      var rest := Insert(ids[1..], id);
      forall k | k in rest ensures ids[0] < k {
        if k != id {
          var j :| 0 <= j < |ids[1..]| && ids[1..][j] == k;
          assert ids[0] < ids[j + 1];
        }
      }
      forall j | 0 < j < |rest| + 1 ensures ids[0] < Insert(ids, id)[j] {
        assert rest[j - 1] in rest;
      }
    }
  }

  /** Two ascending lists of the same numbers are the same list. */
  lemma {:induction false} OneAscendingOrder(xs: seq<nat>, ys: seq<nat>)
    requires Increasing(xs) && Increasing(ys) && forall k :: k in xs <==> k in ys
    ensures xs == ys
  {
    if ys != [] {
      var shared := ys[0] in xs;
    }
    if xs != [] {
      assert xs[0] in ys && ys[0] in xs;
      assert xs[0] == ys[0];
      forall k ensures k in xs[1..] <==> k in ys[1..] {
        assert k in xs <==> k == xs[0] || k in xs[1..];
        assert k in ys <==> k == ys[0] || k in ys[1..];
      }
      OneAscendingOrder(xs[1..], ys[1..]);
    }
  }

  /** Sorts by putting each key into its place. */
  method InOrder(keys: set<nat>) returns (ids: seq<nat>)
    ensures Increasing(ids) && forall k :: k in ids <==> k in keys
  {
    var left := keys;
    ids := [];
    while left != {}
      invariant left <= keys
      invariant Increasing(ids) && forall k :: k in ids <==> k in keys - left
      decreases |left|
    {
      var id :| id in left;
      InsertKeepsOrder(ids, id);
      ids, left := Insert(ids, id), left - {id};
    }
  }
}
