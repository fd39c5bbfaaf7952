/**
 A table maps row ids to rows. A new row takes the id after the largest one present, so ids come back
 into use when the newest rows are deleted.
 */
module Rows {
  import opened Wrappers

  /** An owner's profile: its epoch, and whether a reset is in progress. */
  datatype Profile = Profile(epoch: int, resetting: bool)

  lemma {:induction false} GreatestExists(ids: set<int>)
    requires exists i :: i in ids
    ensures exists m :: m in ids && forall i | i in ids :: i <= m
  {
    var m :| m in ids;
    var rest := ids - {m};
    if exists i :: i in rest {
      GreatestExists(rest);
      var g :| g in rest && forall i | i in rest :: i <= g;
      var top := if g < m then m else g;
      forall i | i in ids
        ensures i <= top
      {
        assert i == m || i in rest;
      }
      assert top in ids;
    } else {
      forall i | i in ids
        ensures i == m
      {
        assert i == m || i in rest;
      }
    }
  }

  /** The id of the next row inserted into a table with these ids. */
  function NextId(ids: set<int>): (n: int)
    ensures forall i | i in ids :: i < n
    ensures (exists i :: i in ids) ==> n - 1 in ids
    ensures (forall i :: i !in ids) ==> n == 1
    ensures (forall i | i in ids :: 1 <= i) ==> 1 <= n
  {
    if exists i :: i in ids then
      GreatestExists(ids);
      var m :| m in ids && forall i | i in ids :: i <= m;
      m + 1
    else 1
  }

  lemma NextIdAfterInsert(ids: set<int>)
    ensures NextId(ids + {NextId(ids)}) == NextId(ids) + 1
  {
    var n := NextId(ids);
    assert n in ids + {n};
    assert NextId(ids + {n}) - 1 in ids + {n};
  }

  lemma {:induction false} LeastExists(ids: set<int>)
    requires exists i :: i in ids
    ensures exists m :: m in ids && forall i | i in ids :: m <= i
  {
    var m :| m in ids;
    var rest := ids - {m};
    if exists i :: i in rest {
      LeastExists(rest);
      var g :| g in rest && forall i | i in rest :: g <= i;
      var low := if m < g then m else g;
      forall i | i in ids
        ensures low <= i
      {
        assert i == m || i in rest;
      }
      assert low in ids;
    } else {
      forall i | i in ids
        ensures i == m
      {
        assert i == m || i in rest;
      }
    }
  }

  /** The smallest of some row ids: what ordering by id and taking one row selects. */
  function FirstId(ids: set<int>): (first: Option<int>)
    ensures first.None? ==> forall i :: i !in ids
    ensures first.Some? ==> first.value in ids && forall i | i in ids :: first.value <= i
  {
    if exists i :: i in ids then
      LeastExists(ids);
      var m :| m in ids && forall i | i in ids :: m <= i;
      Some(m)
    else None
  }

  /** Row ids in ascending order. */
  function Ascending(ids: set<int>): (s: seq<int>)
    ensures forall i :: i in s <==> i in ids
    ensures forall i, k | 0 <= i < k < |s| :: s[i] < s[k]
    decreases |ids|
  {
    match FirstId(ids)
    case None => []
    case Some(first) =>
      var rest := Ascending(ids - {first});
      assert forall i :: i in ids <==> i == first || i in ids - {first};
      [first] + rest
  }
}
