/** What several parts of the model share. */
module Basics {

  datatype Option<+T> = None | Some(value: T)

  ghost predicate Increasing(s: seq<nat>)
  {
    forall i, j :: 0 <= i < j < |s| ==> s[i] < s[j]
  }

  ghost predicate IsLeast(id: nat, ids: set<nat>)
  {
    id in ids && forall k :: k in ids ==> id <= k
  }

  lemma LeastExists(ids: set<nat>)
    requires ids != {}
    ensures exists id :: IsLeast(id, ids)
    decreases |ids|
  {
    var id :| id in ids;
    if ids == {id} {
      assert forall k :: k in ids ==> k == id;
      assert IsLeast(id, ids);
    } else {
      LeastExists(ids - {id});
      var other :| IsLeast(other, ids - {id});
      forall k | k in ids ensures id <= k || other <= k {
        assert k == id || k in ids - {id};
      }
      assert IsLeast(if other < id then other else id, ids);
    }
  }
}
