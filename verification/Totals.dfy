/** Sums over a column of a table. */
module Totals {

  ghost function Total(weights: map<nat, nat>): nat
    decreases weights.Keys
  {
    if weights == map[] then 0 else
      var id :| id in weights;
      weights[id] + Total(weights - {id})
  }

  lemma {:induction false} TotalRemove(weights: map<nat, nat>, id: nat)
    requires id in weights
    ensures Total(weights) == weights[id] + Total(weights - {id})
    decreases weights.Keys
  {
    var first :| first in weights && Total(weights) == weights[first] + Total(weights - {first});
    if first != id {
      TotalRemove(weights - {first}, id);
      TotalRemove(weights - {id}, first);
      assert weights - {first} - {id} == weights - {id} - {first};
    }
  }

  lemma TotalInsert(weights: map<nat, nat>, id: nat, weight: nat)
    requires id !in weights
    ensures Total(weights[id := weight]) == Total(weights) + weight
  {
    TotalRemove(weights[id := weight], id);
    assert weights[id := weight] - {id} == weights;
  }

  /** Dropping rows never raises the sum. */
  lemma {:induction false} TotalMonotone(part: map<nat, nat>, whole: map<nat, nat>)
    requires part.Keys <= whole.Keys
    requires forall id :: id in part ==> part[id] == whole[id]
    ensures Total(part) <= Total(whole)
    decreases whole.Keys
  {
    if part == map[] {
    } else {
      var id :| id in part;
      TotalRemove(part, id);
      TotalRemove(whole, id);
      TotalMonotone(part - {id}, whole - {id});
    }
  }
}
