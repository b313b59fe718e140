/** Rows numbered per owner by "COALESCE(max(version), 0) + 1": deployments of an app, revisions of a query. */
module Numbering {

  datatype Slot = Slot(owner: nat, version: nat)

  ghost predicate IsMax(s: set<nat>, top: nat)
  {
    (forall v :: v in s ==> v <= top) && (top == 0 || top in s)
  }

  lemma {:induction false} MaxExists(s: set<nat>)
    ensures exists top: nat :: IsMax(s, top)
    decreases s
  {
    if s == {} {
      assert IsMax(s, 0);
    } else {
      var v :| v in s;
      MaxExists(s - {v});
      var rest: nat :| IsMax(s - {v}, rest);
      var top := if v <= rest then rest else v;
      assert forall u :: u in s ==> u == v || u in s - {v};
      assert IsMax(s, top);
    }
  }

  function VersionsOf(slots: map<nat, Slot>, owner: nat): set<nat>
  {
    set id | id in slots && slots[id].owner == owner :: slots[id].version
  }

  /** The version given to the next row of the owner. */
  ghost function Next(slots: map<nat, Slot>, owner: nat): (next: nat)
    ensures next >= 1 && IsMax(VersionsOf(slots, owner), next - 1)
  {
    MaxExists(VersionsOf(slots, owner));
    var top: nat :| IsMax(VersionsOf(slots, owner), top);
    top + 1
  }

  ghost predicate HasPredecessor(slots: map<nat, Slot>, id: nat)
    requires id in slots && slots[id].version > 1
  {
    exists before :: before in slots && slots[before] == Slot(slots[id].owner, slots[id].version - 1)
  }

  /** Versions of every owner start at 1, never repeat and have no gap. */
  ghost predicate Numbered(slots: map<nat, Slot>)
  {
    && (forall id :: id in slots ==> slots[id].version >= 1)
    && (forall a, b :: a in slots && b in slots && slots[a] == slots[b] ==> a == b)
    && (forall id :: id in slots && slots[id].version > 1 ==> HasPredecessor(slots, id))
  }

  lemma InsertKeepsNumbered(slots: map<nat, Slot>, id: nat, owner: nat)
    requires Numbered(slots) && id !in slots
    ensures Numbered(slots[id := Slot(owner, Next(slots, owner))])
  {
    var next := Next(slots, owner);
    var slots' := slots[id := Slot(owner, next)];
    forall a | a in slots && slots[a].owner == owner ensures slots[a].version < next {
      assert slots[a].version in VersionsOf(slots, owner);
    }
    forall k | k in slots' && slots'[k].version > 1 ensures HasPredecessor(slots', k) {
      if k == id {
        assert next - 1 in VersionsOf(slots, owner);
        var before :| before in slots && slots[before].owner == owner && slots[before].version == next - 1;
        assert slots'[before] == Slot(owner, next - 1);
      } else {
        assert HasPredecessor(slots, k);
        var before :| before in slots && slots[before] == Slot(slots[k].owner, slots[k].version - 1);
        assert slots'[before] == slots[before];
      }
    }
  }

  /** Deleting an owner together with all its rows. */
  lemma RemoveKeepsNumbered(slots: map<nat, Slot>, kept: map<nat, Slot>, owner: nat)
    requires Numbered(slots)
    requires kept == map id | id in slots && slots[id].owner != owner :: slots[id]
    ensures Numbered(kept)
  {
    forall k | k in kept && kept[k].version > 1 ensures HasPredecessor(kept, k) {
      assert HasPredecessor(slots, k);
      var before :| before in slots && slots[before] == Slot(slots[k].owner, slots[k].version - 1);
      assert kept[before] == slots[before];
    }
  }

  lemma {:induction false} OneBelow(slots: map<nat, Slot>, id: nat)
    requires Numbered(slots) && id in slots && slots[id].version > 1
    ensures slots[id].version - 1 in VersionsOf(slots, slots[id].owner)
  {
    assert HasPredecessor(slots, id);
  }

  lemma {:induction false} AllBelow(slots: map<nat, Slot>, owner: nat, top: nat, v: nat)
    requires Numbered(slots) && 1 <= v <= top && top in VersionsOf(slots, owner)
    ensures v in VersionsOf(slots, owner)
    decreases top - v
  {
    hide Numbered;
    if v < top {
      AllBelow(slots, owner, top, v + 1);
      var id :| id in slots && slots[id].owner == owner && slots[id].version == v + 1;
      OneBelow(slots, id);
    }
  }

  /** The versions of an owner are exactly 1 to n, and the next row gets n + 1. */
  lemma VersionsAreOneToN(slots: map<nat, Slot>, owner: nat)
    requires Numbered(slots)
    ensures forall v: nat :: v in VersionsOf(slots, owner) <==> 1 <= v < Next(slots, owner)
  {
    var next := Next(slots, owner);
    forall v: nat | 1 <= v < next ensures v in VersionsOf(slots, owner) {
      AllBelow(slots, owner, next - 1, v);
    }
  }
}
