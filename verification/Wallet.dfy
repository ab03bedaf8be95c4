// Currency and Inventory: a balance changed by compare-exchange, and stacked item counts.
module Wallets {

  const U64 := 0x1_0000_0000_0000_0000
  const DRAW_COST := 160

  // What other threads and the machine do to one compare-exchange: the value it meets, and whether it fails
  // without reason, which a weak one may.
  datatype Attempt = Attempt(met: nat, spurious: bool)

  class Currency {
    var value: nat

    ghost predicate Valid()
      reads this
    {
      value < U64
    }

    constructor (amount: nat)
      requires amount < U64
      ensures Valid() && value == amount
    {
      value := amount;
    }

    // Other threads may change the balance between the load and each compare-exchange; after the listed
    // attempts nobody interferes. The charge happens at one instant: from the balance met there the amount is
    // taken once, or it does not suffice there and nothing is taken.
    method Spend(amount: nat, others: seq<Attempt>) returns (ok: bool, ghost met: nat)
      requires Valid() && forall i :: 0 <= i < |others| ==> others[i].met < U64
      modifies this
      ensures Valid()
      ensures ok <==> amount <= met
      ensures value == if ok then met - amount else met
      ensures met == old(value) || exists i :: 0 <= i < |others| && met == others[i].met
    {
      var current := value;
      var i := 0;
      while current >= amount
        invariant i <= |others| && value == current < U64
        invariant current == old(value) || exists k :: 0 <= k < |others| && current == others[k].met
        decreases |others| - i
      {
        var spurious := false;
        if i < |others| {
          value := others[i].met;
          spurious := others[i].spurious;
        }
        if value == current && !spurious {
          met := value;
          value := current - amount;
          return true, met;
        }
        current := value;
        i := i + 1;
      }
      return false, value;
    }

    method Add(amount: nat)
      requires Valid()
      modifies this
      ensures Valid() && value == (old(value) + amount) % U64
    {
      value := (value + amount) % U64;
    }
  }

  class Inventory {
    var items: map<int, int>
    var ownerDirty: bool  // the owner's INVENTORY bit
    ghost var contents: multiset<int>

    // The stacked counts are the multiplicities of what was put in.
    ghost predicate Valid()
      reads this
    {
      forall id :: contents[id] == if id in items then items[id] else 0
    }

    constructor ()
      ensures Valid() && contents == multiset{} && !ownerDirty
    {
      items, contents, ownerDirty := map[], multiset{}, false;
    }

    method AddItem(itemId: int, count: int)
      requires Valid()
      modifies this
      ensures Valid()
      ensures contents == if count <= 0 then old(contents) else old(contents)[itemId := old(contents)[itemId] + count]
      ensures ownerDirty == (old(ownerDirty) || count > 0)
    {
      if count <= 0 {
        return;
      }
      items := items[itemId := (if itemId in items then items[itemId] else 0) + count];
      contents := contents[itemId := contents[itemId] + count];
      ownerDirty := true;
    }

    method GetItemCount(itemId: int) returns (count: int)
      requires Valid()
      ensures count == contents[itemId]
    {
      count := if itemId in items then items[itemId] else 0;
    }
  }
}
