// The to-do list of Day_12/src/app/todo/todo.ts: a list of item objects,
// a filtered view of it (all / active / done), adding an item at the
// front, and removing an item by identity.
module Todo {
  import opened Seqs

  /** An `ItemI` object; item components edit it in place, so it is shared by reference. */
  class Item {
    var description: string
    var done: bool

    constructor (description: string, done: bool)
      ensures this.description == description && this.done == done
    {
      this.description := description;
      this.done := done;
    }
  }

  /** The values of the `filter` signal. */
  datatype Filter = All | Active | Done

  /** The items whose `done` flag equals `wanted`, in list order. */
  function WithDone(all: seq<Item>, wanted: bool): (r: seq<Item>)
    reads all
    ensures |r| <= |all|
    ensures forall k :: 0 <= k < |r| ==> r[k] in all && r[k].done == wanted
    ensures forall k :: 0 <= k < |all| && all[k].done == wanted ==> all[k] in r
  {
    if all == [] then []
    else (if all[0].done == wanted then [all[0]] else []) + WithDone(all[1..], wanted)
  }

  /** The `items` computed signal. */
  function View(filter: Filter, all: seq<Item>): seq<Item>
    reads all
  {
    if filter == All then all else WithDone(all, filter == Done)
  }

  /** `prevItems.filter(i => i !== item)`: drop every reference to `item`. */
  function Without(all: seq<Item>, item: Item): (r: seq<Item>)
    ensures |r| <= |all|
    ensures forall k :: 0 <= k < |r| ==> r[k] in all && r[k] != item
    ensures forall k :: 0 <= k < |all| && all[k] != item ==> all[k] in r
  {
    if all == [] then []
    else (if all[0] != item then [all[0]] else []) + Without(all[1..], item)
  }

  /** With filter 'all' the view is the whole list. */
  lemma ViewAll(all: seq<Item>)
    ensures View(All, all) == all
  {
  }

  /** The 'done' view holds the done items and the 'active' view the others, each in list order. */
  lemma {:induction false} ViewFiltersInOrder(all: seq<Item>, filter: Filter)
    requires filter != All
    ensures forall k :: 0 <= k < |View(filter, all)| ==> View(filter, all)[k] in all && (View(filter, all)[k].done <==> filter == Done)
    ensures forall k :: 0 <= k < |all| && (all[k].done <==> filter == Done) ==> all[k] in View(filter, all)
    ensures IsSubsequence(View(filter, all), all)
  {
    WithDoneIsSubsequence(all, filter == Done);
  }

  lemma {:induction false} WithDoneIsSubsequence(all: seq<Item>, wanted: bool)
    ensures IsSubsequence(WithDone(all, wanted), all)
  {
    if all != [] {
      WithDoneIsSubsequence(all[1..], wanted);
      var r := WithDone(all, wanted);
      if all[0].done == wanted {
        assert r[1..] == WithDone(all[1..], wanted);
      } else {
        assert r == WithDone(all[1..], wanted);
        if r != [] {
          assert r[0].done == wanted;
        }
      }
    }
  }

  /** Every item is in exactly one of the 'done' and 'active' views. */
  lemma {:induction false} ViewsPartition(all: seq<Item>)
    ensures |View(Done, all)| + |View(Active, all)| == |all|
  {
    if all != [] {
      ViewsPartition(all[1..]);
    }
  }

  /** A new, not-done item at the front shows in 'active' and not in 'done'; the 'done' view is unchanged. */
  lemma NewItemIsActive(x: Item, all: seq<Item>)
    requires !x.done
    ensures View(Active, [x] + all) == [x] + View(Active, all)
    ensures View(Done, [x] + all) == View(Done, all)
    ensures x in View(Active, [x] + all)
  {
    assert ([x] + all)[1..] == all;
  }

  /** Removing an item that is not in the list changes nothing. */
  lemma {:induction false} RemoveAbsent(all: seq<Item>, item: Item)
    requires item !in all
    ensures Without(all, item) == all
  {
    if all != [] {
      RemoveAbsent(all[1..], item);
      assert all == [all[0]] + all[1..];
    }
  }

  /** Removal deletes every copy of `item` and keeps every copy of each other item. */
  lemma {:induction false} RemoveCounts(all: seq<Item>, item: Item)
    ensures multiset(Without(all, item)) == multiset(all)[item := 0]
  {
    if all != [] {
      RemoveCounts(all[1..], item);
      assert all == [all[0]] + all[1..];
    }
  }

  /** Removal keeps the other items in their order. */
  lemma {:induction false} RemoveKeepsOrder(all: seq<Item>, item: Item)
    ensures IsSubsequence(Without(all, item), all)
  {
    if all != [] {
      RemoveKeepsOrder(all[1..], item);
      var r := Without(all, item);
      if all[0] != item {
        assert r[1..] == Without(all[1..], item);
      } else {
        assert r == Without(all[1..], item);
        if r != [] {
          assert r[0] != item;
        }
      }
    }
  }

  /** TodoComponent: the `filter` and `allItems` signals and the handlers that replace the list. */
  class TodoComponent {
    var filter: Filter
    var allItems: seq<Item>

    /** The `items` computed signal, recomputed from the current state. */
    function Items(): seq<Item>
      reads this, allItems
    {
      View(filter, allItems)
    }

    constructor ()
      ensures filter == All && |allItems| == 3
      ensures allItems[0].description == "Learn Signals" && allItems[0].done
      ensures allItems[1].description == "Build an App" && !allItems[1].done
      ensures allItems[2].description == "Deploy to Prod" && !allItems[2].done
      ensures forall k :: 0 <= k < |allItems| ==> fresh(allItems[k])
    {
      var a := new Item("Learn Signals", true);
      var b := new Item("Build an App", false);
      var c := new Item("Deploy to Prod", false);
      filter := All;
      allItems := [a, b, c];
    }

    /** `addItem`: ignore empty text, otherwise put a new active item first. */
    method AddItem(description: string)
      modifies this
      ensures filter == old(filter)
      ensures description == "" ==> allItems == old(allItems)
      ensures description != "" ==>
        && |allItems| == |old(allItems)| + 1
        && fresh(allItems[0])
        && allItems[0].description == description && !allItems[0].done
        && allItems[1..] == old(allItems)
    {
      if description == "" {
        return;
      }
      var item := new Item(description, false);
      allItems := [item] + allItems;
    }

    /** `remove`: drop the entries that are this very item. */
    method Remove(item: Item)
      modifies this
      ensures filter == old(filter)
      ensures allItems == Without(old(allItems), item)
    {
      allItems := Without(allItems, item);
    }
  }
}
