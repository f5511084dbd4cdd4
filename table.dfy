/** The DynamoDB table of consulting requests, as the handlers use it: items keyed by
    their `id`, written whole by `put`, read by `get` and `scan`, and changed by an
    `update` whose SET expression writes some attributes of one item. */
module RequestTable {
  import opened Values
  import opened Validation

  /** The item an update leaves under `p.key`: the attributes it had, overwritten by
      those the SET expression writes. An update of a key that holds no item starts
      from an item holding only that key. */
  function Merged(items: map<string, Fields>, p: UpdateParams): (item: Fields)
    requires WellFormedUpdate(p)
    ensures item.Keys == (if p.key in items then items[p.key].Keys else {"id"}) + Assignments(p).Keys
    ensures item["status"] == p.values[":status"] && item["updatedAt"] == p.values[":updatedAt"]
    ensures WritesNotes(p) ==> item["notes"] == p.values[":notes"]
    ensures p.key in items ==>
      forall k :: k in items[p.key] && k !in Assignments(p) ==> item[k] == items[p.key][k]
    ensures p.key !in items ==> item["id"] == p.key
  {
    (if p.key in items then items[p.key] else map["id" := p.key]) + Assignments(p)
  }

  /** `all` lists the items of `items`, each exactly once, in some order. */
  ghost predicate Listing(items: map<string, Fields>, all: seq<Fields>) {
    && |all| == |items|
    && (forall id :: id in items ==> items[id] in all)
    && (forall i :: 0 <= i < |all| ==> "id" in all[i] && all[i]["id"] in items && items[all[i]["id"]] == all[i])
    && (forall i, j :: 0 <= i < j < |all| ==> all[i]["id"] != all[j]["id"])
  }

  class Table {
    var items: map<string, Fields>

    /** Every item is stored under its own `id` attribute. */
    ghost predicate Valid()
      reads this
    {
      forall id :: id in items ==> "id" in items[id] && items[id]["id"] == id
    }

    constructor ()
      ensures items == map[] && Valid()
    {
      items := map[];
    }

    /** `put`: stores `item` under its `id`, replacing any item already there. */
    method Put(item: Fields)
      requires "id" in item
      requires Valid()
      modifies this
      ensures items == old(items)[item["id"] := item]
      ensures Valid()
    {
      items := items[item["id"] := item];
    }

    /** `get`: the item stored under `id`, if any. */
    method Get(id: string) returns (r: Option<Fields>)
      ensures r.Some? <==> id in items
      ensures r.Some? ==> r.value == items[id]
    {
      if id in items {
        r := Some(items[id]);
      } else {
        r := None;
      }
    }

    /** `update` with `ReturnValues: 'ALL_NEW'`: writes the assignments of `p` into the
        item under `p.key` and returns all its attributes afterwards. */
    method Update(p: UpdateParams) returns (attrs: Fields)
      requires WellFormedUpdate(p)
      requires Valid()
      modifies this
      ensures attrs == Merged(old(items), p)
      ensures items == old(items)[p.key := attrs]
      ensures Valid()
    {
      attrs := Merged(items, p);
      items := items[p.key := attrs];
    }

    /** The stored keys, each once, in the order the table visits them. */
    method ListKeys() returns (ids: seq<string>)
      ensures |ids| == |items|
      ensures forall i :: 0 <= i < |ids| ==> ids[i] in items
      ensures forall id :: id in items ==> id in ids
      ensures forall i, j :: 0 <= i < j < |ids| ==> ids[i] != ids[j]
    {
      ids := [];
      var rest := items.Keys;
      while rest != {}
        invariant rest <= items.Keys
        invariant forall i :: 0 <= i < |ids| ==> ids[i] in items && ids[i] !in rest
        invariant forall id :: id in items && id !in rest ==> id in ids
        invariant |ids| + |rest| == |items|
        invariant forall i, j :: 0 <= i < j < |ids| ==> ids[i] != ids[j]
        decreases |rest|
      {
        var id :| id in rest;
        ids := ids + [id];
        rest := rest - {id};
      }
    }

    /** `scan`: every stored item exactly once, in an order the table chooses. */
    method Scan() returns (all: seq<Fields>)
      requires Valid()
      ensures Listing(items, all)
    {
      var ids := ListKeys();
      var store := items;
      all := seq(|ids|, i requires 0 <= i < |ids| => store[ids[i]]);
      assert forall i :: 0 <= i < |all| ==> all[i]["id"] == ids[i];
      forall id | id in items ensures items[id] in all {
        var i :| 0 <= i < |ids| && ids[i] == id;
        assert all[i] == items[id];
      }
    }
  }

  /** The PUT handler's update writes status and updatedAt, writes notes only when it is
      truthy, and leaves every other attribute of the item as it was. */
  lemma UpdateTouchesOnlyItsAttributes(items: map<string, Fields>, id: string, status: string, notes: string, now: string)
    ensures var before := if id in items then items[id] else map["id" := id];
      var r := Merged(items, UpdateParamsFor(id, status, notes, now));
      && r.Keys == before.Keys + {"status", "updatedAt"} + (if notes != "" then {"notes"} else {})
      && r["status"] == status && r["updatedAt"] == now
      && (notes != "" ==> r["notes"] == notes)
      && (forall k :: k in before && k != "status" && k != "updatedAt" && (k != "notes" || notes == "") ==> r[k] == before[k])
  {
  }

  /** A merge leaves the key where it is: the merged item still carries `p.key` as its id. */
  lemma MergedKeepsId(items: map<string, Fields>, p: UpdateParams)
    requires WellFormedUpdate(p)
    requires p.key in items ==> "id" in items[p.key] && items[p.key]["id"] == p.key
    ensures "id" in Merged(items, p) && Merged(items, p)["id"] == p.key
  {
  }
}
