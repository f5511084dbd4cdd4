/** The Express router mounted at /api/consulting: create, list, get by id and update
    by id, each answering `res.status(s).json(p)`. A storage call that rejects is the
    `fault` parameter (the rejection's message); the uuid and the ISO timestamp the
    handlers draw are the `id` and `now` parameters. */
module ConsultingRouter {
  import opened Values
  import opened Email
  import opened Validation
  import opened Http
  import opened RequestTable

  const CreateFailed := "Failed to create consulting request"
  const ListFailed := "Failed to fetch consulting requests"
  const GetFailed := "Failed to fetch consulting request"
  const UpdateFailed := "Failed to update consulting request"
  const NotFoundMessage := "Consulting request not found"

  /** POST /: validates, stores the new item, answers 201 with its id only. */
  method Create(t: Table, body: Fields, id: string, now: string, fault: Option<string>) returns (reply: Reply)
    requires t.Valid()
    modifies t
    ensures t.Valid()
    ensures CheckCreate(body).Some? ==>
      reply == Reply(400, Failed(ErrorMessage(CheckCreate(body).value), None)) && t.items == old(t.items)
    ensures CheckCreate(body).None? && fault.Some? ==>
      reply == Reply(500, Failed(CreateFailed, fault)) && t.items == old(t.items)
    ensures CheckCreate(body).None? && fault.None? ==>
      reply == Reply(201, Submitted(id)) && t.items == old(t.items)[id := StoredItem(body, id, now)]
  {
    var r := NewRequest(body, id, now);
    if r.Err? {
      return Reply(400, Failed(ErrorMessage(r.error), None));
    }
    if fault.Some? {
      return Reply(500, Failed(CreateFailed, fault));
    }
    t.Put(r.value);
    // The notification email is sent here; its failure is caught and does not change the reply.
    reply := Reply(201, Submitted(id));
  }

  /** GET /: every stored item, with its count. */
  method List(t: Table, fault: Option<string>) returns (reply: Reply)
    requires t.Valid()
    ensures fault.Some? ==> reply == Reply(500, Failed(ListFailed, fault))
    ensures fault.None? ==> reply.status == 200 && reply.payload.ItemList?
    ensures fault.None? ==> Listing(t.items, reply.payload.items)
  {
    if fault.Some? {
      return Reply(500, Failed(ListFailed, fault));
    }
    var all := t.Scan();
    reply := Reply(200, ItemList(all));
  }

  /** GET /:id: the stored item unchanged, or 404 when there is none. */
  method GetById(t: Table, id: string, fault: Option<string>) returns (reply: Reply)
    ensures fault.Some? ==> reply == Reply(500, Failed(GetFailed, fault))
    ensures fault.None? && id !in t.items ==> reply == Reply(404, Failed(NotFoundMessage, None))
    ensures fault.None? && id in t.items ==> reply == Reply(200, ItemFound(t.items[id]))
  {
    if fault.Some? {
      return Reply(500, Failed(GetFailed, fault));
    }
    var found := t.Get(id);
    if found.None? {
      return Reply(404, Failed(NotFoundMessage, None));
    }
    reply := Reply(200, ItemFound(found.value));
  }

  /** PUT /:id: writes `status`, `updatedAt` and a truthy `notes` into the item and
      answers with all its attributes. There is no existence check and no 404. */
  method UpdateById(t: Table, id: string, body: Fields, now: string, fault: Option<string>) returns (reply: Reply)
    requires t.Valid()
    modifies t
    ensures t.Valid()
    ensures UpdateRejection(body, fault).Some? ==>
      reply == Reply(500, Failed(UpdateFailed, UpdateRejection(body, fault))) && t.items == old(t.items)
    ensures UpdateRejection(body, fault).None? ==>
      var p := UpdateParamsFor(id, body["status"], Get(body, "notes"), now);
      && reply == Reply(200, ItemUpdated(Merged(old(t.items), p)))
      && t.items == old(t.items)[id := Merged(old(t.items), p)]
  {
    var rejection := UpdateRejection(body, fault);
    if rejection.Some? {
      return Reply(500, Failed(UpdateFailed, rejection));
    }
    var p := BuildUpdateParams(id, body["status"], Get(body, "notes"), now);
    var attrs := t.Update(p);
    reply := Reply(200, ItemUpdated(attrs));
  }

  /** A created request can be read back by its id: a create that passes validation
      and meets no fault answers 201 with the id, and a get of that id then answers 200
      with the item built from the body, carrying that id and the pending status. */
  method CreatedIsFound(t: Table, body: Fields, id: string, now: string) returns (created: Reply, found: Reply)
    requires t.Valid() && CheckCreate(body).None?
    modifies t
    ensures created == Reply(201, Submitted(id))
    ensures found == Reply(200, ItemFound(StoredItem(body, id, now)))
    ensures found.payload.item["id"] == id && found.payload.item["status"] == "pending"
  {
    created := Create(t, body, id, now, None);
    found := GetById(t, id, None);
  }

  /** An update of a stored item keeps every attribute it does not write, and a second
      update with the same parameters changes nothing more. */
  lemma UpdateIdempotent(items: map<string, Fields>, p: UpdateParams)
    requires WellFormedUpdate(p)
    ensures Merged(items[p.key := Merged(items, p)], p) == Merged(items, p)
  {
  }
}
