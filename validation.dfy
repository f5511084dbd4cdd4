/** The create-request rules shared by the Express router and the updated lambda:
    the required-field check, the email pattern, the construction of the stored item,
    and the attributes an update writes. Both adapters call these; neither repeats them. */
module Validation {
  import opened Values
  import opened Email

  const MissingFieldsMessage := "Missing required fields: name, email, and description are required"
  const InvalidEmailMessage := "Invalid email format"

  datatype CreateError = MissingFields | InvalidEmail

  function ErrorMessage(e: CreateError): string {
    match e
    case MissingFields => MissingFieldsMessage
    case InvalidEmail => InvalidEmailMessage
  }

  // ---------------------------------------------------------------------------
  // The stored item

  /** The attributes of a newly created request. */
  const CreatedKeys: set<string> := {
    "id", "name", "email", "company", "phone", "projectType", "budget", "timeline",
    "description", "preferredDate", "preferredTime", "communicationPreference",
    "status", "createdAt", "updatedAt" }

  /** The POST handler's validation: the three required fields must be truthy, then
      the email must match the pattern. */
  function CheckCreate(body: Fields): (e: Option<CreateError>)
    ensures e == Some(MissingFields) <==>
      !(Truthy(body, "name") && Truthy(body, "email") && Truthy(body, "description"))
    ensures e == Some(InvalidEmail) <==>
      Truthy(body, "name") && Truthy(body, "email") && Truthy(body, "description") && !EmailShape(body["email"])
  {
    if !Truthy(body, "name") || !Truthy(body, "email") || !Truthy(body, "description") then
      Some(MissingFields)
    else
      EmailRegexIff(body["email"]);
      if !EmailRegexTest(body["email"]) then Some(InvalidEmail) else None
  }

  /** The value the POST handler's object literal gives attribute `k`: the contact
      fields trimmed (`company?.trim() || ''` for the optional two), the email also
      lower-cased, the engagement fields with their defaults, and the stamps. */
  function CreatedValue(body: Fields, id: string, now: string, k: string): string
    requires "name" in body && "email" in body && "description" in body
  {
    match k
    case "id" => id
    case "status" => "pending"
    case "createdAt" => now
    case "updatedAt" => now
    case "name" => Trim(body["name"])
    case "email" => Lower(Trim(body["email"]))
    case "company" => Trim(Get(body, "company"))
    case "phone" => Trim(Get(body, "phone"))
    case "projectType" => OrElse(Get(body, "projectType"), "General Consulting")
    case "budget" => OrElse(Get(body, "budget"), "Not specified")
    case "timeline" => OrElse(Get(body, "timeline"), "Flexible")
    case "description" => Trim(body["description"])
    case "preferredDate" => Get(body, "preferredDate")
    case "preferredTime" => Get(body, "preferredTime")
    case _ => OrElse(Get(body, "communicationPreference"), "email")  // communicationPreference
  }

  /** The object literal the POST handler stores. `id` and `now` are the uuid and the
      ISO timestamp the handler draws: the item carries that id, is pending, and was
      created and last updated at the same instant. */
  function StoredItem(body: Fields, id: string, now: string): (item: Fields)
    requires "name" in body && "email" in body && "description" in body
    ensures item.Keys == CreatedKeys
    ensures item["id"] == id && item["status"] == "pending"
    ensures item["createdAt"] == item["updatedAt"] == now
  {
    map k | k in CreatedKeys :: CreatedValue(body, id, now, k)
  }

  /** The POST handler up to the write: the validation error, or the item to store. */
  function NewRequest(body: Fields, id: string, now: string): (r: Result<Fields, CreateError>)
    ensures r.Err? <==> CheckCreate(body).Some?
    ensures r.Err? ==> Some(r.error) == CheckCreate(body)
    ensures r.Ok? ==> Truthy(body, "name") && Truthy(body, "email") && Truthy(body, "description")
    ensures r.Ok? ==> EmailShape(body["email"])
    ensures r.Ok? ==> r.value == StoredItem(body, id, now)
  {
    match CheckCreate(body)
    case Some(e) => Err(e)
    case None => Ok(StoredItem(body, id, now))
  }

  /** An accepted email has no white space, so the stored email is the submitted one,
      lower-cased and not otherwise changed; it still has the accepted shape. */
  lemma StoredEmailIsLowered(body: Fields, id: string, now: string)
    requires "name" in body && "email" in body && "description" in body
    requires EmailShape(body["email"])
    ensures StoredItem(body, id, now)["email"] == Lower(body["email"])
    ensures EmailShape(StoredItem(body, id, now)["email"])
  {
    TrimNoSpace(body["email"]);
    LowerShape(body["email"]);
  }

  /** An optional field that is absent or empty (falsy) is stored as '' or as its
      default, whatever the other fields hold. */
  lemma OmittedFieldsGetDefaults(body: Fields, id: string, now: string)
    requires "name" in body && "email" in body && "description" in body
    ensures var item := StoredItem(body, id, now);
      && (!Truthy(body, "company") ==> item["company"] == "")
      && (!Truthy(body, "phone") ==> item["phone"] == "")
      && (!Truthy(body, "projectType") ==> item["projectType"] == "General Consulting")
      && (!Truthy(body, "budget") ==> item["budget"] == "Not specified")
      && (!Truthy(body, "timeline") ==> item["timeline"] == "Flexible")
      && (!Truthy(body, "preferredDate") ==> item["preferredDate"] == "")
      && (!Truthy(body, "preferredTime") ==> item["preferredTime"] == "")
      && (!Truthy(body, "communicationPreference") ==> item["communicationPreference"] == "email")
  {
    var item := StoredItem(body, id, now);
    assert Trim("") == "";
    assert item["company"] == CreatedValue(body, id, now, "company");
    assert item["phone"] == CreatedValue(body, id, now, "phone");
    assert item["projectType"] == CreatedValue(body, id, now, "projectType");
    assert item["budget"] == CreatedValue(body, id, now, "budget");
    assert item["timeline"] == CreatedValue(body, id, now, "timeline");
    assert item["preferredDate"] == CreatedValue(body, id, now, "preferredDate");
    assert item["preferredTime"] == CreatedValue(body, id, now, "preferredTime");
    assert item["communicationPreference"] == CreatedValue(body, id, now, "communicationPreference");
  }

  /** Supplied engagement fields are stored verbatim: they are not trimmed. */
  lemma SuppliedFieldsKept(body: Fields, id: string, now: string)
    requires "name" in body && "email" in body && "description" in body
    ensures var item := StoredItem(body, id, now);
      && (Truthy(body, "projectType") ==> item["projectType"] == body["projectType"])
      && (Truthy(body, "budget") ==> item["budget"] == body["budget"])
      && (Truthy(body, "timeline") ==> item["timeline"] == body["timeline"])
      && (Truthy(body, "communicationPreference") ==> item["communicationPreference"] == body["communicationPreference"])
      && ("preferredDate" in body ==> item["preferredDate"] == body["preferredDate"])
      && ("preferredTime" in body ==> item["preferredTime"] == body["preferredTime"])
  {
    var item := StoredItem(body, id, now);
    assert item["projectType"] == CreatedValue(body, id, now, "projectType");
    assert item["budget"] == CreatedValue(body, id, now, "budget");
    assert item["timeline"] == CreatedValue(body, id, now, "timeline");
    assert item["communicationPreference"] == CreatedValue(body, id, now, "communicationPreference");
    assert item["preferredDate"] == CreatedValue(body, id, now, "preferredDate");
    assert item["preferredTime"] == CreatedValue(body, id, now, "preferredTime");
  }

  /** Supplied contact fields are stored trimmed; an absent company or phone is "". */
  lemma ContactFieldsTrimmed(body: Fields, id: string, now: string)
    requires "name" in body && "email" in body && "description" in body
    ensures var item := StoredItem(body, id, now);
      && item["company"] == Trim(Get(body, "company"))
      && item["phone"] == Trim(Get(body, "phone"))
      && item["name"] == Trim(body["name"]) && item["description"] == Trim(body["description"])
      && item["email"] == Lower(Trim(body["email"]))
  {
    var item := StoredItem(body, id, now);
    assert item["company"] == CreatedValue(body, id, now, "company");
    assert item["phone"] == CreatedValue(body, id, now, "phone");
    assert item["name"] == CreatedValue(body, id, now, "name");
    assert item["description"] == CreatedValue(body, id, now, "description");
    assert item["email"] == CreatedValue(body, id, now, "email");
  }

  /** The required-field check looks at the untrimmed values: a name or description
      made only of white space passes and is stored as the empty string. */
  lemma BlankNamePassesAndIsStoredEmpty(body: Fields, id: string, now: string)
    requires Truthy(body, "name") && AllSpace(body["name"])
    requires Truthy(body, "description") && AllSpace(body["description"])
    requires Truthy(body, "email") && EmailShape(body["email"])
    ensures NewRequest(body, id, now).Ok?
    ensures NewRequest(body, id, now).value["name"] == ""
    ensures NewRequest(body, id, now).value["description"] == ""
  {
    assert CheckCreate(body) == None;
    ContactFieldsTrimmed(body, id, now);
    TrimAllSpace(body["name"]);
    TrimAllSpace(body["description"]);
  }

  // ---------------------------------------------------------------------------
  // The update of an existing item

  const BaseUpdateExpression := "SET #status = :status, updatedAt = :updatedAt"
  const NotesClause := ", notes = :notes"

  /** The `params` of the PUT handler that matter to the table: its key, its update
      expression and its expression attribute values. */
  datatype UpdateParams = UpdateParams(key: string, expression: string, values: Fields)

  /** The expression writes `notes` when it carries the notes clause. */
  predicate WritesNotes(p: UpdateParams) {
    p.expression == BaseUpdateExpression + NotesClause
  }

  /** Parameters the store accepts, for the two expressions the handlers build: every
      value the expression names is bound, and every bound value is named by it. */
  predicate WellFormedUpdate(p: UpdateParams) {
    && (p.expression == BaseUpdateExpression || WritesNotes(p))
    && ":status" in p.values && ":updatedAt" in p.values
    && (":notes" in p.values <==> WritesNotes(p))
    && p.values.Keys <= {":status", ":updatedAt", ":notes"}
  }

  /** The `params` the PUT handler ends with: the notes clause and its value are added
      only when `notes` is truthy. */
  function UpdateParamsFor(id: string, status: string, notes: string, now: string): (p: UpdateParams)
    ensures p.key == id
    ensures StartsWith(p.expression, BaseUpdateExpression)
    ensures p.expression == BaseUpdateExpression + (if notes != "" then NotesClause else "")
    ensures WellFormedUpdate(p) && (WritesNotes(p) <==> notes != "")
    ensures ":status" in p.values && ":updatedAt" in p.values
    ensures p.values[":status"] == status && p.values[":updatedAt"] == now
    ensures (":notes" in p.values) == (notes != "")
    ensures notes != "" ==> p.values[":notes"] == notes
  {
    var base := UpdateParams(id, BaseUpdateExpression, map[":status" := status, ":updatedAt" := now]);
    if notes != "" then
      base.(expression := base.expression + NotesClause, values := base.values[":notes" := notes])
    else base
  }

  /** The handler's construction of `params`, which appends to the expression and adds
      the `:notes` value in place. */
  method BuildUpdateParams(id: string, status: string, notes: string, now: string) returns (p: UpdateParams)
    ensures p == UpdateParamsFor(id, status, notes, now)
  {
    p := UpdateParams(id, BaseUpdateExpression, map[":status" := status, ":updatedAt" := now]);
    if notes != "" {
      p := p.(expression := p.expression + NotesClause);
      p := p.(values := p.values[":notes" := notes]);
    }
  }

  /** What the SET expression of `p` writes: attribute name to value. The attributes
      come from the expression, their values from the values it names. */
  function Assignments(p: UpdateParams): (m: Fields)
    requires WellFormedUpdate(p)
    ensures m.Keys == {"status", "updatedAt"} + (if WritesNotes(p) then {"notes"} else {})
    ensures m.Keys == {"status", "updatedAt"} + (if ":notes" in p.values then {"notes"} else {})
    ensures m["status"] == p.values[":status"] && m["updatedAt"] == p.values[":updatedAt"]
    ensures WritesNotes(p) ==> m["notes"] == p.values[":notes"]
  {
    var m := map["status" := p.values[":status"], "updatedAt" := p.values[":updatedAt"]];
    if WritesNotes(p) then m["notes" := p.values[":notes"]] else m
  }

  /** The store's refusal of an update whose `:status` value is undefined. The refusal
      is what the code relies on; its text here is assumed. */
  const UndefinedStatusMessage := "Invalid UpdateExpression: An expression attribute value used in expression is not defined; attribute value: :status"

  /** The rejection a PUT meets, if any: the store's own fault first, then the missing
      `status`. */
  function UpdateRejection(body: Fields, fault: Option<string>): (m: Option<string>)
    ensures m.None? <==> fault.None? && "status" in body
    ensures fault.Some? ==> m == fault
  {
    if fault.Some? then fault
    else if "status" !in body then Some(UndefinedStatusMessage)
    else None
  }
}
