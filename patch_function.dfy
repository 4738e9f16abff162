/**
  PATCH /: record a visit reported in the request body on the link stored
  under the body's `slug`.
*/
module PatchFunction {
  import opened Wrappers
  import opened Json
  import opened Validation
  import opened Items
  import opened Http
  import opened Store

  const RequiredFields: seq<string> := ["slug", "requestIp", "userAgent"]
  const NotFoundMessage := "Target URL not found"
  const UpdatedMessage := "Successfully updated shortened URL."


  /** `event_data.get("referer") or None`. */
  function BodyReferer(body: JsonObject): JValue {
    if Truthy(Get(body, "referer")) then body["referer"] else JNull
  }

  /** The whole effect of one PATCH on the table contents `items`. */
  function PatchOutcome(items: map<Key, Item>, body: JsonObject, now: string, fault: Fault): (o: Outcome)
    ensures o.response.status != OK ==> o.items == items
    ensures o.items.Keys == items.Keys
  {
    match FirstMissing(RequiredFields, body)
    case Some(field) => Outcome(MessageResponse(BadRequest, FieldRequired(field)), items)
    case None =>
      var slug := body["slug"];
      if fault.Fails? then Outcome(MessageResponse(InternalServerError, fault.message), items)
      else if slug !in items then Outcome(MessageResponse(NotFound, NotFoundMessage), items)
      else if !items[slug].Link? then Outcome(MessageResponse(InternalServerError, MissingRequestsMessage), items)
      else
        var item := items[slug];
        var visit := Visit(body["requestIp"], body["userAgent"], BodyReferer(body), now);
        Outcome(MessageResponse(OK, UpdatedMessage), items[slug := item.(requests := item.requests + [visit])])
  }

  /** `patch_item`: validate the body, look the slug up, append the visit. */
  method PatchItem(t: Table, body: JsonObject, now: string, fault: Fault) returns (r: Response)
    modifies t
    ensures Outcome(r, t.items) == PatchOutcome(old(t.items), body, now, fault)
  {
    var missing := FindMissingField(body, RequiredFields);
    if missing.Some? {
      return MessageResponse(BadRequest, FieldRequired(missing.value));
    }
    var slug := body["slug"];
    var requestIp := body["requestIp"];
    var userAgent := body["userAgent"];
    var referer := BodyReferer(body);
    if fault.Fails? {
      return MessageResponse(InternalServerError, fault.message);
    }
    if slug !in t.items {
      return MessageResponse(NotFound, NotFoundMessage);
    }
    var item := t.items[slug];
    if !item.Link? {
      return MessageResponse(InternalServerError, MissingRequestsMessage);
    }
    t.items := t.items[slug := item.(requests := item.requests + [Visit(requestIp, userAgent, referer, now)])];
    r := MessageResponse(OK, UpdatedMessage);
  }

  /**
    The fields are checked in the order slug, requestIp, userAgent: the first
    absent key is the one reported, as a 400, and the table is untouched.
  */
  lemma PatchReportsFirstMissing(items: map<Key, Item>, body: JsonObject, now: string, fault: Fault)
    ensures "slug" !in body ==>
      PatchOutcome(items, body, now, fault) == Outcome(MessageResponse(BadRequest, FieldRequired("slug")), items)
    ensures "slug" in body && "requestIp" !in body ==>
      PatchOutcome(items, body, now, fault) == Outcome(MessageResponse(BadRequest, FieldRequired("requestIp")), items)
    ensures "slug" in body && "requestIp" in body && "userAgent" !in body ==>
      PatchOutcome(items, body, now, fault) == Outcome(MessageResponse(BadRequest, FieldRequired("userAgent")), items)
  {
    if "slug" !in body {
      MissingReported(items, body, now, fault, 0);
    } else if "requestIp" !in body {
      MissingReported(items, body, now, fault, 1);
    } else if "userAgent" !in body {
      MissingReported(items, body, now, fault, 2);
    }
  }

  /** When the fields before position `i` are present and the one at `i` is not, that one is reported. */
  lemma MissingReported(items: map<Key, Item>, body: JsonObject, now: string, fault: Fault, i: nat)
    requires i < |RequiredFields| && RequiredFields[i] !in body
    requires forall j :: 0 <= j < i ==> RequiredFields[j] in body
    ensures PatchOutcome(items, body, now, fault)
         == Outcome(MessageResponse(BadRequest, FieldRequired(RequiredFields[i])), items)
  {
    assert RequiredFields[1..] == ["requestIp", "userAgent"];
    assert RequiredFields[1..][1..] == ["userAgent"];
    assert FirstMissing(RequiredFields, body) == Some(RequiredFields[i]);
  }

  /** An absent, null or empty `referer` is stored as null; a non-empty one as given. */
  lemma PatchRefererOrNull(body: JsonObject)
    ensures "referer" !in body || body["referer"] == JNull || body["referer"] == JStr("") ==> BodyReferer(body) == JNull
    ensures "referer" in body && Truthy(body["referer"]) ==> BodyReferer(body) == body["referer"]
  {
  }

  /** A complete body naming an unknown slug is a 404 "Target URL not found"; the table is untouched. */
  lemma PatchNotFound(items: map<Key, Item>, body: JsonObject, now: string)
    requires "slug" in body && "requestIp" in body && "userAgent" in body
    requires body["slug"] !in items
    ensures PatchOutcome(items, body, now, Healthy) == Outcome(MessageResponse(NotFound, "Target URL not found"), items)
  {
  }

  /**
    A successful PATCH answers 200 and appends exactly the reported visit to
    the end of the link's `requests`; nothing else in the table changes.
  */
  lemma PatchRecordsVisit(items: map<Key, Item>, body: JsonObject, now: string)
    requires "slug" in body && "requestIp" in body && "userAgent" in body
    requires body["slug"] in items && items[body["slug"]].Link?
    ensures var o := PatchOutcome(items, body, now, Healthy);
      var before := items[body["slug"]];
      var after := o.items[body["slug"]];
      && o.response == MessageResponse(OK, "Successfully updated shortened URL.")
      && after == before.(requests := before.requests + [Visit(body["requestIp"], body["userAgent"], BodyReferer(body), now)])
      && o.items.Keys == items.Keys
      && forall k :: k in items && k != body["slug"] ==> o.items[k] == items[k]
  {
  }

  /** A store failure after validation is a 500 with the store's message and changes nothing. */
  lemma PatchStoreFailure(items: map<Key, Item>, body: JsonObject, now: string, message: string)
    requires "slug" in body && "requestIp" in body && "userAgent" in body
    ensures PatchOutcome(items, body, now, Fails(message)) == Outcome(MessageResponse(InternalServerError, message), items)
  {
  }

  /** Recording a visit neither moves an item nor changes any link's target. */
  lemma PatchKeepsWellFormed(items: map<Key, Item>, body: JsonObject, now: string, fault: Fault)
    requires WellFormed(items)
    ensures WellFormed(PatchOutcome(items, body, now, fault).items)
  {
  }
}
