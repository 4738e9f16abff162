/**
  PUT /: create or replace, under the body's `id`, an item holding just `id`,
  `url` and the time of the call. Unlike the other handlers it keys by `id`,
  not `slug`, and checks neither existence nor conflicts.
*/
module PutFunction {
  import opened Wrappers
  import opened Json
  import opened Validation
  import opened Items
  import opened Http
  import opened Store

  const RequiredFields: seq<string> := ["id", "url"]

  /** The whole effect of one PUT on the table contents `items`. */
  function PutOutcome(items: map<Key, Item>, body: JsonObject, now: string, fault: Fault): (o: Outcome)
    ensures o.response.status != OK ==> o.items == items
    ensures o.response.status == OK ==> "id" in body && o.items.Keys == items.Keys + {body["id"]}
  {
    match FirstMissing(RequiredFields, body)
    case Some(field) => Outcome(MessageResponse(BadRequest, FieldRequired(field)), items)
    case None =>
      if fault.Fails? then Outcome(MessageResponse(InternalServerError, fault.message), items)
      else Outcome(Response(OK, NoBody, None), items[body["id"] := Record(body["id"], body["url"], now)])
  }

  /** `put_item`: validate the body, then overwrite the entry under `id`. */
  method PutItem(t: Table, body: JsonObject, now: string, fault: Fault) returns (r: Response)
    modifies t
    ensures Outcome(r, t.items) == PutOutcome(old(t.items), body, now, fault)
  {
    var missing := FindMissingField(body, RequiredFields);
    if missing.Some? {
      return MessageResponse(BadRequest, FieldRequired(missing.value));
    }
    if fault.Fails? {
      return MessageResponse(InternalServerError, fault.message);
    }
    t.items := t.items[body["id"] := Record(body["id"], body["url"], now)];
    r := Response(OK, NoBody, None);
  }

  /** `id` is checked before `url`: the first absent key is reported as a 400 and the table is untouched. */
  lemma PutReportsFirstMissing(items: map<Key, Item>, body: JsonObject, now: string, fault: Fault)
    ensures var o := PutOutcome(items, body, now, fault);
      && ("id" !in body ==> o == Outcome(MessageResponse(BadRequest, "The 'id' field is required."), items))
      && ("id" in body && "url" !in body ==> o == Outcome(MessageResponse(BadRequest, "The 'url' field is required."), items))
      && ("id" in body && "url" in body ==> o.response.status != BadRequest)
  {
    assert RequiredFields[1..] == ["url"];
    assert FieldRequired("id") == "The 'id' field is required.";
    assert FieldRequired("url") == "The 'url' field is required.";
  }

  /**
    PUT replaces whatever was stored under `id` (a link loses its `requests`
    and `createdAt`) with exactly {id, url, lastUpdatedAt}, answers 200 with no
    body, and leaves every other entry alone; no not-found check is made.
  */
  lemma PutReplaces(items: map<Key, Item>, body: JsonObject, now: string)
    requires "id" in body && "url" in body
    ensures var o := PutOutcome(items, body, now, Healthy);
      && o.response == Response(OK, NoBody, None)
      && o.items[body["id"]] == Record(body["id"], body["url"], now)
      && o.items.Keys == items.Keys + {body["id"]}
      && forall k :: k in items && k != body["id"] ==> o.items[k] == items[k]
  {
  }

  /** A store failure after validation is a 500 with the store's message and changes nothing. */
  lemma PutStoreFailure(items: map<Key, Item>, body: JsonObject, now: string, message: string)
    requires "id" in body && "url" in body
    ensures PutOutcome(items, body, now, Fails(message)) == Outcome(MessageResponse(InternalServerError, message), items)
  {
  }

  /** A PUT record carries no `targetUrl`, so replacing any item by one keeps the links' targets distinct. */
  lemma PutKeepsWellFormed(items: map<Key, Item>, body: JsonObject, now: string, fault: Fault)
    requires WellFormed(items)
    ensures WellFormed(PutOutcome(items, body, now, fault).items)
  {
  }
}
