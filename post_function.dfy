/**
  POST /: create a shortened URL. The body must carry a `targetUrl` key; the
  slug is the body's `slug` when that is a non-empty string and otherwise a
  freshly generated one (passed in, as the first eight characters of a UUID
  are not modelled). A slug already in the table, or a `targetUrl` some link
  already has, is a conflict.
*/
module PostFunction {
  import opened Wrappers
  import opened Json
  import opened Validation
  import opened Items
  import opened Http
  import opened Store

  const RequiredFields: seq<string> := ["targetUrl"]
  const ConflictMessage := "Item already exists."
  const CreatedMessage := "Successfully created shortened URL."

  /** `event_data.get("slug") or generated`. */
  function ResolveSlug(body: JsonObject, generated: string): string {
    if Truthy(Get(body, "slug")) then body["slug"].s else generated
  }

  /** The whole effect of one POST on the table contents `items`. */
  function PostOutcome(items: map<Key, Item>, body: JsonObject, generated: string, now: string, fault: Fault): (o: Outcome)
    ensures o.response.status != Created ==> o.items == items
    ensures o.response.status == Created ==> o.items.Keys == items.Keys + {JStr(ResolveSlug(body, generated))}
  {
    match FirstMissing(RequiredFields, body)
    case Some(field) => Outcome(MessageResponse(BadRequest, FieldRequired(field)), items)
    case None =>
      if fault.Fails? then Outcome(MessageResponse(InternalServerError, fault.message), items)
      else
        var slug := ResolveSlug(body, generated);
        var target := body["targetUrl"];
        if JStr(slug) in items || TargetInUse(items, target) then
          Outcome(MessageResponse(Conflict, ConflictMessage), items)
        else
          Outcome(MessageResponse(Created, CreatedMessage),
                  items[JStr(slug) := Link(slug, target, [], now)])
  }

  /** `post_item`: validate the body, check for a clash, then insert the new link. */
  method PostItem(t: Table, body: JsonObject, generated: string, now: string, fault: Fault) returns (r: Response)
    modifies t
    ensures Outcome(r, t.items) == PostOutcome(old(t.items), body, generated, now, fault)
  {
    var slug := ResolveSlug(body, generated);
    var missing := FindMissingField(body, RequiredFields);
    if missing.Some? {
      return MessageResponse(BadRequest, FieldRequired(missing.value));
    }
    var target := body["targetUrl"];
    if fault.Fails? {
      return MessageResponse(InternalServerError, fault.message);
    }
    if JStr(slug) in t.items || TargetInUse(t.items, target) {
      return MessageResponse(Conflict, ConflictMessage);
    }
    t.items := t.items[JStr(slug) := Link(slug, target, [], now)];
    r := MessageResponse(Created, CreatedMessage);
  }

  /** Only the presence of the `targetUrl` key is checked: without it POST is a 400 and the table is untouched. */
  lemma PostRequiresTargetUrl(items: map<Key, Item>, body: JsonObject, generated: string, now: string, fault: Fault)
    ensures var o := PostOutcome(items, body, generated, now, fault);
      && ("targetUrl" !in body <==> o.response.status == BadRequest)
      && ("targetUrl" !in body ==> o.response.body == Message("The 'targetUrl' field is required.") && o.items == items)
  {
    assert FieldRequired("targetUrl") == "The 'targetUrl' field is required.";
  }

  /** A non-empty string `slug` is used as given; an absent, null or empty one is replaced by the generated slug. */
  lemma PostSlugChoice(body: JsonObject, generated: string)
    ensures "slug" in body && body["slug"].JStr? && body["slug"].s != "" ==> ResolveSlug(body, generated) == body["slug"].s
    ensures "slug" !in body || body["slug"] == JNull || body["slug"] == JStr("") ==> ResolveSlug(body, generated) == generated
  {
  }

  /** A taken slug or an already shortened `targetUrl` is a 409 that leaves the table as it was. */
  lemma PostConflict(items: map<Key, Item>, body: JsonObject, generated: string, now: string)
    requires "targetUrl" in body
    requires JStr(ResolveSlug(body, generated)) in items
          || exists k :: k in items && items[k].Link? && items[k].targetUrl == body["targetUrl"]
    ensures PostOutcome(items, body, generated, now, Healthy)
         == Outcome(MessageResponse(Conflict, "Item already exists."), items)
  {
  }

  /** A successful POST adds exactly the new link under its slug, answers 201 and changes no other entry. */
  lemma PostCreates(items: map<Key, Item>, body: JsonObject, generated: string, now: string)
    requires "targetUrl" in body
    requires JStr(ResolveSlug(body, generated)) !in items
    requires forall k :: k in items && items[k].Link? ==> items[k].targetUrl != body["targetUrl"]
    ensures var o := PostOutcome(items, body, generated, now, Healthy);
      var slug := ResolveSlug(body, generated);
      && o.response == MessageResponse(Created, "Successfully created shortened URL.")
      && o.items.Keys == items.Keys + {JStr(slug)}
      && o.items[JStr(slug)] == Link(slug, body["targetUrl"], [], now)
      && forall k :: k in items ==> o.items[k] == items[k]
  {
  }

  /** A store failure after validation is a 500 carrying the store's message, and nothing is added. */
  lemma PostStoreFailure(items: map<Key, Item>, body: JsonObject, generated: string, now: string, message: string)
    requires "targetUrl" in body
    ensures PostOutcome(items, body, generated, now, Fails(message))
         == Outcome(MessageResponse(InternalServerError, message), items)
  {
  }

  /** If no two links share a `targetUrl` before a POST, none do after it. */
  lemma PostKeepsTargetsDistinct(items: map<Key, Item>, body: JsonObject, generated: string, now: string, fault: Fault)
    requires DistinctTargets(items)
    ensures DistinctTargets(PostOutcome(items, body, generated, now, fault).items)
  {
    var o := PostOutcome(items, body, generated, now, fault);
    if o.items != items {
      var slug := ResolveSlug(body, generated);
      assert o.items == items[JStr(slug) := Link(slug, body["targetUrl"], [], now)];
      assert !TargetInUse(items, body["targetUrl"]);
    }
  }

  /** POST never makes two links share a `targetUrl`, and stores the new link under its own slug. */
  lemma PostKeepsWellFormed(items: map<Key, Item>, body: JsonObject, generated: string, now: string, fault: Fault)
    requires WellFormed(items)
    ensures WellFormed(PostOutcome(items, body, generated, now, fault).items)
  {
  }
}
