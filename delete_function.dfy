/** DELETE /: remove the item stored under the body's `slug`. */
module DeleteFunction {
  import opened Wrappers
  import opened Json
  import opened Items
  import opened Http
  import opened Store

  const SlugRequiredMessage := "slug is required."
  const DeletedMessage := "Successfully deleted shortened URL."

  function NotFoundMessage(slug: string): string {
    "Item with a slug of /" + slug + " not found."
  }

  /** The whole effect of one DELETE on the table contents `items`. */
  function DeleteOutcome(items: map<Key, Item>, body: JsonObject, fault: Fault): (o: Outcome)
    ensures o.response.status != NoContent ==> o.items == items
    ensures o.response.status == NoContent ==> o.items.Keys == items.Keys - {Get(body, "slug")}
  {
    var slug := Get(body, "slug");
    if !Truthy(slug) then Outcome(MessageResponse(BadRequest, SlugRequiredMessage), items)
    else if fault.Fails? then Outcome(MessageResponse(InternalServerError, fault.message), items)
    else if slug !in items then Outcome(MessageResponse(NotFound, NotFoundMessage(slug.s)), items)
    else Outcome(MessageResponse(NoContent, DeletedMessage), items - {slug})
  }

  /** `delete_item_by_slug`: require a slug, check it exists, delete it. */
  method DeleteItemBySlug(t: Table, body: JsonObject, fault: Fault) returns (r: Response)
    modifies t
    ensures Outcome(r, t.items) == DeleteOutcome(old(t.items), body, fault)
  {
    var slug := Get(body, "slug");
    if !Truthy(slug) {
      return MessageResponse(BadRequest, SlugRequiredMessage);
    }
    if fault.Fails? {
      return MessageResponse(InternalServerError, fault.message);
    }
    if slug !in t.items {
      return MessageResponse(NotFound, NotFoundMessage(slug.s));
    }
    t.items := t.items - {slug};
    r := MessageResponse(NoContent, DeletedMessage);
  }

  /** An absent, null or empty `slug` is a 400 "slug is required." whatever the table holds. */
  lemma DeleteRequiresSlug(items: map<Key, Item>, body: JsonObject, fault: Fault)
    requires "slug" !in body || body["slug"] == JNull || body["slug"] == JStr("")
    ensures DeleteOutcome(items, body, fault) == Outcome(MessageResponse(BadRequest, "slug is required."), items)
  {
  }

  /** A slug that is not a key is a 404 naming it, whatever else the body holds, and the table is untouched. */
  lemma DeleteNotFound(items: map<Key, Item>, body: JsonObject)
    requires "slug" in body && Truthy(body["slug"]) && body["slug"] !in items
    ensures DeleteOutcome(items, body, Healthy)
         == Outcome(MessageResponse(NotFound, "Item with a slug of /" + body["slug"].s + " not found."), items)
  {
  }

  /** Deleting a stored slug answers 204, removes that key and keeps every other entry. */
  lemma DeleteRemoves(items: map<Key, Item>, body: JsonObject)
    requires "slug" in body && Truthy(body["slug"]) && body["slug"] in items
    ensures var o := DeleteOutcome(items, body, Healthy);
      && o.response.status == NoContent
      && o.items.Keys == items.Keys - {body["slug"]}
      && forall k :: k in o.items ==> o.items[k] == items[k]
  {
  }

  /** Deleting the same slug twice answers 204 and then 404, and the second call changes nothing. */
  lemma DeleteTwice(items: map<Key, Item>, body: JsonObject, slug: string)
    requires "slug" in body && body["slug"] == JStr(slug) && slug != "" && JStr(slug) in items
    ensures var first := DeleteOutcome(items, body, Healthy);
      var second := DeleteOutcome(first.items, body, Healthy);
      && first.response.status == NoContent
      && second.response == MessageResponse(NotFound, "Item with a slug of /" + slug + " not found.")
      && second.items == first.items
  {
  }

  /** A store failure past the slug check is a 500 with the store's message and changes nothing. */
  lemma DeleteStoreFailure(items: map<Key, Item>, body: JsonObject, message: string)
    requires "slug" in body && Truthy(body["slug"])
    ensures DeleteOutcome(items, body, Fails(message)) == Outcome(MessageResponse(InternalServerError, message), items)
  {
  }

  /** Removing an entry keeps every remaining item under its own key and every target distinct. */
  lemma DeleteKeepsWellFormed(items: map<Key, Item>, body: JsonObject, fault: Fault)
    requires WellFormed(items)
    ensures WellFormed(DeleteOutcome(items, body, fault).items)
  {
  }
}
