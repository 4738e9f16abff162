/**
  GET / lists the table; GET /<slug> records the visit on the link stored
  under `slug` and redirects to its `targetUrl`.
*/
module GetFunction {
  import opened Wrappers
  import opened Json
  import opened Items
  import opened Http
  import opened Store

  const NotFoundMessage := "Target URL not found"


  /** `get_all_items`: a full scan, answered with Count, Items and ScannedCount. */
  function GetAllItems(items: map<Key, Item>, fault: Fault): (r: Response)
    ensures fault.Fails? ==> r == MessageResponse(InternalServerError, fault.message)
    ensures fault.Healthy? ==> r.status == OK && r.body.Listing? && r.location.None?
    ensures fault.Healthy? ==> r.body.count == |items| && r.body.scanned == |items|
    ensures fault.Healthy? ==> forall k :: k in items ==> items[k] in r.body.items
    ensures fault.Healthy? ==> forall i :: i in r.body.items ==> exists k :: k in items && items[k] == i
  {
    if fault.Fails? then MessageResponse(InternalServerError, fault.message)
    else Response(OK, Listing(|items|, items.Values, |items|), None)
  }

  /** In a well-keyed table the listing holds exactly `Count` distinct items. */
  lemma GetAllCountsItems(items: map<Key, Item>)
    requires KeysAgree(items)
    ensures var r := GetAllItems(items, Healthy); |r.body.items| == r.body.count == r.body.scanned
  {
    ItemsMatchKeys(items);
  }

  /** The first value of the multi-valued `Referer` header, or null when there is none. */
  function RefererOf(headers: map<string, seq<string>>): JValue {
    if "Referer" in headers && headers["Referer"] != [] then JStr(headers["Referer"][0]) else JNull
  }

  /** The first value of a non-empty `Referer` header is the referer; no header, or no value, gives null. */
  lemma GetRefererOrNull(headers: map<string, seq<string>>)
    ensures "Referer" in headers && |headers["Referer"]| > 0 ==> RefererOf(headers) == JStr(headers["Referer"][0])
    ensures "Referer" !in headers || headers["Referer"] == [] ==> RefererOf(headers) == JNull
  {
  }

  /** The whole effect of GET /<slug> on the table contents `items`. */
  function GetBySlugOutcome(items: map<Key, Item>, slug: string, headers: map<string, seq<string>>,
                            sourceIp: JValue, userAgent: JValue, now: string, fault: Fault): (o: Outcome)
    ensures o.response.status != Found ==> o.items == items
    ensures o.items.Keys == items.Keys
  {
    if fault.Fails? then Outcome(MessageResponse(InternalServerError, fault.message), items)
    else if JStr(slug) !in items then Outcome(MessageResponse(NotFound, NotFoundMessage), items)
    else
      var item := items[JStr(slug)];
      if !item.Link? then Outcome(MessageResponse(InternalServerError, MissingRequestsMessage), items)
      else
        var visit := Visit(sourceIp, userAgent, RefererOf(headers), now);
        Outcome(Response(Found, NoBody, Some(Str(item.targetUrl))),
                items[JStr(slug) := item.(requests := item.requests + [visit])])
  }

  /** `get_item_by_slug`: look the slug up, append the visit to its `requests`, redirect. */
  method GetItemBySlug(t: Table, slug: string, headers: map<string, seq<string>>,
                       sourceIp: JValue, userAgent: JValue, now: string, fault: Fault) returns (r: Response)
    modifies t
    ensures Outcome(r, t.items) == GetBySlugOutcome(old(t.items), slug, headers, sourceIp, userAgent, now, fault)
  {
    if fault.Fails? {
      return MessageResponse(InternalServerError, fault.message);
    }
    if JStr(slug) !in t.items {
      return MessageResponse(NotFound, NotFoundMessage);
    }
    var item := t.items[JStr(slug)];
    var referer := RefererOf(headers);
    if !item.Link? {
      return MessageResponse(InternalServerError, MissingRequestsMessage);
    }
    t.items := t.items[JStr(slug) := item.(requests := item.requests + [Visit(sourceIp, userAgent, referer, now)])];
    r := Response(Found, NoBody, Some(Str(item.targetUrl)));
  }

  /** An unknown slug is a 404 "Target URL not found" and leaves the table as it was. */
  lemma GetBySlugNotFound(items: map<Key, Item>, slug: string, headers: map<string, seq<string>>,
                          sourceIp: JValue, userAgent: JValue, now: string)
    requires JStr(slug) !in items
    ensures GetBySlugOutcome(items, slug, headers, sourceIp, userAgent, now, Healthy)
         == Outcome(MessageResponse(NotFound, "Target URL not found"), items)
  {
  }

  /**
    Following a link appends exactly one visit, with the first Referer value or
    null, to the end of its `requests`, keeps its target and creation time and
    every other item, and redirects (302) to the stored `targetUrl`.
  */
  lemma GetBySlugRecordsVisit(items: map<Key, Item>, slug: string, headers: map<string, seq<string>>,
                              sourceIp: JValue, userAgent: JValue, now: string)
    requires JStr(slug) in items && items[JStr(slug)].Link?
    ensures var o := GetBySlugOutcome(items, slug, headers, sourceIp, userAgent, now, Healthy);
      var before := items[JStr(slug)];
      var after := o.items[JStr(slug)];
      && o.response.status == Found
      && o.response.location == Some(Str(before.targetUrl))
      && after.Link? && after.slug == before.slug
      && after.targetUrl == before.targetUrl && after.createdAt == before.createdAt
      && |after.requests| == |before.requests| + 1
      && after.requests[..|before.requests|] == before.requests
      && after.requests[|before.requests|] == Visit(sourceIp, userAgent, RefererOf(headers), now)
      && o.items.Keys == items.Keys
      && forall k :: k in items && k != JStr(slug) ==> o.items[k] == items[k]
  {
  }

  /** A store failure is a 500 with the store's message and changes nothing. */
  lemma GetBySlugStoreFailure(items: map<Key, Item>, slug: string, headers: map<string, seq<string>>,
                              sourceIp: JValue, userAgent: JValue, now: string, message: string)
    ensures GetBySlugOutcome(items, slug, headers, sourceIp, userAgent, now, Fails(message))
         == Outcome(MessageResponse(InternalServerError, message), items)
  {
  }

  /** Recording a visit neither moves an item nor changes any link's target. */
  lemma GetBySlugKeepsWellFormed(items: map<Key, Item>, slug: string, headers: map<string, seq<string>>,
                                 sourceIp: JValue, userAgent: JValue, now: string, fault: Fault)
    requires WellFormed(items)
    ensures WellFormed(GetBySlugOutcome(items, slug, headers, sourceIp, userAgent, now, fault).items)
  {
  }
}
