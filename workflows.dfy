/**
  The six routes over one shared table: which handler each request reaches,
  the table after a whole history of requests, and what holds across calls.
*/
module Workflows {
  import opened Wrappers
  import opened Json
  import opened Items
  import opened Http
  import opened Store
  import PostFunction
  import GetFunction
  import PatchFunction
  import DeleteFunction
  import PutFunction

  /** One API call, with the inputs the handler takes from outside the body (clock, UUID, headers, identity). */
  datatype Request =
    | Post(body: JsonObject, generated: string, now: string)
    | GetAll
    | GetBySlug(slug: string, headers: map<string, seq<string>>, sourceIp: JValue, userAgent: JValue, now: string)
    | Patch(body: JsonObject, now: string)
    | Delete(body: JsonObject)
    | Put(body: JsonObject, now: string)

  /** A request and whether the table answers while it is served. */
  datatype Call = Call(request: Request, fault: Fault)

  /** The handler each route is bound to. */
  function Handle(items: map<Key, Item>, call: Call): Outcome {
    var fault := call.fault;
    match call.request
    case Post(body, generated, now) => PostFunction.PostOutcome(items, body, generated, now, fault)
    case GetAll => Outcome(GetFunction.GetAllItems(items, fault), items)
    case GetBySlug(slug, headers, ip, agent, now) => GetFunction.GetBySlugOutcome(items, slug, headers, ip, agent, now, fault)
    case Patch(body, now) => PatchFunction.PatchOutcome(items, body, now, fault)
    case Delete(body) => DeleteFunction.DeleteOutcome(items, body, fault)
    case Put(body, now) => PutFunction.PutOutcome(items, body, now, fault)
  }

  /** The table after serving `calls` in order, starting from `items`. */
  function Run(items: map<Key, Item>, calls: seq<Call>): map<Key, Item>
    decreases |calls|
  {
    if calls == [] then items else Run(Handle(items, calls[0]).items, calls[1..])
  }

  /** Every route keeps every item under its own key and no two links sharing a `targetUrl`. */
  lemma HandleKeepsWellFormed(items: map<Key, Item>, call: Call)
    requires WellFormed(items)
    ensures WellFormed(Handle(items, call).items)
  {
  }

  /** Whatever requests arrive, in whatever order, no two links in the table ever share a `targetUrl`. */
  lemma {:induction false} RunKeepsWellFormed(items: map<Key, Item>, calls: seq<Call>)
    requires WellFormed(items)
    ensures WellFormed(Run(items, calls))
    decreases |calls|
  {
    if calls != [] {
      HandleKeepsWellFormed(items, calls[0]);
      RunKeepsWellFormed(Handle(items, calls[0]).items, calls[1..]);
    }
  }

  /** Starting from an empty table, every reachable table is well formed. */
  lemma {:induction false} ReachableTablesWellFormed(calls: seq<Call>)
    ensures WellFormed(Run(map[], calls))
  {
    RunKeepsWellFormed(map[], calls);
  }

  /** A link that POST has just created redirects, on GET /<slug>, to the `targetUrl` it was created with. */
  lemma PostThenGetRedirects(items: map<Key, Item>, body: JsonObject, generated: string, now: string,
                             headers: map<string, seq<string>>, ip: JValue, agent: JValue, later: string)
    requires PostFunction.PostOutcome(items, body, generated, now, Healthy).response.status == Created
    ensures var posted := PostFunction.PostOutcome(items, body, generated, now, Healthy);
      var slug := PostFunction.ResolveSlug(body, generated);
      var got := GetFunction.GetBySlugOutcome(posted.items, slug, headers, ip, agent, later, Healthy);
      && got.response.status == Found
      && got.response.location == Some(Str(body["targetUrl"]))
      && |got.items[JStr(slug)].requests| == 1
  {
  }

  /** A link created by POST and then deleted is gone: GET /<slug> answers 404. */
  lemma PostThenDeleteForgets(items: map<Key, Item>, body: JsonObject, generated: string, now: string,
                              headers: map<string, seq<string>>, ip: JValue, agent: JValue, later: string)
    requires PostFunction.PostOutcome(items, body, generated, now, Healthy).response.status == Created
    ensures var posted := PostFunction.PostOutcome(items, body, generated, now, Healthy);
      var slug := PostFunction.ResolveSlug(body, generated);
      var deleted := DeleteFunction.DeleteOutcome(posted.items, map["slug" := JStr(slug)], Healthy);
      var got := GetFunction.GetBySlugOutcome(deleted.items, slug, headers, ip, agent, later, Healthy);
      && (slug != "" ==> deleted.response.status == NoContent && deleted.items == items)
      && (slug != "" ==> got.response == MessageResponse(NotFound, "Target URL not found"))
  {
  }
}
