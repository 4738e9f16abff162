/**
  What the table stores. POST writes short-link items keyed by their `slug`;
  PUT writes items of a different shape keyed by their `id`. Both live in the
  same table, so an item is one of the two.
*/
module Items {
  import opened Json

  /** One entry of an item's `requests` list: who followed the link, and when. */
  datatype Visit = Visit(ip: JValue, userAgent: JValue, referer: JValue, timestamp: string)

  datatype Item =
    | Link(slug: string, targetUrl: JValue, requests: seq<Visit>, createdAt: string)
    | Record(id: JValue, url: JValue, lastUpdatedAt: string)

  /** The value of the table's key attribute. */
  type Key = JValue

  /** The key attribute an item carries: `slug` for a link, `id` for a PUT record. */
  function KeyOf(item: Item): Key {
    match item
    case Link(slug, _, _, _) => JStr(slug)
    case Record(id, _, _) => id
  }
}
