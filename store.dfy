/**
  The DynamoDB table the handlers share, as an in-memory map from key value to
  item, together with the invariants the handlers keep.
*/
module Store {
  import opened Json
  import opened Items
  import opened Http

  /**
    Whether the table answers. `Fails(message)` stands for a `ClientError`
    raised by the first table call a handler makes; its message is echoed in
    the 500 response.
  */
  datatype Fault = Healthy | Fails(message: string)

  /**
    The ValidationException DynamoDB raises for `list_append(#requests, ...)`
    on an item that has no `requests` attribute (an item written by PUT).
  */
  const MissingRequestsMessage := "The provided expression refers to an attribute that does not exist in the item"

  /** What one handler invocation yields: its response and the table afterwards. */
  datatype Outcome = Outcome(response: Response, items: map<Key, Item>)

  class Table {
    var items: map<Key, Item>

    constructor ()
      ensures items == map[]
    {
      items := map[];
    }
  }

  /** Every item is stored under the value of its own key attribute. */
  predicate KeysAgree(items: map<Key, Item>) {
    forall k :: k in items ==> KeyOf(items[k]) == k
  }

  /** No two links in the table point at the same `targetUrl`. */
  predicate DistinctTargets(items: map<Key, Item>) {
    forall k1, k2 ::
      k1 in items && k2 in items && k1 != k2 && items[k1].Link? && items[k2].Link? ==>
        items[k1].targetUrl != items[k2].targetUrl
  }

  /** The invariant every handler preserves. */
  predicate WellFormed(items: map<Key, Item>) {
    KeysAgree(items) && DistinctTargets(items)
  }

  /** The scan `Attr("targetUrl").eq(target)` finds at least one item. */
  predicate TargetInUse(items: map<Key, Item>, target: JValue) {
    exists k :: k in items && items[k].Link? && items[k].targetUrl == target
  }

  /** When every item sits under its own key, distinct keys hold distinct items: as many items as keys. */
  lemma {:induction false} ItemsMatchKeys(items: map<Key, Item>)
    requires KeysAgree(items)
    ensures |items.Values| == |items|
    decreases |items|
  {
    if items != map[] {
      var k :| k in items;
      var rest := items - {k};
      assert KeysAgree(rest);
      ItemsMatchKeys(rest);
      assert items[k] !in rest.Values by {
        forall k' | k' in rest ensures rest[k'] != items[k] {
          assert KeyOf(rest[k']) == k' != k == KeyOf(items[k]);
        }
      }
      assert items.Values == rest.Values + {items[k]} by {
        forall v | v in items.Values ensures v in rest.Values + {items[k]} {
          var k' :| k' in items && items[k'] == v;
          if k' != k { assert k' in rest; }
        }
      }
      assert rest.Keys == items.Keys - {k};
    }
  }
}
