/**
  The required-field check that POST, PATCH and PUT run over their request body
  before touching the table: the fields are tried in order and the first one
  whose KEY is absent is reported. A key that is present with a null or empty
  value passes.
*/
module Validation {
  import opened Wrappers
  import opened Json

  /** The first of `fields`, in order, that is not a key of `body`. */
  function FirstMissing(fields: seq<string>, body: JsonObject): (r: Option<string>)
    ensures r.None? ==> forall f :: f in fields ==> f in body
    ensures r.Some? ==> r.value in fields && r.value !in body
  {
    if fields == [] then None
    else if fields[0] !in body then Some(fields[0])
    else FirstMissing(fields[1..], body)
  }

  /** The message every handler answers a missing field with. */
  function FieldRequired(field: string): string {
    "The '" + field + "' field is required."
  }

  /** FirstMissing reports exactly the earliest absent field, and None only when all are present. */
  lemma {:induction false} FirstMissingIsFirst(fields: seq<string>, body: JsonObject)
    ensures FirstMissing(fields, body).None? <==> forall j :: 0 <= j < |fields| ==> fields[j] in body
    ensures FirstMissing(fields, body).Some? ==>
      exists i :: 0 <= i < |fields| && fields[i] == FirstMissing(fields, body).value &&
        fields[i] !in body && forall j :: 0 <= j < i ==> fields[j] in body
  {
    if fields != [] && fields[0] in body {
      FirstMissingIsFirst(fields[1..], body);
      var rest := FirstMissing(fields[1..], body);
      if rest.Some? {
        var i :| 0 <= i < |fields[1..]| && fields[1..][i] == rest.value &&
          fields[1..][i] !in body && forall j :: 0 <= j < i ==> fields[1..][j] in body;
        assert fields[i + 1] == rest.value && fields[i + 1] !in body;
        assert forall j :: 0 <= j < i + 1 ==> fields[j] in body by {
          forall j | 0 <= j < i + 1 ensures fields[j] in body {
            if j > 0 { assert fields[j] == fields[1..][j - 1]; }
          }
        }
      } else {
        assert forall j :: 0 <= j < |fields| ==> fields[j] in body by {
          forall j | 0 <= j < |fields| ensures fields[j] in body {
            if j > 0 { assert fields[j] == fields[1..][j - 1]; }
          }
        }
      }
    }
  }

  /**
    The `for field in required_fields: if field not in event_data: return ...`
    loop of the handlers: returns the first absent field, or None.
  */
  method FindMissingField(body: JsonObject, fields: seq<string>) returns (missing: Option<string>)
    ensures missing == FirstMissing(fields, body)
    ensures missing.None? ==> forall j :: 0 <= j < |fields| ==> fields[j] in body
    ensures missing.Some? ==> missing.value in fields && missing.value !in body
  {
    var i := 0;
    while i < |fields|
      invariant 0 <= i <= |fields|
      invariant forall j :: 0 <= j < i ==> fields[j] in body
      invariant FirstMissing(fields, body) == FirstMissing(fields[i..], body)
    {
      if fields[i] !in body {
        return Some(fields[i]);
      }
      assert fields[i..][1..] == fields[i + 1..];
      i := i + 1;
    }
    return None;
  }
}
