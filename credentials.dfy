/**
  The credential check that the accelerator core and the SDK wrapper each
  perform before they open a session: `apiKey`, `sessionId` and `token` must
  all be truthy properties of the credentials object, and the first one
  that is not names the error.
 */
module Credentials {
  import opened Js
  import opened Util

  /** The credentials a session needs, in the order they are checked. */
  const Required: seq<string> := ["apiKey", "sessionId", "token"]

  /** The object has a truthy property `name`. */
  predicate Has(credentials: Json, name: string)
  {
    Get(credentials, name).Ok? && JsonTruthy(Get(credentials, name).value)
  }

  /** `names[i]` is the first name the object lacks. */
  predicate MissingAt(credentials: Json, names: seq<string>, i: int)
  {
    0 <= i < |names| && !Has(credentials, names[i]) && forall j | 0 <= j < i :: Has(credentials, names[j])
  }

  /** The loop `required.forEach(c => { if (!credentials[c]) throw ... })`
      stopped at its first missing name: None when every name is present.
      Reading a property of `null` (or `undefined`) throws. */
  function FirstMissing(credentials: Json, names: seq<string>): (r: Result<Option<string>>)
    ensures r.Err? <==> names != [] && (credentials.Undefined? || credentials.Null?)
    ensures r.Err? ==> r.error == TypeError
    ensures r == Ok(None) <==> forall i | 0 <= i < |names| :: Has(credentials, names[i])
    ensures r.Ok? && r.value.Some? ==> exists i :: MissingAt(credentials, names, i) && names[i] == r.value.value
    decreases |names|
  {
    if names == [] then Ok(None)
    else match Get(credentials, names[0])
      case Err(e) => Err(e)
      case Ok(v) =>
        if !JsonTruthy(v) then Ok(Some(names[0]))
        else
          var rest := FirstMissing(credentials, names[1..]);
          assert forall i | 1 <= i < |names| :: names[i] == names[1..][i - 1];
          assert rest.Ok? && rest.value.Some? ==>
            exists i :: MissingAt(credentials, names, i) && names[i] == rest.value.value by {
            if rest.Ok? && rest.value.Some? {
              var k :| MissingAt(credentials, names[1..], k) && names[1..][k] == rest.value.value;
              assert MissingAt(credentials, names, k + 1);
            }
          }
          rest
  }

  /** Every required credential is present. */
  predicate Complete(credentials: Json)
  {
    forall i | 0 <= i < |Required| :: Has(credentials, Required[i])
  }

  /** The text of the error naming a missing credential. */
  function MissingText(name: string): string
  {
    name + " is a required credential"
  }

  /** The credentials a caller omitted altogether are replaced by an empty
      object (the core uses `[]`, the wrapper `{}`: neither has any of the
      required properties). */
  function Defaulted(credentials: Json, empty: Json): Json
  {
    if credentials.Undefined? then empty else credentials
  }

  /** An empty array or object lacks every credential, so the first one,
      `apiKey`, is reported. */
  lemma EmptyLacksApiKey(empty: Json)
    requires empty == Arr([]) || empty == Obj(map[])
    ensures FirstMissing(empty, Required) == Ok(Some("apiKey"))
  {
    assert Required[0] == "apiKey";
    assert "apiKey" != "length" && ArrayIndex("apiKey").None? by {
      assert !IsDigit("apiKey"[0]);
    }
  }
}
