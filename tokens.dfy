/**
 The startup gate `check_tokens`. The three secrets are what `os.getenv`
 returned for them: `None` when the variable is unset, a string otherwise.
 */
module Tokens {
  import opened Failures

  /** Truthiness of an environment value: set and non-empty. */
  predicate Present(v: Option<string>) {
    v.Some? && v.value != ""
  }

  /** Python's `any(values)`: some value is truthy. */
  function Any(values: seq<Option<string>>): (r: bool)
    ensures r <==> exists k :: 0 <= k < |values| && Present(values[k])
  {
    if values == [] then false
    else if Present(values[0]) then true
    else
      var rest := Any(values[1..]);
      assert forall k :: 1 <= k < |values| ==> values[k] == values[1..][k - 1];
      rest
  }

  /**
   `check_tokens`: refuses to start only when none of the three secrets is
   present. One present secret is enough, whichever it is.
   */
  function CheckTokens(practicum: Option<string>, telegram: Option<string>, chat: Option<string>): (ok: bool)
    ensures !ok <==> !Present(practicum) && !Present(telegram) && !Present(chat)
  {
    var values := [practicum, telegram, chat];
    assert values[0] == practicum && values[1] == telegram && values[2] == chat;
    Any(values)
  }

  /** The gate checks "any", not "all": a single secret passes it with the other two missing. */
  lemma CheckTokensAdmitsMissingSecrets(secret: string)
    requires secret != ""
    ensures CheckTokens(Some(secret), None, None)
    ensures CheckTokens(None, Some(secret), None)
    ensures CheckTokens(None, None, Some(secret))
  {
  }
}
