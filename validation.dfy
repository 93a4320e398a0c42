/**
 The response validator `check_response`: a fixed sequence of shape checks on
 the decoded body, after which the newest submission (index 0) is returned,
 or `None` when the list is empty.
 */
module Validation {
  import opened PyJson
  import opened Failures

  /** The shape the validator accepts: a dict holding both keys, `homeworks` a list. */
  predicate WellFormed(response: Json) {
    && response.JObject?
    && "homeworks" in response.fields
    && "current_date" in response.fields
    && response.fields["homeworks"].JList?
  }

  /** The submission list of a well-formed response. */
  function Homeworks(response: Json): seq<Json>
    requires WellFormed(response)
  {
    response.fields["homeworks"].items
  }

  function CheckResponse(response: Json): (r: Result<Option<Json>>)
    // a non-dict fails with the type error and nothing else is looked at
    ensures !response.JObject? ==> r == Err(NotAMapping)
    // on a dict, a missing `homeworks` is reported first, whatever else is missing
    ensures response.JObject? && "homeworks" !in response.fields ==> r == Err(MissingHomeworks)
    ensures response.JObject? && "homeworks" in response.fields && "current_date" !in response.fields
            ==> r == Err(MissingCurrentDate)
    ensures (response.JObject? && "homeworks" in response.fields && "current_date" in response.fields &&
             !response.fields["homeworks"].JList?) ==> r == Err(HomeworksNotAList)
    // success exactly on well-formed bodies: no submission iff the list is empty, else its head unchanged
    ensures r.Ok? <==> WellFormed(response)
    ensures r.Ok? ==> (r.value.None? <==> Homeworks(response) == [])
    ensures r.Ok? && r.value.Some? ==> r.value.value == Homeworks(response)[0]
  {
    if !response.JObject? then Err(NotAMapping)
    else if "homeworks" !in response.fields then Err(MissingHomeworks)
    else if "current_date" !in response.fields then Err(MissingCurrentDate)
    else
      var homeworks := response.fields["homeworks"];
      if !homeworks.JList? then Err(HomeworksNotAList)
      else if homeworks.items == [] then Ok(None)
      else Ok(Some(homeworks.items[0]))
  }

  /** A body as the API sends it: the submission list and the server's date. */
  function Response(homeworks: seq<Json>, currentDate: Json): (r: Json)
    ensures WellFormed(r) && Homeworks(r) == homeworks
  {
    JObject(map["homeworks" := JList(homeworks), "current_date" := currentDate])
  }

  /**
   Reading back a body built from a submission list yields its newest entry,
   whatever the other keys hold; the value of `current_date` is never used.
   */
  lemma CheckResponseOfResponse(homeworks: seq<Json>, currentDate: Json, extra: map<string, Json>)
    ensures var body := JObject(extra + Response(homeworks, currentDate).fields);
      CheckResponse(body) == Ok(if homeworks == [] then None else Some(homeworks[0]))
  {
  }
}
