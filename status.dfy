/**
 The status interpreter `parse_status`: a submission's `status` is looked up in
 the fixed verdict table and turned into the user-facing notification text.
 `DecodeMessage` reads a notification back into the name and the status it
 reports, and the lemmas below show that it inverts the interpreter.
 */
module Status {
  import opened PyJson
  import opened Failures

  /** `HOMEWORK_VERDICTS`: the three review statuses the bot knows, with their verdict text. */
  const VERDICTS: map<string, string> := map[
    "approved" := "Работа проверена: ревьюеру всё понравилось. Ура!",
    "reviewing" := "Работа взята на проверку ревьюером.",
    "rejected" := "Работа проверена: у ревьюера есть замечания."
  ]

  const MESSAGE_PREFIX := "Изменился статус проверки работы \""
  const MESSAGE_SEPARATOR := "\". "

  /** The notification text for a rendered name and a verdict. */
  function StatusMessage(name: string, verdict: string): string {
    MESSAGE_PREFIX + name + MESSAGE_SEPARATOR + verdict
  }

  /** `homework.get('homework_name')` is neither missing nor null. */
  predicate HasName(fields: map<string, Json>) {
    "homework_name" in fields && fields["homework_name"] != JNull
  }

  /** The `status` entry is a string that the verdict table holds. */
  predicate KnownStatus(fields: map<string, Json>) {
    "status" in fields && fields["status"].JStr? && fields["status"].s in VERDICTS
  }

  function ParseStatus(homework: Json): (r: Result<string>)
    // a value without `.get` (anything but a dict) raises before any key is read
    ensures !homework.JObject? ==> r == Err(NoGetMethod(TypeName(homework)))
    // the name is checked before the status
    ensures homework.JObject? && !HasName(homework.fields) ==> r == Err(MissingHomeworkName)
    ensures homework.JObject? && HasName(homework.fields) && "status" !in homework.fields
            ==> r == Err(MissingStatus)
    ensures (homework.JObject? && HasName(homework.fields) && "status" in homework.fields &&
             !Hashable(homework.fields["status"]))
            ==> r == Err(UnhashableStatus(TypeName(homework.fields["status"])))
    ensures (homework.JObject? && HasName(homework.fields) && "status" in homework.fields &&
             Hashable(homework.fields["status"]) && !KnownStatus(homework.fields))
            ==> r == Err(UnknownStatus)
    // success exactly for a named submission with a known status, and then the exact text
    ensures r.Ok? <==> homework.JObject? && HasName(homework.fields) && KnownStatus(homework.fields)
    ensures r.Ok? ==> r.value == StatusMessage(Str(homework.fields["homework_name"]),
                                               VERDICTS[homework.fields["status"].s])
  {
    if !homework.JObject? then Err(NoGetMethod(TypeName(homework)))
    else if !HasName(homework.fields) then Err(MissingHomeworkName)
    else if "status" !in homework.fields then Err(MissingStatus)
    else
      var status := homework.fields["status"];
      if !Hashable(status) then Err(UnhashableStatus(TypeName(status)))
      else if !(status.JStr? && status.s in VERDICTS) then Err(UnknownStatus)
      else Ok(StatusMessage(Str(homework.fields["homework_name"]), VERDICTS[status.s]))
  }

  predicate StartsWith(m: string, p: string) {
    |p| <= |m| && m[..|p|] == p
  }

  predicate EndsWith(m: string, t: string) {
    |t| <= |m| && m[|m| - |t|..] == t
  }

  /** What a notification ends with for the given status. */
  function Tail(status: string): string
    requires status in VERDICTS
  {
    MESSAGE_SEPARATOR + VERDICTS[status]
  }

  /** The status whose verdict a notification ends with. */
  function StatusBySuffix(m: string): Option<string> {
    if EndsWith(m, Tail("approved")) then Some("approved")
    else if EndsWith(m, Tail("reviewing")) then Some("reviewing")
    else if EndsWith(m, Tail("rejected")) then Some("rejected")
    else None
  }

  /** The rendered name and the status a notification reports, if it is one. */
  function DecodeMessage(m: string): (r: Option<(string, string)>)
    ensures r.Some? ==> r.value.1 in VERDICTS
  {
    if !StartsWith(m, MESSAGE_PREFIX) then None
    else match StatusBySuffix(m)
      case None => None
      case Some(status) =>
        var tail := Tail(status);
        if |m| < |MESSAGE_PREFIX| + |tail| then None
        else Some((m[|MESSAGE_PREFIX|..|m| - |tail|], status))
  }

  lemma EndsWithLastTwo(m: string, t: string)
    requires |t| >= 2 && EndsWith(m, t)
    ensures m[|m| - 2] == t[|t| - 2] && m[|m| - 1] == t[|t| - 1]
  {
    assert m[|m| - |t|..][|t| - 2] == m[|m| - 2];
    assert m[|m| - |t|..][|t| - 1] == m[|m| - 1];
  }

  /** No verdict tail ends another one: the last two characters already tell them apart. */
  lemma {:induction false} TailsDistinguish(m: string, status: string, other: string)
    requires status in VERDICTS && other in VERDICTS
    requires EndsWith(m, Tail(status)) && EndsWith(m, Tail(other))
    ensures status == other
  {
    var a, v, j := Tail("approved"), Tail("reviewing"), Tail("rejected");
    assert a[|a| - 1] == '!';
    assert v[|v| - 2] == 'м' && v[|v| - 1] == '.';
    assert j[|j| - 2] == 'я' && j[|j| - 1] == '.';
    EndsWithLastTwo(m, Tail(status));
    EndsWithLastTwo(m, Tail(other));
  }

  /** Splitting `prefix + middle + tail` again at the known prefix and tail. */
  lemma SplitAround(prefix: string, middle: string, tail: string)
    ensures var m := prefix + middle + tail;
      StartsWith(m, prefix) && EndsWith(m, tail) && m[|prefix|..|m| - |tail|] == middle
  {
    var m := prefix + middle + tail;
    assert m[..|prefix|] == prefix;
    assert m[|m| - |tail|..] == tail;
    assert m[|prefix|..|m| - |tail|] == middle;
  }

  /** A notification built for a known status decodes back to its name and status. */
  lemma {:induction false} DecodeStatusMessage(name: string, status: string)
    requires status in VERDICTS
    ensures DecodeMessage(StatusMessage(name, VERDICTS[status])) == Some((name, status))
  {
    var tail := Tail(status);
    var m := MESSAGE_PREFIX + name + tail;
    assert StatusMessage(name, VERDICTS[status]) == m;
    SplitAround(MESSAGE_PREFIX, name, tail);
    var found := StatusBySuffix(m);
    assert found.Some? && found.value in VERDICTS && EndsWith(m, Tail(found.value));
    TailsDistinguish(m, status, found.value);
  }

  /**
   Every successful interpretation can be read back: the notification names
   the submission (as `str` renders it) and its status, so two submissions
   that differ in rendered name or status never produce the same text.
   */
  lemma ParseStatusDecodes(homework: Json)
    requires ParseStatus(homework).Ok?
    ensures DecodeMessage(ParseStatus(homework).value)
            == Some((Str(homework.fields["homework_name"]), homework.fields["status"].s))
  {
    DecodeStatusMessage(Str(homework.fields["homework_name"]), homework.fields["status"].s);
  }

  /** The example of a submission `hw1` that was approved. */
  lemma ApprovedExample()
    ensures ParseStatus(JObject(map["homework_name" := JStr("hw1"), "status" := JStr("approved")]))
            == Ok("Изменился статус проверки работы \"hw1\". " + "Работа проверена: ревьюеру всё понравилось. Ура!")
  {
    assert MESSAGE_PREFIX + "hw1" + MESSAGE_SEPARATOR == "Изменился статус проверки работы \"hw1\". ";
  }
}
