/** The response validator, the verdict table and the status formatter of the bot. */
module Homework {
  import opened Wrappers
  import opened JsonValues
  import opened Failures

  /** HOMEWORK_VERDICTS: review status code to the text shown to the student. */
  const Verdicts: map<string, string> := map[
    "approved" := "Работа проверена: ревьюеру всё понравилось. Ура!",
    "reviewing" := "Работа взята на проверку ревьюером.",
    "rejected" := "Работа проверена: у ревьюера есть замечания."
  ]

  /** The table has exactly the three status codes, and no two of them share a text. */
  lemma VerdictTable()
    ensures Verdicts.Keys == {"approved", "reviewing", "rejected"}
    ensures forall s1, s2 :: s1 in Verdicts && s2 in Verdicts && s1 != s2 ==> Verdicts[s1] != Verdicts[s2]
  {
  }

  /** check_response: the list under `homeworks`, unchanged, or the failure Python
      raises. Besides a dict, the decoded body may be any JSON value; `'homeworks' in v`
      then means membership in a list or a substring of a str, and fails on the rest. */
  function CheckResponse(response: Json): (r: Result<seq<Json>, Failure>)
    ensures r.Ok? <==> response.JObj? && "homeworks" in response.fields && response.fields["homeworks"].JArr?
    ensures r.Ok? ==> r.value == response.fields["homeworks"].items
    ensures response.JObj? && "homeworks" !in response.fields ==> r == Err(EmptyAnswer)
    ensures response.JObj? && "homeworks" in response.fields && !response.fields["homeworks"].JArr? ==>
              r == Err(HomeworksNotList)
  {
    match response
    case JObj(fields) =>
      if "homeworks" !in fields then Err(EmptyAnswer)
      else if fields["homeworks"].JArr? then Ok(fields["homeworks"].items)
      else Err(HomeworksNotList)
    case JArr(items) =>
      if JStr("homeworks") in items then Err(NoGetMethod("list")) else Err(EmptyAnswer)
    case JStr(s) =>
      if Substring("homeworks", s) then Err(NoGetMethod("str")) else Err(EmptyAnswer)
    case _ => Err(NotIterable(TypeName(response)))
  }

  /** An empty list is an answer, not an error. */
  lemma EmptyListAccepted(fields: map<string, Json>)
    requires "homeworks" in fields && fields["homeworks"] == JArr([])
    ensures CheckResponse(JObj(fields)) == Ok([])
  {
  }

  /** Whatever else the body holds, only a dict with a `homeworks` list is accepted. */
  lemma OnlyDictsAccepted(response: Json)
    requires !response.JObj?
    ensures CheckResponse(response).Err?
    ensures CheckResponse(response).error in {EmptyAnswer, NoGetMethod("list"), NoGetMethod("str"),
                                                NotIterable("NoneType"), NotIterable("bool"), NotIterable("int")}
  {
  }

  /** A record parse_status accepts: a dict with a non-null name and a known status string. */
  predicate WellFormed(homework: Json)
  {
    && homework.JObj?
    && Present(homework.fields, "homework_name")
    && "status" in homework.fields
    && homework.fields["status"].JStr?
    && homework.fields["status"].s in Verdicts
  }

  const Opening := "Изменился статус проверки работы \""
  const Closing := "\". "
  const NameLabel := "homework_name = "
  const VerdictLabel := ", verdict = "

  /** The sentence parse_status builds from the shown name and the verdict text. */
  function Notification(name: string, verdict: string): string
  {
    Opening + name + Closing + verdict + NameLabel + name + VerdictLabel + verdict
  }

  /** The text holds the name right after the opening words, ends with the verdict, and
      its length is fixed by the lengths of the two. */
  lemma NotificationLayout(name: string, verdict: string)
    ensures var r := Notification(name, verdict);
            && |r| == |Opening| + |Closing| + |NameLabel| + |VerdictLabel| + 2 * |name| + 2 * |verdict|
            && r[|Opening|..|Opening| + |name|] == name
            && EndsWith(r, verdict)
  {
    var r := Notification(name, verdict);
    assert r[|Opening|..|Opening| + |name|] == name;
    assert r[|r| - |verdict|..] == verdict;
  }

  /** parse_status: checks the record's shape in order (dict, name, status, status
      hashable, status known) and on success returns the notification text. */
  function ParseStatus(homework: Json): (r: Result<string, Failure>)
    ensures r.Ok? <==> WellFormed(homework)
    ensures !homework.JObj? ==> r == Err(NotADict)
    ensures homework.JObj? && !Present(homework.fields, "homework_name") ==> r == Err(NoName)
    ensures homework.JObj? && Present(homework.fields, "homework_name") && !Present(homework.fields, "status") ==>
              r == Err(NoStatus)
    ensures homework.JObj? && Present(homework.fields, "homework_name") && Present(homework.fields, "status") ==>
              var status := homework.fields["status"];
              && (Unhashable(status) ==> r == Err(UnhashableKey(TypeName(status))))
              && (!Unhashable(status) && !WellFormed(homework) ==> r == Err(UnknownStatus(Show(status))))
    ensures r.Ok? ==>
              ReadNotification(r.value) == Some((Show(homework.fields["homework_name"]), homework.fields["status"].s))
  {
    if !homework.JObj? then Err(NotADict)
    else
      var name := Get(homework.fields, "homework_name");
      if name.None? || name.value.JNull? then Err(NoName)
      else
        var status := Get(homework.fields, "status");
        if status.None? || status.value.JNull? then Err(NoStatus)
        else if Unhashable(status.value) then Err(UnhashableKey(TypeName(status.value)))
        else if !(status.value.JStr? && status.value.s in Verdicts) then Err(UnknownStatus(Show(status.value)))
        else
          var shown := Show(name.value);
          ReadNotificationRoundTrip(shown, status.value.s);
          Ok(Notification(shown, Verdicts[status.value.s]))
  }

  /** The text depends on the name and the status only, not on the record's other fields. */
  lemma MessageDependsOnNameAndStatus(h1: Json, h2: Json)
    requires h1.JObj? && h2.JObj?
    requires Get(h1.fields, "homework_name") == Get(h2.fields, "homework_name")
    requires Get(h1.fields, "status") == Get(h2.fields, "status")
    ensures ParseStatus(h1) == ParseStatus(h2)
  {
  }

  /** Reads a notification back into the shown name and the status code. The verdict
      is recognised by the text's ending; the name's length follows from the total. */
  function ReadNotification(message: string): Option<(string, string)>
  {
    if EndsWith(message, Verdicts["approved"]) then ReadAs(message, "approved")
    else if EndsWith(message, Verdicts["reviewing"]) then ReadAs(message, "reviewing")
    else if EndsWith(message, Verdicts["rejected"]) then ReadAs(message, "rejected")
    else None
  }

  function ReadAs(message: string, status: string): Option<(string, string)>
    requires status in Verdicts
  {
    match ReadName(message, Verdicts[status])
    case Some(name) => Some((name, status))
    case None => None
  }

  /** The name of a notification known to carry `verdict`. */
  function ReadName(message: string, verdict: string): Option<string>
  {
    var fixed := |Opening| + |Closing| + |NameLabel| + |VerdictLabel| + 2 * |verdict|;
    if |message| < fixed || (|message| - fixed) % 2 != 0 then None
    else
      var name := message[|Opening|..|Opening| + (|message| - fixed) / 2];
      if Notification(name, verdict) == message then Some(name) else None
  }

  /** Whatever ReadNotification returns, the message is that name's and status's notification. */
  lemma ReadNotificationSound(message: string)
    requires ReadNotification(message).Some?
    ensures ReadNotification(message).value.1 in Verdicts
    ensures var (name, status) := ReadNotification(message).value;
            message == Notification(name, Verdicts[status])
  {
  }

  /** A string that ends with two suffixes ends with the shorter one inside the longer one. */
  lemma SuffixOfSuffix(m: string, x: string, y: string)
    requires EndsWith(m, x) && EndsWith(m, y) && |x| <= |y|
    ensures EndsWith(y, x)
  {
    assert y[|y| - |x|..] == m[|m| - |x|..];
  }

  /** None of the three verdict texts ends with another one. */
  lemma VerdictsNotSuffixes(s1: string, s2: string)
    requires s1 in Verdicts && s2 in Verdicts && s1 != s2
    ensures !EndsWith(Verdicts[s1], Verdicts[s2])
  {
  }

  lemma ReadNameNotification(name: string, verdict: string)
    ensures ReadName(Notification(name, verdict), verdict) == Some(name)
  {
    NotificationLayout(name, verdict);
  }

  /** Every notification reads back to its name and status: the text determines both. */
  lemma {:induction false} ReadNotificationRoundTrip(name: string, status: string)
    requires status in Verdicts
    ensures ReadNotification(Notification(name, Verdicts[status])) == Some((name, status))
  {
    var verdict := Verdicts[status];
    var m := Notification(name, verdict);
    assert EndsWith(m, verdict) by {
      assert m == (Opening + name + Closing + verdict + NameLabel + name + VerdictLabel) + verdict;
    }
    forall other | other in Verdicts && other != status
      ensures !EndsWith(m, Verdicts[other])
    {
      if EndsWith(m, Verdicts[other]) {
        if |Verdicts[other]| <= |verdict| {
          SuffixOfSuffix(m, Verdicts[other], verdict);
          VerdictsNotSuffixes(status, other);
        } else {
          SuffixOfSuffix(m, verdict, Verdicts[other]);
          VerdictsNotSuffixes(other, status);
        }
      }
    }
    ReadNameNotification(name, verdict);
  }

  /** Two records for the same homework with different statuses give different texts. */
  lemma StatusChangeChangesText(name: string, s1: string, s2: string)
    requires s1 in Verdicts && s2 in Verdicts && s1 != s2
    ensures Notification(name, Verdicts[s1]) != Notification(name, Verdicts[s2])
  {
  }
}
