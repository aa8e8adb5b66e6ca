/** End-to-end runs of the polling loop on concrete server answers. */
module Scenarios {
  import opened Wrappers
  import opened JsonValues
  import opened Failures
  import opened Homework
  import opened Poll

  function HomeworkJson(name: string, status: string): Json
  {
    JObj(map["homework_name" := JStr(name), "status" := JStr(status)])
  }

  /** An approved homework with a server date: one notification naming the homework
      with the approved verdict, and the cursor moves to the server date. */
  lemma ApprovedAdvancesCursor(now: int)
    ensures var answer := Fetched(JObj(map["homeworks" := JArr([HomeworkJson("proj1", "approved")]), "current_date" := JInt(1000)]));
            var (s, sent) := Cycle(Initial(now), answer);
            && sent == Some(Notification("proj1", Verdicts["approved"]))
            && ReadNotification(sent.value) == Some(("proj1", "approved"))
            && s.cursor == JInt(1000)
            && s.current == map[KStr("proj1") := "approved"]
  {
    var fields := map["homeworks" := JArr([HomeworkJson("proj1", "approved")]), "current_date" := JInt(1000)];
    assert CheckResponse(JObj(fields)) == Ok([HomeworkJson("proj1", "approved")]);
    assert ParseStatus(HomeworkJson("proj1", "approved")) == Ok(Notification("proj1", Verdicts["approved"]));
    var s0 := Initial(now);
    RecordCycle(s0, Fetched(JObj(fields)), KStr("proj1"), "approved", Notification("proj1", Verdicts["approved"]), Some(JInt(1000)));
    ReadNotificationRoundTrip("proj1", "approved");
  }

  /** An empty list and no server date: no notification, no error, cursor unchanged. */
  lemma EmptyAnswerIsQuiet(s: State)
    requires s.prev == s.current
    ensures Cycle(s, Fetched(JObj(map["homeworks" := JArr([])]))) == (s, None)
  {
  }

  /** A failed request sends one alert, keeps the cursor, and the same failure on the
      next cycle sends nothing. */
  lemma FailureAlertsOnce(now: int, reason: string)
    ensures Run(Initial(now), [FetchFailed(reason), FetchFailed(reason)]) ==
              (State(map[ErrorKey := Alert(FetchError(reason))], map[ErrorKey := Alert(FetchError(reason))], JInt(now)),
               [Alert(FetchError(reason))])
  {
    var s0 := Initial(now);
    var fetch := FetchFailed(reason);
    FailureCycle(s0, fetch, FetchError(reason));
    var s1 := Cycle(s0, fetch).0;
    FailureCycle(s1, fetch, FetchError(reason));
    var report := map[ErrorKey := Alert(FetchError(reason))];
    assert s0.current[ErrorKey := Alert(FetchError(reason))] == report;
    assert s1 == State(report, report, JInt(now));
    assert [fetch, fetch][1..] == [fetch];
    assert Run(s1, [fetch]) == (s1, []);
    assert Run(s0, [fetch, fetch]) == (s1, [Alert(FetchError(reason))] + []);
    assert [Alert(FetchError(reason))] + [] == [Alert(FetchError(reason))];
  }

  /** Two cycles that both report "reviewing" for one homework notify only once. */
  lemma ReviewingTwiceNotifiesOnce(now: int)
    ensures var answer := Fetched(JObj(map["homeworks" := JArr([HomeworkJson("proj1", "reviewing")])]));
            Run(Initial(now), [answer, answer]).1 == [Notification("proj1", Verdicts["reviewing"])]
  {
    var fields := map["homeworks" := JArr([HomeworkJson("proj1", "reviewing")])];
    var answer := Fetched(JObj(fields));
    var message := Notification("proj1", Verdicts["reviewing"]);
    assert CheckResponse(JObj(fields)) == Ok([HomeworkJson("proj1", "reviewing")]);
    assert ParseStatus(HomeworkJson("proj1", "reviewing")) == Ok(message);
    var s0 := Initial(now);
    RecordCycle(s0, answer, KStr("proj1"), "reviewing", message, None);
    var s1 := Cycle(s0, answer).0;
    RecordCycle(s1, answer, KStr("proj1"), "reviewing", message, None);
    assert [answer, answer][1..] == [answer];
    assert Run(s1, [answer]) == (s1, []);
  }
}
