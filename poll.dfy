/** One cycle of the bot's polling loop: fetch, validate, update the report, notify
    when the report changed. The fetch's outcome is an input; a notification is an
    output of the cycle, and whether its delivery succeeded is not looked at. */
module Poll {
  import opened Wrappers
  import opened JsonValues
  import opened Failures
  import opened Homework

  /** A key of the report dict. Python treats True as 1 and False as 0 when hashing. */
  datatype Key = KNone | KInt(n: int) | KStr(s: string)

  /** The key the error branch writes under. */
  const ErrorKey := KStr("error")

  /** `d[name] = ...`: the key a homework name becomes, or the TypeError of a list or dict. */
  function AsKey(name: Json): (r: Result<Key, Failure>)
    ensures r.Err? <==> Unhashable(name)
    ensures r.Err? ==> r.error == UnhashableKey(TypeName(name))
    ensures name.JStr? ==> r == Ok(KStr(name.s))
  {
    match name
    case JNull => Ok(KNone)
    case JBool(b) => Ok(KInt(if b then 1 else 0))
    case JInt(n) => Ok(KInt(n))
    case JStr(s) => Ok(KStr(s))
    case _ => Err(UnhashableKey(TypeName(name)))
  }

  /** What get_api_answer gave: a decoded body (null when it swallowed a ValueError),
      or the text of the exception it raised. */
  datatype Fetch = Fetched(response: Json) | FetchFailed(reason: string)

  /** current_report, prev_report and current_timestamp. */
  datatype State = State(current: map<Key, string>, prev: map<Key, string>, cursor: Json)

  /** Before the first cycle: both reports empty, the cursor at the start time. */
  function Initial(now: int): State
  {
    State(map[], map[], JInt(now))
  }

  /** What the try block computed before the report comparison. */
  datatype Update = NoRecord | Record(key: Key, status: string, message: string)
  datatype Outcome = Outcome(update: Update, currentDate: Option<Json>)

  /** The try block up to the report write: validate the response and, when the list
      is not empty, format its first record and hash its name. */
  function Attempt(fetch: Fetch): (r: Result<Outcome, Failure>)
    ensures fetch.FetchFailed? ==> r == Err(FetchError(fetch.reason))
    ensures fetch.Fetched? && CheckResponse(fetch.response).Err? ==> r == Err(CheckResponse(fetch.response).error)
    ensures fetch.Fetched? && CheckResponse(fetch.response).Ok? && CheckResponse(fetch.response).value != [] ==>
              var first := CheckResponse(fetch.response).value[0];
              && (ParseStatus(first).Err? ==> r == Err(ParseStatus(first).error))
              && (ParseStatus(first).Ok? && AsKey(first.fields["homework_name"]).Err? ==>
                    r == Err(AsKey(first.fields["homework_name"]).error))
    ensures r.Ok? <==>
              && fetch.Fetched?
              && CheckResponse(fetch.response).Ok?
              && var statuses := CheckResponse(fetch.response).value;
                 (statuses == [] ||
                  (ParseStatus(statuses[0]).Ok? && AsKey(statuses[0].fields["homework_name"]).Ok?))
    ensures r.Ok? ==> r.value.currentDate == Get(fetch.response.fields, "current_date")
    ensures r.Ok? ==> (r.value.update.NoRecord? <==> CheckResponse(fetch.response).value == [])
    ensures r.Ok? && r.value.update.Record? ==>
              var first := CheckResponse(fetch.response).value[0];
              && ParseStatus(first) == Ok(r.value.update.message)
              && AsKey(first.fields["homework_name"]) == Ok(r.value.update.key)
              && first.fields["status"] == JStr(r.value.update.status)
              && r.value.update.status in Verdicts
  {
    match fetch
    case FetchFailed(reason) => Err(FetchError(reason))
    case Fetched(response) =>
      match CheckResponse(response)
      case Err(f) => Err(f)
      case Ok(statuses) =>
        var date := Get(response.fields, "current_date");
        if |statuses| == 0 then Ok(Outcome(NoRecord, date))
        else
          match ParseStatus(statuses[0])
          case Err(f) => Err(f)
          case Ok(message) =>
            var first := statuses[0].fields;
            match AsKey(first["homework_name"])
            case Err(f) => Err(f)
            case Ok(key) => Ok(Outcome(Record(key, first["status"].s, message), date))
  }

  /** The text the except branch stores and sends. */
  function Alert(f: Failure): string
  {
    AlertPrefix + Text(f)
  }

  const AlertPrefix := "Сбой в работе программы: "

  /** Two failures give the same alert exactly when their exception texts agree, so the
      error entry deduplicates by text, not by kind. */
  lemma AlertsMatchTexts(f: Failure, g: Failure)
    ensures Alert(f) == Alert(g) <==> Text(f) == Text(g)
  {
    if Alert(f) == Alert(g) {
      assert Text(f) == Alert(f)[|AlertPrefix|..];
      assert Text(g) == Alert(g)[|AlertPrefix|..];
    }
  }

  /** One cycle: the new state and the notification sent, if any. Requires the
      invariant every cycle re-establishes: the snapshot equals the report. */
  function Cycle(s: State, fetch: Fetch): (r: (State, Option<string>))
    requires s.prev == s.current
    ensures r.0.prev == r.0.current
    ensures r.1.Some? <==> r.0.current != s.current
    ensures r.1.None? ==> r.0 == s
    ensures s.current.Keys <= r.0.current.Keys
    ensures r.0.cursor != s.cursor ==> r.1.Some? && Attempt(fetch).Ok?
  {
    match Attempt(fetch)
    case Ok(Outcome(update, date)) =>
      var report := if update.Record? then s.current[update.key := update.status] else s.current;
      if report != s.prev then (State(report, report, date.GetOr(s.cursor)), Some(update.message))
      else (State(report, s.prev, s.cursor), None)
    case Err(failure) =>
      var report := s.current[ErrorKey := Alert(failure)];
      if report != s.prev then (State(report, report, s.cursor), Some(Alert(failure)))
      else (State(report, s.prev, s.cursor), None)
  }

  /** A successful cycle with a record writes that record's status under its name and
      notifies, with the record's text, exactly when that entry was absent or different;
      the cursor then takes `current_date` when the response has one. */
  lemma RecordCycle(s: State, fetch: Fetch, key: Key, status: string, message: string, date: Option<Json>)
    requires s.prev == s.current
    requires Attempt(fetch) == Ok(Outcome(Record(key, status, message), date))
    ensures Cycle(s, fetch).0.current == s.current[key := status]
    ensures Cycle(s, fetch).1.Some? <==> key !in s.current || s.current[key] != status
    ensures Cycle(s, fetch).1.Some? ==> Cycle(s, fetch).1 == Some(message) && Cycle(s, fetch).0.cursor == date.GetOr(s.cursor)
    ensures Cycle(s, fetch).1.None? ==> Cycle(s, fetch).0.cursor == s.cursor
  {
  }

  /** A successful cycle with an empty list changes nothing and sends nothing. */
  lemma EmptyListCycle(s: State, fetch: Fetch, date: Option<Json>)
    requires s.prev == s.current
    requires Attempt(fetch) == Ok(Outcome(NoRecord, date))
    ensures Cycle(s, fetch) == (s, None)
  {
  }

  /** A failed cycle stores the alert under the error key and sends it exactly when the
      entry held a different text; the cursor never moves. */
  lemma FailureCycle(s: State, fetch: Fetch, failure: Failure)
    requires s.prev == s.current
    requires Attempt(fetch) == Err(failure)
    ensures Cycle(s, fetch).0.current == s.current[ErrorKey := Alert(failure)]
    ensures Cycle(s, fetch).0.cursor == s.cursor
    ensures Cycle(s, fetch).1.Some? <==> ErrorKey !in s.current || s.current[ErrorKey] != Alert(failure)
    ensures Cycle(s, fetch).1.Some? ==> Cycle(s, fetch).1 == Some(Alert(failure))
  {
  }

  /** Running a cycle again on the same fetch result changes nothing and sends nothing. */
  lemma CycleIdempotent(s: State, fetch: Fetch)
    requires s.prev == s.current
    ensures Cycle(Cycle(s, fetch).0, fetch) == (Cycle(s, fetch).0, None)
  {
  }

  /** Only the first record matters: two responses whose lists start with the same
      record and that agree on `current_date` give the same cycle. */
  lemma OnlyFirstRecordMatters(s: State, r1: map<string, Json>, r2: map<string, Json>)
    requires s.prev == s.current
    requires "homeworks" in r1 && r1["homeworks"].JArr? && |r1["homeworks"].items| > 0
    requires "homeworks" in r2 && r2["homeworks"].JArr? && |r2["homeworks"].items| > 0
    requires r1["homeworks"].items[0] == r2["homeworks"].items[0]
    requires Get(r1, "current_date") == Get(r2, "current_date")
    ensures Cycle(s, Fetched(JObj(r1))) == Cycle(s, Fetched(JObj(r2)))
  {
  }

  /** A run of cycles: the final state and the notifications sent, in order. */
  function Run(s: State, fetches: seq<Fetch>): (r: (State, seq<string>))
    requires s.prev == s.current
    ensures r.0.prev == r.0.current
    ensures |r.1| <= |fetches|
    ensures s.current.Keys <= r.0.current.Keys
    decreases |fetches|
  {
    if fetches == [] then (s, [])
    else
      var (s1, sent) := Cycle(s, fetches[0]);
      var (s2, later) := Run(s1, fetches[1..]);
      (s2, (if sent.Some? then [sent.value] else []) + later)
  }

  /** The notifications of one cycle, as a list of zero or one message. */
  function Sent(sent: Option<string>): seq<string>
  {
    if sent.Some? then [sent.value] else []
  }

  /** A run is its first cycle followed by the run of the remaining fetch results. */
  lemma RunUnfold(s: State, fetches: seq<Fetch>, i: nat)
    requires s.prev == s.current && i < |fetches|
    ensures var (s1, sent) := Cycle(s, fetches[i]);
            Run(s, fetches[i..]) == (Run(s1, fetches[i + 1..]).0, Sent(sent) + Run(s1, fetches[i + 1..]).1)
  {
    assert fetches[i..][0] == fetches[i] && fetches[i..][1..] == fetches[i + 1..];
  }

  /** Regrouping the messages of a run: what was sent so far, then this cycle's, then the rest's. */
  lemma RegroupSent(sent: seq<string>, one: seq<string>, rest: seq<string>)
    ensures sent + (one + rest) == (sent + one) + rest
  {
  }

  /** A fetch result repeated over and over is notified at most once. */
  lemma {:induction false} RepeatNotifiesOnce(s: State, fetches: seq<Fetch>)
    requires s.prev == s.current
    requires forall i :: 0 <= i < |fetches| ==> fetches[i] == fetches[0]
    ensures |Run(s, fetches).1| <= 1
  {
    if fetches != [] {
      var s1 := Cycle(s, fetches[0]).0;
      RepeatIsQuiet(s1, fetches[0], fetches[1..]);
    }
  }

  /** Once a cycle has run on a fetch result, repeating it is silent and leaves the state. */
  lemma {:induction false} RepeatIsQuiet(s: State, fetch: Fetch, fetches: seq<Fetch>)
    requires s.prev == s.current
    requires Cycle(s, fetch) == (s, None)
    requires forall i :: 0 <= i < |fetches| ==> fetches[i] == fetch
    ensures Run(s, fetches) == (s, [])
  {
    if fetches != [] {
      RepeatIsQuiet(s, fetch, fetches[1..]);
    }
  }

  /** A successful cycle whose record is not named "error" keeps the stored alert. */
  predicate KeepsAlert(fetch: Fetch)
  {
    Attempt(fetch).Ok? && (Attempt(fetch).value.update.Record? ==> Attempt(fetch).value.update.key != ErrorKey)
  }

  /** The stored alert survives any run of such cycles, so the same failure
      recurring after a recovery sends nothing. */
  lemma {:induction false} AlertOutlivesRecovery(s: State, fetches: seq<Fetch>, fail: Fetch)
    requires s.prev == s.current
    requires forall i :: 0 <= i < |fetches| ==> KeepsAlert(fetches[i])
    requires Attempt(fail).Err? && ErrorKey in s.current && s.current[ErrorKey] == Alert(Attempt(fail).error)
    ensures ErrorKey in Run(s, fetches).0.current && Run(s, fetches).0.current[ErrorKey] == s.current[ErrorKey]
    ensures Cycle(Run(s, fetches).0, fail).1 == None
    decreases |fetches|
  {
    if fetches == [] {
      FailureCycle(s, fail, Attempt(fail).error);
    } else {
      var s1 := Cycle(s, fetches[0]).0;
      match Attempt(fetches[0]) {
        case Ok(Outcome(Record(key, status, message), date)) =>
          RecordCycle(s, fetches[0], key, status, message, date);
        case Ok(Outcome(NoRecord, date)) =>
      }
      AlertOutlivesRecovery(s1, fetches[1..], fail);
    }
  }

  /** The bot's state between cycles, updated in place. */
  class Poller {
    var current: map<Key, string>
    var prev: map<Key, string>
    var cursor: Json

    ghost predicate Valid()
      reads this
    {
      prev == current
    }

    function Snapshot(): State
      reads this
    {
      State(current, prev, cursor)
    }

    /** The state main sets up before its loop, with `now` as int(time.time()). */
    constructor (now: int)
      ensures Valid() && Snapshot() == Initial(now)
    {
      current := map[];
      prev := map[];
      cursor := JInt(now);
    }

    /** The body of main's loop, without the sleep. */
    method Step(fetch: Fetch) returns (sent: Option<string>)
      requires Valid()
      modifies this
      ensures Valid()
      ensures (Snapshot(), sent) == Cycle(old(Snapshot()), fetch)
    {
      sent := None;
      var raised: Option<Failure> := None;
      match fetch {
        case FetchFailed(reason) =>
          raised := Some(FetchError(reason));
        case Fetched(response) =>
          var statuses := CheckResponse(response);
          if statuses.Err? {
            raised := Some(statuses.error);
          } else {
            var message := "";
            if |statuses.value| > 0 {
              var first := statuses.value[0];
              var parsed := ParseStatus(first);
              if parsed.Err? {
                raised := Some(parsed.error);
              } else {
                message := parsed.value;
                var key := AsKey(first.fields["homework_name"]);
                if key.Err? {
                  raised := Some(key.error);
                } else {
                  current := current[key.value := first.fields["status"].s];
                }
              }
            }
            if raised.None? && current != prev {
              sent := Some(message);
              prev := current;
              cursor := Get(response.fields, "current_date").GetOr(cursor);
            }
          }
      }
      if raised.Some? {
        var message := Alert(raised.value);
        current := current[ErrorKey := message];
        if current != prev {
          sent := Some(message);
          prev := current;
        }
      }
    }

    /** The first cycles of main's endless loop, one fetch result per cycle. */
    method Poll(fetches: seq<Fetch>) returns (sent: seq<string>)
      requires Valid()
      modifies this
      ensures Valid()
      ensures (Snapshot(), sent) == Run(old(Snapshot()), fetches)
    {
      sent := [];
      ghost var start := Snapshot();
      ghost var whole := Run(start, fetches);
      assert fetches[0..] == fetches && [] + whole.1 == whole.1;
      for i := 0 to |fetches|
        invariant Valid()
        invariant whole == (Run(Snapshot(), fetches[i..]).0, sent + Run(Snapshot(), fetches[i..]).1)
      {
        RunUnfold(Snapshot(), fetches, i);
        var one := Step(fetches[i]);
        RegroupSent(sent, Sent(one), Run(Snapshot(), fetches[i + 1..]).1);
        sent := sent + Sent(one);
      }
      assert fetches[|fetches|..] == [] && sent + [] == sent;
    }
  }
}
