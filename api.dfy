/**
 * The policy layer of src/backend/api.py that drives the registry: request
 * validation of the generate endpoint, the writes the background worker
 * makes to its task, the status lookup and the clear guard.
 *
 * HTTP plumbing is reduced to a status code and a JSON body; the fresh
 * task id (`uuid4`) and the clock are parameters.
 */
module Api {
  import opened Wrappers
  import opened Json
  import opened Text
  import opened Registry

  /** An HTTP answer: a status code and, for errors, the `"error"` text. */
  datatype Reply =
    | Started(taskId: string)
    | Failed(code: int, error: string)

  // ---------------------------------------------------------------------
  // int(...) as the endpoint applies it to the "duration" field
  // ---------------------------------------------------------------------

  /** `int(x)` for a float: truncation toward zero. */
  function Truncate(x: real): (i: int)
    ensures x >= 0.0 ==> 0.0 <= i as real <= x < i as real + 1.0
    ensures x < 0.0 ==> i as real - 1.0 < x <= i as real <= 0.0
  {
    if x >= 0.0 then x.Floor else -((-x).Floor)
  }

  /** `int(s)` for a string already stripped: an optional sign, then ASCII digits. */
  function ParseIntLiteral(s: string): Option<int> {
    var negative := |s| > 0 && s[0] == '-';
    var digits := if |s| > 0 && (s[0] == '-' || s[0] == '+') then s[1..] else s;
    if |digits| == 0 || !AllDigits(digits) then None
    else
      var magnitude: int := ParseNat(digits);
      Some(if negative then -magnitude else magnitude)
  }

  /**
   * `int(v)` for a decoded JSON value; `None` is the ValueError or
   * TypeError the endpoint turns into a 500.
   */
  function IntOf(v: JsonValue): Option<int> {
    match v
    case JBool(b) => Some(if b then 1 else 0)
    case JNumber(n) => Some(Truncate(n))
    case JString(s) => ParseIntLiteral(Strip(s))
    case _ => None
  }

  /** A decimal integer has no whitespace around it. */
  lemma {:induction false} IntStringTrimmed(i: int)
    ensures Strip(IntToString(i)) == IntToString(i)
  {
    var s := IntToString(i);
    var digits := NatToString(if i < 0 then -i else i);
    assert s[|s| - 1] == digits[|digits| - 1];
    assert IsDigit(digits[|digits| - 1]);
    if i < 0 { assert s[0] == '-'; } else { assert IsDigit(digits[0]); }
    StripTrimmed(s);
  }

  /** The literal parser reads a decimal integer back. */
  lemma {:induction false} ParseIntRoundTrip(i: int)
    ensures ParseIntLiteral(IntToString(i)) == Some(i)
  {
    var s := IntToString(i);
    if i < 0 {
      assert s[1..] == NatToString(-i);
    } else {
      assert IsDigit(s[0]);
    }
  }

  /** `int(str(i)) == i`: every integer written in decimal parses back. */
  lemma {:induction false} IntOfRoundTrip(i: int)
    ensures IntOf(JString(IntToString(i))) == Some(i)
  {
    IntStringTrimmed(i);
    ParseIntRoundTrip(i);
  }

  // ---------------------------------------------------------------------
  // generate_tutorial: validation
  // ---------------------------------------------------------------------

  /** The keys the generate endpoint demands, in the order it checks them. */
  const Required: seq<string> := ["topic", "level", "duration"]

  /** The outcome of the `param not in data` loop. */
  datatype Presence = AllPresent | Absent(param: string) | NotContainer

  /** `param in data` for the value `request.get_json()` produced; `None` is a TypeError. */
  function HasParam(data: JsonValue, param: string): Option<bool> {
    match data
    case JObject(m) => Some(param in m)
    case JArray(xs) => Some(JString(param) in xs)
    case JString(s) => Some(Contains(s, param))
    case _ => None
  }

  /** Checks `params` in order and reports the first one missing. */
  function CheckParams(data: JsonValue, params: seq<string>): (r: Presence)
    ensures r.AllPresent? ==> forall p :: p in params ==> HasParam(data, p) == Some(true)
    ensures r.Absent? ==> r.param in params && HasParam(data, r.param) == Some(false)
    ensures r.NotContainer? ==> |params| > 0 && HasParam(data, params[0]).None?
    ensures data.JObject? ==> !r.NotContainer?
  {
    if |params| == 0 then AllPresent
    else match HasParam(data, params[0])
      case None => NotContainer
      case Some(false) => Absent(params[0])
      case Some(true) => CheckParams(data, params[1..])
  }

  /** What the generate endpoint decides before any task exists. */
  datatype Validation =
    | Reject(reply: Reply)
    | Accept(topic: JsonValue, level: JsonValue, duration: int, apiKey: JsonValue, dryRun: JsonValue)

  /** A 500 raised by the endpoint's `except` clause; the exception text is not modelled. */
  const InternalError: Reply := Failed(500, "An error occurred: ")

  /**
   * The validation of `generate_tutorial`, in the source's order: the three
   * keys, then `int(duration)`, then the empty-topic check, then the range.
   * `data` is what `request.get_json()` returned (`JNull` for `None`).
   */
  function Validate(data: JsonValue): (v: Validation)
    ensures v.Accept? <==>
      data.JObject? && (forall p :: p in Required ==> p in data.fields)
      && IntOf(data.fields["duration"]).Some? && Truthy(data.fields["topic"])
      && 1 <= IntOf(data.fields["duration"]).value <= 10
    ensures v.Accept? ==> v.topic == data.fields["topic"] && v.duration == IntOf(data.fields["duration"]).value
    ensures v.Reject? ==> v.reply.Failed? && (v.reply.code == 400 || v.reply.code == 500)
    ensures data.JObject? && (exists p :: p in Required && p !in data.fields) ==>
      v.Reject? && v.reply.code == 400
  {
    match CheckParams(data, Required)
    case NotContainer => Reject(InternalError)
    case Absent(p) => Reject(Failed(400, "Missing required parameter: " + p))
    case AllPresent =>
      if !data.JObject? then Reject(InternalError)
      else
        var m := data.fields;
        assert "topic" in m && "level" in m && "duration" in m by {
          assert Required[0] in Required && Required[1] in Required && Required[2] in Required;
        }
        var duration := IntOf(m["duration"]);
        if duration.None? then Reject(InternalError)
        else if !Truthy(m["topic"]) then Reject(Failed(400, "Topic cannot be empty"))
        else if !(1 <= duration.value <= 10) then Reject(Failed(400, "Duration must be between 1 and 10 minutes"))
        else Accept(m["topic"], m["level"], duration.value,
                    Get(m, "api_key", JNull), Get(m, "dry_run", JBool(false)))
  }

  /** An empty topic is refused with 400 once the keys are present and the duration parses. */
  lemma {:induction false} EmptyTopicRejected(data: JsonValue)
    requires data.JObject? && "topic" in data.fields && "level" in data.fields && "duration" in data.fields
    requires IntOf(data.fields["duration"]).Some? && !Truthy(data.fields["topic"])
    ensures Validate(data) == Reject(Failed(400, "Topic cannot be empty"))
  {
    assert CheckParams(data, Required) == AllPresent by {
      assert Required[1..][1..][1..] == [];
    }
  }

  /** A duration outside 1..10 is refused with 400 once the topic is non-empty. */
  lemma {:induction false} DurationOutOfRangeRejected(data: JsonValue)
    requires data.JObject? && "topic" in data.fields && "level" in data.fields && "duration" in data.fields
    requires IntOf(data.fields["duration"]).Some? && Truthy(data.fields["topic"])
    requires !(1 <= IntOf(data.fields["duration"]).value <= 10)
    ensures Validate(data) == Reject(Failed(400, "Duration must be between 1 and 10 minutes"))
  {
    assert CheckParams(data, Required) == AllPresent by {
      assert Required[1..][1..][1..] == [];
    }
  }

  // ---------------------------------------------------------------------
  // generate_tutorial_task and its worker
  // ---------------------------------------------------------------------

  /**
   * `str(v)` for the values the worker formats: strings are themselves;
   * other values get a rendering that only stands for Python's.
   */
  function Display(v: JsonValue): string {
    match v
    case JString(s) => s
    case JNull => "None"
    case JBool(b) => if b then "True" else "False"
    case JNumber(n) => if n == n.Floor as real then IntToString(n.Floor) else "<float>"
    case JArray(_) => "<list>"
    case JObject(_) => "<dict>"
  }

  function InitMessage(topic: string): string {
    "Initializing tutorial generation for '" + topic + "'..."
  }

  /** The `params` dictionary the tutorial task is created with. */
  function TutorialParams(topic: JsonValue, level: JsonValue, duration: int, dryRun: JsonValue): map<string, JsonValue> {
    map["topic" := topic, "level" := level, "duration" := JNumber(duration as real), "dry_run" := dryRun]
  }

  /** The record right after `generate_tutorial_task` returns: created, then marked processing. */
  function StartedTask(taskId: string, topic: JsonValue, level: JsonValue, duration: int, dryRun: JsonValue, now: real): (t: Task)
    ensures t.taskId == taskId && t.taskType == "tutorial"
    ensures t.params == TutorialParams(topic, level, duration, dryRun)
    ensures t.status == "processing" && t.progress == 0.0 && t.message == InitMessage(Display(topic))
    ensures t.completedAt.None? && t.result.JNull? && t.error.None?
    ensures t.createdAt == now && t.updatedAt == now
  {
    var created := NewTask(taskId, "tutorial", Some(TutorialParams(topic, level, duration, dryRun)), now);
    Patched(created, Update(Some("processing"), Some(0.0), Some(InitMessage(Display(topic))), JNull, None), now)
  }

  /** `generate_tutorial_task`, up to the point where the worker thread starts. */
  method GenerateTutorialTask(reg: TaskManager, topic: JsonValue, level: JsonValue, duration: int,
                              dryRun: JsonValue, taskId: string, now: real)
    modifies reg
    ensures reg.tasks == old(reg.tasks)[taskId := StartedTask(taskId, topic, level, duration, dryRun, now)]
  {
    var _ := reg.CreateTask(taskId, "tutorial", Some(TutorialParams(topic, level, duration, dryRun)), now);
    var _ := reg.UpdateTask(taskId, Update(Some("processing"), Some(0.0), Some(InitMessage(Display(topic))), JNull, None), now);
  }

  /**
   * The generate endpoint: a refused request leaves the registry alone; an
   * accepted one answers with the fresh id and registers the started task.
   */
  method GenerateTutorial(reg: TaskManager, data: JsonValue, freshId: string, now: real) returns (reply: Reply)
    modifies reg
    ensures Validate(data).Reject? ==> reply == Validate(data).reply && reg.tasks == old(reg.tasks)
    ensures Validate(data).Accept? ==> reply == Started(freshId)
    ensures Validate(data).Accept? ==> var v := Validate(data);
      reg.tasks == old(reg.tasks)[freshId := StartedTask(freshId, v.topic, v.level, v.duration, v.dryRun, now)]
  {
    var v := Validate(data);
    if v.Reject? {
      return v.reply;
    }
    GenerateTutorialTask(reg, v.topic, v.level, v.duration, v.dryRun, freshId, now);
    reply := Started(freshId);
  }

  /** One call of the worker's `progress_callback`. */
  datatype ProgressEvent = ProgressEvent(progress: real, message: string, at: real)

  /** How `create_math_tutorial` ended: with a return value or an exception's text. */
  datatype Outcome = Returned(value: JsonValue) | Raised(text: string)

  function ProgressUpdate(e: ProgressEvent): Update {
    Update(None, Some(e.progress), Some(e.message), JNull, None)
  }

  /** The task after the progress callbacks `events`, applied in order. */
  function AfterProgress(t: Task, events: seq<ProgressEvent>): Task
    decreases |events|
  {
    if |events| == 0 then t
    else
      var last := events[|events| - 1];
      Patched(AfterProgress(t, events[..|events| - 1]), ProgressUpdate(last), last.at)
  }

  /** One more callback patches the task reached so far. */
  lemma {:induction false} AfterProgressStep(t: Task, events: seq<ProgressEvent>, i: nat)
    requires i < |events|
    ensures AfterProgress(t, events[..i + 1]) == Patched(AfterProgress(t, events[..i]), ProgressUpdate(events[i]), events[i].at)
  {
    assert events[..i + 1][..i] == events[..i];
  }

  /** Progress callbacks never touch status, completion time, result or error. */
  lemma {:induction false} ProgressKeepsOutcome(t: Task, events: seq<ProgressEvent>)
    ensures var r := AfterProgress(t, events);
      r.status == t.status && r.completedAt == t.completedAt && r.result == t.result
      && r.error == t.error && r.taskId == t.taskId && r.params == t.params
    decreases |events|
  {
    if |events| > 0 {
      ProgressKeepsOutcome(t, events[..|events| - 1]);
    }
  }

  /** The last `update_task` of `task_thread`, chosen by the outcome. */
  function FinalUpdate(topic: string, outcome: Outcome): Update {
    match outcome
    case Returned(v) =>
      if Truthy(v) then
        Update(Some("completed"), Some(100.0), Some("Tutorial generation completed for '" + topic + "'"),
               JString(Display(v)), None)
      else
        Update(Some("error"), Some(100.0), Some("Tutorial generation failed for '" + topic + "': No result returned"),
               JNull, Some("No result returned from the video generator"))
    case Raised(e) =>
      Update(Some("error"), Some(100.0), Some("Error in tutorial generation: " + e), JNull, Some(e))
  }

  /**
   * The record the worker leaves: terminal, at progress 100, stamped with
   * the finishing time, completed with the result exactly when the
   * generator returned something truthy, otherwise an error with a reason.
   */
  function Finished(t: Task, topic: string, outcome: Outcome, now: real): (r: Task)
    ensures IsTerminal(r.status) && r.progress == 100.0 && r.completedAt == Some(now)
    ensures r.status == "completed" <==> outcome.Returned? && Truthy(outcome.value)
    ensures r.status != "completed" ==> r.status == "error" && r.error.Some?
    ensures outcome.Returned? && Truthy(outcome.value) ==> r.result == JString(Display(outcome.value)) && r.error == t.error
    ensures outcome.Returned? && !Truthy(outcome.value) ==> r.error == Some("No result returned from the video generator")
    ensures outcome.Raised? ==> r.error == Some(outcome.text)
    ensures r.taskId == t.taskId && r.params == t.params && r.createdAt == t.createdAt
  {
    Patched(t, FinalUpdate(topic, outcome), now)
  }

  /** The progress callbacks of `task_thread`, in order; a task removed meanwhile stays removed. */
  method ReportProgress(reg: TaskManager, taskId: string, events: seq<ProgressEvent>)
    modifies reg
    ensures taskId !in old(reg.tasks) ==> reg.tasks == old(reg.tasks)
    ensures taskId in old(reg.tasks) ==>
      reg.tasks == old(reg.tasks)[taskId := AfterProgress(old(reg.tasks)[taskId], events)]
  {
    var i := 0;
    while i < |events|
      invariant 0 <= i <= |events|
      invariant taskId !in old(reg.tasks) ==> reg.tasks == old(reg.tasks)
      invariant taskId in old(reg.tasks) ==>
        reg.tasks == old(reg.tasks)[taskId := AfterProgress(old(reg.tasks)[taskId], events[..i])]
    {
      var e := events[i];
      var _ := reg.UpdateTask(taskId, ProgressUpdate(e), e.at);
      if taskId in old(reg.tasks) {
        AfterProgressStep(old(reg.tasks)[taskId], events, i);
      }
      i := i + 1;
    }
    assert events[..i] == events;
  }

  /**
   * `task_thread` after `generate_tutorial_task`: the progress callbacks in
   * order, then the final write.  A task removed meanwhile stays removed.
   */
  method RunWorker(reg: TaskManager, taskId: string, topic: string, events: seq<ProgressEvent>,
                   outcome: Outcome, finishedAt: real)
    modifies reg
    ensures taskId !in old(reg.tasks) ==> reg.tasks == old(reg.tasks)
    ensures taskId in old(reg.tasks) ==>
      reg.tasks == old(reg.tasks)[taskId := Finished(AfterProgress(old(reg.tasks)[taskId], events), topic, outcome, finishedAt)]
  {
    ReportProgress(reg, taskId, events);
    var _ := reg.UpdateTask(taskId, FinalUpdate(topic, outcome), finishedAt);
  }

  /**
   * The lifecycle of a tutorial task: pending when created, processing when
   * the endpoint returns and through every progress report, then completed
   * or error at progress 100.
   */
  lemma {:induction false} Lifecycle(taskId: string, topic: JsonValue, level: JsonValue, duration: int, dryRun: JsonValue,
                  now: real, events: seq<ProgressEvent>, outcome: Outcome, finishedAt: real)
    ensures NewTask(taskId, "tutorial", Some(TutorialParams(topic, level, duration, dryRun)), now).status == "pending"
    ensures var s := StartedTask(taskId, topic, level, duration, dryRun, now);
      AfterProgress(s, events).status == "processing" && !IsTerminal(AfterProgress(s, events).status)
    ensures var s := StartedTask(taskId, topic, level, duration, dryRun, now);
      var f := Finished(AfterProgress(s, events), Display(topic), outcome, finishedAt);
      (f.status == "completed" || f.status == "error") && f.progress == 100.0
      && f.params == TutorialParams(topic, level, duration, dryRun)
  {
    ProgressKeepsOutcome(StartedTask(taskId, topic, level, duration, dryRun, now), events);
  }

  // ---------------------------------------------------------------------
  // get_task_status
  // ---------------------------------------------------------------------

  /** The status endpoint's answer: 404 with the ids it knows, or the status fields. */
  datatype StatusReply =
    | NotFound(activeTasks: set<string>)
    | Found(fields: map<string, JsonValue>)

  /** The four fields every status answer carries. */
  const StatusFields: set<string> := {"task_id", "status", "progress", "message"}

  function StatusOf(tasks: map<string, Task>, taskId: string): (r: StatusReply)
    ensures r.NotFound? <==> taskId !in tasks
    ensures r.NotFound? ==> r.activeTasks == tasks.Keys
    ensures r.Found? ==> StatusFields <= r.fields.Keys && r.fields["task_id"] == JString(taskId)
    ensures r.Found? ==>
      (r.fields["status"] == JString(tasks[taskId].status)
       && r.fields["progress"] == JNumber(tasks[taskId].progress)
       && r.fields["message"] == JString(tasks[taskId].message))
    ensures r.Found? ==> ("error" in r.fields <==> Truthy(OptionalString(tasks[taskId].error)))
    ensures r.Found? ==> ("result" in r.fields <==> Truthy(tasks[taskId].result))
    ensures r.Found? && "result" in r.fields ==> r.fields["result"] == tasks[taskId].result
    ensures r.Found? && "error" in r.fields ==> r.fields["error"] == OptionalString(tasks[taskId].error)
    ensures r.Found? ==> r.fields.Keys <= StatusFields + {"error", "result"}
  {
    if taskId !in tasks then NotFound(tasks.Keys)
    else
      var t := tasks[taskId];
      var base := map["task_id" := JString(taskId), "status" := JString(t.status),
                      "progress" := JNumber(t.progress), "message" := JString(t.message)];
      var withError := if Truthy(OptionalString(t.error)) then base["error" := OptionalString(t.error)] else base;
      Found(if Truthy(t.result) then withError["result" := t.result] else withError)
  }

  // ---------------------------------------------------------------------
  // clear_task
  // ---------------------------------------------------------------------

  /**
   * `clear_task` as written: the guard answers 404 and 400, but a terminal
   * task reaches `task_manager.remove_task`, which the registry does not
   * define, so the request fails with 500 and the task stays.
   */
  method ClearTaskAsWritten(reg: TaskManager, taskId: string) returns (code: int)
    ensures taskId !in reg.tasks ==> code == 404
    ensures taskId in reg.tasks && !IsTerminal(reg.tasks[taskId].status) ==> code == 400
    ensures taskId in reg.tasks && IsTerminal(reg.tasks[taskId].status) ==> code == 500
  {
    var t := reg.GetTask(taskId);
    if t.None? {
      return 404;
    }
    if !IsTerminal(t.value.status) {
      return 400;
    }
    code := 500;
  }

  /** `clear_task` as intended: a terminal task is deleted and the answer is 200. */
  method ClearTask(reg: TaskManager, taskId: string) returns (code: int)
    modifies reg
    ensures taskId !in old(reg.tasks) ==> code == 404 && reg.tasks == old(reg.tasks)
    ensures taskId in old(reg.tasks) && !IsTerminal(old(reg.tasks)[taskId].status) ==>
      code == 400 && reg.tasks == old(reg.tasks)
    ensures taskId in old(reg.tasks) && IsTerminal(old(reg.tasks)[taskId].status) ==>
      code == 200 && reg.tasks == old(reg.tasks) - {taskId}
  {
    var t := reg.GetTask(taskId);
    if t.None? {
      return 404;
    }
    if !IsTerminal(t.value.status) {
      return 400;
    }
    var _ := reg.DeleteTask(taskId);
    code := 200;
  }
}
