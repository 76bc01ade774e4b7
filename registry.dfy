/**
 * The job registry of src/backend/task_manager.py: task records, their
 * dictionary form for the JSON persistence file, and the `TaskManager`
 * class that owns the map from task id to record.
 *
 * The clock is a parameter (`now`) of every operation that reads it; the
 * lock only makes each call atomic and is not modelled.
 */
module Registry {
  import opened Wrappers
  import opened Json

  /** The statuses for which `update_task` stamps `completed_at`. */
  predicate IsTerminal(status: string) {
    status == "completed" || status == "failed" || status == "error"
  }

  /**
   * One task record.  `result` is any JSON value, with `JNull` standing for
   * Python's `None`; `completedAt` and `error` are absent until set.
   */
  datatype Task = Task(
    taskId: string,
    taskType: string,
    status: string,
    progress: real,
    message: string,
    params: map<string, JsonValue>,
    createdAt: real,
    updatedAt: real,
    completedAt: Option<real>,
    result: JsonValue,
    error: Option<string>)

  /** `Task(task_id, task_type, params)` at time `now`; a missing or empty `params` becomes `{}`. */
  function NewTask(taskId: string, taskType: string, params: Option<map<string, JsonValue>>, now: real): (t: Task)
    ensures t.taskId == taskId && t.taskType == taskType
    ensures t.status == "pending" && t.progress == 0.0 && t.message == "Task initialized"
    ensures params.Some? ==> t.params == params.value
    ensures params.None? ==> t.params == map[]
    ensures t.createdAt == now && t.updatedAt == now
    ensures t.completedAt.None? && t.result.JNull? && t.error.None?
  {
    Task(taskId, taskType, "pending", 0.0, "Task initialized", params.GetOr(map[]),
         now, now, None, JNull, None)
  }

  /**
   * The keyword arguments of `update_task`: `None` (and `JNull` for
   * `result`) means the argument was not passed.
   */
  datatype Update = Update(
    status: Option<string>,
    progress: Option<real>,
    message: Option<string>,
    result: JsonValue,
    error: Option<string>)

  /** `if status:` / `if message:` — an empty string counts as not supplied. */
  predicate Supplied(s: Option<string>) {
    s.Some? && |s.value| > 0
  }

  /**
   * The record `update_task` leaves behind: each field changes only when its
   * argument was supplied, a terminal status stamps `completedAt`, and
   * `updatedAt` is always refreshed.
   */
  function Patched(t: Task, u: Update, now: real): (r: Task)
    ensures r.taskId == t.taskId && r.taskType == t.taskType
    ensures r.params == t.params && r.createdAt == t.createdAt
    ensures !Supplied(u.status) ==> r.status == t.status && r.completedAt == t.completedAt
    ensures Supplied(u.status) ==> r.status == u.status.value
    ensures Supplied(u.status) && IsTerminal(u.status.value) ==> r.completedAt == Some(now)
    ensures Supplied(u.status) && !IsTerminal(u.status.value) ==> r.completedAt == t.completedAt
    ensures u.progress.None? ==> r.progress == t.progress
    ensures u.progress.Some? ==> r.progress == u.progress.value
    ensures !Supplied(u.message) ==> r.message == t.message
    ensures Supplied(u.message) ==> r.message == u.message.value
    ensures u.result.JNull? ==> r.result == t.result
    ensures !u.result.JNull? ==> r.result == u.result
    ensures u.error.None? ==> r.error == t.error
    ensures u.error.Some? ==> r.error == u.error
    ensures r.updatedAt == now
  {
    var stamped := Supplied(u.status) && IsTerminal(u.status.value);
    t.(status := if Supplied(u.status) then u.status.value else t.status,
       completedAt := if stamped then Some(now) else t.completedAt,
       progress := u.progress.GetOr(t.progress),
       message := if Supplied(u.message) then u.message.value else t.message,
       result := if u.result.JNull? then t.result else u.result,
       error := if u.error.Some? then u.error else t.error,
       updatedAt := now)
  }

  /** A terminal record carries its completion time. */
  predicate Consistent(t: Task) {
    IsTerminal(t.status) ==> t.completedAt.Some?
  }

  predicate AllConsistent(m: map<string, Task>) {
    forall id :: id in m ==> Consistent(m[id])
  }

  /** A new record is consistent, and every update keeps a record consistent. */
  lemma {:induction false} UpdateKeepsConsistent(t: Task, u: Update, now: real)
    requires Consistent(t)
    ensures Consistent(Patched(t, u, now))
  {
  }

  /**
   * The registry does not enforce "`completed_at` is set only when the status
   * is terminal": re-opening a finished task keeps its completion time.
   */
  lemma {:induction false} ReopenedTaskKeepsCompletedAt(t: Task, now: real)
    requires t.status == "completed" && t.completedAt.Some?
    ensures var r := Patched(t, Update(Some("processing"), None, None, JNull, None), now);
            !IsTerminal(r.status) && r.completedAt == t.completedAt
  {
  }

  // ---------------------------------------------------------------------
  // Dictionary form (`to_dict` / `from_dict`)
  // ---------------------------------------------------------------------

  function OptionalNumber(x: Option<real>): JsonValue {
    if x.Some? then JNumber(x.value) else JNull
  }

  function OptionalString(x: Option<string>): JsonValue {
    if x.Some? then JString(x.value) else JNull
  }

  /** The keys of a persisted task record. */
  const TaskFields: set<string> :=
    {"task_id", "task_type", "status", "progress", "message", "params",
     "created_at", "updated_at", "completed_at", "result", "error"}

  /** `Task.to_dict()`: the eleven fields under their persisted names. */
  function ToDict(t: Task): (d: JsonValue)
    ensures d.JObject? && d.fields.Keys == TaskFields
  {
    var m := map[
      "task_id" := JString(t.taskId),
      "task_type" := JString(t.taskType),
      "status" := JString(t.status),
      "progress" := JNumber(t.progress),
      "message" := JString(t.message),
      "params" := JObject(t.params),
      "created_at" := JNumber(t.createdAt),
      "updated_at" := JNumber(t.updatedAt),
      "completed_at" := OptionalNumber(t.completedAt),
      "result" := t.result,
      "error" := OptionalString(t.error)];
    assert m.Keys == TaskFields;
    JObject(m)
  }

  /** `data.get(key, default)` */
  function Get(m: map<string, JsonValue>, key: string, default: JsonValue): JsonValue {
    if key in m then m[key] else default
  }

  function AsString(v: JsonValue): Option<string> {
    if v.JString? then Some(v.s) else None
  }

  function AsNumber(v: JsonValue): Option<real> {
    if v.JNumber? then Some(v.n) else None
  }

  /** A nullable number: `None` stays absent; anything but a number is refused. */
  function AsOptionalNumber(v: JsonValue): Option<Option<real>> {
    match v
    case JNull => Some(None)
    case JNumber(n) => Some(Some(n))
    case _ => None
  }

  function AsOptionalString(v: JsonValue): Option<Option<string>> {
    match v
    case JNull => Some(None)
    case JString(s) => Some(Some(s))
    case _ => None
  }

  /** `params or {}` applied to `data.get("params", {})`: a falsy value becomes `{}`. */
  function AsParams(v: JsonValue): Option<map<string, JsonValue>> {
    if !Truthy(v) then Some(map[])
    else if v.JObject? then Some(v.fields)
    else None
  }

  /**
   * `Task.from_dict(data)` at time `now`.  `None` when the record is not
   * an object or lacks `task_id`/`task_type` (the KeyError or TypeError the
   * Python raises), and also when a field holds a value of a type the typed
   * record cannot carry, which the Python copies as it is.  Missing
   * optional fields take the defaults of the source (`""` for the message,
   * `now` for the timestamps).
   */
  function FromDict(d: JsonValue, now: real): (r: Option<Task>)
    ensures r.Some? ==> d.JObject? && "task_id" in d.fields && "task_type" in d.fields
    ensures r.Some? ==> d.fields["task_id"] == JString(r.value.taskId)
  {
    if !d.JObject? || "task_id" !in d.fields || "task_type" !in d.fields then None
    else
      var m := d.fields;
      var taskId := AsString(m["task_id"]);
      var taskType := AsString(m["task_type"]);
      var params := AsParams(Get(m, "params", JObject(map[])));
      var status := AsString(Get(m, "status", JString("pending")));
      var progress := AsNumber(Get(m, "progress", JNumber(0.0)));
      var message := AsString(Get(m, "message", JString("")));
      var createdAt := AsNumber(Get(m, "created_at", JNumber(now)));
      var updatedAt := AsNumber(Get(m, "updated_at", JNumber(now)));
      var completedAt := AsOptionalNumber(Get(m, "completed_at", JNull));
      var error := AsOptionalString(Get(m, "error", JNull));
      if taskId.None? || taskType.None? || params.None? || status.None? || progress.None?
         || message.None? || createdAt.None? || updatedAt.None? || completedAt.None? || error.None?
      then None
      else Some(Task(taskId.value, taskType.value, status.value, progress.value, message.value,
                     params.value, createdAt.value, updatedAt.value, completedAt.value,
                     Get(m, "result", JNull), error.value))
  }

  /** `Task.from_dict(t.to_dict())` reproduces every field of `t`, whatever the clock says. */
  lemma {:induction false} DictRoundTrip(t: Task, now: real)
    ensures FromDict(ToDict(t), now) == Some(t)
  {
    ToDictFields(t);
    assert AsParams(ToDict(t).fields["params"]) == Some(t.params);
  }

  /** Each field of `to_dict` holds the attribute it is named after. */
  lemma {:induction false} ToDictFields(t: Task)
    ensures var m := ToDict(t).fields;
      && m["task_id"] == JString(t.taskId) && m["task_type"] == JString(t.taskType)
      && m["status"] == JString(t.status) && m["progress"] == JNumber(t.progress)
      && m["message"] == JString(t.message) && m["params"] == JObject(t.params)
      && m["created_at"] == JNumber(t.createdAt) && m["updated_at"] == JNumber(t.updatedAt)
      && m["completed_at"] == OptionalNumber(t.completedAt) && m["result"] == t.result
      && m["error"] == OptionalString(t.error)
  {
  }

  /** What `_load_tasks` finds at the persistence path. */
  datatype Stored = Missing | Unparsable | Parsed(doc: JsonValue)

  /** The tasks `_load_tasks` recovers, with any failure giving an empty registry. */
  function Loaded(stored: Stored, now: real): (m: map<string, Task>)
    ensures stored.Missing? || stored.Unparsable? ==> m == map[]
    ensures m != map[] ==> stored.Parsed? && stored.doc.JObject? && m.Keys == stored.doc.fields.Keys
  {
    match stored
    case Missing => map[]
    case Unparsable => map[]
    case Parsed(doc) =>
      if doc.JObject? && forall id :: id in doc.fields ==> FromDict(doc.fields[id], now).Some? then
        map id | id in doc.fields :: FromDict(doc.fields[id], now).value
      else map[]
  }

  /** The document `_save_tasks` writes. */
  function SavedDocument(tasks: map<string, Task>): JsonValue {
    JObject(map id | id in tasks :: ToDict(tasks[id]))
  }

  /** Every record in the saved document is read back as the task it came from. */
  lemma {:induction false} SavedRecordsRead(tasks: map<string, Task>, now: real)
    ensures forall id | id in SavedDocument(tasks).fields :: FromDict(SavedDocument(tasks).fields[id], now) == Some(tasks[id])
  {
    forall id | id in SavedDocument(tasks).fields
      ensures FromDict(SavedDocument(tasks).fields[id], now) == Some(tasks[id])
    {
      DictRoundTrip(tasks[id], now);
    }
  }

  /** Persisting the registry and loading the file back gives the same task map. */
  lemma {:induction false} SaveLoadRoundTrip(tasks: map<string, Task>, now: real)
    ensures Loaded(Parsed(SavedDocument(tasks)), now) == tasks
  {
    SavedRecordsRead(tasks, now);
  }

  /**
   * `TaskManager`: the in-memory map from task id to record.  Every
   * mutating method is followed in the source by a write of
   * `SavedDocument(tasks)` to the persistence file.
   */
  class TaskManager {
    var tasks: map<string, Task>

    /** `TaskManager()`: start from whatever the persistence file yields. */
    constructor (stored: Stored, now: real)
      ensures tasks == Loaded(stored, now)
    {
      tasks := Loaded(stored, now);
    }

    /** The document the next `_save_tasks` writes. */
    function Persisted(): JsonValue
      reads this
    {
      SavedDocument(tasks)
    }

    /** `create_task`: a fresh pending record, silently replacing any record under the same id. */
    method CreateTask(taskId: string, taskType: string, params: Option<map<string, JsonValue>>, now: real)
      returns (t: Task)
      modifies this
      ensures t == NewTask(taskId, taskType, params, now)
      ensures tasks == old(tasks)[taskId := t]
      ensures AllConsistent(old(tasks)) ==> AllConsistent(tasks)
    {
      t := NewTask(taskId, taskType, params, now);
      tasks := tasks[taskId := t];
    }

    /** `get_task`: the stored record, or `None`. */
    method GetTask(taskId: string) returns (r: Option<Task>)
      ensures taskId in tasks ==> r == Some(tasks[taskId])
      ensures taskId !in tasks ==> r == None
    {
      if taskId in tasks {
        r := Some(tasks[taskId]);
      } else {
        r := None;
      }
    }

    /**
     * `update_task`: on a missing id, `None` and no change; otherwise the
     * record is patched field by field and stored back, and no other record
     * changes.
     */
    method UpdateTask(taskId: string, u: Update, now: real) returns (r: Option<Task>)
      modifies this
      ensures taskId !in old(tasks) ==> r == None && tasks == old(tasks)
      ensures taskId in old(tasks) ==> r == Some(Patched(old(tasks)[taskId], u, now))
      ensures taskId in old(tasks) ==> tasks == old(tasks)[taskId := r.value]
      ensures AllConsistent(old(tasks)) ==> AllConsistent(tasks)
    {
      if taskId !in tasks {
        return None;
      }
      var task := tasks[taskId];
      if Supplied(u.status) {
        task := task.(status := u.status.value);
        if IsTerminal(u.status.value) {
          task := task.(completedAt := Some(now));
        }
      }
      if u.progress.Some? {
        task := task.(progress := u.progress.value);
      }
      if Supplied(u.message) {
        task := task.(message := u.message.value);
      }
      if !u.result.JNull? {
        task := task.(result := u.result);
      }
      if u.error.Some? {
        task := task.(error := u.error);
      }
      task := task.(updatedAt := now);
      tasks := tasks[taskId := task];
      r := Some(task);
      if AllConsistent(old(tasks)) {
        UpdateKeepsConsistent(old(tasks)[taskId], u, now);
      }
    }

    /** `delete_task`: removes the record and answers `true` exactly when it was there. */
    method DeleteTask(taskId: string) returns (removed: bool)
      modifies this
      ensures removed == (taskId in old(tasks))
      ensures tasks == old(tasks) - {taskId}
      ensures !removed ==> tasks == old(tasks)
    {
      if taskId in tasks {
        tasks := tasks - {taskId};
        removed := true;
      } else {
        removed := false;
      }
    }

    /** `get_all_tasks`: a copy of the map, with the registry's key set. */
    method GetAllTasks() returns (all: map<string, Task>)
      ensures all == tasks && all.Keys == tasks.Keys
    {
      all := tasks;
    }

    /** `clear_tasks` */
    method ClearTasks()
      modifies this
      ensures tasks == map[]
    {
      tasks := map[];
    }
  }
}
