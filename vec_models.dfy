/**
 * vectorizer/models.py: the task statuses and the records the
 * vectorizer stores — a status with its creation time and extra info, a task
 * with its current status and history, and one vector slot per text.
 * Timestamps are abstract ints; vectors are sequences of reals.
 */
module VecModels {
  import opened Common

  /** The attributes of class `Status`; each stands for its string value. */
  datatype Status = Done | Retrying | Vectorizing | UnknownError | RuntimeError | OutOfAttempts

  /** The string a status is stored and sent as. */
  function StatusText(s: Status): string
  {
    match s
    case Done => "Done!"
    case Retrying => "Retrying..."
    case Vectorizing => "Vectorizing..."
    case UnknownError => "Unknown error"
    case RuntimeError => "Model runtime error"
    case OutOfAttempts => "Task ran out of attempts"
  }

  /** The six values are pairwise distinct (they differ in their first character), so a stored
      string names exactly one status. */
  lemma ValueInjective(a: Status, b: Status)
    ensures StatusText(a) == StatusText(b) <==> a == b
  {
    if a != b {
      assert StatusText(a)[0] != StatusText(b)[0];
    }
  }

  /** The attributes of class `Status`, in definition order. */
  const StatusAttrs: seq<(string, Status)> := [
    ("DONE", Done), ("RETRYING", Retrying), ("VECTORIZING", Vectorizing),
    ("UNKNOWNERROR", UnknownError), ("RUNTIMEERROR", RuntimeError), ("OUTOFATTEMPTS", OutOfAttempts)]

  /** `Status.<name>`: the first attribute of that name, else AttributeError. */
  function StatusAttr(name: string): (r: Result<Status>)
    ensures r.Ok? <==> exists i :: 0 <= i < |StatusAttrs| && StatusAttrs[i].0 == name
    ensures r.Ok? ==> exists i :: 0 <= i < |StatusAttrs| && StatusAttrs[i] == (name, r.value)
    ensures r.Err? ==> r.error == AttributeError(name)
  {
    AttrIn(StatusAttrs, name)
  }

  function AttrIn(attrs: seq<(string, Status)>, name: string): (r: Result<Status>)
    ensures r.Ok? <==> exists i :: 0 <= i < |attrs| && attrs[i].0 == name
    ensures r.Ok? ==> exists i :: 0 <= i < |attrs| && attrs[i] == (name, r.value)
    ensures r.Err? ==> r.error == AttributeError(name)
  {
    if attrs == [] then Err(AttributeError(name))
    else if attrs[0].0 == name then Ok(attrs[0].1)
    else
      var r := AttrIn(attrs[1..], name);
      if r.Ok? then
        assert exists i :: 0 <= i < |attrs[1..]| && attrs[1..][i] == (name, r.value);
        var i :| 0 <= i < |attrs[1..]| && attrs[1..][i] == (name, r.value);
        assert attrs[i + 1] == (name, r.value);
        r
      else
        assert forall i :: 0 < i < |attrs| ==> attrs[i] == attrs[1..][i - 1];
        r
  }

  /** Every status is reachable by its attribute name. */
  lemma EveryStatusNamed(st: Status)
    ensures exists i :: 0 <= i < |StatusAttrs| && StatusAttrs[i].1 == st
  {
    var i := match st
      case Done => 0 case Retrying => 1 case Vectorizing => 2
      case UnknownError => 3 case RuntimeError => 4 case OutOfAttempts => 5;
    assert StatusAttrs[i].1 == st;
  }

  /** `Status.TIMEOUT` does not exist: reading it raises AttributeError. */
  lemma NoTimeoutStatus()
    ensures StatusAttr("TIMEOUT") == Err(AttributeError("TIMEOUT"))
  {
    forall i | 0 <= i < |StatusAttrs| ensures StatusAttrs[i].0 != "TIMEOUT" {
      assert |StatusAttrs[i].0| != |"TIMEOUT"|;
    }
  }

  /** `StatusModel`: a status, its creation time and the extra keyword arguments (optional). */
  datatype StatusModel = StatusModel(status: Status, dateCreated: int, statusInfo: Option<Doc>)

  /** `TaskModel`: the history defaults to the empty list. */
  datatype TaskModel = TaskModel(taskId: string, dateCreated: int, currentStatus: StatusModel, history: seq<StatusModel>)

  /** `VectorModel`: a slot of a task, identified by its position; the vector defaults to empty. */
  datatype VectorModel = VectorModel(taskId: string, vectorId: int, text: string, vector: seq<real>)

  /** `TaskModel(task_id=..., current_status=..., date_created=...)`: no history given. */
  function NewTask(taskId: string, now: int, current: StatusModel): (t: TaskModel)
    ensures t.taskId == taskId && t.currentStatus == current && t.dateCreated == now
    ensures t.history == []
  {
    TaskModel(taskId, now, current, [])
  }

  /** `VectorModel(task_id=..., vector_id=..., text=...)`: no vector given. */
  function NewSlot(taskId: string, vectorId: int, text: string): (v: VectorModel)
    ensures v.taskId == taskId && v.vectorId == vectorId && v.text == text
    ensures v.vector == []
  {
    VectorModel(taskId, vectorId, text, [])
  }
}
