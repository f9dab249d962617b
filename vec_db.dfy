/**
 * vectorizer/db.py: the vectorizer's task store. Two collections — tasks,
 * unique by `task_id`, and vector slots, unique by `(task_id, vector_id)` —
 * are kept as maps keyed by those unique indexes. A task has a current
 * status and a history that only grows; a slot holds one text and,
 * once written, its vector.
 */
module VecDb {
  import opened Common
  import opened VecModels

  type Slots = map<(string, int), VectorModel>

  /** The two collections' contents. */
  datatype Store = Store(tasks: map<string, TaskModel>, vectors: Slots)

  /** Every document sits under the key its unique index derives from it. */
  predicate WellKeyed(s: Store)
  {
    && (forall id :: id in s.tasks ==> s.tasks[id].taskId == id)
    && (forall k :: k in s.vectors ==> s.vectors[k].taskId == k.0 && s.vectors[k].vectorId == k.1)
  }

  /** Every slot belongs to a task that exists: `create_task` writes slots only for the task it
      has just inserted. */
  predicate SlotsOwned(s: Store)
  {
    forall k :: k in s.vectors ==> k.0 in s.tasks
  }

  /** In such a store a task id not yet taken has no slots, as `CreateTaskCreates` requires. */
  lemma {:induction false} FreshTaskHasNoSlots(s: Store, taskId: string)
    requires SlotsOwned(s) && taskId !in s.tasks
    ensures forall k :: k in s.vectors ==> k.0 != taskId
  {
  }

  /** `create_new_status(status, **status_info)`: the keyword arguments always form a dict. */
  function CreateNewStatus(status: Status, info: Doc, now: int): (s: StatusModel)
    ensures s.status == status && s.statusInfo == Some(info) && s.dateCreated == now
  {
    StatusModel(status, now, Some(info))
  }

  // ---------------------------------------------------------------- create_task

  /** The slots `create_task` writes for the first n texts: slot i holds text i. */
  function NewSlots(taskId: string, texts: seq<string>, n: nat): Slots
    requires n <= |texts|
  {
    if n == 0 then map[] else NewSlots(taskId, texts, n - 1)[(taskId, n - 1) := NewSlot(taskId, n - 1, texts[n - 1])]
  }

  /** The slots are exactly those of the task numbered 0..n-1, slot i holding text i. */
  lemma {:induction false} NewSlotsMeans(taskId: string, texts: seq<string>, n: nat)
    requires n <= |texts|
    ensures var m := NewSlots(taskId, texts, n);
      && (forall k :: k in m <==> k.0 == taskId && 0 <= k.1 < n)
      && (forall i :: 0 <= i < n ==> m[(taskId, i)] == NewSlot(taskId, i, texts[i]))
  {
    if n > 0 {
      NewSlotsMeans(taskId, texts, n - 1);
    }
  }

  /** The first of the slots 0..n-1 of a task that is already taken, if any. */
  function FirstClash(vectors: Slots, taskId: string, n: nat): (c: Option<nat>)
    ensures c.Some? ==> c.value < n && (taskId, c.value as int) in vectors
                        && forall i :: 0 <= i < c.value ==> (taskId, i) !in vectors
    ensures c.None? ==> forall i :: 0 <= i < n ==> (taskId, i) !in vectors
  {
    if n == 0 then None
    else
      var c := FirstClash(vectors, taskId, n - 1);
      if c.Some? then c
      else if (taskId, n - 1) in vectors then Some(n - 1)
      else None
  }

  /**
   * `create_task(task_id, texts)`: insert the task (a duplicate id raises), then the
   * slots with one ordered `insert_many` — which raises TypeError on an empty list
   * and otherwise stops at the first slot whose key is taken, keeping those before it.
   */
  function CreateTaskSpec(s: Store, taskId: string, texts: seq<string>, now: int): (Result<TaskModel>, Store)
  {
    if taskId in s.tasks then (Err(DuplicateKeyError), s)
    else
      var task := NewTask(taskId, now, CreateNewStatus(Vectorizing, map[], now));
      var tasks := s.tasks[taskId := task];
      if texts == [] then (Err(TypeError("documents must be a non-empty list")), Store(tasks, s.vectors))
      else
        match FirstClash(s.vectors, taskId, |texts|)
        case Some(i) => (Err(BulkWriteFailure(i)), Store(tasks, s.vectors + NewSlots(taskId, texts, i)))
        case None => (Ok(task), Store(tasks, s.vectors + NewSlots(taskId, texts, |texts|)))
  }

  /** An existing task id fails with DuplicateKeyError and changes nothing; only that error does. */
  lemma {:induction false} CreateTaskDuplicate(s: Store, taskId: string, texts: seq<string>, now: int)
    ensures var (r, s') := CreateTaskSpec(s, taskId, texts, now);
      (r == Err(DuplicateKeyError) <==> taskId in s.tasks) && (taskId in s.tasks ==> s' == s)
  {
  }

  /**
   * A new task id with texts and no slots of its own yet: the task is Vectorizing with an
   * empty history, slot i holds text i with an empty vector, and every other task and slot
   * is kept as it was.
   */
  lemma {:induction false} CreateTaskCreates(s: Store, taskId: string, texts: seq<string>, now: int)
    requires taskId !in s.tasks && texts != []
    requires forall k :: k in s.vectors ==> k.0 != taskId
    ensures var (r, s') := CreateTaskSpec(s, taskId, texts, now);
      && r.Ok? && r.value == s'.tasks[taskId]
      && r.value.currentStatus.status == Vectorizing && r.value.currentStatus.statusInfo == Some(map[])
      && r.value.history == []
      && s'.tasks.Keys == s.tasks.Keys + {taskId}
      && (forall id :: id in s.tasks ==> s'.tasks[id] == s.tasks[id])
      && (forall k :: k in s'.vectors <==> k in s.vectors || (k.0 == taskId && 0 <= k.1 < |texts|))
      && (forall i :: 0 <= i < |texts| ==> s'.vectors[(taskId, i)] == VectorModel(taskId, i, texts[i], []))
      && (forall k :: k in s.vectors ==> s'.vectors[k] == s.vectors[k])
  {
    NewSlotsMeans(taskId, texts, |texts|);
  }

  /** `create_task` keeps every slot owned by an existing task, whatever its outcome. */
  lemma {:induction false} CreateTaskOwned(s: Store, taskId: string, texts: seq<string>, now: int)
    requires SlotsOwned(s)
    ensures SlotsOwned(CreateTaskSpec(s, taskId, texts, now).1)
  {
    if taskId !in s.tasks && texts != [] {
      NewSlotsMeans(taskId, texts, |texts|);
    }
  }

  /** An empty text list still leaves the task behind (it is inserted first) and raises TypeError. */
  lemma {:induction false} CreateTaskEmptyTexts(s: Store, taskId: string, now: int)
    requires taskId !in s.tasks
    ensures var (r, s') := CreateTaskSpec(s, taskId, [], now);
      r.Err? && r.error.TypeError? && taskId in s'.tasks && s'.vectors == s.vectors
  {
  }

  /** Creating a task keeps every document under its unique-index key. */
  lemma {:induction false} CreateTaskWellKeyed(s: Store, taskId: string, texts: seq<string>, now: int)
    requires WellKeyed(s)
    ensures WellKeyed(CreateTaskSpec(s, taskId, texts, now).1)
  {
    var s' := CreateTaskSpec(s, taskId, texts, now).1;
    if taskId !in s.tasks && texts != [] {
      var n := if FirstClash(s.vectors, taskId, |texts|).Some? then FirstClash(s.vectors, taskId, |texts|).value else |texts|;
      var m := NewSlots(taskId, texts, n);
      NewSlotsMeans(taskId, texts, n);
      assert s'.vectors == s.vectors + m;
      forall k | k in s'.vectors ensures s'.vectors[k].taskId == k.0 && s'.vectors[k].vectorId == k.1 {
        if k in m {
          assert m[(taskId, k.1)] == NewSlot(taskId, k.1, texts[k.1]);
        }
      }
    }
  }

  // ---------------------------------------------------------------- get_task

  /** `get_task`: the stored task; an unknown id makes `find_one` return None, and `None.pop` raises. */
  function GetTaskSpec(tasks: map<string, TaskModel>, taskId: string): (r: Result<TaskModel>)
    ensures r.Ok? <==> taskId in tasks
    ensures r.Ok? ==> r.value == tasks[taskId]
    ensures r.Err? ==> r.error == AttributeError("pop")
  {
    if taskId in tasks then Ok(tasks[taskId]) else Err(AttributeError("pop"))
  }

  // ---------------------------------------------------------------- update_task_status

  /** The `bulk_write` of `update_task_status` for the first n vectors: slot i of the task, when it
      exists, gets vector i (an `UpdateOne` without upsert creates nothing). */
  function ApplyVectors(vectors: Slots, taskId: string, vecs: seq<seq<real>>, n: nat): Slots
    requires n <= |vecs|
  {
    if n == 0 then vectors
    else
      var m := ApplyVectors(vectors, taskId, vecs, n - 1);
      if (taskId, n - 1) in m then m[(taskId, n - 1) := m[(taskId, n - 1)].(vector := vecs[n - 1])] else m
  }

  /** No slot is created or removed; slot i < n of the task gets vector i; every other slot is kept. */
  lemma {:induction false} ApplyVectorsMeans(vectors: Slots, taskId: string, vecs: seq<seq<real>>, n: nat)
    requires n <= |vecs|
    ensures var m := ApplyVectors(vectors, taskId, vecs, n);
      && m.Keys == vectors.Keys
      && forall k :: k in m ==>
           m[k] == if k.0 == taskId && 0 <= k.1 < n then vectors[k].(vector := vecs[k.1]) else vectors[k]
  {
    if n > 0 {
      ApplyVectorsMeans(vectors, taskId, vecs, n - 1);
    }
  }

  /**
   * `update_task_status`: read the task (unknown ids raise), push its current status onto the
   * history and set the new one; then, when vectors are given, write them — an empty list makes
   * `bulk_write` raise InvalidOperation after the status has already changed.
   */
  function UpdateSpec(s: Store, taskId: string, status: Status, vecs: Option<seq<seq<real>>>, info: Doc, now: int): (Result<()>, Store)
  {
    if taskId !in s.tasks then (Err(AttributeError("pop")), s)
    else
      var t := s.tasks[taskId];
      var tasks := s.tasks[taskId := t.(currentStatus := CreateNewStatus(status, info, now), history := t.history + [t.currentStatus])];
      if vecs.None? then (Ok(()), Store(tasks, s.vectors))
      else if vecs.value == [] then (Err(InvalidOperation("No operations to execute")), Store(tasks, s.vectors))
      else (Ok(()), Store(tasks, ApplyVectors(s.vectors, taskId, vecs.value, |vecs.value|)))
  }

  /** `update_task_status` creates no slot and removes no task, so slots stay owned. */
  lemma {:induction false} UpdateOwned(s: Store, taskId: string, status: Status, vecs: Option<seq<seq<real>>>, info: Doc, now: int)
    requires SlotsOwned(s)
    ensures SlotsOwned(UpdateSpec(s, taskId, status, vecs, info, now).1)
  {
    if taskId in s.tasks && vecs.Some? && vecs.value != [] {
      ApplyVectorsMeans(s.vectors, taskId, vecs.value, |vecs.value|);
    }
  }

  /** An unknown task id raises and changes nothing. */
  lemma {:induction false} UpdateUnknown(s: Store, taskId: string, status: Status, vecs: Option<seq<seq<real>>>, info: Doc, now: int)
    ensures var (r, s') := UpdateSpec(s, taskId, status, vecs, info, now);
      (r.Err? && r.error.AttributeError? <==> taskId !in s.tasks) && (taskId !in s.tasks ==> s' == s)
  {
  }

  /**
   * For a known task: the history grows by exactly the previous current status (so the old
   * history is a prefix of the new), the new status with its info becomes current, and every
   * other task is unchanged.
   */
  lemma {:induction false} UpdateAppendsHistory(s: Store, taskId: string, status: Status, vecs: Option<seq<seq<real>>>, info: Doc, now: int)
    requires taskId in s.tasks
    ensures var s' := UpdateSpec(s, taskId, status, vecs, info, now).1; var t := s.tasks[taskId];
      && s'.tasks.Keys == s.tasks.Keys
      && s'.tasks[taskId].history == t.history + [t.currentStatus]
      && |s'.tasks[taskId].history| == |t.history| + 1
      && s'.tasks[taskId].history[..|t.history|] == t.history
      && s'.tasks[taskId].currentStatus == StatusModel(status, now, Some(info))
      && s'.tasks[taskId].taskId == t.taskId && s'.tasks[taskId].dateCreated == t.dateCreated
      && forall id :: id in s.tasks && id != taskId ==> s'.tasks[id] == s.tasks[id]
  {
    var t := s.tasks[taskId];
    assert (t.history + [t.currentStatus])[..|t.history|] == t.history;
  }

  /**
   * When a non-empty vector list is given, slot i of the task gets vector i for each i below its
   * length, and no slot is created, removed or otherwise changed; without vectors (or with an
   * empty list) the slots are untouched.
   */
  lemma {:induction false} UpdateWritesVectors(s: Store, taskId: string, status: Status, vecs: Option<seq<seq<real>>>, info: Doc, now: int)
    requires taskId in s.tasks
    ensures var (r, s') := UpdateSpec(s, taskId, status, vecs, info, now);
      && s'.vectors.Keys == s.vectors.Keys
      && (r.Err? <==> vecs == Some([]))
      && forall k :: k in s.vectors ==>
           s'.vectors[k] == if vecs.Some? && k.0 == taskId && 0 <= k.1 < |vecs.value|
                            then s.vectors[k].(vector := vecs.value[k.1]) else s.vectors[k]
  {
    if vecs.Some? {
      ApplyVectorsMeans(s.vectors, taskId, vecs.value, |vecs.value|);
    }
  }

  /** Updating a status keeps every document under its unique-index key. */
  lemma {:induction false} UpdateWellKeyed(s: Store, taskId: string, status: Status, vecs: Option<seq<seq<real>>>, info: Doc, now: int)
    requires WellKeyed(s)
    ensures WellKeyed(UpdateSpec(s, taskId, status, vecs, info, now).1)
  {
    if vecs.Some? {
      ApplyVectorsMeans(s.vectors, taskId, vecs.value, |vecs.value|);
    }
  }

  // ---------------------------------------------------------------- the write loops

  /** The ordered `insert_many` of the slots, one at a time in text order, stopping at the first
      taken key; it reports that slot's index. */
  method InsertSlots(vectors: Slots, taskId: string, texts: seq<string>) returns (clash: Option<nat>, out: Slots)
    ensures clash == FirstClash(vectors, taskId, |texts|)
    ensures out == vectors + NewSlots(taskId, texts, if clash.Some? then clash.value else |texts|)
  {
    ghost var added: Slots := map[];
    out := vectors;
    var i := 0;
    while i < |texts|
      invariant 0 <= i <= |texts|
      invariant added == NewSlots(taskId, texts, i)
      invariant out == vectors + added
      invariant forall j :: 0 <= j < i ==> (taskId, j) !in vectors
    {
      NewSlotsMeans(taskId, texts, i);
      if (taskId, i) in out {
        assert (taskId, i) in vectors;
        FirstClashAt(vectors, taskId, |texts|, i);
        return Some(i), out;
      }
      UnionUpdate(vectors, added, (taskId, i), NewSlot(taskId, i, texts[i]));
      out := out[(taskId, i) := NewSlot(taskId, i, texts[i])];
      added := added[(taskId, i) := NewSlot(taskId, i, texts[i])];
      i := i + 1;
    }
    assert FirstClash(vectors, taskId, |texts|).None?;
    clash := None;
  }

  /** A taken slot i with every slot before it free is the first clash of any longer run. */
  lemma {:induction false} FirstClashAt(vectors: Slots, taskId: string, n: nat, i: nat)
    requires i < n && (taskId, i) in vectors
    requires forall j :: 0 <= j < i ==> (taskId, j) !in vectors
    ensures FirstClash(vectors, taskId, n) == Some(i)
  {
  }

  lemma {:induction false} UnionUpdate<K, V>(a: map<K, V>, b: map<K, V>, k: K, v: V)
    ensures (a + b)[k := v] == a + b[k := v]
  {
  }

  /** The `bulk_write` of one `UpdateOne` per vector, in index order. */
  method WriteVectors(vectors: Slots, taskId: string, vs: seq<seq<real>>) returns (out: Slots)
    ensures out == ApplyVectors(vectors, taskId, vs, |vs|)
  {
    out := vectors;
    for i := 0 to |vs|
      invariant out == ApplyVectors(vectors, taskId, vs, i)
    {
      if (taskId, i) in out {
        out := out[(taskId, i) := out[(taskId, i)].(vector := vs[i])];
      }
    }
  }

  // ---------------------------------------------------------------- the client

  /** `DBClient`: the tasks and vectors collections behind their unique indexes. */
  class TaskStore {
    var tasks: map<string, TaskModel>
    var vectors: Slots

    function State(): Store
      reads this
    {
      Store(tasks, vectors)
    }

    /** `DBClient.create()`: connect to the collections as they are (uniqueness is in the map keys). */
    constructor(s: Store)
      requires WellKeyed(s)
      ensures State() == s
    {
      tasks := s.tasks;
      vectors := s.vectors;
    }

    /** `get_task`. */
    function GetTask(taskId: string): Result<TaskModel>
      reads this
    {
      GetTaskSpec(tasks, taskId)
    }

    /** `create_task`: the task first, then the slots. */
    method CreateTask(taskId: string, texts: seq<string>, now: int) returns (r: Result<TaskModel>)
      modifies this
      ensures (r, State()) == CreateTaskSpec(old(State()), taskId, texts, now)
    {
      if taskId in tasks {
        return Err(DuplicateKeyError);
      }
      var task := NewTask(taskId, now, CreateNewStatus(Vectorizing, map[], now));
      tasks := tasks[taskId := task];
      if texts == [] {
        return Err(TypeError("documents must be a non-empty list"));
      }
      var clash;
      clash, vectors := InsertSlots(vectors, taskId, texts);
      if clash.Some? {
        return Err(BulkWriteFailure(clash.value));
      }
      r := Ok(task);
    }

    /** `update_task_status`: the status first, then the per-index vector writes. */
    method UpdateTaskStatus(taskId: string, status: Status, vecs: Option<seq<seq<real>>>, info: Doc, now: int)
      returns (r: Result<()>)
      modifies this
      ensures (r, State()) == UpdateSpec(old(State()), taskId, status, vecs, info, now)
    {
      var current := GetTask(taskId);
      if current.Err? {
        return Err(current.error);
      }
      var t := current.value;
      tasks := tasks[taskId := t.(currentStatus := CreateNewStatus(status, info, now), history := t.history + [t.currentStatus])];
      if vecs.None? {
        return Ok(());
      }
      if vecs.value == [] {
        return Err(InvalidOperation("No operations to execute"));
      }
      vectors := WriteVectors(vectors, taskId, vecs.value);
      r := Ok(());
    }

    /** `_clear_up`: drop both collections (the indexes are recreated on the empty collections). */
    method ClearUp()
      modifies this
      ensures tasks == map[] && vectors == map[]
      ensures WellKeyed(State()) && SlotsOwned(State())
    {
      tasks := map[];
      vectors := map[];
    }
  }
}
