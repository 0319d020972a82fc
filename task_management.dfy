/**
 * The task registry: every long-running job of the servers is a Task node
 * under its project's Task_Manager, created with status "started", updated
 * by the job, and removed when a client fetches its result or deletes it.
 * Both servers share the registry's operations; only the AHGraR server
 * answers a LIST request.
 */
module TaskManagement {
  import opened Wrappers
  import opened Strings
  import opened MainDb

  /** Both ids of a task query, after `int()`; `None` when either raises ValueError. */
  function ParseIds(projectId: string, taskId: string): Option<(int, int)>
  {
    match (ParseInt(projectId), ParseInt(taskId))
    case (Some(p), Some(t)) => Some((p, t))
    case _ => None
  }

  /** The task a (project, task) query finds, if any. */
  function Lookup(db: Store, projectId: string, taskId: string): (r: Option<Task>)
    reads db
    ensures r.Some? <==> ParseIds(projectId, taskId).Some? &&
                         db.HasTask(ParseIds(projectId, taskId).value.0, ParseIds(projectId, taskId).value.1)
    ensures r.Some? ==> r.value == db.tasks[ParseIds(projectId, taskId).value.1]
  {
    match ParseIds(projectId, taskId)
    case None => None
    case Some((p, t)) => if db.HasTask(p, t) then Some(db.tasks[t]) else None
  }

  /** One entry of a STAT reply: the task's status, or "Unknown" whatever went wrong. */
  function StatusEntry(db: Store, projectId: string, taskId: string): (entry: string)
    reads db
    ensures Lookup(db, projectId, taskId).None? ==> entry == "Unknown"
    ensures Lookup(db, projectId, taskId).Some? ==> entry == Lookup(db, projectId, taskId).value.status
  {
    match Lookup(db, projectId, taskId)
    case None => "Unknown"
    case Some(task) => task.status
  }

  /** The STAT entries of the requested ids, in request order. */
  function StatusEntries(db: Store, projectId: string, taskIds: seq<string>): (entries: seq<string>)
    reads db
    ensures |entries| == |taskIds|
  {
    seq(|taskIds|, i requires 0 <= i < |taskIds| reads db => StatusEntry(db, projectId, taskIds[i]))
  }

  /**
   * `get_task_status`: one entry per requested id, in request order, joined
   * with tabs; an id that does not parse or is not the project's task gives
   * "Unknown" and never an error.
   */
  method GetTaskStatus(db: Store, projectId: string, taskIds: seq<string>) returns (reply: string)
    ensures reply == Join(StatusEntries(db, projectId, taskIds), '\t')
  {
    var entries: seq<string> := [];
    for i := 0 to |taskIds|
      invariant |entries| == i
      invariant forall j :: 0 <= j < i ==> entries[j] == StatusEntry(db, projectId, taskIds[j])
    {
      entries := entries + [StatusEntry(db, projectId, taskIds[i])];
    }
    reply := Join(entries, '\t');
    assert entries == StatusEntries(db, projectId, taskIds);
  }

  /**
   * When no status holds a tab, a client that splits a STAT reply on tabs
   * gets one entry per requested id back: the task's status, or "Unknown".
   */
  lemma StatusReplySplits(db: Store, projectId: string, taskIds: seq<string>)
    requires |taskIds| >= 1
    requires forall t :: t in db.tasks ==> '\t' !in db.tasks[t].status
    ensures var entries := Split(Join(StatusEntries(db, projectId, taskIds), '\t'), '\t');
            && |entries| == |taskIds|
            && forall i :: 0 <= i < |taskIds| ==>
                 entries[i] == (if Lookup(db, projectId, taskIds[i]).Some? then Lookup(db, projectId, taskIds[i]).value.status
                                else "Unknown")
  {
    var entries := StatusEntries(db, projectId, taskIds);
    forall i | 0 <= i < |entries| ensures '\t' !in entries[i] {
      assert entries[i] == StatusEntry(db, projectId, taskIds[i]);
    }
    SplitJoin(entries, '\t');
  }

  /** The ids of project `p`'s tasks below `bound`, in ascending order. */
  function VisibleTaskIds(db: Store, p: int, bound: int): (ids: seq<int>)
    reads db
    ensures forall t :: t in ids <==> 0 <= t < bound && db.HasTask(p, t)
    ensures forall i, j :: 0 <= i < j < |ids| ==> ids[i] < ids[j]
    ensures forall i :: 0 <= i < |ids| ==> ids[i] < bound && db.HasTask(p, ids[i])
    decreases bound
  {
    if bound <= 0 then []
    else VisibleTaskIds(db, p, bound - 1) + (if db.HasTask(p, bound - 1) then [bound - 1] else [])
  }

  /** One row of a LIST reply: `<id>_<desc>_<status>`. */
  function TaskRow(db: Store, t: int): string
    reads db
    requires t in db.tasks
  {
    IntToString(t) + "_" + db.tasks[t].desc + "_" + db.tasks[t].status
  }

  function TaskRows(db: Store, ids: seq<int>): (rows: seq<string>)
    reads db
    requires forall i :: 0 <= i < |ids| ==> ids[i] in db.tasks
    ensures |rows| == |ids|
  {
    seq(|ids|, i requires 0 <= i < |ids| && ids[i] in db.tasks reads db => TaskRow(db, ids[i]))
  }

  /** The LIST reply of a project id that parses. */
  function ListReply(db: Store, p: int): string
    reads db
    requires db.Valid()
  {
    Join(TaskRows(db, VisibleTaskIds(db, p, db.nextId)), '\n')
  }

  /**
   * When no description or status holds a line break, the lines of a LIST
   * reply are the project's tasks in id order, each `<id>_<desc>_<status>`.
   */
  lemma ListReplyLines(db: Store, p: int)
    requires db.Valid()
    requires forall t :: t in db.tasks ==> '\n' !in db.tasks[t].desc && '\n' !in db.tasks[t].status
    requires exists t :: db.HasTask(p, t)
    ensures var lines := Split(ListReply(db, p), '\n');
            var ids := VisibleTaskIds(db, p, db.nextId);
            && |lines| == |ids|
            && (forall t :: t in ids <==> db.HasTask(p, t))
            && forall i :: 0 <= i < |ids| ==>
                 lines[i] == IntToString(ids[i]) + "_" + db.tasks[ids[i]].desc + "_" + db.tasks[ids[i]].status
  {
    var ids := VisibleTaskIds(db, p, db.nextId);
    var rows := TaskRows(db, ids);
    var t :| db.HasTask(p, t);
    assert t < db.nextId;
    assert t in ids;
    forall i | 0 <= i < |rows| ensures '\n' !in rows[i] {
      assert rows[i] == TaskRow(db, ids[i]);
      NoNewlineInId(ids[i]);
    }
    forall t | db.HasTask(p, t) ensures t in ids {
      assert t < db.nextId;
    }
    SplitJoin(rows, '\n');
  }

  lemma NoNewlineInId(t: int)
    ensures '\n' !in IntToString(t)
  {
  }

  /**
   * `get_task_list`: one row per task of the project, joined with newlines;
   * `None` stands for the ValueError of an id that does not parse.
   */
  method GetTaskList(db: Store, projectId: string) returns (reply: Option<string>)
    requires db.Valid()
    ensures ParseInt(projectId).None? <==> reply.None?
    ensures ParseInt(projectId).Some? ==> reply == Some(ListReply(db, ParseInt(projectId).value))
  {
    var parsed := ParseInt(projectId);
    if parsed.None? {
      return None;
    }
    var p := parsed.value;
    var rows: seq<string> := [];
    ghost var ids: seq<int> := [];
    for t := 0 to db.nextId
      invariant ids == VisibleTaskIds(db, p, t)
      invariant |rows| == |ids|
      invariant forall i :: 0 <= i < |ids| ==> ids[i] in db.tasks && rows[i] == TaskRow(db, ids[i])
    {
      if db.HasTask(p, t) {
        rows := rows + [TaskRow(db, t)];
        ids := ids + [t];
      }
    }
    reply := Some(Join(rows, '\n'));
    assert rows == TaskRows(db, ids);
  }

  /** What `get_task_result` found: nothing ("-1"), or the task's results, which may be absent. */
  datatype Fetched = Missing | Fetched(results: Option<string>)

  /** The reply text: `send_data` applies `str()`, so absent results are sent as "None". */
  function FetchedText(f: Fetched): string
  {
    match f
    case Missing => "-1"
    case Fetched(None) => "None"
    case Fetched(Some(r)) => r
  }

  /** The RESU reply for what the lookup found: "-1" for nothing, else the results as `str()` gives them. */
  function FoundText(found: Option<Task>): string
  {
    match found
    case None => FetchedText(Missing)
    case Some(task) => FetchedText(Fetched(task.results))
  }

  /** `get_task_result`: read the results, then delete the task, so a result is handed out once. */
  method GetTaskResult(db: Store, projectId: string, taskId: string) returns (r: Fetched)
    modifies db
    ensures r.Fetched? <==> old(Lookup(db, projectId, taskId)).Some?
    ensures r.Fetched? ==> r.results == old(Lookup(db, projectId, taskId)).value.results
    ensures r.Fetched? ==> db.tasks == old(db.tasks) - {ParseIds(projectId, taskId).value.1}
    ensures r.Missing? ==> db.tasks == old(db.tasks)
    ensures Lookup(db, projectId, taskId).None?
    ensures db.projects == old(db.projects) && db.files == old(db.files)
    ensures db.ports == old(db.ports) && db.nextId == old(db.nextId)
  {
    var found := Lookup(db, projectId, taskId);
    if found.None? {
      return Missing;
    }
    var t := ParseIds(projectId, taskId).value.1;
    db.tasks := db.tasks - {t};
    r := Fetched(found.value.results);
  }

  /** `delete_task`: "Deleted" whenever both ids parse, whether or not such a task existed. */
  method DeleteTask(db: Store, projectId: string, taskId: string) returns (reply: string)
    modifies db
    ensures reply == (if ParseIds(projectId, taskId).Some? then "Deleted" else "-1")
    ensures old(Lookup(db, projectId, taskId)).Some? ==>
              db.tasks == old(db.tasks) - {ParseIds(projectId, taskId).value.1}
    ensures old(Lookup(db, projectId, taskId)).None? ==> db.tasks == old(db.tasks)
    ensures Lookup(db, projectId, taskId).None?
    ensures db.projects == old(db.projects) && db.files == old(db.files)
    ensures db.ports == old(db.ports) && db.nextId == old(db.nextId)
  {
    var ids := ParseIds(projectId, taskId);
    if ids.None? {
      return "-1";
    }
    if db.HasTask(ids.value.0, ids.value.1) {
      db.tasks := db.tasks - {ids.value.1};
    }
    reply := "Deleted";
  }

  /**
   * `define_task`: a new task with status "started" under the project's
   * Task_Manager, its id returned as text; "-1" when the id does not parse
   * or the project has no Task_Manager.
   */
  method DefineTask(db: Store, projectId: string, desc: string) returns (taskId: string)
    requires db.Valid()
    modifies db
    ensures db.Valid()
    ensures var p := ParseInt(projectId);
            if p.Some? && p.value in old(db.projects) && old(db.projects)[p.value].taskManager then
              taskId == IntToString(old(db.nextId)) &&
              old(db.nextId) !in old(db.tasks) &&
              db.tasks == old(db.tasks)[old(db.nextId) := Task(p.value, desc, "started", None)] &&
              db.nextId == old(db.nextId) + 1 &&
              db.HasTask(p.value, old(db.nextId))
            else
              taskId == "-1" && db.tasks == old(db.tasks) && db.nextId == old(db.nextId)
    ensures db.projects == old(db.projects) && db.files == old(db.files) && db.ports == old(db.ports)
  {
    var p := ParseInt(projectId);
    if p.None? || p.value !in db.projects || !db.projects[p.value].taskManager {
      return "-1";
    }
    var id := db.nextId;
    db.tasks := db.tasks[id := Task(p.value, desc, "started", None)];
    db.nextId := id + 1;
    taskId := IntToString(id);
  }

  /** `set_task_status`: changes the status of a matching task; errors are swallowed. */
  method SetTaskStatus(db: Store, projectId: string, taskId: string, status: string)
    modifies db
    ensures old(Lookup(db, projectId, taskId)).Some? ==>
              var t := ParseIds(projectId, taskId).value.1;
              db.tasks == old(db.tasks)[t := old(db.tasks)[t].(status := status)]
    ensures old(Lookup(db, projectId, taskId)).None? ==> db.tasks == old(db.tasks)
    ensures db.projects == old(db.projects) && db.files == old(db.files)
    ensures db.ports == old(db.ports) && db.nextId == old(db.nextId)
  {
    var found := Lookup(db, projectId, taskId);
    if found.Some? {
      var t := ParseIds(projectId, taskId).value.1;
      db.tasks := db.tasks[t := found.value.(status := status)];
    }
  }

  /** `add_task_results`: stores the results text on a matching task; errors are swallowed. */
  method AddTaskResults(db: Store, projectId: string, taskId: string, results: string)
    modifies db
    ensures old(Lookup(db, projectId, taskId)).Some? ==>
              var t := ParseIds(projectId, taskId).value.1;
              db.tasks == old(db.tasks)[t := old(db.tasks)[t].(results := Some(results))]
    ensures old(Lookup(db, projectId, taskId)).None? ==> db.tasks == old(db.tasks)
    ensures db.projects == old(db.projects) && db.files == old(db.files)
    ensures db.ports == old(db.ports) && db.nextId == old(db.nextId)
  {
    var found := Lookup(db, projectId, taskId);
    if found.Some? {
      var t := ParseIds(projectId, taskId).value.1;
      db.tasks := db.tasks[t := found.value.(results := Some(results))];
    }
  }

  /**
   * `evaluate_user_request`, with `listing` set for the AHGraR server (the
   * only one that answers LIST). The tests are independent `if`s and the
   * last one has the `else`, so LIST, STAT and RESU are each followed by "-1";
   * only a well-formed DELE gets a single reply.
   */
  method EvaluateUserRequest(db: Store, fields: seq<string>, listing: bool) returns (replies: seq<string>, exit: Exit)
    requires db.Valid()
    requires |fields| >= 1
    modifies db
    ensures db.Valid()
    ensures exit.Returned? ==>
              |replies| == 1 + (if (listing && fields[0] == "LIST") || fields[0] == "STAT" ||
                                   (fields[0] == "RESU" && |fields| == 3) then 1 else 0)
    ensures exit.Returned? && !(fields[0] == "DELE" && |fields| == 3) ==> replies[|replies| - 1] == "-1"
    ensures fields[0] == "DELE" && |fields| == 3 ==>
              exit.Returned? && replies == [if ParseIds(fields[1], fields[2]).Some? then "Deleted" else "-1"]
    ensures exit.Raised? ==> (fields[0] == "STAT" || (listing && fields[0] == "LIST"))
    ensures listing && fields[0] == "LIST" ==> (exit.Returned? <==> |fields| >= 2 && ParseInt(fields[1]).Some?)
    ensures listing && fields[0] == "LIST" && exit.Returned? ==>
              replies == [old(ListReply(db, ParseInt(fields[1]).value)), "-1"]
    ensures fields[0] == "STAT" ==> (exit.Returned? <==> |fields| >= 2)
    ensures fields[0] == "STAT" && |fields| >= 2 ==>
              replies == [old(Join(StatusEntries(db, fields[1], fields[2..]), '\t')), "-1"]
    ensures fields[0] == "RESU" && |fields| == 3 ==>
              exit.Returned? && replies == [FoundText(old(Lookup(db, fields[1], fields[2]))), "-1"]
    ensures fields[0] != "RESU" && fields[0] != "DELE" ==> db.tasks == old(db.tasks)
    ensures var answered := (listing && fields[0] == "LIST") || fields[0] == "STAT" ||
                            (fields[0] == "RESU" && |fields| == 3) || (fields[0] == "DELE" && |fields| == 3);
            !answered ==> exit.Returned? && replies == ["-1"]
    ensures db.projects == old(db.projects) && db.files == old(db.files) && db.ports == old(db.ports)
  {
    replies := [];
    exit := Returned;
    if listing && fields[0] == "LIST" {
      if |fields| < 2 {
        return replies, Raised("IndexError");
      }
      var list := GetTaskList(db, fields[1]);
      if list.None? {
        return replies, Raised("ValueError");
      }
      replies := replies + [list.value];
    }
    if fields[0] == "STAT" {
      if |fields| < 2 {
        return replies, Raised("IndexError");
      }
      var status := GetTaskStatus(db, fields[1], fields[2..]);
      replies := replies + [status];
    }
    if fields[0] == "RESU" && |fields| == 3 {
      var fetched := GetTaskResult(db, fields[1], fields[2]);
      replies := replies + [FetchedText(fetched)];
    }
    if fields[0] == "DELE" && |fields| == 3 {
      var deleted := DeleteTask(db, fields[1], fields[2]);
      replies := replies + [deleted];
    } else {
      replies := replies + ["-1"];
    }
  }
}
