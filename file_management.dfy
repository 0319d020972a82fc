/**
 * The file manager of a project (`FileManagement`): downloading and
 * importing annotation and sequence files, listing them, and hiding,
 * unhiding or removing one. Every operation but LIST runs as a task of the
 * task registry, and its id is the first reply.
 *
 * The network and the file system are reduced to their outcomes: whether a
 * download or a removal on disk succeeded, the lines of an import file (or
 * its absence), and which source paths copy successfully.
 */
module FileManagement {
  import opened Wrappers
  import opened Strings
  import opened Sorting
  import opened MainDb
  import TaskManagement

  // ---- file_manager_add_file: the MERGE of a file node ----

  /** The properties the MERGE matches on: the project and the four descriptive fields. */
  predicate SameFile(a: DataFile, b: DataFile)
  {
    a.project == b.project && a.species == b.species && a.variant == b.variant &&
    a.filetype == b.filetype && a.filename == b.filename
  }

  /**
   * The file nodes and the next free id after the MERGE of `file`: every
   * matching node is made visible, and only when none matches is a new one
   * created.
   */
  function Merged(files: map<int, DataFile>, nextFree: int, file: DataFile): (r: (map<int, DataFile>, int))
  {
    if exists f :: f in files && SameFile(files[f], file) then
      (map f | f in files :: if SameFile(files[f], file) then files[f].(hidden := "False") else files[f], nextFree)
    else
      (files[nextFree := file.(hidden := "False")], nextFree + 1)
  }

  /** After the MERGE the file is present and visible, and nothing unrelated changed. */
  lemma MergedContains(files: map<int, DataFile>, nextFree: int, file: DataFile)
    requires nextFree !in files
    ensures var (after, next) := Merged(files, nextFree, file);
            next >= nextFree && files.Keys <= after.Keys &&
            (exists f :: f in after && SameFile(after[f], file) && after[f].hidden == "False") &&
            (forall f :: f in files && !SameFile(files[f], file) ==> after[f] == files[f])
  {
    if !exists f :: f in files && SameFile(files[f], file) {
      var after := Merged(files, nextFree, file).0;
      assert SameFile(after[nextFree], file) && after[nextFree].hidden == "False";
    } else {
      var f :| f in files && SameFile(files[f], file);
      var after := Merged(files, nextFree, file).0;
      assert SameFile(after[f], file) && after[f].hidden == "False";
    }
  }

  /** Merging the same file twice is merging it once: MERGE never duplicates a node. */
  lemma MergedIdempotent(files: map<int, DataFile>, nextFree: int, file: DataFile)
    requires nextFree !in files
    ensures var once := Merged(files, nextFree, file);
            Merged(once.0, once.1, file) == once
  {
    var once := Merged(files, nextFree, file);
    if exists f :: f in files && SameFile(files[f], file) {
      var f :| f in files && SameFile(files[f], file);
      assert f in once.0 && SameFile(once.0[f], file);
    } else {
      assert nextFree in once.0 && SameFile(once.0[nextFree], file);
    }
    var twice := Merged(once.0, once.1, file);
    assert twice.0.Keys == once.0.Keys;
    forall f | f in once.0
      ensures twice.0[f] == once.0[f]
    {
      if SameFile(once.0[f], file) {
        assert once.0[f].hidden == "False";
      }
    }
    assert twice.0 == once.0;
  }

  /**
   * `file_manager_add_file`: the MERGE under the project's File_Manager;
   * nothing happens when the project has none.
   */
  method AddFile(db: Store, p: int, species: string, variant: string, fileName: string, filetype: string)
    requires db.Valid()
    modifies db
    ensures db.Valid()
    ensures db.projects == old(db.projects) && db.tasks == old(db.tasks) && db.ports == old(db.ports)
    ensures old(db.HasFileManager(p)) ==>
              (db.files, db.nextId) == Merged(old(db.files), old(db.nextId), DataFile(p, species, variant, filetype, fileName, "False", None, None))
    ensures !old(db.HasFileManager(p)) ==> db.files == old(db.files) && db.nextId == old(db.nextId)
  {
    if !db.HasFileManager(p) {
      return;
    }
    var file := DataFile(p, species, variant, filetype, fileName, "False", None, None);
    if exists f :: f in db.files && SameFile(db.files[f], file) {
      db.files := map f | f in db.files :: if SameFile(db.files[f], file) then db.files[f].(hidden := "False") else db.files[f];
    } else {
      db.files := db.files[db.nextId := file];
      db.nextId := db.nextId + 1;
    }
  }

  // ---- download_file ----

  predicate DownloadType(filetype: string)
  {
    filetype == "gff3" || filetype == "nt" || filetype == "prot"
  }

  /** The name a downloaded file is saved under: `species_variant` and an ending by type. */
  function DownloadName(species: string, variant: string, filetype: string): (name: string)
    ensures filetype == "gff3" ==> EndsWith(name, ".gff3")
    ensures filetype != "gff3" ==> EndsWith(name, ".faa")
    ensures StartsWith(name, species + "_" + variant)
  {
    var ending := if filetype == "gff3" then ".gff3" else ".faa";
    var name := species + "_" + variant + ending;
    assert name[|name| - |ending|..] == ending;
    assert name[..|species + "_" + variant|] == species + "_" + variant;
    name
  }

  /** Whether a project's Task_Manager accepts a new task (the project id has been checked to be digits). */
  predicate TaskCreated(db: Store, p: int)
    reads db`projects
  {
    p in db.projects && db.projects[p].taskManager
  }

  /**
   * The task map after a request that creates one task: `rec` under the new
   * id when the project has a Task_Manager, and no change otherwise.
   */
  function WithTask(tasks: map<int, Task>, created: bool, id: int, rec: Task): map<int, Task>
  {
    if created then tasks[id := rec] else tasks
  }

  /** Project `p` has a Task_Manager, so a request's task is created. */
  predicate Created(s: Snapshot, p: int)
  {
    p in s.projects && s.projects[p].taskManager
  }

  /** Project `p` has a File_Manager, so files can be attached to it. */
  predicate FileManaged(s: Snapshot, p: int)
  {
    p in s.projects && s.projects[p].fileManager
  }

  /** The task-id reply of a request: the id its new task gets, or "-1" when there is none. */
  function TaskReply(s: Snapshot, p: int): string
  {
    if Created(s, p) then IntToString(s.nextId) else "-1"
  }

  /** Writing the same key twice keeps the second value. */
  lemma Overwrite<K, V>(m: map<K, V>, k: K, a: V, b: V)
    ensures m[k := a][k := b] == m[k := b]
  {}

  /** `define_task` for a project id already checked to be digits. */
  method NewTask(db: Store, projectId: string, desc: string) returns (taskId: string)
    requires IsDigits(projectId) && db.Valid()
    modifies db
    ensures db.Valid()
    ensures var p := DigitsValue(projectId);
            var id := old(db.nextId);
            if old(TaskCreated(db, p)) then
              taskId == IntToString(id) && db.HasTask(p, id) &&
              db.tasks == old(db.tasks)[id := Task(p, desc, "started", None)] && db.nextId == id + 1
            else
              taskId == "-1" && db.tasks == old(db.tasks) && db.nextId == id
    ensures taskId == "-1" <==> !old(TaskCreated(db, DigitsValue(projectId)))
    ensures db.projects == old(db.projects) && db.files == old(db.files) && db.ports == old(db.ports)
  {
    assert ParseInt(projectId) == Some(DigitsValue(projectId));
    assert IntToString(db.nextId) != "-1" by {
      assert IsDigits(NatToString(db.nextId));
    }
    taskId := TaskManagement.DefineTask(db, projectId, desc);
  }

  /**
   * The status update of the task a request created: `taskId` is the id
   * `define_task` gave back, "-1" when the project had no Task_Manager.
   */
  method SetStatus(db: Store, projectId: string, taskId: string, ghost id: int, status: string)
    requires IsDigits(projectId) && db.Valid()
    requires taskId == "-1" || (taskId == IntToString(id) && db.HasTask(DigitsValue(projectId), id))
    modifies db
    ensures db.Valid()
    ensures taskId != "-1" ==> db.tasks == old(db.tasks)[id := old(db.tasks)[id].(status := status)] &&
                                db.HasTask(DigitsValue(projectId), id)
    ensures taskId == "-1" ==> db.tasks == old(db.tasks)
    ensures db.projects == old(db.projects) && db.files == old(db.files) && db.ports == old(db.ports)
    ensures db.nextId == old(db.nextId)
  {
    UpdateFinds(db, projectId, taskId, id);
    TaskManagement.SetTaskStatus(db, projectId, taskId, status);
  }

  /** The results update of the task a request created, as for `SetStatus`. */
  method AddResults(db: Store, projectId: string, taskId: string, ghost id: int, results: string)
    requires IsDigits(projectId) && db.Valid()
    requires taskId == "-1" || (taskId == IntToString(id) && db.HasTask(DigitsValue(projectId), id))
    modifies db
    ensures db.Valid()
    ensures taskId != "-1" ==> db.tasks == old(db.tasks)[id := old(db.tasks)[id].(results := Some(results))] &&
                                db.HasTask(DigitsValue(projectId), id)
    ensures taskId == "-1" ==> db.tasks == old(db.tasks)
    ensures db.projects == old(db.projects) && db.files == old(db.files) && db.ports == old(db.ports)
    ensures db.nextId == old(db.nextId)
  {
    UpdateFinds(db, projectId, taskId, id);
    TaskManagement.AddTaskResults(db, projectId, taskId, results);
  }

  /** "-1", the id of a task that was never created, finds no task. */
  lemma NoTaskFound(db: Store, projectId: string)
    requires db.Valid()
    ensures TaskManagement.Lookup(db, projectId, "-1").None?
  {
    assert IntToString(-1) == "-1" by {
      assert NatToString(1) == "1";
    }
    ParseIntOfIntToString(-1);
  }

  /** An update with the id `define_task` gave back finds exactly the task it created, and "-1" finds none. */
  lemma UpdateFinds(db: Store, projectId: string, taskId: string, id: int)
    requires IsDigits(projectId) && db.Valid()
    requires taskId == "-1" || (taskId == IntToString(id) && db.HasTask(DigitsValue(projectId), id))
    ensures taskId != "-1" ==>
              TaskManagement.ParseIds(projectId, taskId) == Some((DigitsValue(projectId), id)) &&
              TaskManagement.Lookup(db, projectId, taskId).Some?
    ensures taskId == "-1" ==> TaskManagement.Lookup(db, projectId, taskId).None?
  {
    if taskId == "-1" {
      NoTaskFound(db, projectId);
    } else {
      var p := DigitsValue(projectId);
      assert ParseInt(projectId) == Some(p);
      ParseIntOfIntToString(id);
      assert ParseInt(taskId) == Some(id);
      assert TaskManagement.ParseIds(projectId, taskId) == Some((p, id));
    }
  }

  /**
   * `download_file`: a wrong type is refused with "-4" before any task
   * exists. Otherwise the task id goes back and the download runs; a
   * successful one adds the file and finishes the task. A failed one marks
   * the task failed and then raises, because the clean-up passes `os.remove`
   * a keyword argument it does not take.
   */
  /**
   * What a download of a valid type leaves: the task, finished or failed,
   * and, when the download succeeded under a File_Manager, the merged file.
   */
  ghost predicate Downloaded(before: Snapshot, after: Snapshot, p: int, species: string, variant: string, filetype: string,
                             downloaded: bool)
  {
    var id := before.nextId;
    var file := DataFile(p, species, variant, filetype, DownloadName(species, variant, filetype), "False", None, None);
    && after.tasks == WithTask(before.tasks, Created(before, p), id,
                               Task(p, "Download file", if downloaded then "finished" else "failed", None))
    && (downloaded && FileManaged(before, p) ==>
          (after.files, after.nextId) == Merged(before.files, if Created(before, p) then id + 1 else id, file))
    && (!(downloaded && FileManaged(before, p)) ==> after.files == before.files)
  }

  method DownloadFile(db: Store, projectId: string, species: string, variant: string, filetype: string, downloaded: bool)
    returns (replies: seq<string>, exit: Exit)
    requires IsDigits(projectId)
    requires db.Valid()
    modifies db
    ensures db.Valid()
    ensures db.projects == old(db.projects) && db.ports == old(db.ports)
    ensures !DownloadType(filetype) ==> replies == ["-4"] && exit == Returned && db.State() == old(db.State())
    ensures DownloadType(filetype) ==>
              replies == [TaskReply(old(db.State()), DigitsValue(projectId))] &&
              exit == (if downloaded then Returned else Raised("TypeError")) &&
              Downloaded(old(db.State()), db.State(), DigitsValue(projectId), species, variant, filetype, downloaded)
  {
    if !DownloadType(filetype) {
      return ["-4"], Returned;
    }
    var p := DigitsValue(projectId);
    ghost var id := db.nextId;
    var taskId := NewTask(db, projectId, "Download file");
    replies := [taskId];
    SetStatus(db, projectId, taskId, id, "downloading");
    var fileName := DownloadName(species, variant, filetype);
    if !downloaded {
      SetStatus(db, projectId, taskId, id, "failed");
      return replies, Raised("TypeError");
    }
    AddFile(db, p, species, variant, fileName, filetype);
    SetStatus(db, projectId, taskId, id, "finished");
    exit := Returned;
  }

  // ---- file_list ----

  /** One line of a file listing: the name and the hidden flag. */
  datatype FileRow = FileRow(filename: string, hidden: string)

  predicate FileNameLeq(a: FileRow, b: FileRow)
  {
    StrLeq(a.filename, b.filename)
  }

  lemma FileNameLeqTotalPreorder()
    ensures TotalPreorder(FileNameLeq)
  {
    forall a: FileRow, b: FileRow ensures FileNameLeq(a, b) || FileNameLeq(b, a) { StrLeqTotal(a.filename, b.filename); }
    forall a: FileRow, b: FileRow, c: FileRow | FileNameLeq(a, b) && FileNameLeq(b, c) ensures FileNameLeq(a, c) {
      StrLeqTrans(a.filename, b.filename, c.filename);
    }
  }

  /** The ids of project `p`'s files below `bound`, ascending. */
  function ProjectFileIds(db: Store, p: int, bound: int): (ids: seq<int>)
    reads db
    ensures forall f :: f in ids <==> 0 <= f < bound && db.HasFile(p, f)
    ensures forall i :: 0 <= i < |ids| ==> db.HasFile(p, ids[i])
    decreases bound
  {
    if bound <= 0 then []
    else ProjectFileIds(db, p, bound - 1) + (if db.HasFile(p, bound - 1) then [bound - 1] else [])
  }

  function FileRowOf(db: Store, f: int): FileRow
    reads db
    requires f in db.files
  {
    FileRow(db.files[f].filename, db.files[f].hidden)
  }

  /** `row` is the row of some file of project `p`. */
  ghost predicate RowOfFile(db: Store, p: int, row: FileRow)
    reads db
  {
    exists f :: db.HasFile(p, f) && row == FileRowOf(db, f)
  }

  /** The rows of the files of project `p`, in id order. */
  function ProjectRows(db: Store, p: int): (rows: seq<FileRow>)
    reads db
    requires db.Valid()
    ensures forall f :: db.HasFile(p, f) ==> FileRowOf(db, f) in rows
    ensures forall i :: 0 <= i < |rows| ==> RowOfFile(db, p, rows[i])
  {
    var ids := ProjectFileIds(db, p, db.nextId);
    var rows := seq(|ids|, i requires 0 <= i < |ids| && db.HasFile(p, ids[i]) reads db => FileRowOf(db, ids[i]));
    forall f | db.HasFile(p, f) ensures FileRowOf(db, f) in rows {
      assert f in db.files && f < db.nextId;
      assert f in ids;
      var k :| 0 <= k < |ids| && ids[k] == f;
      assert rows[k] == FileRowOf(db, f);
    }
    forall i | 0 <= i < |rows| ensures RowOfFile(db, p, rows[i]) {
      assert db.HasFile(p, ids[i]) && rows[i] == FileRowOf(db, ids[i]);
    }
    rows
  }

  /**
   * The rows of `ORDER BY file.filename` for project `p`: one per file of
   * the project, ordered by name.
   */
  function FileListing(db: Store, p: int): (rows: seq<FileRow>)
    reads db
    requires db.Valid()
    ensures SortedBy(rows, FileNameLeq)
    ensures forall f :: db.HasFile(p, f) ==> FileRowOf(db, f) in rows
    ensures forall i :: 0 <= i < |rows| ==> RowOfFile(db, p, rows[i])
  {
    var unsorted := ProjectRows(db, p);
    var rows := SortBy(unsorted, FileNameLeq);
    FileNameLeqTotalPreorder();
    SortBySorted(unsorted, FileNameLeq);
    forall f | db.HasFile(p, f) ensures FileRowOf(db, f) in rows {
      assert FileRowOf(db, f) in multiset(unsorted);
    }
    forall i | 0 <= i < |rows| ensures RowOfFile(db, p, rows[i]) {
      assert rows[i] in multiset(rows);
      var k :| 0 <= k < |unsorted| && unsorted[k] == rows[i];
    }
    rows
  }

  function FileRowText(row: FileRow): string
  {
    row.filename + "\t" + row.hidden
  }

  /** `file_list`: `filename<TAB>hidden` per file, ordered by file name, one per line. */
  function FileList(db: Store, p: int): (reply: string)
    reads db
    requires db.Valid()
    ensures (forall f :: !db.HasFile(p, f)) ==> reply == ""
  {
    Join(RowTexts(FileListing(db, p)), '\n')
  }

  function RowTexts(rows: seq<FileRow>): (texts: seq<string>)
    ensures |texts| == |rows|
  {
    seq(|rows|, i requires 0 <= i < |rows| => FileRowText(rows[i]))
  }

  /**
   * When no file name or hidden flag holds a line break, the lines of the
   * reply are the listing rows: sorted by file name, one per file of the
   * project, each `filename<TAB>hidden`.
   */
  lemma FileListLines(db: Store, p: int)
    requires db.Valid()
    requires forall f :: db.HasFile(p, f) ==> '\n' !in db.files[f].filename && '\n' !in db.files[f].hidden
    requires exists f :: db.HasFile(p, f)
    ensures var lines := Split(FileList(db, p), '\n');
            var rows := FileListing(db, p);
            && |lines| == |rows|
            && (forall i :: 0 <= i < |rows| ==> lines[i] == rows[i].filename + "\t" + rows[i].hidden)
            && SortedBy(rows, FileNameLeq)
            && (forall f :: db.HasFile(p, f) ==> FileRowOf(db, f) in rows)
  {
    var rows := FileListing(db, p);
    var texts := RowTexts(rows);
    var f :| db.HasFile(p, f);
    assert FileRowOf(db, f) in rows;
    forall i | 0 <= i < |texts| ensures '\n' !in texts[i] {
      assert RowOfFile(db, p, rows[i]);
      var g :| db.HasFile(p, g) && rows[i] == FileRowOf(db, g);
      assert texts[i] == rows[i].filename + "\t" + rows[i].hidden;
    }
    SplitJoin(texts, '\n');
  }

  // ---- file_hide, file_unhide, file_remove ----

  /** The ids of project `p`'s files named `name`: what the hide, unhide and remove queries match. */
  predicate Named(projects: map<int, Project>, files: map<int, DataFile>, p: int, name: string, f: int)
  {
    p in projects && projects[p].fileManager && f in files && files[f].project == p && files[f].filename == name
  }

  /** The SET of hide or unhide: every file of the project with that name gets the flag; found iff there is one. */
  method SetHidden(db: Store, p: int, name: string, hidden: string) returns (found: bool)
    modifies db
    ensures found <==> exists f :: Named(old(db.projects), old(db.files), p, name, f)
    ensures db.files == map f | f in old(db.files) ::
              if Named(old(db.projects), old(db.files), p, name, f) then old(db.files)[f].(hidden := hidden) else old(db.files)[f]
    ensures db.projects == old(db.projects) && db.tasks == old(db.tasks) && db.ports == old(db.ports)
    ensures db.nextId == old(db.nextId)
  {
    found := exists f :: f in db.files && Named(db.projects, db.files, p, name, f);
    db.files := map f | f in db.files ::
      if db.HasFile(p, f) && db.files[f].filename == name then db.files[f].(hidden := hidden) else db.files[f];
  }

  /** The DETACH DELETE of remove: every file of the project with that name goes; found iff there was one. */
  method DeleteNamed(db: Store, p: int, name: string) returns (found: bool)
    modifies db
    ensures found <==> exists f :: Named(old(db.projects), old(db.files), p, name, f)
    ensures db.files == map f | f in old(db.files) && !Named(old(db.projects), old(db.files), p, name, f) :: old(db.files)[f]
    ensures db.projects == old(db.projects) && db.tasks == old(db.tasks) && db.ports == old(db.ports)
    ensures db.nextId == old(db.nextId)
  {
    found := exists f :: f in db.files && Named(db.projects, db.files, p, name, f);
    db.files := map f | f in db.files && !(db.HasFile(p, f) && db.files[f].filename == name) :: db.files[f];
  }

  /** Which of the three file tasks runs. */
  datatype FileAction = Hide | Unhide | Remove
  {
    function Description(): string
    {
      match this
      case Hide => "Hide file "
      case Unhide => "Unhide file "
      case Remove => "Remove file "
    }
    function Outcome(): string
    {
      match this
      case Hide => "hidden"
      case Unhide => "unhidden"
      case Remove => "deleted"
    }
  }

  /** The file nodes after `action` on the files named `name`; a removal touches nothing unless the file left the disk. */
  function FilesAfter(projects: map<int, Project>, files: map<int, DataFile>, p: int, name: string,
                      action: FileAction, onDisk: bool): map<int, DataFile>
  {
    if action == Remove && !onDisk then files
    else if action == Remove then map f | f in files && !Named(projects, files, p, name, f) :: files[f]
    else map f | f in files :: if Named(projects, files, p, name, f) then files[f].(hidden := if action == Hide then "True" else "False")
                               else files[f]
  }

  /**
   * What each action does: files of other names or projects are untouched;
   * a hide or unhide sets the flag on each named file, and a removal from
   * disk leaves no named file behind.
   */
  lemma FilesAfterEffect(projects: map<int, Project>, files: map<int, DataFile>, p: int, name: string,
                         action: FileAction, onDisk: bool, f: int)
    ensures var after := FilesAfter(projects, files, p, name, action, onDisk);
            (f in files && !Named(projects, files, p, name, f) ==> f in after && after[f] == files[f]) &&
            (f in after ==> f in files) &&
            (action != Remove && Named(projects, files, p, name, f) ==>
               f in after && after[f] == files[f].(hidden := if action == Hide then "True" else "False")) &&
            (action == Remove && onDisk ==> (f in after <==> f in files && !Named(projects, files, p, name, f))) &&
            (action == Remove && !onDisk ==> after == files)
  {}

  /** The query of a file task; `found` is whether it counts as done. */
  method ApplyAction(db: Store, p: int, name: string, action: FileAction, onDisk: bool) returns (found: bool)
    modifies db
    ensures found <==> (exists f :: Named(old(db.projects), old(db.files), p, name, f)) && (action == Remove ==> onDisk)
    ensures db.files == old(FilesAfter(db.projects, db.files, p, name, action, onDisk))
    ensures db.projects == old(db.projects) && db.tasks == old(db.tasks) && db.ports == old(db.ports)
    ensures db.nextId == old(db.nextId)
  {
    if action == Remove {
      if !onDisk {
        found := false;
      } else {
        found := DeleteNamed(db, p, name);
      }
    } else {
      found := SetHidden(db, p, name, if action == Hide then "True" else "False");
    }
  }

  /**
   * The task a file task leaves: finished with the action's outcome when a
   * file of that name matched (and, for a removal, left the disk), failed
   * otherwise.
   */
  ghost function FileTaskRecord(projects: map<int, Project>, files: map<int, DataFile>, p: int, fileName: string,
                                action: FileAction, onDisk: bool): Task
  {
    var succeeded := (exists f :: Named(projects, files, p, ReplaceChar(fileName, '\t', '_'), f)) && (action == Remove ==> onDisk);
    Task(p, action.Description() + fileName,
         if succeeded then "finished" else "failed",
         if succeeded then Some(action.Outcome()) else None)
  }

  /**
   * What a hide, unhide or remove leaves: the files after the action on the
   * unescaped name, and the task record under the new id when there is a
   * Task_Manager.
   */
  ghost predicate FileTaskDone(before: Snapshot, after: Snapshot, p: int, fileName: string, action: FileAction, onDisk: bool)
  {
    && after.files == FilesAfter(before.projects, before.files, p, ReplaceChar(fileName, '\t', '_'), action, onDisk)
    && after.tasks == WithTask(before.tasks, Created(before, p), before.nextId,
                               FileTaskRecord(before.projects, before.files, p, fileName, action, onDisk))
  }

  /**
   * `file_hide`, `file_unhide` and `file_remove`: the task id goes back
   * first; then the query runs (a removal only once the file is gone from
   * disk), and the task ends "finished" with the action as its result, or
   * "failed" with no result when no file of that name matched.
   */
  method FileTask(db: Store, projectId: string, fileName: string, action: FileAction, onDisk: bool)
    returns (reply: string)
    requires IsDigits(projectId)
    requires db.Valid()
    modifies db
    ensures db.Valid()
    ensures db.projects == old(db.projects) && db.ports == old(db.ports)
    ensures reply == TaskReply(old(db.State()), DigitsValue(projectId))
    ensures FileTaskDone(old(db.State()), db.State(), DigitsValue(projectId), fileName, action, onDisk)
  {
    var p := DigitsValue(projectId);
    var name := ReplaceChar(fileName, '\t', '_');
    ghost var before := db.State();
    ghost var id := db.nextId;
    var desc := action.Description() + fileName;
    ghost var rec := FileTaskRecord(before.projects, before.files, p, fileName, action, onDisk);
    reply := NewTask(db, projectId, desc);
    var found := ApplyAction(db, p, name, action, onDisk);
    assert rec.status == (if found then "finished" else "failed");
    if !found {
      SetStatus(db, projectId, reply, id, "failed");
      if reply != "-1" {
        Overwrite(before.tasks, id, Task(p, desc, "started", None), rec);
      }
      return;
    }
    AddResults(db, projectId, reply, id, action.Outcome());
    SetStatus(db, projectId, reply, id, "finished");
    if reply != "-1" {
      Overwrite(before.tasks, id, Task(p, desc, "started", None), Task(p, desc, "started", Some(action.Outcome())));
      Overwrite(before.tasks, id, Task(p, desc, "started", Some(action.Outcome())), rec);
    }
  }

  // ---- file_import ----

  /** One usable line of an import file. */
  datatype ImportEntry = ImportEntry(species: string, variant: string, filetype: string, path: string)
  {
    function FileName(): string
    {
      species + "_" + variant + (if filetype == "annotation" then ".gff3" else ".faa")
    }
  }

  /**
   * A line of an import file, `species,variant,type,path`: spaces are
   * removed, the line is stripped and split on commas; it is used only with
   * exactly four fields and a type of annotation, genome or transcript.
   */
  function ParseImportLine(line: string): (r: Option<ImportEntry>)
    ensures r.Some? ==> r.value.filetype in {"annotation", "genome", "transcript"}
    ensures r.Some? ==> ' ' !in r.value.species && ' ' !in r.value.variant && ' ' !in r.value.path
    ensures r.Some? ==> ',' !in r.value.species && ',' !in r.value.variant && ',' !in r.value.path
  {
    var desc := Split(Strip(RemoveChar(line, ' ')), ',');
    if |desc| != 4 then None
    else if desc[2] != "annotation" && desc[2] != "genome" && desc[2] != "transcript" then None
    else
      assert forall i :: 0 <= i < 4 ==> ' ' !in desc[i] by {
        var spaceless := RemoveChar(line, ' ');
        assert ' ' !in spaceless;
        StripFrom(spaceless);
        assert ' ' !in Strip(spaceless);
        SplitPartsFrom(Strip(spaceless), ',');
      }
      Some(ImportEntry(desc[0], desc[1], desc[2], desc[3]))
  }

  /** Every part of a split consists of characters of the split text. */
  lemma SplitPartsFrom(s: string, sep: char)
    ensures forall i, c :: 0 <= i < |Split(s, sep)| && c in Split(s, sep)[i] ==> c in s
  {
    JoinSplit(s, sep);
    forall i, c | 0 <= i < |Split(s, sep)| && c in Split(s, sep)[i] ensures c in s {
      JoinHasParts(Split(s, sep), sep, i, c);
    }
  }

  lemma {:induction false} JoinHasParts(parts: seq<string>, sep: char, i: int, c: char)
    requires 0 <= i < |parts| && c in parts[i]
    ensures c in Join(parts, sep)
    decreases |parts|
  {
    if i > 0 {
      JoinHasParts(parts[1..], sep, i - 1, c);
    }
  }

  /** The entries one line of an import file contributes: its entry when it is usable and its file copies. */
  function Taken(line: string, copied: set<string>): (entries: seq<ImportEntry>)
    ensures |entries| <= 1
    ensures forall e :: e in entries ==> e.path in copied && e.filetype in {"annotation", "genome", "transcript"}
  {
    var entry := ParseImportLine(line);
    if entry.Some? && entry.value.path in copied then [entry.value] else []
  }

  /** The entries an import adds: the usable lines whose file copies successfully, in file order. */
  function Imported(lines: seq<string>, copied: set<string>): (entries: seq<ImportEntry>)
    ensures |entries| <= |lines|
    ensures forall e :: e in entries ==> e.path in copied && e.filetype in {"annotation", "genome", "transcript"}
  {
    if |lines| == 0 then [] else Taken(lines[0], copied) + Imported(lines[1..], copied)
  }

  /** The file nodes and next id after merging each imported entry in turn. */
  function MergedAll(files: map<int, DataFile>, nextFree: int, p: int, entries: seq<ImportEntry>): (map<int, DataFile>, int)
    decreases |entries|
  {
    if |entries| == 0 then (files, nextFree)
    else
      var e := entries[0];
      var next := Merged(files, nextFree, DataFile(p, e.species, e.variant, e.filetype, e.FileName(), "False", None, None));
      MergedAll(next.0, next.1, p, entries[1..])
  }

  lemma {:induction false} ImportedAppend(lines: seq<string>, line: string, copied: set<string>)
    ensures Imported(lines + [line], copied) == Imported(lines, copied) + Taken(line, copied)
    decreases |lines|
  {
    if |lines| > 0 {
      assert (lines + [line])[1..] == lines[1..] + [line];
      ImportedAppend(lines[1..], line, copied);
    }
  }

  lemma ImportedPrefix(lines: seq<string>, i: int, copied: set<string>)
    requires 0 <= i < |lines|
    ensures Imported(lines[..i + 1], copied) == Imported(lines[..i], copied) + Taken(lines[i], copied)
  {
    assert lines[..i + 1] == lines[..i] + [lines[i]];
    ImportedAppend(lines[..i], lines[i], copied);
  }

  /** Merging two runs of entries one after the other is merging them all. */
  lemma {:induction false} MergedAllConcat(files: map<int, DataFile>, nextFree: int, p: int, a: seq<ImportEntry>, b: seq<ImportEntry>)
    ensures var mid := MergedAll(files, nextFree, p, a);
            MergedAll(files, nextFree, p, a + b) == MergedAll(mid.0, mid.1, p, b)
    decreases |a|
  {
    if |a| > 0 {
      var first := Merged(files, nextFree, DataFile(p, a[0].species, a[0].variant, a[0].filetype, a[0].FileName(), "False", None, None));
      assert (a + b)[1..] == a[1..] + b;
      MergedAllConcat(first.0, first.1, p, a[1..], b);
    } else {
      assert a + b == b;
    }
  }

  /**
   * The task map while an import runs: once `count` files have been
   * imported, the import's task reads "imported <count>"; before the first
   * one, and when there is no task ("-1"), nothing has changed.
   */
  function Counted(tasks: map<int, Task>, taskId: string, id: int, count: nat): map<int, Task>
  {
    if taskId == "-1" || count == 0 || id !in tasks then tasks
    else tasks[id := tasks[id].(status := "imported " + IntToString(count))]
  }

  /** A later count replaces the earlier one. */
  lemma CountedAgain(tasks: map<int, Task>, taskId: string, id: int, count: nat, later: nat)
    requires later > 0
    ensures Counted(Counted(tasks, taskId, id, count), taskId, id, later) == Counted(tasks, taskId, id, later)
  {
    if taskId != "-1" && count > 0 && id in tasks {
      Overwrite(tasks, id, tasks[id].(status := "imported " + IntToString(count)),
                tasks[id].(status := "imported " + IntToString(later)));
    }
  }

  /**
   * One round of the loop of `file_import`: a usable line whose file copies
   * is merged in, counted, and the count written to the task's status.
   */
  method ImportLine(db: Store, projectId: string, taskId: string, ghost id: int, ghost base: map<int, Task>,
                    line: string, copied: set<string>, count: nat)
    returns (newCount: nat)
    requires IsDigits(projectId) && db.Valid()
    requires taskId == "-1" || (taskId == IntToString(id) && db.HasTask(DigitsValue(projectId), id))
    requires db.tasks == Counted(base, taskId, id, count)
    modifies db
    ensures db.Valid()
    ensures db.projects == old(db.projects) && db.ports == old(db.ports)
    ensures newCount == count + |Taken(line, copied)|
    ensures var p := DigitsValue(projectId);
            if old(db.HasFileManager(p)) then
              (db.files, db.nextId) == MergedAll(old(db.files), old(db.nextId), p, Taken(line, copied))
            else db.files == old(db.files) && db.nextId == old(db.nextId)
    ensures taskId != "-1" ==> db.HasTask(DigitsValue(projectId), id)
    ensures db.tasks == Counted(base, taskId, id, newCount)
  {
    var entry := ParseImportLine(line);
    if entry.None? || entry.value.path !in copied {
      return count;
    }
    var e := entry.value;
    AddFile(db, DigitsValue(projectId), e.species, e.variant, e.FileName(), e.filetype);
    newCount := count + 1;
    SetStatus(db, projectId, taskId, id, "imported " + IntToString(newCount));
    CountedAgain(base, taskId, id, count, newCount);
  }

  /**
   * The loop of `file_import` over the lines of the import file: each usable
   * line whose file copies is merged into the project and counted, and the
   * task's status follows the count.
   */
  method ImportLines(db: Store, projectId: string, taskId: string, ghost id: int, all: seq<string>, copied: set<string>)
    returns (count: nat)
    requires IsDigits(projectId) && db.Valid()
    requires taskId == "-1" || (taskId == IntToString(id) && db.HasTask(DigitsValue(projectId), id))
    modifies db
    ensures db.Valid()
    ensures db.projects == old(db.projects) && db.ports == old(db.ports)
    ensures count == |Imported(all, copied)|
    ensures var p := DigitsValue(projectId);
            if old(db.HasFileManager(p)) then
              (db.files, db.nextId) == MergedAll(old(db.files), old(db.nextId), p, Imported(all, copied))
            else db.files == old(db.files) && db.nextId == old(db.nextId)
    ensures taskId != "-1" ==> db.HasTask(DigitsValue(projectId), id)
    ensures db.tasks == Counted(old(db.tasks), taskId, id, count)
  {
    var p := DigitsValue(projectId);
    ghost var fm := db.HasFileManager(p);
    ghost var taken: seq<ImportEntry> := [];
    count := 0;
    for i := 0 to |all|
      invariant db.Valid()
      invariant db.projects == old(db.projects) && db.ports == old(db.ports)
      invariant taken == Imported(all[..i], copied) && count == |taken|
      invariant fm ==> (db.files, db.nextId) == MergedAll(old(db.files), old(db.nextId), p, taken)
      invariant !fm ==> db.files == old(db.files) && db.nextId == old(db.nextId)
      invariant taskId != "-1" ==> db.HasTask(p, id)
      invariant db.tasks == Counted(old(db.tasks), taskId, id, count)
    {
      ImportedPrefix(all, i, copied);
      MergedAllConcat(old(db.files), old(db.nextId), p, taken, Taken(all[i], copied));
      count := ImportLine(db, projectId, taskId, id, old(db.tasks), all[i], copied, count);
      taken := taken + Taken(all[i], copied);
    }
    assert all[..|all|] == all;
  }

  /** The import once its file is open: the task runs, the lines are imported, and the task finishes with the count. */
  method RunImport(db: Store, projectId: string, taskId: string, ghost id: int, all: seq<string>, copied: set<string>)
    returns (count: nat)
    requires IsDigits(projectId) && db.Valid()
    requires taskId == "-1" || (taskId == IntToString(id) && db.HasTask(DigitsValue(projectId), id))
    modifies db
    ensures db.Valid()
    ensures db.projects == old(db.projects) && db.ports == old(db.ports)
    ensures count == |Imported(all, copied)|
    ensures var p := DigitsValue(projectId);
            if old(db.HasFileManager(p)) then
              (db.files, db.nextId) == MergedAll(old(db.files), old(db.nextId), p, Imported(all, copied))
            else db.files == old(db.files) && db.nextId == old(db.nextId)
    ensures db.tasks == if taskId == "-1" then old(db.tasks)
                        else old(db.tasks)[id := old(db.tasks)[id].(status := "finished ", results := Some("imported " + IntToString(count)))]
  {
    SetStatus(db, projectId, taskId, id, "running");
    count := ImportLines(db, projectId, taskId, id, all, copied);
    AddResults(db, projectId, taskId, id, "imported " + IntToString(count));
    SetStatus(db, projectId, taskId, id, "finished ");
    if taskId != "-1" {
      FinishImport(old(db.tasks), taskId, id, count);
    }
  }

  /** The running status and the counts an import writes are all overwritten by its final status and results. */
  lemma FinishImport(tasks: map<int, Task>, taskId: string, id: int, count: nat)
    requires taskId != "-1" && id in tasks
    ensures var t := tasks[id];
            var running := tasks[id := t.(status := "running")];
            var counted := Counted(running, taskId, id, count);
            counted[id := counted[id].(results := Some("imported " + IntToString(count)))][id := t.(status := "finished ", results := Some("imported " + IntToString(count)))]
            == tasks[id := t.(status := "finished ", results := Some("imported " + IntToString(count)))]
  {}

  /** The task an import leaves: failed without an import file, otherwise "finished " with the number of files imported. */
  function ImportRecord(p: int, importPath: string, lines: Option<seq<string>>, copied: set<string>): Task
  {
    var path := ReplaceChar(importPath, '\t', '_');
    if lines.None? then Task(p, "Import files from " + path, "failed", None)
    else Task(p, "Import files from " + path, "finished ", Some("imported " + IntToString(|Imported(lines.value, copied)|)))
  }

  /**
   * What an import leaves: the task record under the new id when there is a
   * Task_Manager, and the imported entries merged in when there is an import
   * file and a File_Manager.
   */
  ghost predicate ImportDone(before: Snapshot, after: Snapshot, p: int, importPath: string, lines: Option<seq<string>>,
                             copied: set<string>)
  {
    var id := before.nextId;
    && after.tasks == WithTask(before.tasks, Created(before, p), id, ImportRecord(p, importPath, lines, copied))
    && (lines.Some? && FileManaged(before, p) ==>
          (after.files, after.nextId) == MergedAll(before.files, if Created(before, p) then id + 1 else id, p,
                                                   Imported(lines.value, copied)))
    && (!(lines.Some? && FileManaged(before, p)) ==> after.files == before.files)
  }

  /**
   * `file_import`: the task id goes back inside a message; a missing import
   * file fails the task. Otherwise every usable line whose file copies is
   * added, the task's status counts them as they come, and it ends with
   * results "imported N" and status "finished " (with its trailing space).
   */
  method FileImport(db: Store, projectId: string, importPath: string, lines: Option<seq<string>>, copied: set<string>)
    returns (reply: string, count: nat)
    requires IsDigits(projectId)
    requires db.Valid()
    modifies db
    ensures db.Valid()
    ensures db.projects == old(db.projects) && db.ports == old(db.ports)
    ensures reply == "Importing files. Task-ID: " + TaskReply(old(db.State()), DigitsValue(projectId))
    ensures count == if lines.None? then 0 else |Imported(lines.value, copied)|
    ensures ImportDone(old(db.State()), db.State(), DigitsValue(projectId), importPath, lines, copied)
  {
    var p := DigitsValue(projectId);
    ghost var before := db.State();
    ghost var id := db.nextId;
    var path := ReplaceChar(importPath, '\t', '_');
    ghost var started := Task(p, "Import files from " + path, "started", None);
    var taskId := NewTask(db, projectId, "Import files from " + path);
    reply := "Importing files. Task-ID: " + taskId;
    if lines.None? {
      SetStatus(db, projectId, taskId, id, "failed");
      if taskId != "-1" {
        Overwrite(before.tasks, id, started, ImportRecord(p, importPath, lines, copied));
      }
      return reply, 0;
    }
    count := RunImport(db, projectId, taskId, id, lines.value, copied);
    if taskId != "-1" {
      Overwrite(before.tasks, id, started, ImportRecord(p, importPath, lines, copied));
    }
  }

  // ---- evaluate_user_request ----

  /** The outcomes of the network and file-system work a request may do. */
  datatype FileIo = FileIo(downloaded: bool, onDisk: bool, importLines: Option<seq<string>>, copied: set<string>)

  predicate WellFormed(args: seq<string>, action: string, arity: nat)
    requires arity >= 2
  {
    |args| == arity && args[0] == action && IsDigits(args[1])
  }

  /** A request names one action: no two of the tests accept the same fields. */
  lemma ActionsExclusive(args: seq<string>)
    requires |args| >= 2
    ensures WellFormed(args, "DWNF", 6) ==>
              !WellFormed(args, "LIST", 2) && !WellFormed(args, "HIDF", 3) && !WellFormed(args, "UHIF", 3) &&
              !WellFormed(args, "DELF", 3) && !WellFormed(args, "IMPO", 3)
    ensures WellFormed(args, "LIST", 2) ==>
              !WellFormed(args, "HIDF", 3) && !WellFormed(args, "UHIF", 3) && !WellFormed(args, "DELF", 3) && !WellFormed(args, "IMPO", 3)
    ensures WellFormed(args, "HIDF", 3) ==> !WellFormed(args, "UHIF", 3) && !WellFormed(args, "DELF", 3) && !WellFormed(args, "IMPO", 3)
    ensures WellFormed(args, "UHIF", 3) ==> !WellFormed(args, "DELF", 3) && !WellFormed(args, "IMPO", 3)
    ensures WellFormed(args, "DELF", 3) ==> !WellFormed(args, "IMPO", 3)
  {
    assert "DWNF"[1] != "DELF"[1];
    assert "HIDF"[0] != "UHIF"[0] && "HIDF"[0] != "DELF"[0] && "HIDF"[0] != "IMPO"[0];
    assert "UHIF"[0] != "DELF"[0] && "UHIF"[0] != "IMPO"[0] && "DELF"[0] != "IMPO"[0];
  }

  /** The file task a request asks for: HIDF hides, UHIF unhides, DELF removes. */
  function ActionOf(args: seq<string>): (r: Option<FileAction>)
    requires |args| >= 2
    ensures r == Some(Hide) <==> WellFormed(args, "HIDF", 3)
    ensures r == Some(Unhide) <==> WellFormed(args, "UHIF", 3)
    ensures r == Some(Remove) <==> WellFormed(args, "DELF", 3)
  {
    ActionsExclusive(args);
    if WellFormed(args, "HIDF", 3) then Some(Hide)
    else if WellFormed(args, "UHIF", 3) then Some(Unhide)
    else if WellFormed(args, "DELF", 3) then Some(Remove)
    else None
  }

  /**
   * A DWNF request: the download, which raises when it fails, and then the
   * remaining tests of `evaluate_user_request`, of which none matches and
   * the last adds "-3".
   */
  method DownloadRequest(db: Store, args: seq<string>, io: FileIo) returns (replies: seq<string>, exit: Exit)
    requires WellFormed(args, "DWNF", 6)
    requires db.Valid()
    modifies db
    ensures db.Valid()
    ensures db.projects == old(db.projects) && db.ports == old(db.ports)
    ensures !DownloadType(args[4]) ==> replies == ["-4", "-3"] && exit == Returned && db.State() == old(db.State())
    ensures DownloadType(args[4]) ==>
              && replies == [TaskReply(old(db.State()), DigitsValue(args[1]))] + (if io.downloaded then ["-3"] else [])
              && exit == (if io.downloaded then Returned else Raised("TypeError"))
              && Downloaded(old(db.State()), db.State(), DigitsValue(args[1]), args[2], args[3], args[4], io.downloaded)
  {
    ActionsExclusive(args);
    replies, exit := DownloadFile(db, args[1], args[2], args[3], args[4], io.downloaded);
    if exit.Raised? {
      return;
    }
    var more := FileActions(db, args, io);
    replies := replies + more;
  }

  /**
   * `evaluate_user_request`: independent tests, of which only the last,
   * IMPO, has an `else`, so every request but a well-formed IMPO ends with
   * "-3", even one that was served. The arguments are the request's fields
   * after the family and never fewer than two.
   */
  method EvaluateUserRequest(db: Store, args: seq<string>, io: FileIo) returns (replies: seq<string>, exit: Exit)
    requires |args| >= 2
    requires db.Valid()
    modifies db
    ensures db.Valid()
    ensures db.projects == old(db.projects) && db.ports == old(db.ports)
    ensures exit.Raised? ==> WellFormed(args, "DWNF", 6) && !io.downloaded
    ensures exit.Returned? && !WellFormed(args, "IMPO", 3) ==> |replies| >= 1 && replies[|replies| - 1] == "-3"
    ensures WellFormed(args, "IMPO", 3) ==>
              exit.Returned? && |replies| == 1 && StartsWith(replies[0], "Importing files. Task-ID: ")
    ensures WellFormed(args, "LIST", 2) ==>
              replies == [old(FileList(db, DigitsValue(args[1]))), "-3"] && exit == Returned && db.State() == old(db.State())
    ensures !WellFormed(args, "DWNF", 6) && !WellFormed(args, "LIST", 2) && !WellFormed(args, "HIDF", 3) &&
            !WellFormed(args, "UHIF", 3) && !WellFormed(args, "DELF", 3) && !WellFormed(args, "IMPO", 3) ==>
              replies == ["-3"] && exit == Returned && db.State() == old(db.State())
    ensures WellFormed(args, "DWNF", 6) && !DownloadType(args[4]) ==>
              replies == ["-4", "-3"] && exit == Returned && db.State() == old(db.State())
    ensures WellFormed(args, "DWNF", 6) && DownloadType(args[4]) ==>
              && replies == [TaskReply(old(db.State()), DigitsValue(args[1]))] + (if io.downloaded then ["-3"] else [])
              && exit == (if io.downloaded then Returned else Raised("TypeError"))
              && Downloaded(old(db.State()), db.State(), DigitsValue(args[1]), args[2], args[3], args[4], io.downloaded)
    ensures ActionOf(args).Some? ==>
              && exit == Returned && replies == [TaskReply(old(db.State()), DigitsValue(args[1])), "-3"]
              && FileTaskDone(old(db.State()), db.State(), DigitsValue(args[1]), args[2], ActionOf(args).value, io.onDisk)
    ensures WellFormed(args, "IMPO", 3) ==>
              && exit == Returned && replies == ["Importing files. Task-ID: " + TaskReply(old(db.State()), DigitsValue(args[1]))]
              && ImportDone(old(db.State()), db.State(), DigitsValue(args[1]), args[2], io.importLines, io.copied)
  {
    ActionsExclusive(args);
    replies, exit := [], Returned;
    if WellFormed(args, "DWNF", 6) {
      replies, exit := DownloadRequest(db, args, io);
    } else if WellFormed(args, "LIST", 2) {
      var listing := FileList(db, DigitsValue(args[1]));
      var more := FileActions(db, args, io);
      replies := [listing] + more;
    } else {
      replies := FileActions(db, args, io);
    }
  }

  /**
   * The last four tests of `evaluate_user_request`, the replies they add:
   * hide, unhide and remove answer with their task id, an import with its
   * message, and every request that is not an import with "-3".
   */
  method FileActions(db: Store, args: seq<string>, io: FileIo) returns (replies: seq<string>)
    requires |args| >= 2
    requires db.Valid()
    modifies db
    ensures db.Valid()
    ensures db.projects == old(db.projects) && db.ports == old(db.ports)
    ensures !WellFormed(args, "IMPO", 3) ==> |replies| >= 1 && replies[|replies| - 1] == "-3"
    ensures WellFormed(args, "IMPO", 3) ==> |replies| == 1 && StartsWith(replies[0], "Importing files. Task-ID: ")
    ensures !WellFormed(args, "HIDF", 3) && !WellFormed(args, "UHIF", 3) && !WellFormed(args, "DELF", 3) && !WellFormed(args, "IMPO", 3) ==>
              replies == ["-3"] && db.State() == old(db.State())
    ensures ActionOf(args).Some? ==>
              && replies == [TaskReply(old(db.State()), DigitsValue(args[1])), "-3"]
              && FileTaskDone(old(db.State()), db.State(), DigitsValue(args[1]), args[2], ActionOf(args).value, io.onDisk)
    ensures WellFormed(args, "IMPO", 3) ==>
              && replies == ["Importing files. Task-ID: " + TaskReply(old(db.State()), DigitsValue(args[1]))]
              && ImportDone(old(db.State()), db.State(), DigitsValue(args[1]), args[2], io.importLines, io.copied)
  {
    ActionsExclusive(args);
    var action := ActionOf(args);
    if action.Some? {
      var r := FileTask(db, args[1], args[2], action.value, io.onDisk);
      replies := [r, "-3"];
    } else if WellFormed(args, "IMPO", 3) {
      var r, _ := FileImport(db, args[1], args[2], io.importLines, io.copied);
      replies := [r];
      assert StartsWith(r, "Importing files. Task-ID: ") by {
        assert r[..|"Importing files. Task-ID: "|] == "Importing files. Task-ID: ";
      }
    } else {
      replies := ["-3"];
    }
  }
}
