/**
 * The main graph database shared by the project, task, file, port and
 * database managers, as the part of its node graph they touch:
 *   (:Project)-[:has_tasks]->(:Task_Manager)-[:has_tasks]->(:Task)
 *   (:Project)-[:has_files]->(:File_Manager)-[:file]->(:File)
 *   (:Project)-[:has_edits]->(:Edit_Manager)
 *   (:Port_Manager)-[:has_port]->(:Port)
 * Nodes are kept in maps keyed by their node id (ports by their number);
 * a project's manager nodes are flags on the project. Every node created
 * gets an id never used before.
 */
module MainDb {
  import opened Wrappers

  datatype Project = Project(
    name: string,
    status: string,
    taskManager: bool,
    fileManager: bool,
    editManager: bool,
    boltPort: Option<int>,
    httpPort: Option<int>)

  /** A task node; `project` is the project whose Task_Manager it hangs under. */
  datatype Task = Task(project: int, desc: string, status: string, results: Option<string>)

  /**
   * A file node under a project's File_Manager; a GFF3 file may also carry
   * the annotation mapping and feature hierarchy its parser is to use.
   */
  datatype DataFile = DataFile(
    project: int,
    species: string,
    variant: string,
    filetype: string,
    filename: string,
    hidden: string,
    annoMapping: Option<string>,
    featHierarchy: Option<string>)

  datatype Port = Port(status: string, project: Option<int>)

  /** The project, task and file nodes and the next free id, as one value. */
  datatype Snapshot = Snapshot(projects: map<int, Project>, tasks: map<int, Task>, files: map<int, DataFile>, nextId: int)

  class Store {
    var projects: map<int, Project>
    var tasks: map<int, Task>
    var files: map<int, DataFile>
    var ports: map<int, Port>
    var nextId: int

    /** Every node id in use is below `nextId`, so `nextId` is always free. */
    ghost predicate Valid()
      reads this
    {
      nextId >= 0 &&
      (forall id :: id in projects ==> 0 <= id < nextId) &&
      (forall id :: id in tasks ==> 0 <= id < nextId) &&
      (forall id :: id in files ==> 0 <= id < nextId)
    }

    /** The store's project, task and file nodes and next id, to compare a state before and after an operation. */
    function State(): Snapshot
      reads this
    {
      Snapshot(projects, tasks, files, nextId)
    }

    constructor ()
      ensures Valid()
      ensures projects == map[] && tasks == map[] && files == map[] && ports == map[]
    {
      projects := map[];
      tasks := map[];
      files := map[];
      ports := map[];
      nextId := 0;
    }

    /**
     * The Cypher pattern of every task query: project `p` has a Task_Manager,
     * and task `t` hangs under it.
     */
    predicate HasTask(p: int, t: int)
      reads this`projects, this`tasks
    {
      p in projects && projects[p].taskManager && t in tasks && tasks[t].project == p
    }

    /** Project `p` has a File_Manager, so its files can be listed and new ones attached. */
    predicate HasFileManager(p: int)
      reads this`projects
    {
      p in projects && projects[p].fileManager
    }

    /** File `f` hangs under project `p`'s File_Manager. */
    predicate HasFile(p: int, f: int)
      reads this`projects, this`files
    {
      HasFileManager(p) && f in files && files[f].project == p
    }
  }
}
