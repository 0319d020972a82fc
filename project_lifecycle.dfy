/**
 * Project management on the main database: creating a project (with its
 * three manager nodes and two leased ports), deleting it, and reporting on
 * one project or all of them.
 *
 * File-system work (the project folders, the copied Neo4j installation) is
 * reduced to whether it succeeded, `provisioned`, and the lines of the copied
 * configuration file; stopping the project database is reduced to the
 * outcome of that process.
 */
module ProjectLifecycle {
  import opened Wrappers
  import opened Strings
  import opened Sorting
  import opened MainDb
  import Neo4jConf

  predicate Free(ports: map<int, Port>, nr: int)
  {
    nr in ports && ports[nr].status == "inactive"
  }

  /**
   * The query for a free port (`LIMIT 1`, no order: any free port may come
   * back) and the update that makes it active for `project`.
   */
  method LeasePort(db: Store, project: int) returns (leased: Option<int>)
    modifies db
    ensures db.projects == old(db.projects) && db.tasks == old(db.tasks) && db.files == old(db.files)
    ensures db.nextId == old(db.nextId)
    ensures leased.None? <==> !exists nr :: Free(old(db.ports), nr)
    ensures leased.None? ==> db.ports == old(db.ports)
    ensures leased.Some? ==> Free(old(db.ports), leased.value) &&
                             db.ports == old(db.ports)[leased.value := Port("active", Some(project))]
  {
    if !exists nr :: nr in db.ports && db.ports[nr].status == "inactive" {
      return None;
    }
    var nr :| nr in db.ports && db.ports[nr].status == "inactive";
    assert Free(old(db.ports), nr);
    db.ports := db.ports[nr := Port("active", Some(project))];
    leased := Some(nr);
  }

  /**
   * `CreateProject.run`. The project node is made with status INIT and its
   * three managers, and its id goes back to the user first. Then a
   * free port is leased for Bolt and another for HTTP, the project's folders
   * and database copy are made and its configuration rewritten; the project
   * ends INIT_SUCCESS if all of that worked and INIT_FAILED otherwise, and a
   * port leased before a later step failed is not given back.
   */
  method CreateProject(db: Store, name: string, provisioned: bool, conf: seq<string>)
    returns (replies: seq<string>, id: int, written: Option<seq<string>>)
    requires db.Valid()
    modifies db
    ensures db.Valid()
    ensures id == old(db.nextId) && id !in old(db.projects)
    ensures replies == [IntToString(id)]
    ensures db.projects.Keys == old(db.projects).Keys + {id}
    ensures forall p :: p in old(db.projects) ==> db.projects[p] == old(db.projects)[p]
    ensures db.tasks == old(db.tasks) && db.files == old(db.files)
    ensures var proj := db.projects[id];
            proj.name == name && proj.taskManager && proj.fileManager && proj.editManager
    // the Bolt port is a port that was free, now active for this project
    ensures var proj := db.projects[id];
            (proj.boltPort.None? <==> !exists nr :: Free(old(db.ports), nr)) &&
            (proj.boltPort.Some? ==>
               Free(old(db.ports), proj.boltPort.value) &&
               proj.boltPort.value in db.ports && db.ports[proj.boltPort.value] == Port("active", Some(id)))
    // the HTTP port is leased only after the Bolt port, and is another free port
    ensures var proj := db.projects[id];
            (proj.httpPort.Some? ==>
               proj.boltPort.Some? && proj.httpPort != proj.boltPort &&
               Free(old(db.ports), proj.httpPort.value) &&
               proj.httpPort.value in db.ports && db.ports[proj.httpPort.value] == Port("active", Some(id))) &&
            (proj.boltPort.Some? && proj.httpPort.None? ==>
               forall nr :: Free(old(db.ports), nr) ==> nr == proj.boltPort.value)
    // no other port changes
    ensures db.ports.Keys == old(db.ports).Keys
    ensures forall nr :: nr in old(db.ports) && Some(nr) != db.projects[id].boltPort && Some(nr) != db.projects[id].httpPort
              ==> nr in db.ports && db.ports[nr] == old(db.ports)[nr]
    ensures var proj := db.projects[id];
            (proj.status == "INIT_SUCCESS" <==> proj.httpPort.Some? && provisioned) &&
            (proj.status != "INIT_SUCCESS" ==> proj.status == "INIT_FAILED")
    ensures var proj := db.projects[id];
            written.Some? <==> proj.status == "INIT_SUCCESS"
    ensures var proj := db.projects[id];
            written.Some? ==>
              |written.value| == |conf| &&
              forall i :: 0 <= i < |conf| ==>
                written.value[i] == Neo4jConf.RewriteLine(conf[i], IntToString(proj.boltPort.value), IntToString(proj.httpPort.value))
  {
    id := db.nextId;
    db.nextId := db.nextId + 4;  // the project and its three manager nodes
    db.projects := db.projects[id := Project(name, "INIT", true, true, true, None, None)];
    replies := [IntToString(id)];
    written := None;
    var bolt, http := LeaseProjectPorts(db, id);
    var status := "INIT_FAILED";
    if http.Some? && provisioned {
      var content := Neo4jConf.RewriteConf(conf, IntToString(bolt.value), IntToString(http.value));
      written := Some(content);
      status := "INIT_SUCCESS";
    }
    db.projects := db.projects[id := db.projects[id].(status := status)];
  }

  /**
   * The two port leases of a new project: the Bolt port is leased and
   * stored on the project, then the HTTP port; a failed lease ends the
   * sequence and a port leased before it stays leased.
   */
  method LeaseProjectPorts(db: Store, id: int) returns (bolt: Option<int>, http: Option<int>)
    requires id in db.projects && db.projects[id].boltPort.None? && db.projects[id].httpPort.None?
    modifies db
    ensures db.tasks == old(db.tasks) && db.files == old(db.files) && db.nextId == old(db.nextId)
    ensures db.projects == old(db.projects)[id := old(db.projects)[id].(boltPort := bolt, httpPort := http)]
    ensures bolt.None? <==> !exists nr :: Free(old(db.ports), nr)
    ensures bolt.Some? ==> Free(old(db.ports), bolt.value) &&
                           bolt.value in db.ports && db.ports[bolt.value] == Port("active", Some(id))
    ensures http.Some? ==> bolt.Some? && http != bolt && Free(old(db.ports), http.value) &&
                           http.value in db.ports && db.ports[http.value] == Port("active", Some(id))
    ensures bolt.Some? && http.None? ==> forall nr :: Free(old(db.ports), nr) ==> nr == bolt.value
    ensures db.ports.Keys == old(db.ports).Keys
    ensures forall nr :: nr in old(db.ports) && Some(nr) != bolt && Some(nr) != http ==>
              nr in db.ports && db.ports[nr] == old(db.ports)[nr]
  {
    http := None;
    bolt := LeasePort(db, id);
    if bolt.None? {
      return;
    }
    db.projects := db.projects[id := db.projects[id].(boltPort := bolt)];
    ghost var before := db.ports;
    http := LeasePort(db, id);
    if http.None? {
      forall nr | Free(old(db.ports), nr) ensures nr == bolt.value {
        if nr != bolt.value {
          assert Free(db.ports, nr);
        }
      }
    }
    db.projects := db.projects[id := db.projects[id].(httpPort := http)];
  }

  /** Gives a port back to the pool, if it exists. */
  function ReleasePort(ports: map<int, Port>, nr: int): (r: map<int, Port>)
    ensures r.Keys == ports.Keys
    ensures nr in ports ==> r[nr] == Port("inactive", None)
    ensures forall other :: other in ports && other != nr ==> r[other] == ports[other]
  {
    if nr in ports then ports[nr := Port("inactive", None)] else ports
  }

  /**
   * The ports left after deleting `project`: its two ports are released only
   * when it has both, because reading a missing one fails before either
   * release.
   */
  function PortsAfterDelete(ports: map<int, Port>, project: Option<Project>): map<int, Port>
  {
    if project.Some? && project.value.boltPort.Some? && project.value.httpPort.Some? then
      ReleasePort(ReleasePort(ports, project.value.boltPort.value), project.value.httpPort.value)
    else ports
  }

  /** A project holding both ports leaves both free, and no other port changes. */
  lemma DeleteReleasesPorts(ports: map<int, Port>, project: Project)
    requires project.boltPort.Some? && project.httpPort.Some?
    ensures var after := PortsAfterDelete(ports, Some(project));
            after.Keys == ports.Keys &&
            (project.boltPort.value in ports ==> Free(after, project.boltPort.value)) &&
            (project.httpPort.value in ports ==> Free(after, project.httpPort.value)) &&
            forall nr :: nr in ports && Some(nr) != project.boltPort && Some(nr) != project.httpPort ==> after[nr] == ports[nr]
  {}

  /**
   * `DeleteProject.run`. The project database is stopped first: if that
   * program cannot be started (there is no such project folder) nothing is
   * sent and nothing changes; if it fails, "-1". Otherwise the id goes back,
   * and the project node goes with its manager nodes. The file and task nodes
   * are left behind, because the queries follow `files` and `tasks`
   * relationships that are never created.
   */
  method DeleteProject(db: Store, projectId: string, stop: ProcessRun) returns (replies: seq<string>)
    requires IsDigits(projectId)
    requires db.Valid()
    modifies db
    ensures db.Valid()
    ensures db.tasks == old(db.tasks) && db.files == old(db.files) && db.nextId == old(db.nextId)
    ensures stop.LaunchFailed? ==> replies == [] && db.projects == old(db.projects) && db.ports == old(db.ports)
    ensures stop.Exited? && stop.code != 0 ==> replies == ["-1"] && db.projects == old(db.projects) && db.ports == old(db.ports)
    ensures stop == Exited(0) ==>
              var id := DigitsValue(projectId);
              replies == [IntToString(id)] &&
              db.projects == old(db.projects) - {id} &&
              db.ports == PortsAfterDelete(old(db.ports), if id in old(db.projects) then Some(old(db.projects)[id]) else None)
  {
    var id := DigitsValue(projectId);
    match stop
    case LaunchFailed =>
      replies := [];
      return;
    case Exited(code) =>
      if code != 0 {
        replies := ["-1"];
        return;
      }
    replies := [IntToString(id)];
    if id in db.projects {
      // the File_Manager, Task_Manager and Edit_Manager nodes go
      db.projects := db.projects[id := db.projects[id].(fileManager := false, taskManager := false, editManager := false)];
      var project := db.projects[id];
      if project.boltPort.Some? && project.httpPort.Some? {
        db.ports := ReleasePort(db.ports, project.boltPort.value);
        db.ports := ReleasePort(db.ports, project.httpPort.value);
      }
    }
    db.projects := db.projects - {id};
  }

  /** One line of the project listing: name, id and status. */
  datatype Row = Row(name: string, id: int, status: string)

  function RowText(row: Row): string
  {
    row.name + "\t" + IntToString(row.id) + "\t" + row.status
  }

  predicate NameLeq(a: Row, b: Row)
  {
    StrLeq(a.name, b.name)
  }

  lemma NameLeqTotalPreorder()
    ensures TotalPreorder(NameLeq)
  {
    forall a: Row, b: Row ensures NameLeq(a, b) || NameLeq(b, a) { StrLeqTotal(a.name, b.name); }
    forall a: Row, b: Row, c: Row | NameLeq(a, b) && NameLeq(b, c) ensures NameLeq(a, c) {
      StrLeqTrans(a.name, b.name, c.name);
    }
  }

  /** The project ids below `bound`, ascending. */
  function ProjectIds(db: Store, bound: int): (ids: seq<int>)
    reads db
    ensures forall p :: p in ids <==> 0 <= p < bound && p in db.projects
    ensures forall i, j :: 0 <= i < j < |ids| ==> ids[i] < ids[j]
    ensures forall i :: 0 <= i < |ids| ==> ids[i] in db.projects
    decreases bound
  {
    if bound <= 0 then []
    else ProjectIds(db, bound - 1) + (if bound - 1 in db.projects then [bound - 1] else [])
  }

  function RowOf(db: Store, p: int): Row
    reads db
    requires p in db.projects
  {
    Row(db.projects[p].name, p, db.projects[p].status)
  }

  function RowsOf(db: Store, ids: seq<int>): (rows: seq<Row>)
    reads db
    requires forall i :: 0 <= i < |ids| ==> ids[i] in db.projects
    ensures |rows| == |ids|
    ensures forall i :: 0 <= i < |ids| ==> rows[i] == RowOf(db, ids[i])
  {
    seq(|ids|, i requires 0 <= i < |ids| && ids[i] in db.projects reads db => RowOf(db, ids[i]))
  }

  /** Some row of `rows` is that of project `p`. */
  ghost predicate Listed(rows: seq<Row>, p: int)
  {
    exists i :: 0 <= i < |rows| && rows[i].id == p
  }

  /**
   * The rows of `ORDER BY name`: every project exactly once, ordered by name.
   * Projects with the same name keep the order of their ids.
   */
  function Listing(db: Store): (rows: seq<Row>)
    reads db
    requires db.Valid()
    ensures SortedBy(rows, NameLeq)
    ensures multiset(rows) == multiset(RowsOf(db, ProjectIds(db, db.nextId)))
    ensures forall p :: p in db.projects <==> Listed(rows, p)
    ensures forall i :: 0 <= i < |rows| ==> rows[i].id in db.projects && rows[i] == RowOf(db, rows[i].id)
  {
    var ids := ProjectIds(db, db.nextId);
    var unsorted := RowsOf(db, ids);
    var rows := SortBy(unsorted, NameLeq);
    NameLeqTotalPreorder();
    SortBySorted(unsorted, NameLeq);
    forall i | 0 <= i < |rows| ensures rows[i].id in db.projects && rows[i] == RowOf(db, rows[i].id) {
      assert rows[i] in multiset(unsorted);
      var k :| 0 <= k < |unsorted| && unsorted[k] == rows[i];
    }
    forall p | p in db.projects ensures Listed(rows, p) {
      var k :| 0 <= k < |ids| && ids[k] == p;
      assert unsorted[k] in multiset(rows);
      var i :| 0 <= i < |rows| && rows[i] == unsorted[k];
    }
    rows
  }

  /**
   * `ProjectInfo.run`: with a non-empty id, that project's status ("-1" if
   * the id does not parse or names no project); otherwise the listing, one
   * row per line.
   */
  function ProjectInfo(db: Store, requested: Option<string>): (reply: string)
    reads db
    requires db.Valid()
    ensures requested.Some? && requested.value != "" && ParseInt(requested.value).Some? ==>
              var p := ParseInt(requested.value).value;
              reply == if p in db.projects then db.projects[p].status else "-1"
    ensures forall p :: requested == Some(IntToString(p)) && p in db.projects ==> reply == db.projects[p].status
    ensures forall p :: requested == Some(IntToString(p)) && p !in db.projects ==> reply == "-1"
    ensures requested.Some? && requested.value != "" && ParseInt(requested.value).None? ==> reply == "-1"
    ensures requested.None? || requested.value == "" ==> reply == ListingText(Listing(db))
  {
    if requested.Some? && requested.value != "" then
      var parsed := ParseInt(requested.value);
      assert forall p :: requested == Some(IntToString(p)) ==> parsed == Some(p) by {
        forall p | requested == Some(IntToString(p)) ensures parsed == Some(p) { ParseIntOfIntToString(p); }
      }
      if parsed.Some? && parsed.value in db.projects then db.projects[parsed.value].status else "-1"
    else ListingText(Listing(db))
  }

  /** The rows, one per line. */
  function ListingText(rows: seq<Row>): string
  {
    Join(seq(|rows|, i requires 0 <= i < |rows| => RowText(rows[i])), '\n')
  }
}
