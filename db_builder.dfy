/**
 * The build manager (`DBBuilder`): collecting a project's visible files
 * into (species, variant) groups for the database build, and configuring
 * the GFF3 parser of the project's GFF3 files.
 *
 * The parse of each file's first hundred lines is not modelled: its first
 * gene and protein node (or their absence, or a missing file) are given as
 * a parameter. The Cypher queries are written over the main database's
 * maps; a query without ORDER BY returns nodes by ascending id.
 */
module DbBuilder {
  import opened Wrappers
  import opened Strings
  import opened Sorting
  import opened Seqs
  import opened MainDb
  import FileManagement
  import Gff3Parser

  // ---- the file query of build_db ----

  /** A row of the build query: file name, file type, species, variant. */
  datatype BuildRow = BuildRow(filename: string, filetype: string, species: string, variant: string)

  type Key = (string, string)

  function KeyOf(row: BuildRow): Key
  {
    (row.species, row.variant)
  }

  /** File `f` hangs under project `p`'s File_Manager and is not hidden. */
  predicate Visible(projects: map<int, Project>, files: map<int, DataFile>, p: int, f: int)
  {
    p in projects && projects[p].fileManager && f in files && files[f].project == p && files[f].hidden == "False"
  }

  /** The visible files of project `p` with ids below `bound`, ascending. */
  function VisibleIds(projects: map<int, Project>, files: map<int, DataFile>, p: int, bound: int): (ids: seq<int>)
    ensures forall f :: f in ids <==> 0 <= f < bound && Visible(projects, files, p, f)
    ensures forall i :: 0 <= i < |ids| ==> Visible(projects, files, p, ids[i])
    decreases bound
  {
    if bound <= 0 then []
    else VisibleIds(projects, files, p, bound - 1) + (if Visible(projects, files, p, bound - 1) then [bound - 1] else [])
  }

  function RowOf(files: map<int, DataFile>, f: int): BuildRow
    requires f in files
  {
    BuildRow(files[f].filename, files[f].filetype, files[f].species, files[f].variant)
  }

  predicate RowNameLeq(a: BuildRow, b: BuildRow)
  {
    StrLeq(a.filename, b.filename)
  }

  lemma RowNameLeqTotalPreorder()
    ensures TotalPreorder(RowNameLeq)
  {
    forall a: BuildRow, b: BuildRow ensures RowNameLeq(a, b) || RowNameLeq(b, a) { StrLeqTotal(a.filename, b.filename); }
    forall a: BuildRow, b: BuildRow, c: BuildRow | RowNameLeq(a, b) && RowNameLeq(b, c) ensures RowNameLeq(a, c) {
      StrLeqTrans(a.filename, b.filename, c.filename);
    }
  }

  /** The rows of the visible files of project `p` with ids below `bound`, in id order. */
  function IdRows(projects: map<int, Project>, files: map<int, DataFile>, p: int, bound: int): (rows: seq<BuildRow>)
    ensures |rows| == |VisibleIds(projects, files, p, bound)|
  {
    var ids := VisibleIds(projects, files, p, bound);
    seq(|ids|, i requires 0 <= i < |ids| => RowOf(files, ids[i]))
  }

  /** `row` is the row of some visible file of project `p`. */
  ghost predicate RowFromVisible(projects: map<int, Project>, files: map<int, DataFile>, p: int, row: BuildRow)
  {
    exists f :: Visible(projects, files, p, f) && row == RowOf(files, f)
  }

  /** Each visible file has its row, and each row is that of a visible file. */
  lemma IdRowsContents(projects: map<int, Project>, files: map<int, DataFile>, p: int, bound: int)
    ensures var rows := IdRows(projects, files, p, bound);
            && (forall f :: 0 <= f < bound && Visible(projects, files, p, f) ==> RowOf(files, f) in rows)
            && (forall i :: 0 <= i < |rows| ==> RowFromVisible(projects, files, p, rows[i]))
  {
    var ids := VisibleIds(projects, files, p, bound);
    var rows := IdRows(projects, files, p, bound);
    forall f | 0 <= f < bound && Visible(projects, files, p, f) ensures RowOf(files, f) in rows {
      assert f in ids;
      var k :| 0 <= k < |ids| && ids[k] == f;
      assert rows[k] == RowOf(files, f);
    }
    forall i | 0 <= i < |rows| ensures RowFromVisible(projects, files, p, rows[i]) {
      var f := ids[i];
      assert Visible(projects, files, p, f) && rows[i] == RowOf(files, f);
    }
  }

  /**
   * The rows of the build query for project `p` (node ids below `bound`):
   * one per visible file, ordered by file name.
   */
  function BuildRows(projects: map<int, Project>, files: map<int, DataFile>, p: int, bound: int): seq<BuildRow>
  {
    SortBy(IdRows(projects, files, p, bound), RowNameLeq)
  }

  /** The build rows are the visible files of the project, each once, ordered by file name. */
  lemma BuildRowsContents(projects: map<int, Project>, files: map<int, DataFile>, p: int, bound: int)
    ensures var rows := BuildRows(projects, files, p, bound);
            SortedBy(rows, RowNameLeq) &&
            (forall f :: 0 <= f < bound && Visible(projects, files, p, f) ==> RowOf(files, f) in rows) &&
            (forall i :: 0 <= i < |rows| ==> exists f :: Visible(projects, files, p, f) && rows[i] == RowOf(files, f))
  {
    var unsorted := IdRows(projects, files, p, bound);
    IdRowsContents(projects, files, p, bound);
    var rows := SortBy(unsorted, RowNameLeq);
    RowNameLeqTotalPreorder();
    SortBySorted(unsorted, RowNameLeq);
    forall f | 0 <= f < bound && Visible(projects, files, p, f) ensures RowOf(files, f) in rows {
      assert RowOf(files, f) in multiset(unsorted);
    }
    forall i | 0 <= i < |rows| ensures exists f :: Visible(projects, files, p, f) && rows[i] == RowOf(files, f) {
      assert rows[i] in multiset(rows);
      var k :| 0 <= k < |unsorted| && unsorted[k] == rows[i];
    }
  }

  /** A node id that is no file adds no row. */
  lemma BuildRowsBound(projects: map<int, Project>, files: map<int, DataFile>, p: int, bound: int)
    requires bound !in files
    ensures BuildRows(projects, files, p, bound + 1) == BuildRows(projects, files, p, bound)
  {
    var ids := VisibleIds(projects, files, p, bound);
    assert !Visible(projects, files, p, bound);
    assert VisibleIds(projects, files, p, bound + 1) == ids + [];
    assert ids + [] == ids;
    assert IdRows(projects, files, p, bound + 1) == IdRows(projects, files, p, bound);
  }

  // ---- grouping ----

  /** The (file name, file type) pairs of the rows under `key`, in row order. */
  function FilesUnder(rows: seq<BuildRow>, key: Key): seq<(string, string)>
  {
    if |rows| == 0 then []
    else
      var last := rows[|rows| - 1];
      FilesUnder(rows[..|rows| - 1], key) + (if KeyOf(last) == key then [(last.filename, last.filetype)] else [])
  }

  function KeysOf(rows: seq<BuildRow>): set<Key>
  {
    set i | 0 <= i < |rows| :: KeyOf(rows[i])
  }

  /** The dictionary `file_dict` of `build_db`: one entry per (species, variant) with its files in row order. */
  function Grouped(rows: seq<BuildRow>): map<Key, seq<(string, string)>>
  {
    map k | k in KeysOf(rows) :: FilesUnder(rows, k)
  }

  /** A group holds exactly the files of the rows with its key, in row order. */
  lemma {:induction false} FilesUnderMembers(rows: seq<BuildRow>, key: Key, file: (string, string))
    ensures file in FilesUnder(rows, key) <==>
              exists i :: 0 <= i < |rows| && KeyOf(rows[i]) == key && (rows[i].filename, rows[i].filetype) == file
    decreases |rows|
  {
    if |rows| > 0 {
      var front := rows[..|rows| - 1];
      FilesUnderMembers(front, key, file);
      if exists i :: 0 <= i < |front| && KeyOf(front[i]) == key && (front[i].filename, front[i].filetype) == file {
        var i :| 0 <= i < |front| && KeyOf(front[i]) == key && (front[i].filename, front[i].filetype) == file;
        assert rows[i] == front[i];
      }
      if exists i :: 0 <= i < |rows| && KeyOf(rows[i]) == key && (rows[i].filename, rows[i].filetype) == file {
        var i :| 0 <= i < |rows| && KeyOf(rows[i]) == key && (rows[i].filename, rows[i].filetype) == file;
        if i < |rows| - 1 {
          assert front[i] == rows[i];
        }
      }
    }
  }

  /** Every row lands in exactly one group, so the group sizes add up to the number of rows. */
  lemma {:induction false} FilesUnderLength(rows: seq<BuildRow>, key: Key)
    ensures |FilesUnder(rows, key)| == |set i | 0 <= i < |rows| && KeyOf(rows[i]) == key|
    decreases |rows|
  {
    if |rows| > 0 {
      var n := |rows| - 1;
      var front := rows[..n];
      FilesUnderLength(front, key);
      var before := set i | 0 <= i < n && KeyOf(front[i]) == key;
      var now := set i | 0 <= i < |rows| && KeyOf(rows[i]) == key;
      assert before == set i | 0 <= i < n && KeyOf(rows[i]) == key;
      if KeyOf(rows[n]) == key {
        assert now == before + {n};
      } else {
        assert now == before;
      }
    }
  }

  /** The two loops that fill `file_dict`: an empty list for every key, then each file appended to its key's list. */
  method GroupFiles(rows: seq<BuildRow>) returns (groups: map<Key, seq<(string, string)>>)
    ensures groups == Grouped(rows)
  {
    groups := map[];
    for i := 0 to |rows|
      invariant groups == map k | k in KeysOf(rows[..i]) :: []
    {
      assert KeysOf(rows[..i + 1]) == KeysOf(rows[..i]) + {KeyOf(rows[i])} by {
        assert rows[..i + 1] == rows[..i] + [rows[i]];
      }
      groups := groups[KeyOf(rows[i]) := []];
    }
    assert rows[..|rows|] == rows;
    for i := 0 to |rows|
      invariant groups.Keys == KeysOf(rows)
      invariant forall k :: k in groups ==> groups[k] == FilesUnder(rows[..i], k)
    {
      var k := KeyOf(rows[i]);
      assert rows[..i + 1][..i] == rows[..i];
      assert k in KeysOf(rows);
      groups := groups[k := groups[k] + [(rows[i].filename, rows[i].filetype)]];
    }
  }

  // ---- the clean-up of build_db ----

  /** What the clean-up is meant to leave: the groups of exactly two files, unchanged. */
  function KeepPairs(groups: map<Key, seq<(string, string)>>): (kept: map<Key, seq<(string, string)>>)
    ensures forall k :: k in kept <==> k in groups && |groups[k]| == 2
    ensures forall k :: k in kept ==> kept[k] == groups[k]
  {
    map k | k in groups && |groups[k]| == 2 :: groups[k]
  }

  /**
   * The clean-up as written: it walks the keys in insertion order and
   * deletes a group of another size from the dictionary it is walking,
   * so the next step of the walk raises RuntimeError (dictionary changed
   * size during iteration), even after the last key.
   */
  method CleanUpAsWritten(groups: map<Key, seq<(string, string)>>, order: seq<Key>)
    returns (after: map<Key, seq<(string, string)>>, exit: Exit)
    requires NoRepeats(order) && forall k :: k in groups <==> k in order
    ensures exit == Returned || exit == Raised("RuntimeError")
    ensures exit.Raised? <==> exists k :: k in groups && |groups[k]| != 2
    ensures exit == Returned ==> after == groups && after == KeepPairs(groups)
  {
    after := groups;
    for i := 0 to |order|
      invariant after == groups
      invariant forall j :: 0 <= j < i ==> |groups[order[j]]| == 2
    {
      if |after[order[i]]| != 2 {
        after := after - {order[i]};
        return after, Raised("RuntimeError");
      }
    }
    forall k | k in groups ensures |groups[k]| == 2 {
      var j :| 0 <= j < |order| && order[j] == k;
    }
    exit := Returned;
  }

  /** A species with a single file makes the clean-up as written raise, where the intended one just drops it. */
  lemma SingleFileGroupRaises()
    ensures var groups := map[("Ath", "v1") := [("ath.gff3", "gff3")], ("Osa", "v7") := [("osa.faa", "prot"), ("osa.gff3", "gff3")]];
            (exists k :: k in groups && |groups[k]| != 2) &&
            KeepPairs(groups) == map[("Osa", "v7") := [("osa.faa", "prot"), ("osa.gff3", "gff3")]]
  {
    var groups := map[("Ath", "v1") := [("ath.gff3", "gff3")], ("Osa", "v7") := [("osa.faa", "prot"), ("osa.gff3", "gff3")]];
    assert |groups[("Ath", "v1")]| != 2;
  }

  /**
   * `build_db`: a task is created and its id sent back, its status set to
   * "Collecting files"; then the visible files are grouped by species and
   * variant and the groups other than pairs dropped. The groups are what
   * the build goes on with.
   */
  method BuildDb(db: Store, projectId: string) returns (replies: seq<string>, pairs: map<Key, seq<(string, string)>>)
    requires IsDigits(projectId) && db.Valid()
    modifies db
    ensures db.Valid()
    ensures db.projects == old(db.projects) && db.files == old(db.files) && db.ports == old(db.ports)
    ensures var p := DigitsValue(projectId);
            replies == [if old(FileManagement.TaskCreated(db, p)) then IntToString(old(db.nextId)) else "-1"]
    ensures var p := DigitsValue(projectId);
            if old(FileManagement.TaskCreated(db, p)) then
              db.tasks == old(db.tasks)[old(db.nextId) := Task(p, "Building project DB", "Collecting files", None)]
            else db.tasks == old(db.tasks)
    ensures pairs == KeepPairs(Grouped(BuildRows(old(db.projects), old(db.files), DigitsValue(projectId), old(db.nextId))))
  {
    var p := DigitsValue(projectId);
    var taskId := StartBuild(db, projectId);
    replies := [taskId];
    var rows := BuildRows(db.projects, db.files, p, db.nextId);
    pairs := CollectPairs(rows);
  }

  /** The grouping of the build rows and the clean-up of the groups. */
  method CollectPairs(rows: seq<BuildRow>) returns (pairs: map<Key, seq<(string, string)>>)
    ensures pairs == KeepPairs(Grouped(rows))
  {
    var groups := GroupFiles(rows);
    pairs := KeepPairs(groups);
  }

  /** The task of a build: created with status "started", then set to "Collecting files". */
  method StartBuild(db: Store, projectId: string) returns (taskId: string)
    requires IsDigits(projectId) && db.Valid()
    modifies db
    ensures db.Valid()
    ensures db.projects == old(db.projects) && db.files == old(db.files) && db.ports == old(db.ports)
    ensures var p := DigitsValue(projectId);
            if old(FileManagement.TaskCreated(db, p)) then
              taskId == IntToString(old(db.nextId)) && db.nextId == old(db.nextId) + 1 &&
              db.tasks == old(db.tasks)[old(db.nextId) := Task(p, "Building project DB", "Collecting files", None)]
            else taskId == "-1" && db.tasks == old(db.tasks) && db.nextId == old(db.nextId)
    ensures var p := DigitsValue(projectId);
            BuildRows(db.projects, db.files, p, db.nextId) == BuildRows(old(db.projects), old(db.files), p, old(db.nextId))
  {
    var p := DigitsValue(projectId);
    ghost var id := db.nextId;
    ghost var tasks := db.tasks;
    taskId := FileManagement.NewTask(db, projectId, "Building project DB");
    FileManagement.SetStatus(db, projectId, taskId, id, "Collecting files");
    if taskId != "-1" {
      FileManagement.Overwrite(tasks, id, Task(p, "Building project DB", "started", None), Task(p, "Building project DB", "Collecting files", None));
      BuildRowsBound(db.projects, db.files, p, id);
    }
  }

  // ---- set_gff3_parser ----

  /** A query parameter: Cypher compares a node id only with an integer. */
  datatype Param = IntParam(n: int) | TextParam(text: string)

  predicate IdMatches(id: int, param: Param)
  {
    param.IntParam? && param.n == id
  }

  /**
   * The file pattern of the GFF3 queries: a visible GFF3 file under the
   * File_Manager of the project whose id matches `param`, and whose name is
   * in `names` when a list is given.
   */
  predicate Gff3Match(projects: map<int, Project>, files: map<int, DataFile>, param: Param, names: Option<seq<string>>, f: int)
  {
    f in files && IdMatches(files[f].project, param) &&
    files[f].project in projects && projects[files[f].project].fileManager &&
    files[f].filetype == "gff3" && files[f].hidden == "False" &&
    (names.Some? ==> files[f].filename in names.value)
  }

  /** The names the lookup returns, by ascending node id below `bound`. */
  function Gff3Names(projects: map<int, Project>, files: map<int, DataFile>, param: Param, names: Option<seq<string>>, bound: int)
    : (found: seq<string>)
    decreases bound
  {
    if bound <= 0 then []
    else
      var front := Gff3Names(projects, files, param, names, bound - 1);
      var f := bound - 1;
      front + (if Gff3Match(projects, files, param, names, f) then [files[f].filename] else [])
  }

  /** The lookup returns the name of each matching file. */
  lemma {:induction false} Gff3NamesMembers(projects: map<int, Project>, files: map<int, DataFile>, param: Param,
                                            names: Option<seq<string>>, bound: int, x: string)
    ensures x in Gff3Names(projects, files, param, names, bound) <==>
              exists f :: 0 <= f < bound && Gff3Match(projects, files, param, names, f) && files[f].filename == x
    decreases bound
  {
    if bound > 0 {
      Gff3NamesMembers(projects, files, param, names, bound - 1, x);
    }
  }

  /** The SET query: the matched files get the mapping and the hierarchy, every other file is unchanged. */
  function SetQuery(projects: map<int, Project>, files: map<int, DataFile>, param: Param, names: seq<string>,
                    mapping: string, hierarchy: string): (after: map<int, DataFile>)
    ensures after.Keys == files.Keys
    ensures forall f :: f in files && !Gff3Match(projects, files, param, Some(names), f) ==> after[f] == files[f]
    ensures forall f :: Gff3Match(projects, files, param, Some(names), f) ==>
              after[f].annoMapping == Some(mapping) && after[f].featHierarchy == Some(hierarchy) &&
              after[f].(annoMapping := files[f].annoMapping, featHierarchy := files[f].featHierarchy) == files[f]
  {
    map f | f in files :: if Gff3Match(projects, files, param, Some(names), f)
                          then files[f].(annoMapping := Some(mapping), featHierarchy := Some(hierarchy))
                          else files[f]
  }

  /** The relative path `Projects/<id>/Files/<name>` of a project file. */
  function FilePath(projectId: string, name: string): string
  {
    "Projects/" + projectId + "/Files/" + name
  }

  function FilePaths(projectId: string, names: seq<string>): (paths: seq<string>)
    ensures |paths| == |names|
    ensures forall i :: 0 <= i < |names| ==> paths[i] == FilePath(projectId, names[i])
  {
    seq(|names|, i requires 0 <= i < |names| => FilePath(projectId, names[i]))
  }

  /**
   * As written, the named-file lookup and the SET pass the project id as
   * text, which no node id equals, and the SET matches file names against
   * the relative paths: the lookup finds nothing and the SET changes
   * nothing, whatever the request.
   */
  lemma SettingsNeverStored(projects: map<int, Project>, files: map<int, DataFile>, projectId: string,
                            names: seq<string>, mapping: string, hierarchy: string, bound: int)
    ensures Gff3Names(projects, files, TextParam(projectId), Some(names), bound) == []
    ensures SetQuery(projects, files, TextParam(projectId), FilePaths(projectId, names), mapping, hierarchy) == files
  {
    var found := Gff3Names(projects, files, TextParam(projectId), Some(names), bound);
    if found != [] {
      Gff3NamesMembers(projects, files, TextParam(projectId), Some(names), bound, found[0]);
    }
  }

  /** With the id as a number and the names themselves, each visible GFF3 file of the project that is looked up gets the settings. */
  lemma SettingsStored(projects: map<int, Project>, files: map<int, DataFile>, p: int, names: seq<string>,
                       mapping: string, hierarchy: string, f: int)
    requires Visible(projects, files, p, f) && files[f].filetype == "gff3" && files[f].filename in names
    ensures var after := SetQuery(projects, files, IntParam(p), names, mapping, hierarchy);
            after[f].annoMapping == Some(mapping) && after[f].featHierarchy == Some(hierarchy)
  {
    assert Gff3Match(projects, files, IntParam(p), Some(names), f);
  }

  /** What the probe parse of a file's head gave: the fields of its first gene node and first protein node, if any. */
  datatype Probe = Probe(gene: Option<seq<string>>, protein: Option<seq<string>>)

  /** A node as `", ".join` of its fields, "Error" when the parse gave none. */
  function NodeText(node: Option<seq<string>>): (text: string)
    ensures node.None? ==> text == "Error"
    ensures node.Some? && |node.value| == 1 ==> text == node.value[0]
  {
    match node
    case None => "Error"
    case Some(fields) => JoinText(fields, ", ")
  }

  /** The result line of one probed file: its base name, its first gene node and first protein node, tab-separated. */
  function ProbeLine(path: string, probe: Probe): string
  {
    Basename(path) + "\t" + NodeText(probe.gene) + "\t" + NodeText(probe.protein)
  }

  /** The result lines of the probed files in order; `None` when a file cannot be opened. */
  function ProbeLines(paths: seq<string>, probes: map<string, Probe>): (r: Option<seq<string>>)
    ensures r.None? <==> exists i :: 0 <= i < |paths| && paths[i] !in probes
    ensures r.Some? ==> |r.value| == |paths|
  {
    if |paths| == 0 then Some([])
    else
      var front := paths[..|paths| - 1];
      var last := paths[|paths| - 1];
      assert forall i :: 0 <= i < |front| ==> front[i] == paths[i];
      match ProbeLines(front, probes)
      case None => None
      case Some(lines) =>
        if last in probes then Some(lines + [ProbeLine(last, probes[last])]) else None
  }

  /** When every file opens, line `i` is that of file `i`. */
  lemma {:induction false} ProbeLinesContents(paths: seq<string>, probes: map<string, Probe>, i: nat)
    requires ProbeLines(paths, probes).Some? && i < |paths|
    ensures paths[i] in probes && ProbeLines(paths, probes).value[i] == ProbeLine(paths[i], probes[paths[i]])
  {
    var front := paths[..|paths| - 1];
    var last := paths[|paths| - 1];
    match ProbeLines(front, probes)
    case None =>
      assert false;
    case Some(lines) =>
      assert last in probes;
      assert ProbeLines(paths, probes).value == lines + [ProbeLine(last, probes[last])];
      if i < |paths| - 1 {
        ProbeLinesContents(front, probes, i);
        assert front[i] == paths[i];
      }
  }

  /** One more file: its line is appended, or the lines end in `None` when it cannot be opened. */
  lemma ProbeLinesStep(paths: seq<string>, probes: map<string, Probe>, i: nat, lines: seq<string>)
    requires i < |paths| && ProbeLines(paths[..i], probes) == Some(lines)
    ensures paths[i] in probes ==> ProbeLines(paths[..i + 1], probes) == Some(lines + [ProbeLine(paths[i], probes[paths[i]])])
    ensures paths[i] !in probes ==> ProbeLines(paths[..i + 1], probes) == None
  {
    var front := paths[..i + 1];
    assert front[..|front| - 1] == paths[..i];
    assert front[|front| - 1] == paths[i];
  }

  /** The loop over the files: one line per file, stopping at a file that cannot be opened. */
  method ProbeFiles(paths: seq<string>, probes: map<string, Probe>) returns (results: Option<seq<string>>)
    ensures results == ProbeLines(paths, probes)
  {
    var lines := [];
    for i := 0 to |paths|
      invariant ProbeLines(paths[..i], probes) == Some(lines)
    {
      ProbeLinesStep(paths, probes, i, lines);
      if paths[i] !in probes {
        return None;
      }
      lines := lines + [ProbeLine(paths[i], probes[paths[i]])];
    }
    assert paths[..|paths|] == paths;
    results := Some(lines);
  }

  /** What the parser's two setters accept. */
  predicate MappingValid(mapping: string)
  {
    var m := RemoveChar(mapping, ' ');
    Gff3Parser.Mandatory(m) && Gff3Parser.AllValid(Gff3Parser.Segments(m))
  }

  predicate HierarchyValid(hierarchy: string)
  {
    var f := RemoveChar(hierarchy, ' ');
    |f| > 0 && f[0] != ';'
  }

  /** The result of a rejected configuration. */
  function Verdict(mappingOk: bool, hierarchyOk: bool): string
  {
    "Correct Annotation: " + PyBool(mappingOk) + " Correct Hierarchy: " + PyBool(hierarchyOk)
  }

  /** The files a configuration applies to: all visible GFF3 files of the project, or those of them named. */
  function Targets(projects: map<int, Project>, files: map<int, DataFile>, p: int, names: seq<string>, bound: int): seq<string>
  {
    Gff3Names(projects, files, IntParam(p), if names == [] then None else Some(names), bound)
  }

  /**
   * The file nodes, the task table and the exit `set_gff3_parser` leaves,
   * from the store it starts on: the task (when the project's Task_Manager
   * takes one) gets the id `nextId` and ends as the configuration went.
   */
  function Gff3Configured(projects: map<int, Project>, files: map<int, DataFile>, tasks: map<int, Task>, nextId: int,
                          projectId: string, mapping: string, hierarchy: string, names: seq<string>,
                          probes: map<string, Probe>): (map<int, DataFile>, map<int, Task>, Exit)
    requires IsDigits(projectId)
  {
    var p := DigitsValue(projectId);
    var created := p in projects && projects[p].taskManager;
    var desc := "Configure GFF3 parser";
    if !(MappingValid(mapping) && HierarchyValid(hierarchy)) then
      (files,
       if created then tasks[nextId := Task(p, desc, "failed: invalid syntax", Some(Verdict(MappingValid(mapping), HierarchyValid(hierarchy))))]
       else tasks,
       Returned)
    else
      var targets := Targets(projects, files, p, names, nextId);
      var after := SetQuery(projects, files, IntParam(p), targets, mapping, hierarchy);
      match ProbeLines(FilePaths(projectId, targets), probes)
      case None =>
        (after, if created then tasks[nextId := Task(p, desc, "Added annotation to main-db", None)] else tasks,
         Raised("FileNotFoundError"))
      case Some(lines) =>
        (after, if created then tasks[nextId := Task(p, desc, "Finished", Some(Join(lines, '\n')))] else tasks, Returned)
  }

  /**
   * `set_gff3_parser`: a task is created and its id sent back; a parser
   * checks the mapping and the hierarchy. A rejected pair ends the task
   * "failed: invalid syntax" with which of the two was correct. An
   * accepted pair is stored on the target files, the status becomes
   * "Added annotation to main-db", each file is probed, and the task ends
   * "Finished" with one line per file. A file that cannot be opened raises
   * FileNotFoundError with the task left as it was.
   */
  method SetGff3Parser(db: Store, projectId: string, mapping: string, hierarchy: string, names: seq<string>,
                       probes: map<string, Probe>) returns (replies: seq<string>, exit: Exit)
    requires IsDigits(projectId) && db.Valid()
    modifies db
    ensures db.Valid()
    ensures db.projects == old(db.projects) && db.ports == old(db.ports)
    ensures var p := DigitsValue(projectId);
            replies == [if old(FileManagement.TaskCreated(db, p)) then IntToString(old(db.nextId)) else "-1"]
    ensures !(MappingValid(mapping) && HierarchyValid(hierarchy)) ==>
              exit == Returned && db.files == old(db.files) &&
              var p := DigitsValue(projectId);
              (old(FileManagement.TaskCreated(db, p)) ==>
                 db.tasks == old(db.tasks)[old(db.nextId) := Task(p, "Configure GFF3 parser", "failed: invalid syntax",
                                                                  Some(Verdict(MappingValid(mapping), HierarchyValid(hierarchy))))])
    ensures MappingValid(mapping) && HierarchyValid(hierarchy) ==>
              var p := DigitsValue(projectId);
              var targets := Targets(old(db.projects), old(db.files), p, names, old(db.nextId));
              db.files == SetQuery(old(db.projects), old(db.files), IntParam(p), targets, mapping, hierarchy) &&
              match ProbeLines(FilePaths(projectId, targets), probes)
              case None =>
                exit == Raised("FileNotFoundError") &&
                (old(FileManagement.TaskCreated(db, p)) ==>
                   db.tasks == old(db.tasks)[old(db.nextId) := Task(p, "Configure GFF3 parser", "Added annotation to main-db", None)])
              case Some(lines) =>
                exit == Returned &&
                (old(FileManagement.TaskCreated(db, p)) ==>
                   db.tasks == old(db.tasks)[old(db.nextId) := Task(p, "Configure GFF3 parser", "Finished", Some(Join(lines, '\n')))])
    ensures !old(FileManagement.TaskCreated(db, DigitsValue(projectId))) ==> db.tasks == old(db.tasks)
    ensures (db.files, db.tasks, exit) ==
            Gff3Configured(old(db.projects), old(db.files), old(db.tasks), old(db.nextId), projectId, mapping, hierarchy, names, probes)
  {
    var p := DigitsValue(projectId);
    ghost var id := db.nextId;
    ghost var tasks := db.tasks;
    var desc := "Configure GFF3 parser";
    var taskId := FileManagement.NewTask(db, projectId, desc);
    replies := [taskId];
    if db.nextId != id {
      TargetsBound(db.projects, db.files, p, names, id);
    }
    var targets := Targets(db.projects, db.files, p, names, db.nextId);
    var mappingOk, hierarchyOk := CheckSettings(mapping, hierarchy);
    ghost var started := Task(p, desc, "started", None);
    if !(mappingOk && hierarchyOk) {
      var verdict := Verdict(mappingOk, hierarchyOk);
      Reject(db, projectId, taskId, id, verdict);
      if taskId != "-1" {
        FileManagement.Overwrite(tasks, id, started, started.(status := "failed: invalid syntax", results := Some(verdict)));
      }
      return replies, Returned;
    }
    exit := ApplySettings(db, projectId, taskId, id, targets, mapping, hierarchy, probes);
    if taskId != "-1" {
      match ProbeLines(FilePaths(projectId, targets), probes)
      case None =>
        FileManagement.Overwrite(tasks, id, started, started.(status := "Added annotation to main-db"));
      case Some(lines) =>
        FileManagement.Overwrite(tasks, id, started, started.(status := "Finished", results := Some(Join(lines, '\n'))));
    }
  }

  /** A node id that is no file adds no target. */
  lemma TargetsBound(projects: map<int, Project>, files: map<int, DataFile>, p: int, names: seq<string>, bound: int)
    requires bound !in files
    ensures Targets(projects, files, p, names, bound + 1) == Targets(projects, files, p, names, bound)
  {}

  /** The rejected branch of `set_gff3_parser`. */
  method Reject(db: Store, projectId: string, taskId: string, ghost id: int, verdict: string)
    requires IsDigits(projectId) && db.Valid()
    requires taskId == "-1" || (taskId == IntToString(id) && db.HasTask(DigitsValue(projectId), id))
    modifies db
    ensures db.Valid()
    ensures db.projects == old(db.projects) && db.files == old(db.files) && db.ports == old(db.ports)
    ensures taskId == "-1" ==> db.tasks == old(db.tasks)
    ensures taskId != "-1" ==> db.tasks == old(db.tasks)[id := old(db.tasks)[id].(status := "failed: invalid syntax", results := Some(verdict))]
  {
    FileManagement.SetStatus(db, projectId, taskId, id, "failed: invalid syntax");
    FileManagement.AddResults(db, projectId, taskId, id, verdict);
  }

  /** The throwaway parser of the check: no file behind it and both id counters at 0. */
  method Checker() returns (checker: Gff3Parser.Parser)
    ensures fresh(checker)
    ensures checker.geneNodeId == 0 && checker.proteinNodeId == 0 && checker.annotationMapper == map[]
  {
    checker := new Gff3Parser.Parser("", 0, 0);
  }

  /** The check by a parser built for the purpose: its two setters' verdicts. */
  method CheckSettings(mapping: string, hierarchy: string) returns (mappingOk: bool, hierarchyOk: bool)
    ensures mappingOk == MappingValid(mapping) && hierarchyOk == HierarchyValid(hierarchy)
  {
    var checker := Checker();
    mappingOk := checker.SetAnnotationMapper(mapping);
    hierarchyOk := checker.SetFeatureHierarchy(hierarchy);
  }

  /** The accepted branch of `set_gff3_parser`, for the task `taskId` it created. */
  method ApplySettings(db: Store, projectId: string, taskId: string, ghost id: int, targets: seq<string>,
                       mapping: string, hierarchy: string, probes: map<string, Probe>) returns (exit: Exit)
    requires IsDigits(projectId) && db.Valid()
    requires taskId == "-1" || (taskId == IntToString(id) && db.HasTask(DigitsValue(projectId), id))
    modifies db
    ensures db.Valid()
    ensures db.projects == old(db.projects) && db.ports == old(db.ports)
    ensures db.files == SetQuery(old(db.projects), old(db.files), IntParam(DigitsValue(projectId)), targets, mapping, hierarchy)
    ensures taskId == "-1" ==> db.tasks == old(db.tasks)
    ensures match ProbeLines(FilePaths(projectId, targets), probes)
            case None =>
              exit == Raised("FileNotFoundError") &&
              (taskId != "-1" ==> db.tasks == old(db.tasks)[id := old(db.tasks)[id].(status := "Added annotation to main-db")])
            case Some(lines) =>
              exit == Returned &&
              (taskId != "-1" ==> db.tasks == old(db.tasks)[id := old(db.tasks)[id].(status := "Finished", results := Some(Join(lines, '\n')))])
  {
    var p := DigitsValue(projectId);
    db.files := SetQuery(db.projects, db.files, IntParam(p), targets, mapping, hierarchy);
    FileManagement.SetStatus(db, projectId, taskId, id, "Added annotation to main-db");
    var results := ProbeFiles(FilePaths(projectId, targets), probes);
    if results.None? {
      return Raised("FileNotFoundError");
    }
    FileManagement.SetStatus(db, projectId, taskId, id, "Finished");
    FileManagement.AddResults(db, projectId, taskId, id, Join(results.value, '\n'));
    exit := Returned;
  }

  /**
   * `evaluate_user_request` on the fields after BULD: GFF3 with at least
   * four fields and a digit id configures the parser (the file names are
   * the fields from the fifth on); then, separately, DB with exactly two
   * fields and a digit id builds the database, and every other request,
   * a served GFF3 request included, also gets "-3". No fields at all is
   * an IndexError.
   */
  method EvaluateUserRequest(db: Store, args: seq<string>, probes: map<string, Probe>)
    returns (replies: seq<string>, exit: Exit)
    requires db.Valid()
    modifies db
    ensures db.Valid()
    ensures db.projects == old(db.projects) && db.ports == old(db.ports)
    ensures |args| == 0 ==> replies == [] && exit == Raised("IndexError") && db.tasks == old(db.tasks) && db.files == old(db.files)
    ensures exit.Raised? && |args| > 0 ==> args[0] == "GFF3"
    ensures |args| > 0 && !(args[0] == "GFF3" && |args| >= 4 && IsDigits(args[1])) &&
            !(args[0] == "DB" && |args| == 2 && IsDigits(args[1])) ==>
              replies == ["-3"] && exit == Returned && db.tasks == old(db.tasks) && db.files == old(db.files)
    ensures |args| > 0 && args[0] == "GFF3" && |args| >= 4 && IsDigits(args[1]) ==>
              && replies == [if old(FileManagement.TaskCreated(db, DigitsValue(args[1]))) then IntToString(old(db.nextId)) else "-1"] +
                            (if exit == Returned then ["-3"] else [])
              && (db.files, db.tasks, exit) ==
                 Gff3Configured(old(db.projects), old(db.files), old(db.tasks), old(db.nextId), args[1], args[2], args[3],
                                if |args| > 4 then args[4..] else [], probes)
    ensures |args| > 0 && args[0] == "DB" && |args| == 2 && IsDigits(args[1]) ==>
              var p := DigitsValue(args[1]);
              && exit == Returned && db.files == old(db.files)
              && replies == [if old(FileManagement.TaskCreated(db, p)) then IntToString(old(db.nextId)) else "-1"]
              && db.tasks == if old(FileManagement.TaskCreated(db, p))
                             then old(db.tasks)[old(db.nextId) := Task(p, "Building project DB", "Collecting files", None)]
                             else old(db.tasks)
  {
    if |args| == 0 {
      return [], Raised("IndexError");
    }
    replies := [];
    if args[0] == "GFF3" && |args| >= 4 && IsDigits(args[1]) {
      var r;
      r, exit := SetGff3Parser(db, args[1], args[2], args[3], if |args| > 4 then args[4..] else [], probes);
      replies := replies + r;
      if exit.Raised? {
        return;
      }
    }
    if args[0] == "DB" && |args| == 2 && IsDigits(args[1]) {
      var r, _ := BuildDb(db, args[1]);
      replies := replies + r;
    } else {
      replies := replies + ["-3"];
    }
    exit := Returned;
  }
}
