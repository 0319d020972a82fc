/**
 * The AHGraR command-line client. It turns typed commands into requests
 * for the server, escaping `_` inside a value as a tab, and keeps its own
 * table of the jobs it started (`jobs.db`), whose rows it adds, refreshes
 * and deletes as the server answers.
 *
 * The console, the sockets and sqlite are not modelled: a command's outcome
 * is the list of requests it sends, the server's reply is a parameter, and
 * the jobs table is a class whose methods change its rows.
 */
module AhgrarCmd {
  import opened Wrappers
  import opened Strings
  import opened Seqs
  import Dispatch
  import DaisychainQuery

  // ---- the local jobs table ----

  /** A row of `JOBS(ID, PROID, NAME, STATUS)`. */
  datatype Job = Job(id: int, project: int, name: string, status: string)

  /** `ID INT PRIMARY KEY`: no two rows share an id. */
  predicate UniqueIds(rows: seq<Job>)
  {
    forall i, j :: 0 <= i < j < |rows| ==> rows[i].id != rows[j].id
  }

  /** `SELECT ID FROM JOBS WHERE PROID=?`, in table order. */
  function ProjectIds(rows: seq<Job>, p: int): (ids: seq<int>)
    ensures |ids| <= |rows|
    ensures forall x :: x in ids <==> exists j :: 0 <= j < |rows| && rows[j].project == p && rows[j].id == x
  {
    if |rows| == 0 then []
    else
      var front := rows[..|rows| - 1];
      var last := rows[|rows| - 1];
      assert forall j :: 0 <= j < |front| ==> front[j] == rows[j];
      ProjectIds(front, p) + (if last.project == p then [last.id] else [])
  }

  /** How many jobs of project `p` come before row `i`: its place in the id list the client sends. */
  function Rank(rows: seq<Job>, p: int, i: nat): nat
    requires i <= |rows|
  {
    |ProjectIds(rows[..i], p)|
  }

  lemma {:induction false} ProjectIdsAppend(a: seq<Job>, b: seq<Job>, p: int)
    ensures ProjectIds(a + b, p) == ProjectIds(a, p) + ProjectIds(b, p)
    decreases |b|
  {
    if |b| > 0 {
      var ab := a + b;
      assert ab[..|ab| - 1] == a + b[..|b| - 1];
      assert ab[|ab| - 1] == b[|b| - 1];
      ProjectIdsAppend(a, b[..|b| - 1], p);
    } else {
      assert a + b == a;
    }
  }

  /** The job in row `i` is the one at its rank in the id list. */
  lemma IdAtRank(rows: seq<Job>, p: int, i: nat)
    requires i < |rows| && rows[i].project == p
    ensures Rank(rows, p, i) < |ProjectIds(rows, p)|
    ensures ProjectIds(rows, p)[Rank(rows, p, i)] == rows[i].id
  {
    var one := [rows[i]];
    assert one[..0] == [];
    assert ProjectIds(one, p) == [rows[i].id];
    assert rows == rows[..i] + one + rows[i + 1..];
    ProjectIdsAppend(rows[..i] + one, rows[i + 1..], p);
    ProjectIdsAppend(rows[..i], one, p);
  }

  /** With unique ids, the id list of a project names each job once. */
  lemma {:induction false} ProjectIdsUnique(rows: seq<Job>, p: int)
    requires UniqueIds(rows)
    ensures NoRepeats(ProjectIds(rows, p))
  {
    if |rows| > 0 {
      var front := rows[..|rows| - 1];
      var last := rows[|rows| - 1];
      assert UniqueIds(front);
      ProjectIdsUnique(front, p);
      var ids := ProjectIds(front, p);
      if last.project == p {
        assert last.id !in ids;
        assert forall i :: 0 <= i < |ids| ==> ids[i] in ids;
      }
    }
  }

  /** `UPDATE JOBS SET STATUS=? WHERE ID=? AND PROID=?` */
  function Updated(rows: seq<Job>, p: int, id: int, status: string): (r: seq<Job>)
    ensures |r| == |rows|
    ensures forall i :: 0 <= i < |rows| ==>
              r[i].id == rows[i].id && r[i].project == rows[i].project && r[i].name == rows[i].name
    ensures forall i :: 0 <= i < |rows| ==>
              r[i].status == if rows[i].id == id && rows[i].project == p then status else rows[i].status
  {
    seq(|rows|, i requires 0 <= i < |rows| =>
      if rows[i].id == id && rows[i].project == p then rows[i].(status := status) else rows[i])
  }

  /**
   * The table once the statuses of a STAT reply are written back pairwise:
   * the job at rank k of project `p` takes the k-th status, as long as the
   * reply has one; every other row is as it was.
   */
  function Refreshed(rows: seq<Job>, p: int, statuses: seq<string>): (r: seq<Job>)
    ensures |r| == |rows|
  {
    seq(|rows|, i requires 0 <= i < |rows| =>
      if rows[i].project == p && Rank(rows, p, i) < |statuses|
      then rows[i].(status := statuses[Rank(rows, p, i)])
      else rows[i])
  }

  /** Writing back one more pair of the zip extends the refreshed prefix by one status. */
  lemma RefreshStep(rows: seq<Job>, p: int, statuses: seq<string>, k: nat)
    requires UniqueIds(rows)
    requires k < |ProjectIds(rows, p)| && k < |statuses|
    ensures Updated(Refreshed(rows, p, statuses[..k]), p, ProjectIds(rows, p)[k], statuses[k])
            == Refreshed(rows, p, statuses[..k + 1])
  {
    var ids := ProjectIds(rows, p);
    var before := Refreshed(rows, p, statuses[..k]);
    var after := Refreshed(rows, p, statuses[..k + 1]);
    var stepped := Updated(before, p, ids[k], statuses[k]);
    ProjectIdsUnique(rows, p);
    forall i | 0 <= i < |rows| ensures stepped[i] == after[i] {
      if rows[i].project == p {
        IdAtRank(rows, p, i);
        var rank := Rank(rows, p, i);
        assert rows[i].id == ids[k] <==> rank == k;
        if rank < k {
          assert statuses[..k][rank] == statuses[..k + 1][rank];
        }
      }
    }
  }

  /** Past the shorter of the id list and the reply, the zip stops: the rest of the reply changes nothing. */
  lemma RefreshTruncated(rows: seq<Job>, p: int, statuses: seq<string>)
    ensures var n := |ProjectIds(rows, p)|;
            Refreshed(rows, p, statuses[..if n <= |statuses| then n else |statuses|]) == Refreshed(rows, p, statuses)
  {
    var n := |ProjectIds(rows, p)|;
    var m := if n <= |statuses| then n else |statuses|;
    forall i | 0 <= i < |rows| && rows[i].project == p
      ensures Refreshed(rows, p, statuses[..m])[i] == Refreshed(rows, p, statuses)[i]
    {
      IdAtRank(rows, p, i);
    }
  }

  /**
   * The statuses of a STAT reply land on the jobs they were asked for: the
   * job whose id went k-th into the request gets the k-th status, and when
   * the reply holds fewer statuses than ids the jobs left over keep theirs.
   * Jobs of other projects never change.
   */
  lemma RefreshedById(rows: seq<Job>, p: int, statuses: seq<string>, i: nat, k: nat)
    requires UniqueIds(rows)
    requires i < |rows| && k < |ProjectIds(rows, p)|
    ensures rows[i].project == p && rows[i].id == ProjectIds(rows, p)[k] && k < |statuses| ==>
              Refreshed(rows, p, statuses)[i] == rows[i].(status := statuses[k])
    ensures rows[i].project == p && rows[i].id == ProjectIds(rows, p)[k] && k >= |statuses| ==>
              Refreshed(rows, p, statuses)[i] == rows[i]
    ensures rows[i].project != p ==> Refreshed(rows, p, statuses)[i] == rows[i]
  {
    if rows[i].project == p {
      IdAtRank(rows, p, i);
      ProjectIdsUnique(rows, p);
    }
  }

  /** A refresh changes statuses only: ids, projects and names stay, so ids stay unique. */
  lemma RefreshedKeepsIds(rows: seq<Job>, p: int, statuses: seq<string>)
    requires UniqueIds(rows)
    ensures UniqueIds(Refreshed(rows, p, statuses))
    ensures forall i :: 0 <= i < |rows| ==>
              Refreshed(rows, p, statuses)[i].(status := rows[i].status) == rows[i]
  {
    var r := Refreshed(rows, p, statuses);
    assert forall i :: 0 <= i < |rows| ==> r[i].id == rows[i].id;
  }

  /** `DELETE FROM JOBS WHERE ID=? AND PROID=?` */
  function Removed(rows: seq<Job>, p: int, id: int): (r: seq<Job>)
    ensures forall x :: x in r <==> x in rows && !(x.id == id && x.project == p)
    ensures |r| <= |rows|
    ensures UniqueIds(rows) ==> UniqueIds(r)
  {
    if |rows| == 0 then []
    else
      var front := rows[..|rows| - 1];
      var last := rows[|rows| - 1];
      var kept := Removed(front, p, id);
      assert forall x :: x in rows <==> x in front || x == last;
      assert UniqueIds(rows) ==> UniqueIds(front);
      assert UniqueIds(rows) ==> forall x :: x in kept ==> x.id != last.id by {
        if UniqueIds(rows) {
          forall x | x in kept ensures x.id != last.id {
            var j :| 0 <= j < |front| && front[j] == x;
          }
        }
      }
      kept + (if last.id == id && last.project == p then [] else [last])
  }

  /** One line per job of the project in the job list the client prints: id, name, status. */
  function JobLines(rows: seq<Job>, p: int): (lines: seq<string>)
    ensures |lines| == |ProjectIds(rows, p)|
    ensures forall k :: 0 <= k < |lines| ==> StartsWith(lines[k], IntToString(ProjectIds(rows, p)[k]) + "\t")
  {
    if |rows| == 0 then []
    else
      var front := rows[..|rows| - 1];
      var last := rows[|rows| - 1];
      var line := IntToString(last.id) + "\t" + last.name + "\t" + last.status;
      assert StartsWith(line, IntToString(last.id) + "\t") by {
        assert line == (IntToString(last.id) + "\t") + (last.name + "\t" + last.status);
      }
      JobLines(front, p) + (if last.project == p then [line] else [])
  }

  /** The `jobs.db` table the client keeps across runs. */
  class JobTable {
    var rows: seq<Job>

    ghost predicate Valid()
      reads this
    {
      UniqueIds(rows)
    }

    constructor ()
      ensures rows == [] && Valid()
    {
      rows := [];
    }

    /** `add_jobid`: a job the server accepted is recorded as "started"; a second row with its id is refused. */
    method AddJob(jobId: string, project: string, description: string) returns (exit: Exit)
      requires Valid()
      modifies this
      ensures Valid()
      ensures ParseInt(jobId).None? || ParseInt(project).None? ==> exit == Raised("ValueError") && rows == old(rows)
      ensures ParseInt(jobId).Some? && ParseInt(project).Some? ==>
                var id := ParseInt(jobId).value;
                if exists j :: 0 <= j < |old(rows)| && old(rows)[j].id == id
                then exit == Raised("IntegrityError") && rows == old(rows)
                else exit == Returned && rows == old(rows) + [Job(id, ParseInt(project).value, description, "started")]
    {
      var id, p := ParseInt(jobId), ParseInt(project);
      if id.None? || p.None? {
        return Raised("ValueError");
      }
      if exists j :: 0 <= j < |rows| && rows[j].id == id.value {
        return Raised("IntegrityError");
      }
      rows := rows + [Job(id.value, p.value, description, "started")];
      exit := Returned;
    }

    /** `update_jobstatus`: the job with this id in this project takes the status; both ids must parse. */
    method UpdateStatus(project: string, jobId: string, status: string) returns (exit: Exit)
      requires Valid()
      modifies this
      ensures Valid()
      ensures exit == if ParseInt(jobId).Some? && ParseInt(project).Some? then Returned else Raised("ValueError")
      ensures rows == if exit.Returned? then Updated(old(rows), ParseInt(project).value, ParseInt(jobId).value, status) else old(rows)
    {
      var id, p := ParseInt(jobId), ParseInt(project);
      if id.None? || p.None? {
        return Raised("ValueError");
      }
      rows := Updated(rows, p.value, id.value, status);
      exit := Returned;
    }

    /**
     * `delete_job`: when the job is also to go from the server, the server
     * is asked first and the row is deleted only if it answers "Deleted".
     */
    method DeleteJob(project: string, jobId: string, fromServer: bool, reply: string) returns (requests: seq<string>, exit: Exit)
      requires Valid()
      modifies this
      ensures Valid()
      ensures requests == if fromServer then ["PATASK_DELE_" + project + "_" + jobId] else []
      ensures fromServer && reply != "Deleted" ==> exit == Returned && rows == old(rows)
      ensures !fromServer || reply == "Deleted" ==>
                if ParseInt(jobId).Some? && ParseInt(project).Some?
                then exit == Returned && rows == Removed(old(rows), ParseInt(project).value, ParseInt(jobId).value)
                else exit == Raised("ValueError") && rows == old(rows)
    {
      requests := [];
      if fromServer {
        requests := ["PATASK_DELE_" + project + "_" + jobId];
        if reply != "Deleted" {
          return requests, Returned;
        }
      }
      var id, p := ParseInt(jobId), ParseInt(project);
      if id.None? || p.None? {
        return requests, Raised("ValueError");
      }
      rows := Removed(rows, p.value, id.value);
      exit := Returned;
    }

    /**
     * `print_joblist`: the ids of the project's jobs go to the server in one
     * STAT request; the tab-separated statuses of the reply are zipped with
     * them and written back one by one, then the project's jobs are listed.
     */
    method PrintJobList(project: string, reply: string) returns (request: Option<string>, listing: seq<string>, exit: Exit)
      requires Valid()
      modifies this
      ensures Valid()
      ensures ParseInt(project).None? ==> request == None && exit == Raised("ValueError") && rows == old(rows)
      ensures ParseInt(project).Some? ==>
                var p := ParseInt(project).value;
                var ids := ProjectIds(old(rows), p);
                && request == Some("PATASK_STAT_" + project + "_" + Join(seq(|ids|, k requires 0 <= k < |ids| => IntToString(ids[k])), '_'))
                && exit == Returned
                && rows == Refreshed(old(rows), p, Split(reply, '\t'))
                && listing == JobLines(rows, p)
    {
      var parsed := ParseInt(project);
      if parsed.None? {
        return None, [], Raised("ValueError");
      }
      var p := parsed.value;
      ghost var start := rows;
      var ids := ProjectIds(rows, p);
      var idTexts := seq(|ids|, k requires 0 <= k < |ids| => IntToString(ids[k]));
      request := Some("PATASK_STAT_" + project + "_" + Join(idTexts, '_'));
      var statuses := Split(reply, '\t');
      var pairs := Zip(idTexts, statuses);
      assert Refreshed(start, p, statuses[..0]) == start;
      for k := 0 to |pairs|
        invariant Valid()
        invariant rows == Refreshed(start, p, statuses[..k])
      {
        ParseIntOfIntToString(ids[k]);
        RefreshStep(start, p, statuses, k);
        var ignored := UpdateStatus(project, pairs[k].0, pairs[k].1);
      }
      RefreshTruncated(start, p, statuses);
      listing := JobLines(rows, p);
      exit := Returned;
    }
  }

  // ---- requests as the server's routing reads them ----

  /** A value without `_` is sent as it is. */
  lemma EscapeKeeps(value: string)
    requires '_' !in value
    ensures Dispatch.Escape(value) == value
  {
    assert forall i :: 0 <= i < |value| ==> Dispatch.Escape(value)[i] == value[i];
  }

  /** A field without a tab is read as it is. */
  lemma UnescapeKeeps(field: string)
    requires '\t' !in field
    ensures Dispatch.Unescape(field) == field
  {
    assert forall i :: 0 <= i < |field| ==> Dispatch.Unescape(field)[i] == field[i];
  }

  /** A project id the client accepted is digits, so it is neither split nor unescaped. */
  lemma DigitsPlain(s: string)
    requires IsDigits(s)
    ensures '_' !in s && '\t' !in s
  {
    assert forall i :: 0 <= i < |s| ==> s[i] != '_' && s[i] != '\t';
  }

  lemma JoinCons(head: string, rest: seq<string>)
    requires |rest| >= 1
    ensures Join([head] + rest, '_') == head + "_" + Join(rest, '_')
  {
    assert ([head] + rest)[1..] == rest;
  }

  /** Text after a `_`-free head and a `_` splits into the head and the text's own pieces. */
  lemma SplitAfter(head: string, s: string)
    requires '_' !in head
    ensures Split(head + "_" + s, '_') == [head] + Split(s, '_')
  {
    var parts := Split(s, '_');
    JoinSplit(s, '_');
    JoinCons(head, parts);
    SplitJoin([head] + parts, '_');
  }

  /**
   * A request made of a two-letter family and `_`-joined escaped values
   * reaches the server's routing as exactly those values.
   */
  lemma Routed(family: string, values: seq<string>, request: string)
    requires |family| == 2 && |values| >= 1
    requires forall i :: 0 <= i < |values| ==> '\t' !in values[i]
    requires request == family + Join(MapStrings(values, Dispatch.Escape), '_')
    ensures Dispatch.Family(request) == family
    ensures Dispatch.Fields(Dispatch.Rest(request)) == values
  {
    assert request[..2] == family;
    assert request[2..] == Join(MapStrings(values, Dispatch.Escape), '_');
    Dispatch.FieldsOfEscapedValues(values);
  }

  // ---- outside a project: `project ...` and `access project <id>` ----

  /** The requests a command sends, what its function returns and how it ended. */
  datatype Outcome = Outcome(requests: seq<string>, returned: Option<string>, exit: Exit)

  /**
   * `project_management`, `words` being the whole command line. Its tests
   * are independent `if`s and only the last has an `else`, so everything
   * but a three-word create or delete returns "Unknown command", a listing
   * or a status request included.
   */
  function ProjectCommand(words: seq<string>): (r: Outcome)
    ensures r.exit.Raised? <==> |words| < 2 || (words[1] == "status" && |words| < 3)
    ensures |words| == 3 && words[1] == "create" ==> r == Outcome(["PMCREA_" + words[2]], None, Returned)
    ensures |words| == 3 && words[1] == "delete" ==> r == Outcome(["PMDELE_" + words[2]], None, Returned)
    ensures r.exit.Returned? && !(|words| == 3 && words[1] in ["create", "delete"]) ==>
              && r.returned == Some("Unknown command")
              && |r.requests| <= 1
              && (forall q :: q in r.requests ==> StartsWith(q, "PMINFO"))
  {
    if |words| < 2 then Outcome([], None, Raised("IndexError"))
    else
      var list := if words[1] == "list" then ["PMINFO"] else [];
      if words[1] == "status" && |words| < 3 then Outcome(list, None, Raised("IndexError"))
      else
        var status :=
          if words[1] == "status" then
            assert ("PMINFO_" + words[2])[..6] == "PMINFO";
            ["PMINFO_" + words[2]]
          else [];
        if words[1] == "create" && |words| == 3 then Outcome(list + status + ["PMCREA_" + words[2]], None, Returned)
        else if words[1] == "delete" && |words| == 3 then Outcome(list + status + ["PMDELE_" + words[2]], None, Returned)
        else Outcome(list + status, Some("Unknown command"), Returned)
  }

  /**
   * A project name free of `_` and tabs reaches the server's project
   * management as the creation of exactly that name; a name with `_` in it
   * arrives split into more fields and creates nothing.
   */
  lemma CreateReachesServer(name: string)
    requires '\t' !in name
    ensures '_' !in name ==>
              Dispatch.AdminHandle("PMCREA_" + name) == [Dispatch.CreateProject(name), Dispatch.Reply("-1")]
    ensures '_' in name ==> forall n :: Dispatch.CreateProject(n) !in Dispatch.AdminHandle("PMCREA_" + name)
  {
    var request := "PMCREA_" + name;
    assert request[..2] == "PM";
    assert request[2..] == "CREA" + "_" + name;
    SplitAfter("CREA", name);
    UnescapeKeeps("CREA");
    if '_' !in name {
      UnescapeKeeps(name);
      assert Dispatch.Fields("CREA" + "_" + name) == ["CREA", name];
    } else {
      assert |Dispatch.Fields("CREA" + "_" + name)| >= 3;
    }
  }

  /** A project id to delete, all digits, reaches the server's project management as its deletion. */
  lemma DeleteReachesServer(id: string)
    requires IsDigits(id)
    ensures Dispatch.AdminHandle("PMDELE_" + id) == [Dispatch.DeleteProject(id), Dispatch.Reply("-1")]
  {
    var request := "PMDELE_" + id;
    assert request[..2] == "PM";
    assert request[2..] == "DELE" + "_" + id;
    DigitsPlain(id);
    SplitAfter("DELE", id);
    UnescapeKeeps("DELE");
    UnescapeKeeps(id);
    assert Dispatch.Fields("DELE" + "_" + id) == ["DELE", id];
  }

  /**
   * `project_access`'s check of `access project <id>`: the project is
   * entered only when the third word is an id of digits, which no escaping
   * or splitting on the server can change.
   */
  function AccessedProject(words: seq<string>): (r: (Option<string>, Exit))
    ensures r.1.Raised? <==> |words| < 2
    ensures r.0.Some? <==> |words| == 3 && words[1] == "project" && IsDigits(words[2])
    ensures r.0.Some? ==> r.0.value == words[2] && '_' !in r.0.value && '\t' !in r.0.value
  {
    if |words| < 2 then (None, Raised("IndexError"))
    else if words[1] != "project" || |words| != 3 || !IsDigits(words[2]) then (None, Returned)
    else
      DigitsPlain(words[2]);
      (Some(words[2]), Returned)
  }

  // ---- inside a project: file, build, database and query commands ----

  /** A request and, when the server answers it with a job id, the description the job is recorded under. */
  datatype Request = Request(text: string, job: Option<string>)

  /** The request code of a file command that names one file. */
  function FileCode(command: string): string
  {
    if command == "hide" then "HIDF"
    else if command == "unhide" then "UHIF"
    else if command == "remove" then "DELF"
    else "IMPO"
  }

  /** The job description of a file command that names one file, after the file name. */
  function FileJob(command: string): string
  {
    if command == "hide" then "Hide file "
    else if command == "unhide" then "Unhide file "
    else if command == "remove" then "Remove file "
    else "Importing files from "
  }

  /**
   * `file_management`, `args` being the words after `file`. File names and
   * the download URL are escaped; the species, variant and file type of a
   * download are not.
   */
  function FileCommand(project: string, args: seq<string>): (r: (Option<Request>, Exit))
    ensures r.1.Raised? <==> |args| == 0
    ensures r.0.Some? <==>
              |args| > 0 && (args[0] in ["sleep", "list"] || (args[0] == "download" && |args| == 5) ||
                             (args[0] in ["hide", "unhide", "remove", "import"] && |args| == 2))
    ensures r.0.Some? ==> (r.0.value.job.None? <==> args[0] == "list")
  {
    if |args| == 0 then (None, Raised("IndexError"))
    else if args[0] == "sleep" then (Some(Request("PAFILE_SLEE_" + project, Some("File sleep"))), Returned)
    else if args[0] == "download" && |args| == 5 then
      var url := Dispatch.Escape(args[4]);
      var text := "PAFILE_DWNF_" + project + "_" + Join(args[1..4] + [url], '_');
      (Some(Request(text, Some("File download " + SliceTo(Dispatch.Unescape(url), 10)))), Returned)
    else if args[0] == "list" then (Some(Request("PAFILE_LIST_" + project, None)), Returned)
    else if args[0] in ["hide", "unhide", "remove", "import"] && |args| == 2 then
      var name := Dispatch.Escape(args[1]);
      (Some(Request("PAFILE_" + FileCode(args[0]) + "_" + project + "_" + name, Some(FileJob(args[0]) + name))), Returned)
    else (None, Returned)
  }

  lemma {:induction false} JoinAfter(head: seq<string>, rest: seq<string>)
    requires |head| >= 1 && |rest| >= 1
    ensures Join(head + rest, '_') == Join(head, '_') + "_" + Join(rest, '_')
    decreases |head|
  {
    if |head| == 1 {
      JoinCons(head[0], rest);
      assert head + rest == [head[0]] + rest;
    } else {
      var h, tail := head[0], head[1..];
      assert head + rest == [h] + (tail + rest);
      JoinCons(h, tail + rest);
      JoinAfter(tail, rest);
      JoinCons(h, tail);
      assert head == [h] + tail;
    }
  }

  /** The fields a project-access request is routed on, in the order the client wrote them. */
  lemma Join3(a: string, b: string, c: string)
    ensures Join([a, b, c], '_') == a + "_" + b + "_" + c
  {
    JoinCons(b, [c]);
    assert [a] + [b, c] == [a, b, c];
    JoinCons(a, [b, c]);
  }

  /**
   * Values the client sends after `PA`, some sent as they are and the rest
   * escaped, reach the admin socket's project-access routing as themselves.
   */
  lemma AccessRequest(request: string, plain: seq<string>, loose: seq<string>)
    requires |plain| >= 1
    requires forall i :: 0 <= i < |plain| ==> '_' !in plain[i] && '\t' !in plain[i]
    requires forall i :: 0 <= i < |loose| ==> '\t' !in loose[i]
    requires request == "PA" + Join(plain + MapStrings(loose, Dispatch.Escape), '_')
    ensures Dispatch.AdminHandle(request) == Dispatch.AdminProjectAccess(Dispatch.Rest(request))
    ensures Dispatch.Fields(Dispatch.Rest(request)) == plain + loose
  {
    EscapePlain(plain, loose);
    var values := plain + loose;
    assert forall i :: 0 <= i < |values| ==> '\t' !in values[i] by {
      forall i | 0 <= i < |values| ensures '\t' !in values[i] {
        if i >= |plain| {
          assert values[i] == loose[i - |plain|];
        }
      }
    }
    Routed("PA", values, request);
    assert "PA" != "PM" by {
      assert "PA"[1] != "PM"[1];
    }
  }

  /** Values with no `_` are sent as they are, so only the rest are escaped. */
  lemma EscapePlain(plain: seq<string>, loose: seq<string>)
    requires forall i :: 0 <= i < |plain| ==> '_' !in plain[i]
    ensures MapStrings(plain + loose, Dispatch.Escape) == plain + MapStrings(loose, Dispatch.Escape)
  {
    var l := MapStrings(plain + loose, Dispatch.Escape);
    var r := plain + MapStrings(loose, Dispatch.Escape);
    forall i | 0 <= i < |l| ensures l[i] == r[i] {
      if i < |plain| {
        EscapeKeeps(plain[i]);
      } else {
        assert (plain + loose)[i] == loose[i - |plain|];
      }
    }
  }

  /** How the admin socket routes the four kinds of project-access request the client sends. */
  lemma AccessRouting(request: string)
    ensures var u := Dispatch.Fields(request);
            && (u[0] == "FILE" && 3 <= |u| <= 7 ==> Dispatch.AdminProjectAccess(request) == [Dispatch.FileRequest(u[1..])])
            && (u[0] == "BULD" ==> Dispatch.AdminProjectAccess(request) == [Dispatch.BuildRequest(u[1..])])
            && (u[0] == "DABA" ==> Dispatch.AdminProjectAccess(request) == [Dispatch.DatabaseRequest(u[1..])])
            && (u[0] == "QURY" ==> Dispatch.AdminProjectAccess(request) == [Dispatch.QueryRequest(u[1..])])
  {
    assert "FILE"[0] != "TASK"[0];
    assert "BULD"[0] != "TASK"[0] && "BULD"[0] != "FILE"[0];
    assert "DABA"[0] != "TASK"[0] && "DABA"[0] != "FILE"[0] && "DABA"[0] != "BULD"[0];
    assert "QURY"[0] != "TASK"[0] && "QURY"[0] != "FILE"[0] && "QURY"[0] != "BULD"[0] && "QURY"[0] != "DABA"[0];
  }

  lemma FileText(project: string, command: string, name: string)
    requires command in ["hide", "unhide", "remove", "import"]
    ensures FileCommand(project, [command, name]).0.Some?
    ensures FileCommand(project, [command, name]).0.value.text
            == "PA" + Join(["FILE", FileCode(command), project] + MapStrings([name], Dispatch.Escape), '_')
  {
    var e := Dispatch.Escape(name);
    assert MapStrings([name], Dispatch.Escape) == [e];
    JoinAfter(["FILE", FileCode(command), project], [e]);
    Join3("FILE", FileCode(command), project);
  }

  /** A file name survives the trip to the server's file manager, underscores included. */
  lemma FileNameRouted(project: string, command: string, name: string)
    requires IsDigits(project)
    requires command in ["hide", "unhide", "remove", "import"]
    requires '\t' !in name
    ensures FileCommand(project, [command, name]).0.Some?
    ensures Dispatch.AdminHandle(FileCommand(project, [command, name]).0.value.text)
            == [Dispatch.FileRequest([FileCode(command), project, name])]
  {
    var code := FileCode(command);
    DigitsPlain(project);
    assert '_' !in code && '\t' !in code;
    FileText(project, command, name);
    var text := FileCommand(project, [command, name]).0.value.text;
    AccessRequest(text, ["FILE", code, project], [name]);
    assert ["FILE", code, project] + [name] == ["FILE", code, project, name];
    AccessRouting(Dispatch.Rest(text));
  }

  lemma DownloadText(project: string, args: seq<string>)
    requires |args| == 5 && args[0] == "download"
    ensures FileCommand(project, args).0.value.text
            == "PA" + Join(["FILE", "DWNF", project] + args[1..4] + MapStrings([args[4]], Dispatch.Escape), '_')
  {
    var tail := args[1..4] + [Dispatch.Escape(args[4])];
    assert MapStrings([args[4]], Dispatch.Escape) == [Dispatch.Escape(args[4])];
    assert ["FILE", "DWNF", project] + args[1..4] + [Dispatch.Escape(args[4])] == ["FILE", "DWNF", project] + tail;
    JoinAfter(["FILE", "DWNF", project], tail);
    Join3("FILE", "DWNF", project);
  }

  /** The fields a download puts on the admin socket, and that socket's route for them. */
  lemma DownloadFields(project: string, args: seq<string>)
    requires IsDigits(project)
    requires |args| == 5 && args[0] == "download"
    requires forall i :: 1 <= i < 4 ==> '_' !in args[i] && '\t' !in args[i]
    requires '\t' !in args[4]
    ensures var text := FileCommand(project, args).0.value.text;
            && Dispatch.Fields(Dispatch.Rest(text)) == ["FILE", "DWNF", project] + args[1..]
            && Dispatch.AdminHandle(text) == Dispatch.AdminProjectAccess(Dispatch.Rest(text))
  {
    var text := FileCommand(project, args).0.value.text;
    DigitsPlain(project);
    DownloadText(project, args);
    var plain := ["FILE", "DWNF", project] + args[1..4];
    assert forall i :: 0 <= i < |plain| ==> '_' !in plain[i] && '\t' !in plain[i] by {
      assert forall i :: 3 <= i < 6 ==> plain[i] == args[i - 2];
    }
    AccessRequest(text, plain, [args[4]]);
    SliceToEnd(["FILE", "DWNF", project], args, 1);
  }

  /**
   * A download whose species, variant and file type hold no `_` reaches the
   * file manager with all four arguments, underscores in the URL included.
   */
  lemma DownloadRouted(project: string, args: seq<string>)
    requires IsDigits(project)
    requires |args| == 5 && args[0] == "download"
    requires forall i :: 1 <= i < 4 ==> '_' !in args[i] && '\t' !in args[i]
    requires '\t' !in args[4]
    ensures Dispatch.AdminHandle(FileCommand(project, args).0.value.text)
            == [Dispatch.FileRequest(["DWNF", project] + args[1..])]
  {
    var text := FileCommand(project, args).0.value.text;
    var u := ["FILE", "DWNF", project] + args[1..];
    DownloadFields(project, args);
    assert |u| == 7 && u[0] == "FILE";
    AccessRouting(Dispatch.Rest(text));
    DropFirst(["FILE", "DWNF", project], args[1..]);
    assert ["FILE", "DWNF", project][1..] == ["DWNF", project];
  }

  /**
   * `build_management`: `set GFF3 ...` escapes every word and sends those
   * after the second; `db` alone asks for the project database to be built.
   */
  function BuildCommand(project: string, args: seq<string>): (r: (Option<Request>, Exit))
    ensures r.1.Raised? <==> |args| == 0 || (args[0] == "set" && |args| == 1)
    ensures r.0.Some? <==> |args| > 0 && ((args[0] == "set" && |args| >= 4 && args[1] == "GFF3") || (args[0] == "db" && |args| == 1))
  {
    if |args| == 0 then (None, Raised("IndexError"))
    else if args[0] == "set" && |args| == 1 then (None, Raised("IndexError"))
    else if args[0] == "set" && args[1] == "GFF3" && |args| >= 4 then
      var escaped := MapStrings(args, Dispatch.Escape);
      (Some(Request("PABULD_GFF3_" + project + "_" + Join(escaped[2..], '_'), Some("Testing GFF3 parsing"))), Returned)
    else if args[0] == "db" && |args| == 1 then (Some(Request("PABULD_DB_" + project, Some("Building project DB"))), Returned)
    else (None, Returned)
  }

  lemma BuildText(project: string, args: seq<string>)
    requires |args| >= 4 && args[0] == "set" && args[1] == "GFF3"
    ensures BuildCommand(project, args).0.value.text
            == "PA" + Join(["BULD", "GFF3", project] + MapStrings(args[2..], Dispatch.Escape), '_')
  {
    var escaped := MapStrings(args, Dispatch.Escape);
    assert escaped[2..] == MapStrings(args[2..], Dispatch.Escape);
    JoinAfter(["BULD", "GFF3", project], escaped[2..]);
    Join3("BULD", "GFF3", project);
  }

  /** The fields `set GFF3` puts on the admin socket, and that socket's route for them. */
  lemma BuildSettingsFields(project: string, args: seq<string>)
    requires IsDigits(project)
    requires |args| >= 4 && args[0] == "set" && args[1] == "GFF3"
    requires forall i :: 2 <= i < |args| ==> '\t' !in args[i]
    ensures var text := BuildCommand(project, args).0.value.text;
            && Dispatch.Fields(Dispatch.Rest(text)) == ["BULD", "GFF3", project] + args[2..]
            && Dispatch.AdminHandle(text) == Dispatch.AdminProjectAccess(Dispatch.Rest(text))
  {
    var text := BuildCommand(project, args).0.value.text;
    DigitsPlain(project);
    BuildText(project, args);
    AccessRequest(text, ["BULD", "GFF3", project], args[2..]);
  }

  /** The parser settings of `set GFF3` reach the server's build manager word for word. */
  lemma BuildSettingsRouted(project: string, args: seq<string>)
    requires IsDigits(project)
    requires |args| >= 4 && args[0] == "set" && args[1] == "GFF3"
    requires forall i :: 2 <= i < |args| ==> '\t' !in args[i]
    ensures Dispatch.AdminHandle(BuildCommand(project, args).0.value.text)
            == [Dispatch.BuildRequest(["GFF3", project] + args[2..])]
  {
    var text := BuildCommand(project, args).0.value.text;
    var head := ["BULD", "GFF3", project];
    BuildSettingsFields(project, args);
    AccessRouting(Dispatch.Rest(text));
    DropFirst(head, args[2..]);
    assert head[1..] == ["GFF3", project];
  }

  /** `db_runner`: a one-word start, stop or status command. */
  function DatabaseCommand(project: string, args: seq<string>): (r: Option<string>)
    ensures r.Some? <==> |args| == 1 && args[0] in ["start", "stop", "status"]
  {
    if |args| != 1 then None
    else if args[0] == "start" then Some("PADABA_" + project + "_START")
    else if args[0] == "stop" then Some("PADABA_" + project + "_STOP")
    else if args[0] == "status" then Some("PADABA_" + project + "_STATUS")
    else None
  }

  lemma DatabaseText(project: string, args: seq<string>)
    requires DatabaseCommand(project, args).Some?
    ensures DatabaseCommand(project, args).value == "PA" + Join(["DABA", project, Upper(args[0])], '_')
    ensures '_' !in Upper(args[0]) && '\t' !in Upper(args[0])
  {
    var action := Upper(args[0]);
    Join3("DABA", project, action);
    if args[0] == "start" {
      assert action == "START";
    } else if args[0] == "stop" {
      assert action == "STOP";
    } else {
      assert action == "STATUS";
    }
  }

  /** A database command reaches the server's database runner as the project and the upper-case action. */
  lemma DatabaseRouted(project: string, args: seq<string>)
    requires IsDigits(project)
    requires DatabaseCommand(project, args).Some?
    ensures Dispatch.AdminHandle(DatabaseCommand(project, args).value)
            == [Dispatch.DatabaseRequest([project, Upper(args[0])])]
  {
    var text := DatabaseCommand(project, args).value;
    var action := Upper(args[0]);
    DigitsPlain(project);
    DatabaseText(project, args);
    assert ["DABA", project, action] + MapStrings([], Dispatch.Escape) == ["DABA", project, action];
    AccessRequest(text, ["DABA", project, action], []);
    AccessRouting(Dispatch.Rest(text));
  }

  /** The search terms as sent: stripped, `_` escaped. */
  function SearchTerms(terms: seq<string>): seq<string>
  {
    seq(|terms|, i requires 0 <= i < |terms| => Dispatch.Escape(Strip(terms[i])))
  }

  function SearchRequest(project: string, terms: seq<string>): string
  {
    Join(["PAQURY", "SEAR", project, "CMD"] + SearchTerms(terms), '_')
  }

  /** `related <id> <type> <relation>` */
  function RelatedRequests(project: string, words: seq<string>): (r: seq<string>)
    requires |words| >= 1
    ensures |r| <= 1 && (|r| == 1 ==> words[0] == "related")
  {
    if words[0] == "related" && |words| == 4 then ["PAQURY_RELA_" + project + "_CMD_" + Join(words[1..], '_')] else []
  }

  /** `list species` and `list chromosomes [<species>]` */
  function ListRequests(project: string, words: seq<string>): (r: seq<string>)
    requires |words| >= 2
    ensures |r| <= 1 && (|r| == 1 ==> words[0] == "list")
  {
    if words[0] != "list" then []
    else if words[1] == "species" then ["PAQURY_LIST_" + project + "_SPECIES"]
    else if words[1] == "chromosomes" && |words| == 2 then ["PAQURY_LIST_" + project + "_CHROMOSOME"]
    else if words[1] == "chromosomes" && |words| == 3 then ["PAQURY_LIST_" + project + "_CHROMOSOME" + words[2]]
    else []
  }

  /**
   * `query_management`, `args` being the words after `query`. The search
   * branch rebinds the word list to its four cleaned terms, and the tests
   * after it read the rebound list.
   */
  function QueryCommands(project: string, args: seq<string>): (r: seq<string>)
    ensures |r| <= 2
    ensures !(2 <= |args| <= 5) ==> r == []
  {
    if !(2 <= |args| <= 5) then []
    else
      var searching := args[0] == "search" && |args| == 5;
      var search := if searching then [SearchRequest(project, args[1..])] else [];
      var words := if searching then SearchTerms(args[1..]) else args;
      assert |"related"| != |"list"|;
      search + RelatedRequests(project, words) + ListRequests(project, words)
  }

  /** A word that escapes to a word without tabs had no `_`: it is that word. */
  lemma EscapedWord(first: string, word: string)
    requires Dispatch.Escape(first) == word && '\t' !in word
    ensures first == word
  {
    assert |first| == |word|;
    forall i | 0 <= i < |first| ensures first[i] == word[i] {
      assert word[i] != '\t';
    }
  }

  /**
   * A command sends two requests only when it is a search whose first term
   * is itself `related` or `list`: the rebound terms then also pass a later
   * test. Every other command sends at most one.
   */
  lemma QuerySecondRequest(project: string, args: seq<string>)
    ensures |QueryCommands(project, args)| == 2 ==>
              args[0] == "search" && |args| == 5 && Strip(args[1]) in ["related", "list"]
  {
    if |QueryCommands(project, args)| == 2 {
      assert |"related"| != |"list"| && |"species"| != |"chromosomes"|;
      assert |args| == 5 && args[0] == "search";
      var first := Strip(args[1]);
      var words := SearchTerms(args[1..]);
      assert words[0] == Dispatch.Escape(first);
      assert words[0] == "related" || words[0] == "list";
      if words[0] == "related" {
        EscapedWord(first, "related");
      } else {
        EscapedWord(first, "list");
      }
    }
  }

  /** `query search related ...` sends the search and then a relation query made of the remaining terms. */
  lemma SearchThenRelated(project: string, args: seq<string>)
    requires |args| == 5 && args[0] == "search" && Strip(args[1]) == "related"
    ensures QueryCommands(project, args) ==
              [SearchRequest(project, args[1..]),
               "PAQURY_RELA_" + project + "_CMD_" + Join(SearchTerms(args[1..])[1..], '_')]
  {
    var words := SearchTerms(args[1..]);
    assert words[0] == Dispatch.Escape("related");
    EscapeKeeps("related");
    assert |"related"| != |"list"|;
  }

  lemma SearchText(project: string, terms: seq<string>)
    ensures SearchRequest(project, terms) == "PA" + Join(["QURY", "SEAR", project, "CMD"] + SearchTerms(terms), '_')
  {
    var rest := ["SEAR", project, "CMD"] + SearchTerms(terms);
    assert ["PAQURY", "SEAR", project, "CMD"] + SearchTerms(terms) == ["PAQURY"] + rest;
    assert ["QURY", "SEAR", project, "CMD"] + SearchTerms(terms) == ["QURY"] + rest;
    JoinCons("PAQURY", rest);
    JoinCons("QURY", rest);
    assert "PAQURY" == "PA" + "QURY";
  }

  /** The fields a search puts on the admin socket, and that socket's route for them. */
  lemma SearchFields(project: string, terms: seq<string>)
    requires IsDigits(project)
    requires |terms| == 4
    requires forall i :: 0 <= i < 4 ==> '\t' !in terms[i]
    ensures var text := SearchRequest(project, terms);
            && Dispatch.Fields(Dispatch.Rest(text)) == ["QURY", "SEAR", project, "CMD"] + MapStrings(terms, Strip)
            && Dispatch.AdminHandle(text) == Dispatch.AdminProjectAccess(Dispatch.Rest(text))
  {
    var stripped := MapStrings(terms, Strip);
    var text := SearchRequest(project, terms);
    forall i | 0 <= i < 4 ensures '\t' !in stripped[i] {
      StripFrom(terms[i]);
    }
    DigitsPlain(project);
    SearchText(project, terms);
    assert SearchTerms(terms) == MapStrings(stripped, Dispatch.Escape);
    AccessRequest(text, ["QURY", "SEAR", project, "CMD"], stripped);
  }

  /**
   * A search reaches the query manager as the four stripped terms after the
   * project and the CMD format, underscores in them included.
   */
  lemma SearchRouted(project: string, terms: seq<string>)
    requires IsDigits(project)
    requires |terms| == 4
    requires forall i :: 0 <= i < 4 ==> '\t' !in terms[i]
    ensures Dispatch.AdminHandle(SearchRequest(project, terms))
            == [Dispatch.QueryRequest(["SEAR", project, "CMD"] + MapStrings(terms, Strip))]
  {
    var text := SearchRequest(project, terms);
    var head := ["QURY", "SEAR", project, "CMD"];
    SearchFields(project, terms);
    AccessRouting(Dispatch.Rest(text));
    DropFirst(head, MapStrings(terms, Strip));
    assert head[1..] == ["SEAR", project, "CMD"];
  }

  /** There the four terms make a keyword search, unless the last one is `BLAST`. */
  lemma SearchIsKeywordSearch(project: string, terms: seq<string>)
    requires IsDigits(project)
    requires |terms| == 4
    ensures var sent := ["SEAR", project, "CMD"] + MapStrings(terms, Strip);
            DaisychainQuery.RouteOf(sent) == Some(DaisychainQuery.Search) <==> Strip(terms[3]) != "BLAST"
  {
  }

  lemma ChromosomeText(project: string, species: string)
    ensures "PAQURY_LIST_" + project + "_CHROMOSOME" + species
            == "PA" + Join(["QURY", "LIST", project, "CHROMOSOME" + species], '_')
  {
    JoinAfter(["QURY", "LIST", project], ["CHROMOSOME" + species]);
    assert ["QURY", "LIST", project] + ["CHROMOSOME" + species] == ["QURY", "LIST", project, "CHROMOSOME" + species];
    Join3("QURY", "LIST", project);
  }

  /** The fields `list chromosomes` puts on the admin socket, and that socket's route for them. */
  lemma ChromosomeFields(project: string, species: string)
    requires IsDigits(project)
    requires '_' !in species && '\t' !in species
    ensures var text := "PAQURY_LIST_" + project + "_CHROMOSOME" + species;
            && Dispatch.Fields(Dispatch.Rest(text)) == ["QURY", "LIST", project, "CHROMOSOME" + species]
            && Dispatch.AdminHandle(text) == Dispatch.AdminProjectAccess(Dispatch.Rest(text))
  {
    var text := "PAQURY_LIST_" + project + "_CHROMOSOME" + species;
    var last := "CHROMOSOME" + species;
    var u := ["QURY", "LIST", project, last];
    DigitsPlain(project);
    assert '_' !in last && '\t' !in last;
    ChromosomeText(project, species);
    assert u + MapStrings([], Dispatch.Escape) == u;
    AccessRequest(text, u, []);
  }

  /**
   * `list chromosomes <species>` glues the species onto CHROMOSOME with no
   * separator, so the server receives one field, never the species alone.
   */
  lemma ChromosomeSpeciesFused(project: string, species: string)
    requires IsDigits(project)
    requires '_' !in species && '\t' !in species
    ensures QueryCommands(project, ["list", "chromosomes", species]) == ["PAQURY_LIST_" + project + "_CHROMOSOME" + species]
    ensures Dispatch.AdminHandle("PAQURY_LIST_" + project + "_CHROMOSOME" + species)
            == [Dispatch.QueryRequest(["LIST", project, "CHROMOSOME" + species])]
  {
    var text := "PAQURY_LIST_" + project + "_CHROMOSOME" + species;
    ChromosomeFields(project, species);
    AccessRouting(Dispatch.Rest(text));
    assert QueryCommands(project, ["list", "chromosomes", species]) == [text] by {
      assert |"related"| != |"list"| && |"species"| != |"chromosomes"|;
    }
  }

  // ---- commands at work on the jobs table ----

  /**
   * The job table before and after a file or build command is submitted,
   * with the exit the submission ends in: a raised command and a command
   * without a job leave the table alone, a reply or project that is not an
   * integer raises ValueError, a reply id already recorded raises
   * IntegrityError, and otherwise the job is recorded as started.
   */
  predicate Submitted(before: seq<Job>, after: seq<Job>, project: string,
                      command: (Option<Request>, Exit), reply: string, exit: Exit)
  {
    if command.1.Raised? then exit == command.1 && after == before
    else if command.0.None? || command.0.value.job.None? then exit == Returned && after == before
    else if ParseInt(reply).None? || ParseInt(project).None? then exit == Raised("ValueError") && after == before
    else if exists j :: 0 <= j < |before| && before[j].id == ParseInt(reply).value
    then exit == Raised("IntegrityError") && after == before
    else exit == Returned && after == before + [Job(ParseInt(reply).value, ParseInt(project).value, command.0.value.job.value, "started")]
  }

  /**
   * The job table before and after a `job list|result|status|clear` command,
   * with the requests it sends and the exit it ends in.
   */
  predicate JobManaged(before: seq<Job>, after: seq<Job>, project: string, words: seq<string>,
                       reply: string, requests: seq<string>, exit: Exit)
    requires |words| > 1
  {
    if words[1] == "list" && ParseInt(project).Some? then
      var ids := ProjectIds(before, ParseInt(project).value);
      && requests == ["PATASK_STAT_" + project + "_" + Join(seq(|ids|, k requires 0 <= k < |ids| => IntToString(ids[k])), '_')]
      && exit == Returned
      && after == Refreshed(before, ParseInt(project).value, Split(reply, '\t'))
    else if words[1] == "list" then requests == [] && exit == Raised("ValueError") && after == before
    else if |words| == 3 && words[1] == "result" then
      && requests == ["PATASK_RESU_" + project + "_" + words[2]]
      && (exit.Returned? <==> ParseInt(project).Some? && ParseInt(words[2]).Some?)
      && after == if exit.Returned? then Removed(before, ParseInt(project).value, ParseInt(words[2]).value) else before
    else if |words| == 3 && words[1] == "status" then
      && requests == ["PATASK_STAT_" + project + "_" + words[2]]
      && (exit.Returned? <==> ParseInt(project).Some? && ParseInt(words[2]).Some?)
      && after == if exit.Returned?
                  then Updated(before, ParseInt(project).value, ParseInt(words[2]).value, Split(reply, '\t')[0])
                  else before
    else if |words| == 3 && words[1] == "clear" then
      && requests == ["PATASK_DELE_" + project + "_" + words[2]]
      && (reply != "Deleted" ==> exit == Returned && after == before)
      && (reply == "Deleted" ==>
            && (exit.Returned? <==> ParseInt(project).Some? && ParseInt(words[2]).Some?)
            && after == if exit.Returned? then Removed(before, ParseInt(project).value, ParseInt(words[2]).value) else before)
    else requests == [] && exit == Returned && after == before
  }

  /**
   * A file or build command at work: its request goes out, and when the
   * server's reply to it is a job id, the job is recorded as started.
   */
  method Submit(db: JobTable, project: string, command: (Option<Request>, Exit), reply: string)
    returns (requests: seq<string>, exit: Exit)
    requires db.Valid()
    modifies db
    ensures db.Valid()
    ensures requests == if command.1.Returned? && command.0.Some? then [command.0.value.text] else []
    ensures command.1.Raised? ==> exit == command.1 && db.rows == old(db.rows)
    ensures command.1.Returned? && (command.0.None? || command.0.value.job.None?) ==> exit == Returned && db.rows == old(db.rows)
    ensures command.1.Returned? && command.0.Some? && command.0.value.job.Some? &&
            (ParseInt(reply).None? || ParseInt(project).None?) ==>
              exit == Raised("ValueError") && db.rows == old(db.rows)
    ensures command.1.Returned? && command.0.Some? && command.0.value.job.Some? &&
            ParseInt(reply).Some? && ParseInt(project).Some? ==>
              var id := ParseInt(reply).value;
              if exists j :: 0 <= j < |old(db.rows)| && old(db.rows)[j].id == id
              then exit == Raised("IntegrityError") && db.rows == old(db.rows)
              else exit == Returned && db.rows == old(db.rows) + [Job(id, ParseInt(project).value, command.0.value.job.value, "started")]

    ensures Submitted(old(db.rows), db.rows, project, command, reply, exit)
  {
    if command.1.Raised? {
      return [], command.1;
    }
    if command.0.None? {
      return [], Returned;
    }
    var request := command.0.value;
    requests := [request.text];
    exit := Returned;
    if request.job.Some? {
      exit := db.AddJob(reply, project, request.job.value);
    }
  }

  /**
   * `job_management`, `words` being the command line after the project was
   * entered (`job list`, `job result <id>`, `job status <id>`, `job clear <id>`).
   */
  method JobManagement(db: JobTable, project: string, words: seq<string>, reply: string)
    returns (requests: seq<string>, exit: Exit)
    requires |words| > 1
    requires db.Valid()
    modifies db
    ensures db.Valid()
    ensures words[1] == "list" && ParseInt(project).Some? ==>
              && |requests| == 1 && exit == Returned
              && db.rows == Refreshed(old(db.rows), ParseInt(project).value, Split(reply, '\t'))
    ensures words[1] == "result" && |words| == 3 ==>
              && requests == ["PATASK_RESU_" + project + "_" + words[2]]
              && (exit.Returned? <==> ParseInt(project).Some? && ParseInt(words[2]).Some?)
              && db.rows == if exit.Returned?
                            then Removed(old(db.rows), ParseInt(project).value, ParseInt(words[2]).value)
                            else old(db.rows)
    ensures words[1] == "status" && |words| == 3 ==>
              && requests == ["PATASK_STAT_" + project + "_" + words[2]]
              && (exit.Returned? <==> ParseInt(project).Some? && ParseInt(words[2]).Some?)
              && db.rows == if exit.Returned?
                            then Updated(old(db.rows), ParseInt(project).value, ParseInt(words[2]).value, Split(reply, '\t')[0])
                            else old(db.rows)
    ensures words[1] == "clear" && |words| == 3 ==>
              && requests == ["PATASK_DELE_" + project + "_" + words[2]]
              && (reply != "Deleted" ==> exit == Returned && db.rows == old(db.rows))
              && (reply == "Deleted" ==>
                    && (exit.Returned? <==> ParseInt(project).Some? && ParseInt(words[2]).Some?)
                    && db.rows == if exit.Returned?
                                  then Removed(old(db.rows), ParseInt(project).value, ParseInt(words[2]).value)
                                  else old(db.rows))
    ensures !(words[1] == "list" || (|words| == 3 && words[1] in ["result", "status", "clear"])) ==>
              requests == [] && exit == Returned && db.rows == old(db.rows)
    ensures JobManaged(old(db.rows), db.rows, project, words, reply, requests, exit)
  {
    requests, exit := [], Returned;
    if words[1] == "list" {
      var request, listing;
      request, listing, exit := db.PrintJobList(project, reply);
      requests := if request.Some? then [request.value] else [];
    } else if words[1] == "result" && |words| == 3 {
      requests := ["PATASK_RESU_" + project + "_" + words[2]];
      var none;
      none, exit := db.DeleteJob(project, words[2], false, "");
    } else if words[1] == "status" && |words| == 3 {
      requests := ["PATASK_STAT_" + project + "_" + words[2]];
      exit := db.UpdateStatus(project, words[2], Split(reply, '\t')[0]);
    } else if words[1] == "clear" && |words| == 3 {
      requests, exit := db.DeleteJob(project, words[2], true, reply);
    }
  }

  /**
   * One command inside `access project <id>`: the loop of `project_access`
   * runs it and goes on until the command is `exit`.
   */
  method AccessCommand(db: JobTable, project: string, words: seq<string>, reply: string)
    returns (requests: seq<string>, exit: Exit, leave: bool)
    requires |words| >= 1
    requires db.Valid()
    modifies db
    ensures db.Valid()
    ensures leave <==> words[0] == "exit"
    ensures leave || words[0] in ["status", "database", "query"] || (words[0] == "job" && |words| == 1) ==>
              db.rows == old(db.rows)
    ensures words[0] == "status" ==> requests == ["PMINFO_" + project] && exit == Returned
    ensures words[0] == "query" ==> requests == QueryCommands(project, words[1..]) && exit == Returned
    ensures words[0] == "database" ==>
              requests == (if DatabaseCommand(project, words[1..]).Some? then [DatabaseCommand(project, words[1..]).value] else [])
    ensures words[0] == "file" ==>
              requests == (if FileCommand(project, words[1..]).0.Some? then [FileCommand(project, words[1..]).0.value.text] else [])
    ensures words[0] == "build" ==>
              requests == (if BuildCommand(project, words[1..]).0.Some? then [BuildCommand(project, words[1..]).0.value.text] else [])

    ensures words[0] == "job" && |words| > 1 ==> JobManaged(old(db.rows), db.rows, project, words, reply, requests, exit)
    ensures words[0] == "file" ==> Submitted(old(db.rows), db.rows, project, FileCommand(project, words[1..]), reply, exit)
    ensures words[0] == "build" ==> Submitted(old(db.rows), db.rows, project, BuildCommand(project, words[1..]), reply, exit)
    ensures words[0] == "job" && |words| == 1 ==> requests == [] && exit == Returned
    ensures !(words[0] in ["job", "file", "build"]) ==> exit == Returned
  {
    requests, exit, leave := [], Returned, false;
    if words[0] == "exit" {
      leave := true;
    } else if words[0] == "job" && |words| > 1 {
      requests, exit := JobManagement(db, project, words, reply);
    } else if words[0] == "status" {
      requests := ["PMINFO_" + project];
    } else if words[0] == "file" {
      requests, exit := Submit(db, project, FileCommand(project, words[1..]), reply);
    } else if words[0] == "build" {
      requests, exit := Submit(db, project, BuildCommand(project, words[1..]), reply);
    } else if words[0] == "database" {
      var request := DatabaseCommand(project, words[1..]);
      requests := if request.Some? then [request.value] else [];
    } else if words[0] == "query" {
      requests := QueryCommands(project, words[1..]);
    }
  }
}
