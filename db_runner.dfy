/**
 * Starting, stopping and querying a project's own Neo4j database
 * (`DBRunner.evaluate_user_request`). The request is `[project id, command]`;
 * the outcome of the one `neo4j` program run a command makes is a parameter.
 */
module DbRunner {
  import opened Wrappers
  import opened Strings
  import opened MainDb

  /** The reply to STATUS: the `neo4j status` exit code 0 means running, 3 stopped. */
  function StatusText(code: int): (text: string)
    ensures text == "Running" <==> code == 0
    ensures text == "Not running" <==> code == 3
    ensures code != 0 && code != 3 <==> text == "Unknown"
  {
    if code == 0 then "Running" else if code == 3 then "Not running" else "Unknown"
  }

  /** The project status a START or STOP that succeeded writes. */
  function StatusAfter(command: string): Option<string>
  {
    if command == "START" then Some("DB_RUNNING")
    else if command == "STOP" then Some("DB_STOPPED")
    else None
  }

  /**
   * A malformed request gets "-5" but is not stopped: with fewer than two
   * fields it then fails on the missing one, and otherwise the command runs
   * with whatever id it has. Only the error a missing program raises is not
   * caught (the handlers catch CalledProcessError, which `subprocess.run`
   * without `check` never raises); the project status changes only when
   * START or STOP exits 0 and the id parses.
   */
  method EvaluateUserRequest(db: Store, args: seq<string>, run: ProcessRun) returns (replies: seq<string>, exit: Exit)
    modifies db
    ensures db.tasks == old(db.tasks) && db.files == old(db.files) && db.ports == old(db.ports)
    ensures db.nextId == old(db.nextId) && db.projects.Keys == old(db.projects).Keys
    ensures var malformed := |args| != 2 || !IsDigits(args[0]);
            (|replies| >= 1 && replies[0] == "-5") <==>
              (malformed || (args[1] != "START" && args[1] != "STOP" && args[1] != "STATUS"))
    ensures |args| < 2 ==> replies == ["-5"] && exit == Raised("IndexError") && db.projects == old(db.projects)
    ensures |args| >= 2 && args[1] == "STATUS" ==>
              db.projects == old(db.projects) &&
              match run
              case LaunchFailed => exit == Raised("FileNotFoundError")
              case Exited(code) => exit == Returned && |replies| >= 1 && replies[|replies| - 1] == StatusText(code)
    ensures |args| >= 2 && StatusAfter(args[1]).Some? ==>
              |replies| >= 1 && replies[|replies| - 1] == (if args[1] == "START" then "Starting Project DB" else "Stopping Project DB") &&
              match run
              case LaunchFailed => exit == Raised("FileNotFoundError") && db.projects == old(db.projects)
              case Exited(code) =>
                if code != 0 then exit == Returned && db.projects == old(db.projects)
                else if ParseInt(args[0]).None? then exit == Raised("ValueError") && db.projects == old(db.projects)
                else
                  var p := ParseInt(args[0]).value;
                  exit == Returned &&
                  db.projects == (if p in old(db.projects) then old(db.projects)[p := old(db.projects)[p].(status := StatusAfter(args[1]).value)]
                                  else old(db.projects))
    ensures |args| >= 2 && args[1] != "STATUS" && StatusAfter(args[1]).None? ==>
              exit == Returned && |replies| >= 1 && replies[|replies| - 1] == "-5" && db.projects == old(db.projects)
  {
    replies := [];
    if |args| != 2 || !IsDigits(args[0]) {
      replies := replies + ["-5"];
    }
    if |args| < 2 {
      return replies, Raised("IndexError");
    }
    var projectId := args[0];
    var command := args[1];
    if command == "START" || command == "STOP" {
      replies := replies + [if command == "START" then "Starting Project DB" else "Stopping Project DB"];
      match run
      case LaunchFailed =>
        return replies, Raised("FileNotFoundError");
      case Exited(code) =>
        if code == 0 {
          var parsed := ParseInt(projectId);
          if parsed.None? {
            return replies, Raised("ValueError");
          }
          var p := parsed.value;
          if p in db.projects {
            db.projects := db.projects[p := db.projects[p].(status := StatusAfter(command).value)];
          }
        }
      exit := Returned;
    } else if command == "STATUS" {
      match run
      case LaunchFailed =>
        return replies, Raised("FileNotFoundError");
      case Exited(code) =>
        replies := replies + [StatusText(code)];
      exit := Returned;
    } else {
      replies := replies + ["-5"];
      exit := Returned;
    }
  }
}
