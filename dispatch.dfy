/**
 * Request routing of the two server sockets: the Daisychain admin socket
 * and the AHGraR query socket. A request's first two characters pick the
 * family (`PM` project management, `PA` project access); the rest is split
 * on `_` into fields, and in each field a tab stands for an underscore that
 * belongs to the value (clients escape `_` as a tab before sending).
 *
 * Routing is modelled as the list of things a request sets off, in order:
 * replies sent directly by the socket and calls into the managers, whose own
 * replies are modelled in their modules.
 */
module Dispatch {
  import opened Wrappers
  import opened Strings
  import Framing

  datatype Event =
    | Reply(text: string)                 // send_data(text)
    | CreateProject(name: string)         // CreateProject(...).run()
    | DeleteProject(projectId: string)    // DeleteProject(...).run()
    | ProjectInfo(requested: Option<string>)
    | TaskRequest(args: seq<string>)      // TaskManagement.evaluate_user_request(args)
    | FileRequest(args: seq<string>)      // FileManagement.evaluate_user_request(args)
    | BuildRequest(args: seq<string>)     // DBBuilder.evaluate_user_request(args)
    | DatabaseRequest(args: seq<string>)  // DBRunner.evaluate_user_request(args)
    | QueryRequest(args: seq<string>)     // QueryManagement.evaluate_user_request(args)
    | CloseTaskManager                    // task_manager.close_connection()
    | Raise(error: string)                // an exception ends the handler

  /** A client's escaping of one field: underscores become tabs. */
  function Escape(value: string): string
  {
    ReplaceChar(value, '_', '\t')
  }

  /** The server's undoing of it: tabs become underscores. */
  function Unescape(field: string): string
  {
    ReplaceChar(field, '\t', '_')
  }

  /** `[item.replace("\t", "_") for item in request.split("_")]` */
  function Fields(request: string): (fields: seq<string>)
    ensures |fields| >= 1
    ensures forall i :: 0 <= i < |fields| ==> '\t' !in fields[i]
    ensures |fields| == |Split(request, '_')|
  {
    var parts := Split(request, '_');
    var fields := MapStrings(parts, Unescape);
    assert forall i :: 0 <= i < |fields| ==> '\t' !in fields[i] by {
      forall i, j | 0 <= i < |fields| && 0 <= j < |fields[i]| ensures fields[i][j] != '\t' {}
    }
    fields
  }

  lemma UnescapeEscape(value: string)
    requires '\t' !in value
    ensures Unescape(Escape(value)) == value
    ensures '_' !in Escape(value)
  {
    assert forall j :: 0 <= j < |value| ==> Escape(value)[j] != '_';
  }

  /**
   * Values free of tabs that a client escapes and joins with `_` are split
   * back into exactly those values, underscores inside them included.
   */
  lemma FieldsOfEscapedValues(values: seq<string>)
    requires |values| >= 1
    requires forall i :: 0 <= i < |values| ==> '\t' !in values[i]
    ensures Fields(Join(MapStrings(values, Escape), '_')) == values
  {
    var escaped := MapStrings(values, Escape);
    forall i | 0 <= i < |values| ensures '_' !in escaped[i] && Unescape(escaped[i]) == values[i] {
      UnescapeEscape(values[i]);
    }
    SplitJoin(escaped, '_');
  }

  /** `request[:2]` */
  function Family(request: string): string
  {
    if |request| >= 2 then request[..2] else request
  }

  /** `request[2:]` */
  function Rest(request: string): string
  {
    if |request| >= 2 then request[2..] else ""
  }

  // ---- Daisychain_Server/Server/Server_Admin_Socket.py ----

  function AdminHandle(request: string): seq<Event>
  {
    if Family(request) == "PM" then AdminProjectManagement(Rest(request))
    else if Family(request) == "PA" then AdminProjectAccess(Rest(request))
    else [Reply("Invalid Request")]
  }

  /**
   * Three independent tests: CREA and DELE run their manager, and then the
   * INFO test's `else` sends "-1" for every request that is not INFO.
   */
  function AdminProjectManagement(request: string): seq<Event>
  {
    var u := Fields(request);
    var create := if u[0] == "CREA" && |u| == 2 then [CreateProject(u[1])] else [];
    var delete := if u[0] == "DELE" && |u| == 2 && IsDigits(u[1]) then [DeleteProject(u[1])] else [];
    var info := if u[0] == "INFO" then [ProjectInfo(if |u| == 2 then Some(u[1]) else None)] else [Reply("-1")];
    create + delete + info
  }

  function AdminProjectAccess(request: string): seq<Event>
  {
    var u := Fields(request);
    if u[0] == "TASK" && |u| >= 4 then [TaskRequest(u[1..])]
    else if u[0] == "FILE" && 3 <= |u| <= 7 then [FileRequest(u[1..])]
    else if u[0] == "BULD" then [BuildRequest(u[1..])]
    else if u[0] == "DABA" then [DatabaseRequest(u[1..])]
    else if u[0] == "QURY" then [QueryRequest(u[1..])]
    else [Reply("-2")]
  }

  /** A request outside the two families gets "Invalid Request" and nothing else. */
  lemma AdminRejectsUnknownFamily(request: string)
    requires Family(request) != "PM" && Family(request) != "PA"
    ensures AdminHandle(request) == [Reply("Invalid Request")]
  {}

  /**
   * Every project-management request that is not INFO ends with "-1", so a
   * well-formed CREA or DELE gets its manager's reply followed by "-1".
   */
  lemma AdminManagementReplies(request: string)
    ensures var u := Fields(request);
            var ev := AdminProjectManagement(request);
            (u[0] != "INFO" <==> ev[|ev| - 1] == Reply("-1")) &&
            (u[0] == "CREA" && |u| == 2 ==> ev == [CreateProject(u[1]), Reply("-1")]) &&
            (u[0] == "DELE" && |u| == 2 && IsDigits(u[1]) ==> ev == [DeleteProject(u[1]), Reply("-1")]) &&
            (u[0] == "INFO" ==> ev == [ProjectInfo(if |u| == 2 then Some(u[1]) else None)])
  {}

  /** A project-access request sets off exactly one thing: one manager call, or "-2". */
  lemma AdminAccessSingleEvent(request: string)
    ensures |AdminProjectAccess(request)| == 1
    ensures var u := Fields(request);
            AdminProjectAccess(request) == [Reply("-2")] <==>
              !((u[0] == "TASK" && |u| >= 4) || (u[0] == "FILE" && 3 <= |u| <= 7) ||
                u[0] == "BULD" || u[0] == "DABA" || u[0] == "QURY")
  {}

  // ---- AHGraR_Server/Server/Server_Query_Socket.py ----

  function QueryHandle(request: string): seq<Event>
  {
    if Family(request) == "PM" then QueryProjectManagement(Rest(request))
    else if Family(request) == "PA" then QueryProjectAccess(Rest(request))
    else [Reply("Invalid Request")]
  }

  function QueryProjectManagement(request: string): seq<Event>
  {
    var u := Fields(request);
    if u[0] == "INFO" then [ProjectInfo(if |u| == 2 then Some(u[1]) else None)]
    else [Reply("-1")]
  }

  /**
   * QURY builds a QueryManagement with three arguments while its constructor
   * takes two, so the TypeError ends the handler before the task manager's
   * connection is closed; any other request gets "-2" and the close.
   */
  function QueryProjectAccess(request: string): seq<Event>
  {
    var u := Fields(request);
    if u[0] == "QURY" then [Raise("TypeError")]
    else [Reply("-2"), CloseTaskManager]
  }

  /** The query socket answers every management request with one event and never with a double reply. */
  lemma QueryManagementSingleReply(request: string)
    ensures |QueryProjectManagement(request)| == 1
    ensures QueryProjectManagement(request) == [Reply("-1")] <==> Fields(request)[0] != "INFO"
  {}

  /** The task manager's connection is closed exactly when the request is not QURY. */
  lemma QueryAccessCloses(request: string)
    ensures CloseTaskManager in QueryProjectAccess(request) <==> Fields(request)[0] != "QURY"
  {}

  // ---- a whole connection ----

  /** What a decoded frame sets off at a socket: nothing if it never arrives, a ValueError if its header is bad. */
  function OnFrame(received: Framing.Received, handler: string -> seq<Event>): seq<Event>
  {
    match received
    case Message(request) => handler(request)
    case BadHeader => [Raise("ValueError")]
    case _ => []
  }

  /** `handle` of the admin socket: receive one frame, then route it. */
  method ServeAdmin(stream: string, grants: seq<nat>) returns (events: seq<Event>)
    ensures events == OnFrame(Framing.ServerDecode(stream), AdminHandle)
    ensures forall payload: string, rest: string {:trigger Framing.Encode(payload) + rest}
              :: IsAscii(payload) && stream == Framing.Encode(payload) + rest ==> events == AdminHandle(payload)
  {
    var received := Framing.ReceiveData(stream, grants);
    events := OnFrame(received, AdminHandle);
    forall payload: string, rest: string | IsAscii(payload) && stream == Framing.Encode(payload) + rest
      ensures events == AdminHandle(payload)
    {
      Framing.RoundTrip(payload, rest);
    }
  }

  /** `handle` of the query socket. */
  method ServeQuery(stream: string, grants: seq<nat>) returns (events: seq<Event>)
    ensures events == OnFrame(Framing.ServerDecode(stream), QueryHandle)
  {
    var received := Framing.ReceiveData(stream, grants);
    events := OnFrame(received, QueryHandle);
  }
}
