# AHGraR / gene-daisychain in Dafny

AHGraR and its successor gene-daisychain keep plant genomes as graph databases. Each project is a
separate Neo4j database built from uploaded GFF3 annotation files, FASTA protein files,
clustering results and functional annotations. A main database records the projects, their tasks,
their files and the ports leased to them. Two socket servers speak a small length-prefixed
text protocol (`<length>|<payload>`):

- the Daisychain admin server takes both request families: project management (PM: create,
  delete, info) and project access (PA: tasks, files, database build, database start and stop,
  queries);
- the AHGraR query server answers only project info (PM INFO) and queries (PA QURY).

A gateway and a websocket client relay frames between users and the servers. A command-line
client and an admin console drive them.

This project models the protocol codecs, the request dispatch, the task, file, build, runner and
project managers over an explicit model of the main database, the parsers and CSV creators of
the build pipeline, the query managers that turn graph rows into reply text, and the two
clients' command handling. Imperative source code (receive loops, managers that update the main
database, parsers that fill dictionaries) is modelled as Dafny methods with loops. Each method is
proved against a specification function, and the properties the system relies on (round trips,
ordering, uniqueness, what a request leaves unchanged) are lemmas about those functions.

Things the model takes as parameters instead of performing them:

- socket reads: the stream a peer sends and the size of each `recv` grant;
- the file system: which files exist and what they contain;
- subprocess exit codes;
- the rows Neo4j returns for a query.

The main database is the `MainDb.Store` class, whose maps are updated in place.

## Model

| member | source | states |
|---|---|---|
| Framing.Delivered | Daisychain_Server/Server/Server_Admin_Socket.py:145-146 | a `recv(n)` never returns more than the `n` characters asked for or more than the stream still holds, and returns at least one while data remains |
| Framing.ReceiveHeader | Daisychain_Server/Server/Server_Admin_Socket.py:131-137 | the one-character header loop stops at the first `|` of the stream, or reports the end of the stream when there is none |
| Framing.ReceiveBody | Daisychain_Server/Server/Server_Admin_Socket.py:139-150 | the body loop, which subtracts what each `recv` really returned, yields the header's number of characters after the `|` whatever the grants: the empty message for a header of zero or less, a bad header when `int()` fails, a stall when the stream ends early |
| Framing.ReceiveData | Daisychain_Server/Server/Server_Admin_Socket.py:125-150 | `receive_data` of the servers and the command-line clients returns exactly the frame decoding `ServerDecode` of the stream |
| Framing.ClientReceive | Daisychain_Gateway/Daisychain_Client.py:29-57 | the websocket client's `receive_data` is the same decoding, except that a stream that ends inside the header gives `None` instead of a stall |
| Framing.RoundTrip | Daisychain_Server/Server/Server_Admin_Socket.py:111-150 | a payload framed by `send_data` (`len|payload`) is decoded back to itself whatever follows it, by the servers and by the client, even when it contains `|` |
| Framing.NonPositiveHeader | Daisychain_Server/Server/Server_Admin_Socket.py:139-143 | a header that parses to zero or a negative number gives the empty message and reads nothing further |
| Framing.GatewayEnd | AHGraR_Gateway/AHGraR_Gateway.py:61-65 | the gateway's body loop stops inside the stream and not before where it started |
| Framing.GatewayBodyAtMost | AHGraR_Gateway/AHGraR_Gateway.py:61-65 | the gateway never reads more than the header announced, whatever the grants |
| Framing.GatewayReadBody | AHGraR_Gateway/AHGraR_Gateway.py:60-66 | the gateway's body loop, which subtracts the size it asked for, returns the characters `GatewayBody` selects |
| Framing.GatewayReceive | AHGraR_Gateway/AHGraR_Gateway.py:51-83 | `receive_data_user` and `receive_data_server` return the gateway decoding `GatewayDecode` of the stream and grants |
| Framing.GatewayEndFull | AHGraR_Gateway/AHGraR_Gateway.py:61-65 | when every `recv` is granted in full, the gateway's body ends exactly at the announced length |
| Framing.GatewayAgreesOnFullReads | AHGraR_Gateway/AHGraR_Gateway.py:51-83 | with full grants, the gateway decodes every stream exactly as the servers do |
| Framing.GatewayShortReadLosesData | AHGraR_Gateway/AHGraR_Gateway.py:61-65 | one short `recv` makes the gateway return `"a"` for the frame `3|abc`, which the servers decode as `"abc"` |
| Framing.SendDataUser | AHGraR_Gateway/AHGraR_Gateway.py:39-47 | the writes are the header followed by the reply in pieces of at most 512 characters; together they are the frame of the reply, and there are as many pieces as 512-character blocks |
| Framing.GatewayHandle | AHGraR_Gateway/AHGraR_Gateway.py:23-34 | with the gateway's own receive loop: the server gets the framed request when the user's frame decodes, and nothing otherwise; the user gets the framed server reply, split as `SendDataUser` splits it, and nothing when the server's frame does not decode |
| Framing.GatewayPassesThrough | AHGraR_Gateway/AHGraR_Gateway.py:23-88 | when every `recv` delivers what it asks for, the gateway passes the user's and the server's payloads through unchanged |
| Framing.ClientHandle | Daisychain_Gateway/Daisychain_Client.py:12-25 | the browser's request reaches the server framed, and the browser gets the client's decoding of the server's reply, which agrees with the servers' decoding unless the stream closes inside the header |
| Dispatch.Fields | Daisychain_Server/Server/Server_Admin_Socket.py:72 | a request splits into at least one field, one per `_`-separated part, and no field keeps a tab |
| Dispatch.UnescapeEscape | Daisychain_Server/Server/Server_Admin_Socket.py:41-44 | turning tabs back into `_` undoes a client's escaping of `_` as a tab, and an escaped value holds no `_` |
| Dispatch.FieldsOfEscapedValues | Daisychain_Server/Server/Server_Admin_Socket.py:72 | tab-free values that a client escapes and joins with `_` split back into exactly those values, underscores included |
| Dispatch.AdminRejectsUnknownFamily | Daisychain_Server/Server/Server_Admin_Socket.py:29-34 | a request that starts with neither `PM` nor `PA` gets "Invalid Request" and nothing else |
| Dispatch.AdminManagementReplies | Daisychain_Server/Server/Server_Admin_Socket.py:46-65 | a project-management request ends with the reply "-1" exactly when it is not INFO; a CREA with two fields runs the creator and a DELE with a digit id runs the deleter before that "-1"; INFO runs the info manager alone, with the id when there are two fields |
| Dispatch.AdminAccessSingleEvent | Daisychain_Server/Server/Server_Admin_Socket.py:77-100 | a project-access request sets off exactly one manager (TASK with 4 or more fields, FILE with 3 to 7, BULD, DABA, QURY), or else the reply "-2" |
| Dispatch.QueryManagementSingleReply | AHGraR_Server/Server/Server_Query_Socket.py:33-47 | the query socket answers a management request with exactly one event, and that event is "-1" exactly when the request is not INFO |
| Dispatch.QueryAccessCloses | AHGraR_Server/Server/Server_Query_Socket.py:49-68 | the task manager's connection is closed exactly when the access request is not QURY |
| Dispatch.ServeAdmin | Daisychain_Server/Server/Server_Admin_Socket.py:25-35 | the admin server's `handle` routes the decoded frame, and a framed request is routed by its payload whatever follows it |
| Dispatch.ServeQuery | AHGraR_Server/Server/Server_Query_Socket.py:21-30 | the query server's `handle` routes the decoded frame in the same way |
| TaskManagement.Lookup | AHGraR_Server/Server/Project_access/Task_Management.py:56-59 | a (project, task) lookup finds a task exactly when both ids parse as integers and the task is one of that project's tasks, and then it finds that task |
| TaskManagement.StatusEntry | AHGraR_Server/Server/Project_access/Task_Management.py:55-62 | one STAT entry is the task's status, or "Unknown" whenever the lookup fails for any reason |
| TaskManagement.GetTaskStatus | AHGraR_Server/Server/Project_access/Task_Management.py:52-63 | `get_task_status` joins, with tabs, one entry per requested id in request order |
| TaskManagement.StatusReplySplits | AHGraR_Server/Server/Project_access/Task_Management.py:50-63 | when no status holds a tab, a client that splits the STAT reply on tabs gets back one entry per requested id, each the task's status or "Unknown" |
| TaskManagement.VisibleTaskIds | AHGraR_Server/Server/Project_access/Task_Management.py:39-42 | the ids listed for a project are exactly its tasks, in ascending id order, each once |
| TaskManagement.ListReplyLines | AHGraR_Server/Server/Project_access/Task_Management.py:37-45 | when no description or status holds a line break, the lines of a LIST reply are the project's tasks in id order, each `<id>_<desc>_<status>` |
| TaskManagement.GetTaskList | AHGraR_Server/Server/Project_access/Task_Management.py:37-45 | `get_task_list` raises exactly when the project id does not parse, and otherwise returns the LIST reply of that project |
| TaskManagement.GetTaskResult | AHGraR_Server/Server/Project_access/Task_Management.py:66-79 | `get_task_result` finds a result exactly when the task exists, returns its stored results, and removes that task and no other, so a result is handed out once; nothing changes when it is missing |
| TaskManagement.DeleteTask | AHGraR_Server/Server/Project_access/Task_Management.py:84-93 | `delete_task` answers "Deleted" whenever both ids parse, whether or not the task existed, and "-1" otherwise; afterwards the task is gone and every other task is unchanged |
| TaskManagement.DefineTask | AHGraR_Server/Server/Project_access/Task_Management.py:103-110 | `define_task` creates a task with status "started" and the given description under a project that has a task manager, and returns its new id as text; "-1" and no change otherwise |
| TaskManagement.SetTaskStatus | AHGraR_Server/Server/Project_access/Task_Management.py:133-140 | `set_task_status` changes the status of a matching task and nothing else; errors change nothing |
| TaskManagement.AddTaskResults | AHGraR_Server/Server/Project_access/Task_Management.py:119-126 | `add_task_results` stores the results text on a matching task and nothing else; errors change nothing |
| TaskManagement.EvaluateUserRequest | AHGraR_Server/Server/Project_access/Task_Management.py:24-34 | LIST, STAT and RESU each send their reply and then "-1", because the last test's `else` belongs to DELE alone; the LIST reply is the project's task listing, the STAT reply the tab-joined entries, the RESU reply the stored results or "-1"; a well-formed DELE gets only "Deleted"; only RESU and DELE change the tasks; an unparsable LIST id raises; with `listing` false it is the Daisychain task manager, which has no LIST |
| MainDb.Store.constructor | AHGraR_Server/AHGraR_Server.py:139 | the main database starts with no projects, tasks, files or ports, and in a valid state |
| PortPool.EntryPorts | AHGraR_Server/AHGraR_Server.py:124-132 | an entry stands for non-negative port numbers only: `a-b` with two digit ends the inclusive range, digits alone one port, anything else none |
| PortPool.RangePorts | AHGraR_Server/AHGraR_Server.py:125-128 | a range entry whose first two stripped pieces are digits stands for non-negative ports only |
| PortPool.PortsOfMembers | AHGraR_Server/AHGraR_Server.py:121-132 | a port is configured exactly when one of the comma-separated entries stands for it |
| PortPool.RangeEnds | AHGraR_Server/AHGraR_Server.py:125 | two digit strings joined by `-` split and strip back into the same two strings |
| PortPool.RangeEntry | AHGraR_Server/AHGraR_Server.py:128 | a range entry `lo-hi` stands for exactly the ports from `lo` to `hi`, both included |
| PortPool.ParseEntry | AHGraR_Server/AHGraR_Server.py:124-132 | the loop body adds exactly the ports of one entry |
| PortPool.ParsePortList | AHGraR_Server/AHGraR_Server.py:121-132 | the loop over the stripped entries yields exactly the configured ports, entry by entry |
| PortPool.SyncedContents | AHGraR_Server/AHGraR_Server.py:139-149 | after synchronisation a port is known exactly when it is configured or was already active; known ports keep status and project, new ones are inactive and belong to no project |
| PortPool.SyncIdempotent | AHGraR_Server/AHGraR_Server.py:139-149 | synchronising twice with the same list leaves the same ports as once |
| PortPool.SyncPorts | AHGraR_Server/AHGraR_Server.py:139-149 | the MERGE and DETACH DELETE queries leave exactly the synchronised ports and change nothing else in the main database |
| PortPool.MainDbStartup | AHGraR_Server/AHGraR_Server.py:98-112 | the server goes on exactly when the first status check succeeds, or the start and the second check both succeed; otherwise it exits with code 3 |
| Neo4jConf.RewriteLine | AHGraR_Server/Server/Project_management/Project_Create.py:83-91 | a line other than the three recognised ones is kept, and no rewritten line is one of the three recognised ones |
| Neo4jConf.BoltLine | AHGraR_Server/Server/Project_management/Project_Create.py:84-85 | the enabled Bolt line is none of the three recognised lines |
| Neo4jConf.HttpLine | AHGraR_Server/Server/Project_management/Project_Create.py:86-87 | the enabled HTTP line is none of the three recognised lines |
| Neo4jConf.RewriteConf | AHGraR_Server/Server/Project_management/Project_Create.py:80-94 | the rewritten file has one line per original line, each the rewrite of that line, in order |
| Neo4jConf.RewriteIdempotent | AHGraR_Server/Server/Project_management/Project_Create.py:83-91 | rewriting a rewritten line changes nothing |
| Neo4jConf.RewriteTargets | AHGraR_Server/AHGraR_Server.py:63-78 | the commented Bolt and HTTP lines become their enabled forms with the given ports, and HTTPS is switched off |
| ProjectLifecycle.LeasePort | AHGraR_Server/Server/Project_management/Project_Create.py:35-44 | a lease fails exactly when no port is inactive; otherwise it takes a port that was inactive and makes it active for the project, changing no other port |
| ProjectLifecycle.LeaseProjectPorts | AHGraR_Server/Server/Project_management/Project_Create.py:33-55 | the Bolt port is leased and stored on the project, then the HTTP port; a failed lease ends the sequence, the two ports differ, and a port leased before a failure stays leased |
| ProjectLifecycle.CreateProject | AHGraR_Server/Server/Project_management/Project_Create.py:17-76 | a new project with a fresh id, its name, status INIT and three managers is added and its id is the one reply; it ends INIT_SUCCESS exactly when both leases and the folder set-up worked, with the rewritten configuration, and INIT_FAILED otherwise; leased ports are active for it; no other project, task, file or port changes |
| ProjectLifecycle.ReleasePort | AHGraR_Server/Server/Project_management/Project_Delete.py:62-70 | releasing a port makes it inactive with no project and changes no other port |
| ProjectLifecycle.DeleteReleasesPorts | AHGraR_Server/Server/Project_management/Project_Delete.py:54-73 | deleting a project that holds both ports leaves both free and no other port changed |
| ProjectLifecycle.DeleteProject | AHGraR_Server/Server/Project_management/Project_Delete.py:19-87 | a stop program that cannot be launched sends nothing and changes nothing, a failed stop sends "-1" and changes nothing; a successful stop sends the id, removes the project and releases its two ports, and leaves its file and task nodes behind |
| ProjectLifecycle.ProjectIds | AHGraR_Server/Server/Project_management/Project_Info.py:26-27 | the candidate ids are exactly the projects, ascending, each once |
| ProjectLifecycle.RowsOf | AHGraR_Server/Server/Project_management/Project_Info.py:27-29 | one listing row per id, holding that project's name, id and status |
| ProjectLifecycle.Listing | AHGraR_Server/Server/Project_management/Project_Info.py:26-27 | the `ORDER BY name` rows are sorted by name and are a permutation of the projects' rows, every project listed once with its own name and status |
| ProjectLifecycle.ProjectInfo | AHGraR_Server/Server/Project_management/Project_Info.py:11-33 | with a non-empty id that parses, the reply is that project's status or "-1" when there is no such project; an id that does not parse gives "-1"; no id, or an empty one, gives the listing, one tab-separated row per line |
| FileManagement.MergedContains | AHGraR_Server/Server/Project_access/File_Management.py:69-78 | after the MERGE a node with the file's species, variant, type and name exists and is visible, no node is lost, and files that are not the same file are untouched |
| FileManagement.MergedIdempotent | AHGraR_Server/Server/Project_access/File_Management.py:69-78 | merging the same file twice is merging it once: MERGE never makes a second node |
| FileManagement.AddFile | AHGraR_Server/Server/Project_access/File_Management.py:69-78 | `file_manager_add_file` merges the file under a project that has a File_Manager and changes no file otherwise; projects, tasks and ports are untouched |
| FileManagement.DownloadName | AHGraR_Server/Server/Project_access/File_Management.py:56-57 | a downloaded file is saved as `species_variant` with `.gff3` for a GFF3 file and `.faa` otherwise |
| FileManagement.NewTask | AHGraR_Server/Server/Project_access/File_Management.py:48 | a file request's task is created with the given description exactly when the project has a Task_Manager, and "-1" stands for it otherwise |
| FileManagement.SetStatus | AHGraR_Server/Server/Project_access/File_Management.py:55 | a status update reaches exactly the task the request created, and changes nothing when it got "-1" |
| FileManagement.AddResults | AHGraR_Server/Server/Project_access/File_Management.py:109 | a results update reaches exactly the task the request created, and changes nothing when it got "-1" |
| FileManagement.NoTaskFound | AHGraR_Server/Server/Project_access/File_Management.py:110-113 | "-1", the id of a task that was never created, finds no task |
| FileManagement.UpdateFinds | AHGraR_Server/Server/Project_access/File_Management.py:100-115 | an update with the id `define_task` gave back finds exactly the task it created |
| FileManagement.DownloadFile | AHGraR_Server/Server/Project_access/File_Management.py:41-67 | a type outside gff3, nt and prot gets "-4" and changes nothing; otherwise the task id (or "-1") goes back; the new task is the only task added, and none when the project has no Task_Manager; a download merges the file under a File_Manager and ends the task "finished"; a failed one ends it "failed" and then raises TypeError, because the clean-up passes `os.remove` a keyword it does not take, and adds no file |
| FileManagement.ProjectFileIds | AHGraR_Server/Server/Project_access/File_Management.py:83-86 | the listed ids are exactly the project's files |
| FileManagement.ProjectRows | AHGraR_Server/Server/Project_access/File_Management.py:83-87 | every file of the project has its row, and every row is the row of one of its files |
| FileManagement.FileListing | AHGraR_Server/Server/Project_access/File_Management.py:83-86 | the `ORDER BY file.filename` rows are sorted by file name, every file of the project has its row, and every row is the row of one of its files |
| FileManagement.FileList | AHGraR_Server/Server/Project_access/File_Management.py:82-87 | a project without files gets the empty reply |
| FileManagement.FileListLines | AHGraR_Server/Server/Project_access/File_Management.py:82-87 | when no name or flag holds a line break, the reply's lines are the listing rows, sorted by file name, one per file of the project, each `filename<TAB>hidden` |
| FileManagement.SetHidden | AHGraR_Server/Server/Project_access/File_Management.py:101-107 | hide or unhide sets the flag on every file of the project with that name and on no other file, and finds something exactly when there is such a file |
| FileManagement.DeleteNamed | AHGraR_Server/Server/Project_access/File_Management.py:157-163 | remove deletes every file of the project with that name and no other file, and finds something exactly when there was one |
| FileManagement.FilesAfterEffect | AHGraR_Server/Server/Project_access/File_Management.py:93-171 | files of other names or projects are untouched; hide and unhide set the flag on each named file; a removal from disk leaves no named file behind |
| FileManagement.ApplyAction | AHGraR_Server/Server/Project_access/File_Management.py:100-107 | the query of a file task counts as done exactly when a named file exists and, for a removal, the file was on disk |
| FileManagement.FileTask | AHGraR_Server/Server/Project_access/File_Management.py:93-171 | hide, unhide and remove send the task id (or "-1") first; the new task is the only task added, and none without a Task_Manager; it ends "finished" with "hidden", "unhidden" or "deleted" as its result when a named file matched (and for a removal was on disk), and "failed" with no result otherwise; the files change as the action says |
| FileManagement.ParseImportLine | AHGraR_Server/Server/Project_access/File_Management.py:194-205 | a usable import line has exactly four comma-separated fields, a type of annotation, genome or transcript, and no spaces or commas left in its fields |
| FileManagement.Taken | AHGraR_Server/Server/Project_access/File_Management.py:196-212 | one import line adds at most one entry, and only when its file copied and its type is usable |
| FileManagement.Imported | AHGraR_Server/Server/Project_access/File_Management.py:192-212 | an import adds at most one entry per line, each a usable line whose file copied, in file order |
| FileManagement.ImportedAppend | AHGraR_Server/Server/Project_access/File_Management.py:192-212 | importing one more line adds exactly that line's entries at the end |
| FileManagement.MergedAllConcat | AHGraR_Server/Server/Project_access/File_Management.py:208 | merging two runs of entries one after the other is merging them all at once |
| FileManagement.ImportLine | AHGraR_Server/Server/Project_access/File_Management.py:192-212 | one round of the import loop merges the line's entry, counts it, and sets the import task's status to "imported N" for the new count N; no other task changes |
| FileManagement.ImportLines | AHGraR_Server/Server/Project_access/File_Management.py:192-212 | the import loop counts exactly the usable lines whose file copied and merges them in order; afterwards the task's status is "imported N" for the final count N (unchanged when nothing was imported) and no other task changes |
| FileManagement.RunImport | AHGraR_Server/Server/Project_access/File_Management.py:189-214 | an opened import file runs the task, imports its lines, and ends the task with results "imported N" and status "finished "; no other task changes, and with "-1" no task changes at all |
| FileManagement.FileImport | AHGraR_Server/Server/Project_access/File_Management.py:176-214 | the reply is "Importing files. Task-ID: " with the task id (or "-1"); the new task is the only task added, and none without a Task_Manager; a missing import file fails the task and adds nothing; otherwise the usable lines whose files copied are merged, counted, and the task ends "finished " with "imported N" |
| FileManagement.ActionsExclusive | AHGraR_Server/Server/Project_access/File_Management.py:24-35 | no request passes two of the six tests, so at most one file action runs |
| FileManagement.EvaluateUserRequest | AHGraR_Server/Server/Project_access/File_Management.py:23-37 | every request except a well-formed IMPO ends with "-3", even a served one, because only the last test has the `else`; DWNF with a type outside gff3, nt and prot gets "-4", "-3" and changes nothing; otherwise DWNF gets the task id (or "-1"), and then "-3" after a download, which ends the task "finished" and merges the downloaded file, while a failed download ends it "failed", adds no file and raises TypeError; LIST gets the listing and then "-3" and changes nothing; HIDF, UHIF, DELF and IMPO leave the replies, task and file nodes `FileActions` states; every branch adds at most its own task and changes no other; a request no test accepts gets "-3" and changes nothing |
| FileManagement.FileActions | AHGraR_Server/Server/Project_access/File_Management.py:28-37 | HIDF, UHIF and DELF reply with the new task id (or "-1") and then "-3", leave the files as the action says and record the task finished with the outcome or failed; IMPO replies with its message alone, records the task failed without an import file or "finished " with the number imported, and merges the imported files in order; the request's task is the only task added, and none without a Task_Manager; any other request gets "-3" and changes no file, task or id |
| FileManagement.ActionOf | AHGraR_Server/Server/Project_access/File_Management.py:28-33 | HIDF hides, UHIF unhides and DELF removes, each exactly when its request is well formed |
| FileManagement.DownloadRequest | AHGraR_Server/Server/Project_access/File_Management.py:24-37 | a DWNF request: "-4" and "-3" for a type outside gff3, nt and prot with nothing changed; otherwise the task id, then "-3" after a download that merges the file and finishes the task, or TypeError after a failed one that marks it failed and adds nothing; the download task is the only task added |
| DbBuilder.VisibleIds | AHGraR_Server/Server/Project_access/DB_Builder.py:52-55 | the files the build reads are exactly the project's visible files, in id order |
| DbBuilder.IdRows | AHGraR_Server/Server/Project_access/DB_Builder.py:52-55 | one build row per visible file |
| DbBuilder.IdRowsContents | AHGraR_Server/Server/Project_access/DB_Builder.py:52-55 | every visible file has its row, and every row is the row of a visible file |
| DbBuilder.BuildRowsContents | AHGraR_Server/Server/Project_access/DB_Builder.py:52-55 | the build rows (`ORDER BY file.filename`) are the visible files of the project, each once, sorted by file name |
| DbBuilder.BuildRowsBound | AHGraR_Server/Server/Project_access/DB_Builder.py:52-55 | creating a task node changes no build row |
| DbBuilder.FilesUnderMembers | AHGraR_Server/Server/Project_access/DB_Builder.py:59-62 | a (species, variant) group holds exactly the (name, type) pairs of the rows with that key, in row order |
| DbBuilder.FilesUnderLength | AHGraR_Server/Server/Project_access/DB_Builder.py:59-62 | every row lands in exactly one group: a group is as long as the number of rows with its key |
| DbBuilder.GroupFiles | AHGraR_Server/Server/Project_access/DB_Builder.py:57-62 | the two loops that fill `file_dict` (an empty list for every key, then each file appended to its key's list) yield the grouping of the rows |
| DbBuilder.KeepPairs | AHGraR_Server/Server/Project_access/DB_Builder.py:64-68 | what the clean-up is meant to leave: exactly the groups of two files, unchanged |
| DbBuilder.CleanUpAsWritten | AHGraR_Server/Server/Project_access/DB_Builder.py:66-68 | the clean-up as written raises RuntimeError exactly when some group does not hold two files, because it deletes from the dictionary it is iterating over; when it returns, nothing was deleted and the result equals `KeepPairs` |
| DbBuilder.SingleFileGroupRaises | AHGraR_Server/Server/Project_access/DB_Builder.py:66-68 | a species with a single file makes the clean-up as written raise, where the intended clean-up drops that group and keeps the pair |
| DbBuilder.StartBuild | AHGraR_Server/Server/Project_access/DB_Builder.py:47-51 | the build task is created when the project has a Task_Manager, its id is the reply, and its status becomes "Collecting files"; no project, file or port changes, and neither do the build rows |
| DbBuilder.CollectPairs | AHGraR_Server/Server/Project_access/DB_Builder.py:56-68 | the groups the build goes on with are the pairs of the grouping of the rows |
| DbBuilder.BuildDb | AHGraR_Server/Server/Project_access/DB_Builder.py:45-68 | `build_db` sends the task id, leaves the task "Collecting files", changes no file, and keeps the (species, variant) groups of exactly two visible files (the intended clean-up) |
| DbBuilder.Gff3NamesMembers | AHGraR_Server/Server/Project_access/DB_Builder.py:84-95 | the named-file lookup returns the name of each visible GFF3 file of the project whose name is requested, or each visible GFF3 file when none is named |
| DbBuilder.SetQuery | AHGraR_Server/Server/Project_access/DB_Builder.py:112-116 | the SET gives the matched files the mapping and the hierarchy and leaves every other file unchanged |
| DbBuilder.FilePaths | AHGraR_Server/Server/Project_access/DB_Builder.py:97 | each name becomes `Projects/<id>/Files/<name>`, one path per name |
| DbBuilder.SettingsNeverStored | AHGraR_Server/Server/Project_access/DB_Builder.py:91-116 | as written, a lookup by names passes the project id as text, which no node id equals, so it finds nothing; and the SET matches file names against the relative paths, so it changes nothing whatever the request |
| DbBuilder.SettingsStored | AHGraR_Server/Server/Project_access/DB_Builder.py:112-116 | with the id as a number and the names themselves, each visible GFF3 file of the project that the lookup returns gets the mapping and the hierarchy |
| DbBuilder.NodeText | AHGraR_Server/Server/Project_access/DB_Builder.py:133-140 | a node is `", "`-joined text, and "Error" when the parse gave none |
| DbBuilder.ProbeLines | AHGraR_Server/Server/Project_access/DB_Builder.py:123-141 | the probe yields one line per file, or nothing when some file cannot be opened |
| DbBuilder.ProbeLinesContents | AHGraR_Server/Server/Project_access/DB_Builder.py:123-141 | when every file opens, line `i` is the probe line of file `i` |
| DbBuilder.ProbeLinesStep | AHGraR_Server/Server/Project_access/DB_Builder.py:123-141 | one more file appends its line, or ends the probe when it cannot be opened |
| DbBuilder.ProbeFiles | AHGraR_Server/Server/Project_access/DB_Builder.py:123-141 | the loop over the files returns exactly the probe lines |
| DbBuilder.SetGff3Parser | AHGraR_Server/Server/Project_access/DB_Builder.py:77-145 | the corrected lookup and SET of Findings row 4 (the project id as a number, the stored file names rather than paths): the task id is the first reply; a rejected mapping or hierarchy ends the task "failed: invalid syntax" with which of the two was correct and changes no file; an accepted pair is stored on the target files, the task becomes "Added annotation to main-db", and then "Finished" with one line per file, or FileNotFoundError when a file cannot be opened; files, tasks and exit are those of `Gff3Configured` |
| DbBuilder.TargetsBound | AHGraR_Server/Server/Project_access/DB_Builder.py:84-95 | creating a task node changes no target file |
| DbBuilder.Reject | AHGraR_Server/Server/Project_access/DB_Builder.py:107-110 | the rejected branch sets only the created task's status and results |
| DbBuilder.CheckSettings | AHGraR_Server/Server/Project_access/DB_Builder.py:102-104 | a parser built only for the check reports exactly whether the mapping and the hierarchy are valid |
| DbBuilder.ApplySettings | AHGraR_Server/Server/Project_access/DB_Builder.py:112-145 | the accepted branch stores the settings on the targets and sets the task's status and results as the probe goes |
| DbBuilder.EvaluateUserRequest | AHGraR_Server/Server/Project_access/DB_Builder.py:22-32 | no fields raises IndexError; GFF3 with four fields or more and a digit id leaves the files, tasks and exit `Gff3Configured` gives for its mapping, hierarchy and file names, and is then still answered "-3" unless it raised; DB with two fields and a digit id runs `build_db` with the corrected clean-up of the third "## Findings" row (`DbBuilder.BuildDb`), so it returns normally where the code as written raises RuntimeError for a group that is not a pair, gets only the task id, changes no file and records the task "Collecting files"; every other request gets "-3" and changes nothing |
| DbRunner.StatusText | AHGraR_Server/Server/Project_access/DB_Runner.py:41-46 | the `neo4j status` exit code 0 is "Running", 3 is "Not running", anything else "Unknown" |
| DbRunner.EvaluateUserRequest | AHGraR_Server/Server/Project_access/DB_Runner.py:15-76 | "-5" comes first exactly when the request is malformed or the command unknown, yet a malformed request still runs; fewer than two fields raises IndexError; STATUS replies with its status text; START and STOP announce themselves and set DB_RUNNING or DB_STOPPED only when the program exits 0 and the id parses; a program that cannot be launched raises, since only CalledProcessError is caught |
| FastaIdCorrector.OutputName | AHGraR_Server/Parser/FASTA_ID_corrector.py:6 | every output name ends with `_header_corrected.faa` |
| FastaIdCorrector.OutputNameParts | AHGraR_Server/Parser/FASTA_ID_corrector.py:6 | the output name is the input name up to its last dot; with no dot, `rfind` gives -1 and the name loses its last character |
| FastaIdCorrector.CorrectLine | AHGraR_Server/Parser/FASTA_ID_corrector.py:8-15 | a line that is not a header is copied; a header becomes a line that starts with `>\|lcl\|` and ends with a newline |
| FastaIdCorrector.CorrectKeepsHeader | AHGraR_Server/Parser/FASTA_ID_corrector.py:11-15 | cutting the header at its first space and joining the pieces again gives the whole header back, with or without a space: a header becomes `>\|lcl\|` followed by its whole text |
| FastaIdCorrector.NotIdempotent | AHGraR_Server/Parser/FASTA_ID_corrector.py:8-15 | a second pass prefixes `\|lcl\|` again, so the correction is not idempotent on any header |
| FastaIdCorrector.CorrectLines | AHGraR_Server/Parser/FASTA_ID_corrector.py:7-15 | one output line per input line, each its correction |
| FastaIdCorrector.CorrectLineIsLine | AHGraR_Server/Parser/FASTA_ID_corrector.py:15 | a corrected line holds a newline only at its end, and has one there when the input line had one |
| FastaIdCorrector.CorrectedLines | AHGraR_Server/Parser/FASTA_ID_corrector.py:7-15 | the output file has one line per input line, each the correction of that line |
| FastaIdCorrector.CorrectFile | AHGraR_Server/Parser/FASTA_ID_corrector.py:7-15 | the line loop for one file writes exactly the corrected text |
| FastaIdCorrector.OutputsCover | AHGraR_Server/Parser/FASTA_ID_corrector.py:4-6 | reading every name from the starting files, the files afterwards are those already there plus exactly the output names of the named files |
| FastaIdCorrector.FirstMissing | AHGraR_Server/Parser/FASTA_ID_corrector.py:4-5 | the first name that is not a file: every name before it is a file |
| FastaIdCorrector.Script | AHGraR_Server/Parser/FASTA_ID_corrector.py:4-17 | every starting file name is still there at the end, and the script either ends normally or raises FileNotFoundError |
| FastaIdCorrector.ScriptWithoutAliasing | AHGraR_Server/Parser/FASTA_ID_corrector.py:4-17 | when no named file is a named file's output, the script ends normally exactly when every name is a file, and the files afterwards are the starting ones with the outputs of the names before the first missing one |
| FastaIdCorrector.FaaOutputName | AHGraR_Server/Parser/FASTA_ID_corrector.py:6 | for `<stem>.faa` with no dot in the stem, the output name is `<stem>_header_corrected.faa` |
| FastaIdCorrector.ReadsEarlierOutput | AHGraR_Server/Parser/FASTA_ID_corrector.py:4-6 | a name that is an earlier name's output is read as that fresh output and corrected a second time, whether or not such a file existed at the start |
| FastaIdCorrector.CorrectFiles | AHGraR_Server/Parser/FASTA_ID_corrector.py:4-17 | the loop over the command line leaves exactly the files and exit of `Script`: each name read from the files as the earlier turns left them, its output written, and FileNotFoundError at the first name that is not a file at its turn, with the earlier outputs kept |
| FastaParser.Id | AHGraR_Server/Parser/FASTA_parser.py:33 | the id is the header up to its first space: a prefix with no space, the whole header when it has none |
| FastaParser.HeaderText | AHGraR_Server/Parser/FASTA_parser.py:32 | the header text is the line without its `>` and without its newline, when it has one |
| FastaParser.Rewrite | AHGraR_Server/Parser/FASTA_parser.py:25-35 | a line that is not a header or is already corrected is kept; a header becomes `>lcl\|`, its id and a newline; every rewritten line would be kept by a second pass |
| FastaParser.RewriteIdempotent | AHGraR_Server/Parser/FASTA_parser.py:23-28 | a rewritten header is never rewritten again |
| FastaParser.RewriteKeepsId | AHGraR_Server/Parser/FASTA_parser.py:32-34 | a header's id is everything before its first space, whatever follows it |
| FastaParser.AsWrittenAgrees | AHGraR_Server/Parser/FASTA_parser.py:32 | on a line that ends with a newline, the rewrite as written (`line[1:-1]`) and the corrected rewrite agree |
| FastaParser.FinalHeaderLosesChar | AHGraR_Server/Parser/FASTA_parser.py:32 | as written, a final header without a newline loses its last character: `>abc` becomes `>lcl\|ab` |
| FastaParser.RewriteIgnoresNewline | AHGraR_Server/Parser/FASTA_parser.py:32-34 | the corrected rewrite gives a header the same id whether or not it ends the file |
| FastaParser.Rewrites | AHGraR_Server/Parser/FASTA_parser.py:22-35 | one rewritten line per input line |
| FastaParser.RewriteOneLine | AHGraR_Server/Parser/FASTA_parser.py:34 | a rewritten header holds no newline before its last character |
| FastaParser.RewritesLineList | AHGraR_Server/Parser/FASTA_parser.py:22-35 | rewriting keeps a list of lines a list of lines |
| FastaParser.RewrittenLines | AHGraR_Server/Parser/FASTA_parser.py:22-35 | the output has exactly the input's lines, each rewritten |
| FastaParser.RewrittenIdempotent | AHGraR_Server/Parser/FASTA_parser.py:23-28 | preparing a prepared file changes nothing |
| FastaParser.Parser.constructor | AHGraR_Server/Parser/FASTA_parser.py:13-17 | the file, CSV and BLAST paths are those of the project, and the combined file starts empty |
| FastaParser.Parser.RewriteLine | AHGraR_Server/Parser/FASTA_parser.py:25-35 | one step of the loop writes the line's rewrite |
| FastaParser.Parser.RewriteLines | AHGraR_Server/Parser/FASTA_parser.py:22-35 | the loop writes the rewritten lines to the output and appends the same text to the combined file |
| FastaParser.Parser.ParseFasta | AHGraR_Server/Parser/FASTA_parser.py:19-40 | a missing file raises FileNotFoundError and writes nothing; otherwise the file holds its rewritten text (with the corrected header rewrite), a file named like the `_header_corrected.faa` copy is gone, since the copy overwrote it and was renamed away, nothing else changes, and the text is appended to the combined file |
| Gff3Parser.Columns | AHGraR_Server/Parser/GFF3_parser_gffutils.py:55-62 | a record has eight fixed columns |
| Gff3Parser.ColumnField | AHGraR_Server/Parser/GFF3_parser_gffutils.py:52-65 | a digit index always gives a value; any other index gives the attribute's first value, and fails exactly when the attribute is missing or empty |
| Gff3Parser.ColumnOrder | AHGraR_Server/Parser/GFF3_parser_gffutils.py:55-63 | column 1 is the sequence id, 2 the source, 3 the type, 4 and 5 the bounds as numbers, 6 the score, 7 the strand, 8 the phase, and any other number the empty text |
| Gff3Parser.ParseSegment | AHGraR_Server/Parser/GFF3_parser_gffutils.py:90-92 | a mapping segment fails exactly when it has no `::`; otherwise it gives a feature name without `::` and at least one field |
| Gff3Parser.StoredAppend | AHGraR_Server/Parser/GFF3_parser_gffutils.py:89-92 | a later mapping of the same feature overwrites the earlier one |
| Gff3Parser.StoredStopsAt | AHGraR_Server/Parser/GFF3_parser_gffutils.py:85-94 | a segment without `::` makes the setter fail, but the mappings stored before it stay |
| Gff3Parser.SplitFirstEmpty | AHGraR_Server/Parser/GFF3_parser_gffutils.py:106 | the hierarchy's first piece is empty exactly when the text is empty or starts with `;` |
| Gff3Parser.NestedSymmetric | AHGraR_Server/Parser/GFF3_parser_gffutils.py:170-172 | containment does not depend on which interval is the feature's and which the gene's |
| Gff3Parser.CheckAttaches | AHGraR_Server/Parser/GFF3_parser_gffutils.py:169-172 | a feature joins a gene exactly when they share the contig and one interval contains the other |
| Gff3Parser.Appended | AHGraR_Server/Parser/GFF3_parser_gffutils.py:173-175 | attaching a value appends it to its key's list and leaves every other key as it was |
| Gff3Parser.Halt | AHGraR_Server/Parser/GFF3_parser_gffutils.py:168-177 | the pass over the genes stops at the first gene lacking Contig, Start or Stop (abandoned) or holding a text bound (TypeError), and every gene before it attaches or is passed by |
| Gff3Parser.AttachedAll | AHGraR_Server/Parser/GFF3_parser_gffutils.py:168-175 | after one value is attached, exactly the qualifying genes before the halting one have it appended, and the others are unchanged |
| Gff3Parser.AttachToGenes | AHGraR_Server/Parser/GFF3_parser_gffutils.py:168-177 | the loop over the genes attaches the value to exactly those genes, and the halting gene decides whether the pass is done, abandoned or crashed |
| Gff3Parser.Inner | AHGraR_Server/Parser/GFF3_parser_gffutils.py:160 | `s[1:-1]` is the text without its first and last character, and empty for shorter text |
| Gff3Parser.FeatureAttached | AHGraR_Server/Parser/GFF3_parser_gffutils.py:156-177 | the attribute loop of one feature keeps one annotation per gene |
| Gff3Parser.NonHierarchic | AHGraR_Server/Parser/GFF3_parser_gffutils.py:105-111 | without a `;` there is no non-hierarchical feature type, and with one there is at least one |
| Gff3Parser.Optional | AHGraR_Server/Parser/GFF3_parser_gffutils.py:197-199 | `get(key, "?")[0]` is "?" for a missing field, the first value for a present one, and an IndexError for an empty list |
| Gff3Parser.GeneOf | AHGraR_Server/Parser/GFF3_parser_gffutils.py:186-201 | an annotation yields a gene node exactly when Contig, Start, Stop and Gene_name have values and no optional field is an empty list; the node has the given id and species, the first values, and "?" for each missing optional field |
| Gff3Parser.ProteinPairs | AHGraR_Server/Parser/GFF3_parser_gffutils.py:204-210 | a gene's protein pairs exist exactly when it has protein names; they hold no repeats; without descriptions every description is "?" and every name is one of the gene's |
| Gff3Parser.ProteinsFor | AHGraR_Server/Parser/GFF3_parser_gffutils.py:212-215 | a gene's proteins are numbered on from the last protein id, one per pair, each naming the gene |
| Gff3Parser.StepConsistent | AHGraR_Server/Parser/GFF3_parser_gffutils.py:186-218 | one annotation uses up one gene id whether or not it yields a gene, only appends to the node lists, adds at most one gene, and every new protein names the new gene |
| Gff3Parser.BuiltConsistent | AHGraR_Server/Parser/GFF3_parser_gffutils.py:186-218 | converting all annotations keeps ids within the counters and protein ids ascending, uses up one gene id per annotation, only appends, and every new protein names a new gene |
| Gff3Parser.BuiltGenesFresh | AHGraR_Server/Parser/GFF3_parser_gffutils.py:220 | a new gene node differs from every earlier one, and a repeat-free gene list stays repeat-free after the build, so removing repeats with `set` removes none |
| Gff3Parser.ValOrder | AHGraR_Server/Parser/GFF3_parser_gffutils.py:223 | the order on values is total, transitive and antisymmetric |
| Gff3Parser.GeneLeqTotalPreorder | AHGraR_Server/Parser/GFF3_parser_gffutils.py:223 | ordering by contig, start and stop is a total preorder |
| Gff3Parser.GeneTie | AHGraR_Server/Parser/GFF3_parser_gffutils.py:223 | two genes the sort orders both ways share contig, start and stop |
| Gff3Parser.TieFreeOrder | AHGraR_Server/Parser/GFF3_parser_gffutils.py:220-223 | whatever order `list(set(...))` hands the stable sort, the sorted genes are the model's order whenever no two different genes share contig, start and stop; only genes with a shared key can come out in another order |
| Gff3Parser.ProteinDictLookup | AHGraR_Server/Parser/GFF3_parser_gffutils.py:239-243 | a name is in the protein dictionary exactly when some protein has it, and maps to the last protein that has it |
| Gff3Parser.Parser.constructor | AHGraR_Server/Parser/GFF3_parser_gffutils.py:19-46 | the species is the file's base name without extension, the id counters are as given, and the mapper, hierarchy and node lists start empty |
| Gff3Parser.Parser.SetAnnotationMapper | AHGraR_Server/Parser/GFF3_parser_gffutils.py:75-95 | after spaces are removed, the mapping is accepted exactly when it mentions the five mandatory fields and every segment has `::`; segments are stored in order up to the first bad one, and nothing is stored when a mandatory field is missing |
| Gff3Parser.Parser.SetFeatureHierarchy | AHGraR_Server/Parser/GFF3_parser_gffutils.py:101-119 | the hierarchy is the comma list before the first `;` and the non-hierarchical features the list after it (none when there is no `;`); it is refused exactly when the hierarchy is empty |
| Gff3Parser.Parser.AttachFeature | AHGraR_Server/Parser/GFF3_parser_gffutils.py:157-177 | a record of a type with no mapping is skipped; otherwise its entries are attached in turn as `FeatureAttached` says |
| Gff3Parser.Parser.AddProteins | AHGraR_Server/Parser/GFF3_parser_gffutils.py:212-215 | the protein loop appends exactly the gene's protein nodes and moves the counter on by their number |
| Gff3Parser.Parser.ConvertOne | AHGraR_Server/Parser/GFF3_parser_gffutils.py:187-218 | one round of the conversion loop is one conversion step on the parser's state |
| Gff3Parser.Parser.Convert | AHGraR_Server/Parser/GFF3_parser_gffutils.py:186-225 | after the conversion the gene list is the converted genes sorted by contig, start and stop (genes sharing all three kept in conversion order, see "## Left out"), the protein list the converted proteins in id order, and one gene id is used per annotation |
| Gff3Parser.Parser.ParseGff3File | AHGraR_Server/Parser/GFF3_parser_gffutils.py:185-225 | the print before the conversion raises UnboundLocalError, leaving the parser as it was, unless the non-hierarchical gene loop ran (a non-hierarchical type, a field read and some gene); otherwise the conversion runs as `Convert` says, with the same order of tied genes |
| Gff3Parser.Parser.GetProteinDict | AHGraR_Server/Parser/GFF3_parser_gffutils.py:239-243 | `get_protein_dict` is the protein dictionary of the parser's protein list |
| Gff3ParserV2.Complement | AHGraR_Server/Parser/GFF3_parser_gffutils_v2.py:48 | each of A, C, G, T pairs with another base |
| Gff3ParserV2.ComplementTwice | AHGraR_Server/Parser/GFF3_parser_gffutils_v2.py:48 | pairing is symmetric: the complement of the complement is the base |
| Gff3ParserV2.RevComp | AHGraR_Server/Parser/GFF3_parser_gffutils_v2.py:49 | the reverse complement has the input's length and, at position `i`, the complement of the base at the mirrored position |
| Gff3ParserV2.ReverseComplement | AHGraR_Server/Parser/GFF3_parser_gffutils_v2.py:45-50 | `reverse_complement` succeeds exactly when the upper-cased text consists of A, C, G and T, and then gives bases of the same length |
| Gff3ParserV2.ReverseComplementTwice | AHGraR_Server/Parser/GFF3_parser_gffutils_v2.py:45-50 | applied twice, the reverse complement gives back the upper-cased input |
| Gff3ParserV2.ReverseComplementFails | AHGraR_Server/Parser/GFF3_parser_gffutils_v2.py:48-49 | any character other than the four bases in either case, such as N, raises KeyError |
| Gff3ParserV2.Locator | AHGraR_Server/Parser/GFF3_parser_gffutils_v2.py:42-43 | a locator `feature:attribute` gives one part per `:`-separated piece, each that piece stripped, none holding `:` |
| Gff3ParserV2.Fragment | AHGraR_Server/Parser/GFF3_parser_gffutils_v2.py:91-98 | on the plus strand a subfeature adds its genome text without its first `phase` characters, keyed by its start; on the minus strand the reverse complement, keyed by minus the start, and a KeyError exactly when the text is not all bases |
| Gff3ParserV2.Texts | AHGraR_Server/Parser/GFF3_parser_gffutils_v2.py:102 | the texts of the pieces, in order |
| Gff3ParserV2.AssembledInKeyOrder | AHGraR_Server/Parser/GFF3_parser_gffutils_v2.py:101-102 | the transcript is the pieces joined in ascending key order, after a sort that keeps every piece |
| Gff3ParserV2.Header | AHGraR_Server/Parser/GFF3_parser_gffutils_v2.py:105 | a record header starts with `>` and ends with a newline |
| Gff3ParserV2.NoGenomeNoFragments | AHGraR_Server/Parser/GFF3_parser_gffutils_v2.py:91 | when the sequence is not a genome, reading the subfeatures collects no piece |
| Gff3ParserV2.NoGenomeNothingWritten | AHGraR_Server/Parser/GFF3_parser_gffutils_v2.py:91-104 | so a transcript of a file that is not a genome is never written |
| Gff3ParserV2.Writes | AHGraR_Server/Parser/GFF3_parser_gffutils_v2.py:59-106 | one outcome per transcript |
| Gff3ParserV2.EmittedAt | AHGraR_Server/Parser/GFF3_parser_gffutils_v2.py:59-106 | the output from transcript `i` on is its own outcome followed by the output of the rest |
| Gff3ParserV2.EmitNext | AHGraR_Server/Parser/GFF3_parser_gffutils_v2.py:59-106 | the lines written before transcript `i` are carried over it: an error stops the run, an empty sequence adds nothing, a sequence adds its two lines |
| Gff3ParserV2.EmittedCrash | AHGraR_Server/Parser/GFF3_parser_gffutils_v2.py:59-106 | a run stops with an error exactly when some transcript raises one |
| Gff3ParserV2.EmittedNothing | AHGraR_Server/Parser/GFF3_parser_gffutils_v2.py:103-104 | nothing is written when no transcript has a sequence |
| Gff3ParserV2.TranscribeWellFormed | AHGraR_Server/Parser/GFF3_parser_gffutils_v2.py:103-106 | a written transcript has a header line and a non-empty sequence line |
| Gff3ParserV2.NoGenomeOutput | AHGraR_Server/Parser/GFF3_parser_gffutils_v2.py:91-106 | a run over a file that is not a genome writes no record at all |
| Gff3ParserV2.EmittedFasta | AHGraR_Server/Parser/GFF3_parser_gffutils_v2.py:105-106 | the output is whole lines with a header at every even position |
| Gff3ParserV2.OutputIsFasta | AHGraR_Server/Parser/GFF3_parser_gffutils_v2.py:52-107 | the records written are FASTA: each a header `>id_name` followed by a non-empty sequence line |
| Gff3ParserV2.ParserV2.constructor | AHGraR_Server/Parser/GFF3_parser_gffutils_v2.py:24-43 | the species is the file's base name without extension, and the name and description locators are split and stripped |
| Gff3ParserV2.ParserV2.ScanTranscript | AHGraR_Server/Parser/GFF3_parser_gffutils_v2.py:73-98 | the subfeature loop of one transcript yields the scan `ScanSubs` describes |
| Gff3ParserV2.ParserV2.TranscribeOne | AHGraR_Server/Parser/GFF3_parser_gffutils_v2.py:61-106 | the body of the transcript loop writes exactly what `Transcribe` says for the transcript's id |
| Gff3ParserV2.ParserV2.ParseTranscripts | AHGraR_Server/Parser/GFF3_parser_gffutils_v2.py:52-107 | every transcript takes the next gene id, those with a sequence are written as a header line and a sequence line, and an error that escapes ends the run with the lines written so far |
| AnnotationParser.GeneLeqTotalPreorder | AHGraR_Server/Parser/annotation_parser.py:14 | the sort key (organism, chromosome, numeric start) orders genes totally, so sorting by it is well defined |
| AnnotationParser.SortGeneList | AHGraR_Server/Parser/annotation_parser.py:13-15 | ValueError exactly when some start is not an integer; otherwise a permutation of the input, sorted by the key |
| AnnotationParser.SortedGeneKeys | AHGraR_Server/Parser/annotation_parser.py:12-14 | a list sorted by the key has organisms in order, chromosomes in order within one organism and numeric starts in order within one chromosome |
| AnnotationParser.GeneOf | AHGraR_Server/Parser/annotation_parser.py:35-36 | the gene tuple of one protein carries the file's organism, the end and name attributes, and "NA" for a missing chromosome, strand or start |
| AnnotationParser.TableGenesMembers | AHGraR_Server/Parser/annotation_parser.py:33-37 | the genes collected from the table are exactly the gene tuples of its proteins |
| AnnotationParser.ParseNcbiRefseq | AHGraR_Server/Parser/annotation_parser.py:26-41 | KeyError exactly when some protein's gene lacks an end or a name; otherwise the protein table's gene tuples with repeats removed, each named after the file's stem, one for every protein |
| AnnotationParser.StartsOfGenes | AHGraR_Server/Parser/annotation_parser.py:33-41 | making the list unique neither adds nor removes a start that is not an integer |
| AnnotationParser.SortedParse | AHGraR_Server/Parser/annotation_parser.py:13-22 | sorting the unique genes raises ValueError exactly when a protein's start is not an integer, else yields the same set of genes, repeat-free and sorted |
| AnnotationParser.ParsedGenesError | AHGraR_Server/Parser/annotation_parser.py:18-22 | `parse_annotation` fails exactly when the format is unknown, an end or name is missing, or a start is not an integer, and with that error |
| AnnotationParser.ParsedGenesContents | AHGraR_Server/Parser/annotation_parser.py:18-22 | a successful parse is repeat-free, sorted by the key, and holds exactly the gene tuples of the table's proteins |
| AnnotationParser.ParseAnnotation | AHGraR_Server/Parser/annotation_parser.py:18-22 | an unknown format or a missing end/name raises KeyError, then a non-integer start raises ValueError; otherwise exactly the genes of the protein table, once each, sorted; the outcome is `ParsedGenes` |
| ClusterParser.Cluster | AHGraR_Server/Parser/cluster_Parser.py:30-33 | one line gives the tab-separated fields of the stripped line, each suffixed with `.*` |
| ClusterParser.BlankLineCluster | AHGraR_Server/Parser/cluster_Parser.py:30-31 | a blank line is not skipped (a split list is never empty) but gives the cluster `[".*"]` |
| ClusterParser.ClusterNames | AHGraR_Server/Parser/cluster_Parser.py:30-33 | every cluster element ends in `.*` and without it is a tab-free name |
| ClusterParser.Clusters | AHGraR_Server/Parser/cluster_Parser.py:29-34 | one cluster per line, in line order |
| ClusterParser.Parser.constructor | AHGraR_Server/Parser/cluster_Parser.py:11-12 | a new parser holds no clusters |
| ClusterParser.Parser.ParseMclCluster | AHGraR_Server/Parser/cluster_Parser.py:27-34 | the file's clusters are appended to those already held |
| ClusterParser.Parser.ParseCluster | AHGraR_Server/Parser/cluster_Parser.py:17-20 | "MCL" appends the file's clusters and returns the whole list; any other format raises KeyError and changes nothing |
| ClusterParser.ParseTwice | AHGraR_Server/Parser/cluster_Parser.py:11-34 | the list is never reset, so a second parse returns the first file's clusters followed by the second's |
| CsvParser.GeneOf | Daisychain_Server/Parser/CSV_parser.py:37-39 | a row gives a gene exactly when its mandatory columns are present and start and stop are integers; the gene carries the row's fields and "?" for missing optional ones |
| CsvParser.Fitted | Daisychain_Server/Parser/CSV_parser.py:41-43 | one description per protein: the row's own when the counts match, otherwise the first for every protein |
| CsvParser.ProteinsOf | Daisychain_Server/Parser/CSV_parser.py:40-47 | the proteins of a row are its `;`-separated names, numbered on consecutively, each with its fitted description and the row's gene id |
| CsvParser.NoDescriptionColumn | Daisychain_Server/Parser/CSV_parser.py:41 | without a description column every protein is described as "?" |
| CsvParser.FoldAppends | Daisychain_Server/Parser/CSV_parser.py:35-48 | a full pass appends one gene per row and moves the gene counter by the rows and the protein counter by the proteins added |
| CsvParser.FoldGeneIds | Daisychain_Server/Parser/CSV_parser.py:36-37 | gene ids run consecutively from the starting counter, in row order |
| CsvParser.StepProteins | Daisychain_Server/Parser/CSV_parser.py:44-47 | every protein of a row names that row's gene, and protein ids keep rising |
| CsvParser.GeneLeqTotalPreorder | Daisychain_Server/Parser/CSV_parser.py:50 | the sort key (sequence name, start, stop) orders genes totally |
| CsvParser.ProteinDictLookup | Daisychain_Server/Parser/CSV_parser.py:64-68 | a name is a key exactly when some protein has it, and maps to the last such protein's id, description and gene |
| CsvParser.Parser.constructor | Daisychain_Server/Parser/CSV_parser.py:24-30 | the species is the file's stem, the counters are the given ids and both lists start empty |
| CsvParser.Parser.AddProteins | Daisychain_Server/Parser/CSV_parser.py:44-47 | the row's proteins are appended one at a time with the next id each |
| CsvParser.Parser.ParseRow | Daisychain_Server/Parser/CSV_parser.py:36-48 | one loop step leaves the state `StepRow` gives, or stops at its error |
| CsvParser.Parser.ParseCsv | Daisychain_Server/Parser/CSV_parser.py:32-52 | the rows in order, then genes sorted by the key; a missing column exits with status 1, a bad integer raises ValueError, and either leaves the lists as they were when the row failed |
| CsvParser.Parser.GetProteinDict | Daisychain_Server/Parser/CSV_parser.py:64-68 | the dictionary built one protein at a time is `ProteinDict` of the protein list |
| AnnotationToCsv.Slots | AHGraR_Server/CSV_creator/annotation_to_csv.py:79-84 | the walk looks at each gene's id, its contig and whether its start is truthy, in list order |
| AnnotationToCsv.NodeRow | AHGraR_Server/CSV_creator/annotation_to_csv.py:91-92 | a node row exists exactly when every field the join takes as is (contig, name, chromosome, strand, phase) is text; otherwise the join raises TypeError |
| AnnotationToCsv.Fields | AHGraR_Server/CSV_creator/annotation_to_csv.py:92 | the row has nine fields, the first the gene's id |
| AnnotationToCsv.NodeRows | AHGraR_Server/CSV_creator/annotation_to_csv.py:78-92 | one candidate row per gene, in list order |
| AnnotationToCsv.JoinsUpTo | AHGraR_Server/CSV_creator/annotation_to_csv.py:75-95 | among the first `n` genes the 3' lines are exactly the consecutive pairs on one contig that both have a truthy start |
| AnnotationToCsv.WalkJoinsNeighbours | AHGraR_Server/CSV_creator/annotation_to_csv.py:84-86 | the 3' file holds `a,b` exactly when gene `b` follows gene `a` on one contig, both with a start, within the part the walk reached; and exactly then the 5' file holds `b,a` |
| AnnotationToCsv.RowStartsWithId | AHGraR_Server/CSV_creator/annotation_to_csv.py:92 | every node row begins with the gene's id and a comma |
| AnnotationToCsv.Creator.constructor | AHGraR_Server/CSV_creator/annotation_to_csv.py:22-26 | the Files and CSV paths of the project, both counters at 0, nothing written |
| AnnotationToCsv.Creator.WalkGenes | AHGraR_Server/CSV_creator/annotation_to_csv.py:75-95 | the walk appends to the three files exactly what `WalkOf` says, ending in TypeError at the first row the join refuses |
| AnnotationToCsv.Creator.Configure | AHGraR_Server/CSV_creator/annotation_to_csv.py:42-45 | setting the mapper and the hierarchy leaves the parser's ids and node lists as they were, and the non-hierarchical types are those after the `;` |
| AnnotationToCsv.Creator.ParseGff3 | AHGraR_Server/CSV_creator/annotation_to_csv.py:38-58 | UnboundLocalError when the parser's non-hierarchical gene loop never ran; otherwise the parser, started from the creator's ids, hands back its sorted genes (tied genes in conversion order), its protein dictionary, one more gene id per annotation and a protein id that never goes back |
| AnnotationToCsv.Creator.ParseAndStore | AHGraR_Server/CSV_creator/annotation_to_csv.py:38-63 | when the parse raises UnboundLocalError nothing changes; otherwise the counters take the parser's last ids and the species' protein dictionary is written |
| AnnotationToCsv.Creator.CreateGff3 | AHGraR_Server/CSV_creator/annotation_to_csv.py:38-99 | the gff3 branch raises UnboundLocalError, changing nothing, when the parser's non-hierarchical gene loop never ran; otherwise the counters and the protein dictionary follow the parse, and the three files grow by what the walk over the sorted genes writes, tied genes taken in conversion order |
| AnnotationToCsv.Creator.CreateCsv | AHGraR_Server/CSV_creator/annotation_to_csv.py:28-99 | "gff3" raises UnboundLocalError, changing nothing, when no non-hierarchical type is given, no mapped field of such a record was read or there are no genes; otherwise it parses, stores the dictionary and walks the genes; "csv" raises AttributeError (its `CSVParser` is taken to offer only `parse_csv`, as the Daisychain one does) and any other type UnboundLocalError, both changing nothing |
| GeneNodeCsv.Slots | AHGraR_Server/CSV_creator/gene_node_csv_creator.py:63-75 | gene `i` gets id `last + 1 + i`; neighbours are joinable only when joining is asked for, they share organism and chromosome and both starts are non-empty |
| GeneNodeCsv.Rows | AHGraR_Server/CSV_creator/gene_node_csv_creator.py:82-83 | one node row per gene, numbered on from `last` |
| GeneNodeCsv.NodeRowId | AHGraR_Server/CSV_creator/gene_node_csv_creator.py:83 | two equal node rows have equal ids, because the id is the row's first field |
| GeneNodeCsv.RowsDistinct | AHGraR_Server/CSV_creator/gene_node_csv_creator.py:69-83 | no two node rows of one run are equal |
| GeneNodeCsv.Keys | AHGraR_Server/CSV_creator/gene_node_csv_creator.py:71 | one dictionary key (organism, chromosome, strand, start, name) per gene, in list order |
| GeneNodeCsv.IdDictLookup | AHGraR_Server/CSV_creator/gene_node_csv_creator.py:63-71 | after the walk a key is in the dictionary exactly when it was there before or some gene has it, and an old key no gene has keeps its id (the dictionary is the dump's, read at line 37) |
| GeneNodeCsv.IdDictLast | AHGraR_Server/CSV_creator/gene_node_csv_creator.py:71 | a key maps to the id of the last gene that has it |
| GeneNodeCsv.WalkGenes | AHGraR_Server/CSV_creator/gene_node_csv_creator.py:59-87 | the loop writes the node rows, the 3' and 5' lines of the linked slots and the dictionary `IdDict`, and ends on the last id given out |
| GeneNodeCsv.NoConnectNoEdges | AHGraR_Server/CSV_creator/gene_node_csv_creator.py:75 | with `connect_nb` false no edge is written |
| GeneNodeCsv.EdgesConsecutive | AHGraR_Server/CSV_creator/gene_node_csv_creator.py:69-78 | every edge joins two consecutive new ids |
| GeneNodeCsv.GeneJoins | AHGraR_Server/CSV_creator/gene_node_csv_creator.py:75-78 | the 3' file holds `a,b` exactly when joining is asked for and `a`, `b` are the ids of consecutive genes of one organism and chromosome, both with a non-empty start |
| GeneNodeCsv.LinkedJoined | AHGraR_Server/CSV_creator/gene_node_csv_creator.py:75-78 | every 3' line comes from a joinable pair of consecutive genes |
| GeneNodeCsv.JoinedLinked | AHGraR_Server/CSV_creator/gene_node_csv_creator.py:75-78 | every joinable pair of consecutive genes gives a 3' line |
| GeneNodeCsv.SlotsLinked | AHGraR_Server/CSV_creator/gene_node_csv_creator.py:69-75 | consecutive genes `i - 1`, `i` get ids `last + i`, `last + 1 + i`, and their slots link exactly when the genes are joinable |
| GeneNodeCsv.FirstError | AHGraR_Server/CSV_creator/gene_node_csv_creator.py:45-46 | no error exactly when every file parses |
| GeneNodeCsv.FirstErrorAt | AHGraR_Server/CSV_creator/gene_node_csv_creator.py:45-46 | the error raised is that of the first file that fails |
| GeneNodeCsv.FileGenes | AHGraR_Server/CSV_creator/gene_node_csv_creator.py:46 | extending the list by one file's genes gives the genes of the files up to that one |
| GeneNodeCsv.AllGenesMembers | AHGraR_Server/CSV_creator/gene_node_csv_creator.py:44-46 | when the first `n` files parse, a gene is in the concatenation of their parses exactly when some protein of one of them yields it |
| GeneNodeCsv.GeneToCsv.constructor | AHGraR_Server/CSV_creator/gene_node_csv_creator.py:16-27 | the paths, project and type are kept; the dump is the pickled one when it exists, otherwise empty |
| GeneNodeCsv.GeneToCsv.CreateCsvAsWritten | AHGraR_Server/CSV_creator/gene_node_csv_creator.py:33-94 | as written: with any annotation file the files are truncated and AttributeError is raised, the dump unchanged; with none, only the headers are written |
| GeneNodeCsv.GeneToCsv.CollectGenes | AHGraR_Server/CSV_creator/gene_node_csv_creator.py:44-46 | the first failing file's error; otherwise the list is `AllGenes`: each file's sorted, repeat-free parse, concatenated in file order, so a gene is in it exactly when some protein of some file yields it |
| GeneNodeCsv.GeneToCsv.ParseFile | AHGraR_Server/CSV_creator/gene_node_csv_creator.py:46 | one file's parse error, or the list extended at its end by exactly that file's sorted parse |
| GeneNodeCsv.GeneToCsv.WriteFiles | AHGraR_Server/CSV_creator/gene_node_csv_creator.py:49-94 | the files and the dump are exactly `Output`: headers, rows, joins, last id and dictionary |
| GeneNodeCsv.GeneToCsv.CreateCsv | AHGraR_Server/CSV_creator/gene_node_csv_creator.py:33-94 | with the parser object called: a failing file raises its error after truncating the outputs; otherwise the files and dump are `Output` of the file-ordered concatenation of the sorted parses, written on from the dump's last id |
| CsvPlayground.WriteGenes | AHGraR_Server/CSV_creator/csv_playground.py:26-76 | the gene files are their headers followed by the gene node creator's walk with ids from 1 and joining always on; the dictionary is `IdDict` of the genes' keys |
| CsvPlayground.GeneJoinsFromOne | AHGraR_Server/CSV_creator/csv_playground.py:54-63 | gene `i` has id `i + 1`, and the 3' file joins `i` to `i + 1` exactly when the two genes share organism and chromosome and both have a start |
| CsvPlayground.FirstUnknown | AHGraR_Server/CSV_creator/csv_playground.py:96-97 | no index exactly when every protein's gene is in the gene dictionary; otherwise the first protein whose gene is not |
| CsvPlayground.Numbered | AHGraR_Server/CSV_creator/csv_playground.py:91-97 | the loop numbers at most all proteins |
| CsvPlayground.Coded | AHGraR_Server/CSV_creator/csv_playground.py:96-98 | coding rows are written only for proteins whose gene is known |
| CsvPlayground.NodeRows | AHGraR_Server/CSV_creator/csv_playground.py:94 | one node row per protein |
| CsvPlayground.CodingRows | AHGraR_Server/CSV_creator/csv_playground.py:98 | one coding row per protein |
| CsvPlayground.OutcomeStep | AHGraR_Server/CSV_creator/csv_playground.py:91-98 | one more protein takes the next id, its node row, its name in the dictionary (keeping the key's first place) and, when its gene is known, its coding row |
| CsvPlayground.NodeRowsAppend | AHGraR_Server/CSV_creator/csv_playground.py:94 | a further protein appends exactly its own node row |
| CsvPlayground.CodingRowsAppend | AHGraR_Server/CSV_creator/csv_playground.py:97-98 | a further protein with a known gene appends exactly its coding row |
| CsvPlayground.OutcomeStops | AHGraR_Server/CSV_creator/csv_playground.py:97 | after the KeyError of an unknown gene, further proteins change nothing |
| CsvPlayground.NameOrderKeys | AHGraR_Server/CSV_creator/csv_playground.py:91-111 | the dictionary's keys in insertion order are its keys, once each |
| CsvPlayground.NameIdsKeys | AHGraR_Server/CSV_creator/csv_playground.py:93 | a name is a key exactly when some numbered protein has it |
| CsvPlayground.NameIdsLast | AHGraR_Server/CSV_creator/csv_playground.py:92-93 | a name maps to the id of its last occurrence |
| CsvPlayground.WriteProtein | AHGraR_Server/CSV_creator/csv_playground.py:91-98 | one pass of the protein loop leaves `Outcome` of the proteins so far, and fails exactly at an unknown gene |
| CsvPlayground.WriteTableProteins | AHGraR_Server/CSV_creator/csv_playground.py:90-98 | the loop over one table continues the numbering of the tables before it |
| CsvPlayground.WriteProteins | AHGraR_Server/CSV_creator/csv_playground.py:85-98 | the loop over all tables leaves `Outcome` of all their proteins, fails exactly at the first unknown gene, and otherwise leaves `prot` bound to the last protein read |
| CsvPlayground.RecordLast | AHGraR_Server/CSV_creator/csv_playground.py:107 | re-recording the last protein fails (NameError) exactly when no protein was read |
| CsvPlayground.RecordLastKeeps | AHGraR_Server/CSV_creator/csv_playground.py:107 | re-recording the last protein after a good loop changes nothing |
| CsvPlayground.NoVersion | AHGraR_Server/CSV_creator/csv_playground.py:110 | the key cut at its last dot is never longer than the key |
| CsvPlayground.NoVersionOfPattern | AHGraR_Server/CSV_creator/csv_playground.py:124 | cutting a cluster element at its last dot removes exactly the `.*` the cluster parser added |
| CsvPlayground.NoVersionWithoutDot | AHGraR_Server/CSV_creator/csv_playground.py:110 | a key with no dot loses its last character (`rfind` gives -1) |
| CsvPlayground.NoVersionOfAccession | AHGraR_Server/CSV_creator/csv_playground.py:110 | `base.version` with a dot-free version becomes `base` |
| CsvPlayground.NoVersionLookup | AHGraR_Server/CSV_creator/csv_playground.py:108-111 | a stem is a key exactly when some name has it, and maps to the id of the last name in key order with that stem |
| CsvPlayground.NoVersionDict | AHGraR_Server/CSV_creator/csv_playground.py:108-111 | the loop over the keys builds `NoVersionIds` |
| CsvPlayground.PairsWith | AHGraR_Server/CSV_creator/csv_playground.py:127 | the pairs of one element with each of a list, in order |
| CsvPlayground.ProductAt | AHGraR_Server/CSV_creator/csv_playground.py:126-127 | the product of two lists has `|xs| * |ys|` pairs, pair `i * |ys| + j` being `(xs[i], ys[j])` |
| CsvPlayground.ProductLength | AHGraR_Server/CSV_creator/csv_playground.py:127 | the product has `|xs| * |ys|` pairs |
| CsvPlayground.PairRows | AHGraR_Server/CSV_creator/csv_playground.py:127-131 | one row per ordered pair of a cluster's ids |
| CsvPlayground.RowsOf | AHGraR_Server/CSV_creator/csv_playground.py:130-131 | one row per pair, in order |
| CsvPlayground.PairRowsAt | AHGraR_Server/CSV_creator/csv_playground.py:126-131 | a cluster of `k` proteins gives `k * k` rows, self-pairs included; row `i * k + j` relates protein `i` to protein `j` with the file's sensitivity |
| CsvPlayground.WritePairs | AHGraR_Server/CSV_creator/csv_playground.py:130-131 | the write loop produces exactly `PairRows` |
| CsvPlayground.ClusterIds | AHGraR_Server/CSV_creator/csv_playground.py:124 | a cluster's ids exist exactly when every name's stem is a key, and are those keys' ids in order |
| CsvPlayground.EmitStops | AHGraR_Server/CSV_creator/csv_playground.py:118-131 | after the first failing cluster nothing more is written |
| CsvPlayground.EmitOk | AHGraR_Server/CSV_creator/csv_playground.py:118-131 | the writing ends well exactly when every cluster does |
| CsvPlayground.EmitContains | AHGraR_Server/CSV_creator/csv_playground.py:118-131 | the rows of a cluster reached are in the output |
| CsvPlayground.ClusterOutputs | AHGraR_Server/CSV_creator/csv_playground.py:122-131 | one output per cluster of a file |
| CsvPlayground.WriteClusterFile | AHGraR_Server/CSV_creator/csv_playground.py:122-131 | the loop over one file's clusters yields `FileRows` |
| CsvPlayground.FileOutputs | AHGraR_Server/CSV_creator/csv_playground.py:118-121 | one output per cluster file |
| CsvPlayground.WriteHomologs | AHGraR_Server/CSV_creator/csv_playground.py:118-131 | the loop over the cluster files, a fresh parser each, yields `HomologRows` |
| CsvPlayground.HomologPairs | AHGraR_Server/CSV_creator/csv_playground.py:118-131 | every ordered pair of a known cluster's ids is written with its file's sensitivity, when nothing before it failed |
| CsvPlayground.WriteHomologFile | AHGraR_Server/CSV_creator/csv_playground.py:103-133 | the homolog stage yields `HomologFile`: no file after an unknown gene, the header and NameError when no protein was read, otherwise the rows and KeyError at a missing name |
| CsvPlayground.RunPlayground | AHGraR_Server/CSV_creator/csv_playground.py:7-133 | the script's stages together yield `Playground` |
| CsvPlayground.FileRowsOk | AHGraR_Server/CSV_creator/csv_playground.py:122-124 | a cluster file is written through exactly when each of its clusters has every name known |
| CsvPlayground.HomologRowsOk | AHGraR_Server/CSV_creator/csv_playground.py:118-124 | all cluster files are written through exactly when every cluster's names are known |
| CsvPlayground.PlaygroundReturns | AHGraR_Server/CSV_creator/csv_playground.py:85-133 | the run ends normally exactly when every gene is known, some protein was read and every cluster name is known; no homolog file exactly when a gene is unknown |
| NeighbourEdges.Links | AHGraR_Server/CSV_creator/gene_node_csv_creator.py:59-87 | among `n` genes there are fewer than `n` joins, at most one per gene after the first |
| NeighbourEdges.LinksMembers | AHGraR_Server/CSV_creator/gene_node_csv_creator.py:75-78 | a pair is a join exactly when it is two consecutive genes that share the key and both have a start |
| NeighbourEdges.LinksConsecutive | AHGraR_Server/CSV_creator/gene_node_csv_creator.py:69-78 | when ids rise by one along the list, every join is of two consecutive ids within the range given out |
| NeighbourEdges.ThreePrimeLines | AHGraR_Server/CSV_creator/annotation_to_csv.py:85 | one 3' line `previous,current` per join, in order |
| NeighbourEdges.FivePrimeLines | AHGraR_Server/CSV_creator/annotation_to_csv.py:86 | one 5' line `current,previous` per join, in order |
| NeighbourEdges.IntToStringNoComma | AHGraR_Server/CSV_creator/annotation_to_csv.py:85 | a printed id holds no comma, so the comma of an edge line is the separator |
| NeighbourEdges.EdgeLineInjective | AHGraR_Server/CSV_creator/annotation_to_csv.py:85-86 | an edge line determines its two ids |
| NeighbourEdges.EdgesPaired | AHGraR_Server/CSV_creator/annotation_to_csv.py:84-86 | the 3' file holds `a,b` exactly when the 5' file holds `b,a` |
| NeighbourEdges.ThreePrimeMembers | AHGraR_Server/CSV_creator/annotation_to_csv.py:84-85 | the 3' file holds `a,b` exactly when gene `b` is joined to the gene `a` just before it |
| NeighbourEdges.LinksStep | AHGraR_Server/CSV_creator/annotation_to_csv.py:78-95 | one more gene appends its join, if any, at the end of both edge files |
| NeighbourEdges.FirstMissing | AHGraR_Server/CSV_creator/annotation_to_csv.py:91-92 | the first gene whose row cannot be written, all before it writable; none exactly when every row is writable |
| NeighbourEdges.Written | AHGraR_Server/CSV_creator/annotation_to_csv.py:91-92 | the node file holds the rows of the first `n` genes, in order |
| NeighbourEdges.RowsReached | AHGraR_Server/CSV_creator/annotation_to_csv.py:91-92 | the rows written are all writable |
| NeighbourEdges.GenesReached | AHGraR_Server/CSV_creator/annotation_to_csv.py:84-92 | the walk visits at least the genes whose rows were written, and every gene exactly when no row fails or only the last does (its join is written before its row fails) |
| NeighbourEdges.Walk | AHGraR_Server/CSV_creator/annotation_to_csv.py:75-95 | the loop succeeds exactly when every row is writable, and leaves the rows and the 3'/5' lines of the genes it reached |
| QueryCommon.Keys | AHGraR_Server/Server/Project_access/Query_Management.py:336-338 | the keys of a dict, one per entry, in insertion order |
| QueryCommon.Position | AHGraR_Server/Server/Project_access/Query_Management.py:336 | where a key sits, if the dict holds it |
| QueryCommon.Put | AHGraR_Server/Server/Project_access/Query_Management.py:336-338 | `d[k] = v` keeps an existing key's place and gives it the new value, and adds a new key last; other entries stay |
| QueryCommon.NodesKeys | AHGraR_Server/Server/Project_access/Query_Management.py:335-338 | the dict holds each record's key once, in the order the keys first came |
| QueryCommon.NodesFrom | AHGraR_Server/Server/Project_access/Query_Management.py:335-338 | every entry of the dict is some record's key and value |
| QueryCommon.NodesLast | AHGraR_Server/Server/Project_access/Query_Management.py:335-338 | the record that last set a key gives that key's entry |
| QueryCommon.Flatten | AHGraR_Server/Server/Project_access/Query_Management.py:339-340 | the relation list holds exactly the relations of the records |
| QueryCommon.NodesStep | AHGraR_Server/Server/Project_access/Query_Management.py:336-338 | one more record is one more `d[k] = v` |
| QueryCommon.FlattenStep | AHGraR_Server/Server/Project_access/Query_Management.py:339-340 | one more record appends its relations |
| QueryCommon.Collect | AHGraR_Server/Server/Project_access/Query_Management.py:335-340 | the record loop leaves exactly `Nodes` of the records and the concatenation of their relations |
| QueryCommon.NormaliseTerm | AHGraR_Server/Server/Project_access/Query_Management.py:275-277 | a normalised term holds no tab and no `?`, is never `*`, and is no longer than the term |
| QueryCommon.NormaliseCleanTerm | AHGraR_Server/Server/Project_access/Query_Management.py:275-277 | a term with nothing to strip, no tab, no `?` and not `*` reaches the query unchanged |
| QueryCommon.NormaliseWildcard | AHGraR_Server/Server/Project_access/Query_Management.py:277 | a wildcard, padded or not, becomes the empty term |
| QueryCommon.Distinctly | AHGraR_Server/Server/Project_access/Query_Management.py:72 | `RETURN DISTINCT … ORDER BY`: the same values, each once, in code-point order |
| TextLines.Lines | AHGraR_Server/Parser/FASTA_parser.py:22 | the lines of a text concatenate back to it, none is empty, and only the last may lack its `\n` |
| TextLines.LineListTail | AHGraR_Server/Parser/FASTA_parser.py:22 | the lines after the first are still lines of a file |
| TextLines.LinesOfConcat | AHGraR_Server/Parser/FASTA_parser.py:22 | reading back a written list of lines gives the same lines |
| TextLines.ConcatLines | AHGraR_Server/Parser/FASTA_ID_corrector.py:7 | writing one more line extends the text by that line |
| DaisychainQuery.RouteOf | Daisychain_Server/Server/Project_access/Query_Management.py:53-66 | SEAR with 7 fields not ending in BLAST is a keyword search, SEAR with 8 ending in BLAST a BLAST search, RELA with 5 a relation request and LIST with 3 or 4 a listing, each only with an all-digit project id; an empty request or a lone SEAR, RELA or LIST fails with IndexError; anything else is "-8" |
| DaisychainQuery.EvaluateUserRequest | Daisychain_Server/Server/Project_access/Query_Management.py:53-66 | the handler's replies and ending are those `Evaluate` gives for the route |
| DaisychainQuery.SendData | Daisychain_Server/Server/Project_access/Query_Management.py:165-170 | a CMD request fails with TypeError (the call passes six arguments to a five-parameter method); a WEB request sends `WebReply`, or fails with ValueError when that fails |
| DaisychainQuery.GeneItems | Daisychain_Server/Server/Project_access/Query_Management.py:710-713 | one (id, gene) entry per row |
| DaisychainQuery.LinkKindsDisjoint | Daisychain_Server/Server/Project_access/Query_Management.py:714-717 | no relation is filed both as a neighbour and as a homology |
| DaisychainQuery.NbLinks | Daisychain_Server/Server/Project_access/Query_Management.py:715-716 | each row adds at most its 5'/3' neighbour relation |
| DaisychainQuery.HmlgLinks | Daisychain_Server/Server/Project_access/Query_Management.py:717-719 | each row adds at most its homology |
| DaisychainQuery.CollectGenes | Daisychain_Server/Server/Project_access/Query_Management.py:710-719 | the row loop leaves exactly `GeneHits` of the rows |
| DaisychainQuery.GeneHitsFromRows | Daisychain_Server/Server/Project_access/Query_Management.py:710-719 | each gene of the rows once, in first-found order; a neighbour edge exactly for each row with a 5_NB or 3_NB relation and a homology exactly for each row with a HOMOLOG relation |
| DaisychainQuery.NbFromRows | Daisychain_Server/Server/Project_access/Query_Management.py:714-716 | the neighbour list holds exactly the neighbour relations of the rows |
| DaisychainQuery.HmlgFromRows | Daisychain_Server/Server/Project_access/Query_Management.py:717-719 | the homology list holds exactly the homologies of the rows |
| DaisychainQuery.NormaliseTerms | Daisychain_Server/Server/Project_access/Query_Management.py:629-631 | one normalised term per field |
| DaisychainQuery.NonEmpty | Daisychain_Server/Server/Project_access/Query_Management.py:645 | the non-empty parts, and nothing when all parts are empty |
| DaisychainQuery.Keywords | Daisychain_Server/Server/Project_access/Query_Management.py:641-645 | every keyword is non-empty and holds no space |
| DaisychainQuery.KeywordsOfWord | Daisychain_Server/Server/Project_access/Query_Management.py:641-645 | a one-word term is the single keyword, lower-cased |
| DaisychainQuery.KeywordsOfBlanks | Daisychain_Server/Server/Project_access/Query_Management.py:641-645 | a term of spaces only, or empty, has no keywords |
| DaisychainQuery.SearchQueryOf | Daisychain_Server/Server/Project_access/Query_Management.py:639-701 | a query runs exactly when there is a keyword and the mode, upper-cased, is ALL or ANY; its keywords are non-empty and space-free |
| DaisychainQuery.FindNode | Daisychain_Server/Server/Project_access/Query_Management.py:616-794 | the handler's replies and ending are `FindNodeResult`: database first, then "-9" for a bad format, "-10" unless four terms, then the graph of the rows |
| DaisychainQuery.NoKeywordsEmptyGraph | Daisychain_Server/Server/Project_access/Query_Management.py:649-701 | a WEB search without keywords runs no query and answers the empty graph |
| DaisychainQuery.SearchNeverShort | Daisychain_Server/Server/Project_access/Query_Management.py:629-638 | a routed search always has four terms, so it is never answered "-10" (the route at lines 55-57 passes six fields to `find_node`) |
| DaisychainQuery.DropHeaders | Daisychain_Server/Server/Project_access/Query_Management.py:90-93 | exactly the lines holding no `>` are kept |
| DaisychainQuery.DropHeaderLines | Daisychain_Server/Server/Project_access/Query_Management.py:90-94 | the loop keeps exactly `DropHeaders` |
| DaisychainQuery.DetectNucleotide | Daisychain_Server/Server/Project_access/Query_Management.py:99-103 | the loop decides nucleotide exactly when every residue is A, C, G, T or U |
| DaisychainQuery.CleanSequenceChars | Daisychain_Server/Server/Project_access/Query_Management.py:88-94 | the cleaned sequence holds no line break, no `>` and no lower-case letter |
| DaisychainQuery.SingleLineSequence | Daisychain_Server/Server/Project_access/Query_Management.py:88-94 | a one-line sequence without a header is only upper-cased |
| DaisychainQuery.NucleotideInAnyCase | Daisychain_Server/Server/Project_access/Query_Management.py:88-103 | a one-line sequence goes to blastn exactly when every letter is A, C, G, T or U in either case |
| DaisychainQuery.BaseInAnyCase | Daisychain_Server/Server/Project_access/Query_Management.py:88-101 | an upper-cased character is a base exactly when the character is one in either case |
| DaisychainQuery.HeaderOnlySequence | Daisychain_Server/Server/Project_access/Query_Management.py:88-103 | a lone header line leaves the empty sequence, which counts as nucleotides |
| DaisychainQuery.HitIds | Daisychain_Server/Server/Project_access/Query_Management.py:114-121 | at most 20 ids, exactly 20 when the file has that many lines, each the prefix and the stripped, lower-cased line |
| DaisychainQuery.BlastSearchRequest | Daisychain_Server/Server/Project_access/Query_Management.py:75-170 | the handler's replies, ending and database search are `BlastResult` |
| DaisychainQuery.BlastChecksFormatFirst | Daisychain_Server/Server/Project_access/Query_Management.py:79-121 | a bad format is answered "-9" whatever the database would do; a search that reaches the gene query asks for at most 20 ids, all with the program's prefix |
| DaisychainQuery.SupportedRelations | Daisychain_Server/Server/Project_access/Query_Management.py:231-237 | a relation is accepted exactly when it is 5NB, 3NB, 5_NB, 3_NB, HOMOLOG, CODING or 53NB |
| DaisychainQuery.FindNodeRelations | Daisychain_Server/Server/Project_access/Query_Management.py:214-509 | the handler's replies and ending are `RelationsResult` |
| DaisychainQuery.UnsupportedRelationCarriesOn | Daisychain_Server/Server/Project_access/Query_Management.py:231-237 | "-12" does not end the handler: WEB then also gets the empty graph, CMD then fails (nothing returns after the "-12", so the send at lines 503-506 follows) |
| DaisychainQuery.NeighbourKindsFindNothing | Daisychain_Server/Server/Project_access/Query_Management.py:231-247 | the single neighbour kinds are accepted but no branch queries them, so the WEB answer is the empty graph (the query branches, at lines 247, 286, 391 and 438, test only CODING, HOMOLOG and 53NB) |
| DaisychainQuery.CmdNeverAnswers | Daisychain_Server/Server/Project_access/Query_Management.py:511-512 | a CMD search or BLAST search fails without a reply, and a CMD relation request at most reports "-10" or "-12" (the calls at lines 166, 504 and 789 pass six arguments) |
| DaisychainQuery.FailureBeforeFormat | Daisychain_Server/Server/Project_access/Query_Management.py:28-44 | a database that cannot be opened fails every search, relation and listing request before anything is sent (the database is opened first, at lines 179, 216 and 618) |
| DaisychainQuery.SpeciesOf | Daisychain_Server/Server/Project_access/Query_Management.py:184-186 | one species per gene |
| DaisychainQuery.ContigsOf | Daisychain_Server/Server/Project_access/Query_Management.py:193-206 | a contig is listed exactly when some gene, of the given species if one is given, lies on it |
| DaisychainQuery.ListItems | Daisychain_Server/Server/Project_access/Query_Management.py:177-208 | the handler's replies are `ListingResult`: the listed values joined by line breaks, with the contig listing corrected as under Findings (a two-field request lists all contigs) |
| DaisychainQuery.ContigListing | Daisychain_Server/Server/Project_access/Query_Management.py:187-206 | a contig listing holds every contig of the project (no species, or `*`) or of one species, once each and in order |
| DaisychainQuery.ContigListingAsWrittenEmpty | Daisychain_Server/Server/Project_access/Query_Management.py:191-205 | as written, a CONTIG listing with no species is emptied by the `else` of the later tests, although the intended listing holds the project's contigs |
| DaisychainQuery.GeneLeqTotalPreorder | Daisychain_Server/Server/Project_access/Query_Management.py:541 | the sort key (species, contig, start) orders genes totally |
| DaisychainQuery.SortGenes | Daisychain_Server/Server/Project_access/Query_Management.py:540-541 | the genes of the reply are a permutation of the hits, sorted by the key |
| DaisychainQuery.GeneJsons | Daisychain_Server/Server/Project_access/Query_Management.py:544-552 | one JSON node per gene |
| DaisychainQuery.ProteinJsons | Daisychain_Server/Server/Project_access/Query_Management.py:553-556 | one JSON node per protein |
| DaisychainQuery.RelJsons | Daisychain_Server/Server/Project_access/Query_Management.py:558-563 | one JSON edge per neighbour or coding relation |
| DaisychainQuery.HmlgJsons | Daisychain_Server/Server/Project_access/Query_Management.py:574-580 | one JSON edge per homology kept |
| DaisychainQuery.DropSelfLoops | Daisychain_Server/Server/Project_access/Query_Management.py:565 | exactly the homologies between two different nodes are kept |
| DaisychainQuery.Unidirectional | Daisychain_Server/Server/Project_access/Query_Management.py:570-573 | the pass succeeds exactly when every id has a number after its first letter, and keeps exactly the relations leading to the larger number |
| DaisychainQuery.UnidirectionalStep | Daisychain_Server/Server/Project_access/Query_Management.py:571-573 | one more relation is one more pass of the loop |
| DaisychainQuery.KeepAscending | Daisychain_Server/Server/Project_access/Query_Management.py:570-573 | the loop yields `Unidirectional` |
| DaisychainQuery.WebHomologsOneWay | Daisychain_Server/Server/Project_access/Query_Management.py:564-573 | the reply fails exactly when a relation between two different nodes has an id without a number; otherwise each drawn edge was found, none is a self-loop, none is drawn both ways, and a relation is drawn exactly when it leads to the larger number |
| DaisychainQuery.SendDataWeb | Daisychain_Server/Server/Project_access/Query_Management.py:536-611 | the reply is `WebReply` |
| DaisychainQuery.EmptyGraphReply | Daisychain_Server/Server/Project_access/Query_Management.py:609-611 | no hits give the empty graph |
| DaisychainQuery.WebReplyIsObject | Daisychain_Server/Server/Project_access/Query_Management.py:611 | a web reply starts with `{` and ends with `}`, so it never reads as a status code |
| AhgrarQuery.RouteOf | AHGraR_Server/Server/Project_access/Query_Management.py:53-61 | SEAR with 7 fields is a search, RELA with 6 a relation request and LIST with 3 or 4 a listing, each only with an all-digit project id; an empty request or a lone SEAR, RELA or LIST fails with IndexError, because the id is read before the length is checked; anything else is "-8" |
| AhgrarQuery.EvaluateUserRequest | AHGraR_Server/Server/Project_access/Query_Management.py:53-61 | the handler's replies and ending are those `Evaluate` gives for the route |
| AhgrarQuery.NormaliseTerms | AHGraR_Server/Server/Project_access/Query_Management.py:275-277 | one normalised term per search term, so the four-term check sees the request's own count |
| AhgrarQuery.GeneItems | AHGraR_Server/Server/Project_access/Query_Management.py:335-338 | one (id, gene) entry per row of the gene search |
| AhgrarQuery.GeneLinks | AHGraR_Server/Server/Project_access/Query_Management.py:339-340 | one list of gene relations per row, empty when the row has none |
| AhgrarQuery.ProteinItems | AHGraR_Server/Server/Project_access/Query_Management.py:364-367 | one (id, protein) entry per row of the protein search |
| AhgrarQuery.ProteinLinks | AHGraR_Server/Server/Project_access/Query_Management.py:371-373 | one list of protein relations per row, empty when the row has none |
| AhgrarQuery.CodingPairRels | AHGraR_Server/Server/Project_access/Query_Management.py:396-397 | one CODING relation per (gene, protein) pair a "both" search finds |
| AhgrarQuery.FindNode | AHGraR_Server/Server/Project_access/Query_Management.py:262-411 | `find_node` sends "-9" for a format other than CMD and WEB, "-10" unless there are four terms, "-11" unless the type is gene, prot or both; otherwise the formatted nodes and relations of the searches the type selects, or an AttributeError without a connection (after its "-7") |
| AhgrarQuery.SearchNeverShort | AHGraR_Server/Server/Project_access/Query_Management.py:282-284 | a request routed as a search always has four terms, so "-10" is never among its replies |
| AhgrarQuery.SupportedRelations | AHGraR_Server/Server/Project_access/Query_Management.py:114-120 | a relation type passes the "-12" check exactly when it is one of the five supported types or the short spelling 5NB or 3NB |
| AhgrarQuery.NeighbourItems | AHGraR_Server/Server/Project_access/Query_Management.py:132-135 | one (id, gene) entry per neighbour row, keyed by the neighbour |
| AhgrarQuery.NeighbourLinks | AHGraR_Server/Server/Project_access/Query_Management.py:136-141 | one pair of relations per neighbour row |
| AhgrarQuery.TargetItems | AHGraR_Server/Server/Project_access/Query_Management.py:147-150 | one protein entry per row of a relation query, in row order; the coding query (lines 147-150) and the homolog or synteny query (lines 174-177) both collect their target proteins this way |
| AhgrarQuery.CodingLinks | AHGraR_Server/Server/Project_access/Query_Management.py:151 | one CODING relation per row |
| AhgrarQuery.HomologLinks | AHGraR_Server/Server/Project_access/Query_Management.py:178-179 | one protein relation, with its sensitivity, per row |
| AhgrarQuery.FindNodeRelations | AHGraR_Server/Server/Project_access/Query_Management.py:97-188 | `find_node_relations` sends "-9" for an unknown format, "-10" for a node type other than Gene and Protein, "-12" for an unsupported relation; the coding genes of a protein fail in the database (the query returns an unbound name); otherwise the formatted nodes and relations of the branch, with an AttributeError when there is no connection |
| AhgrarQuery.NeighboursBothWays | AHGraR_Server/Server/Project_access/Query_Management.py:136-141 | a neighbour query relates gene x to y as 5' neighbour exactly when it relates y to x as 3' neighbour |
| AhgrarQuery.NoConnectionFails | AHGraR_Server/Server/Project_access/Query_Management.py:26-45 | without a connection a search or relation request first sends "-7", and ends normally exactly when a check then answered "-9", "-10", "-11" or "-12" |
| AhgrarQuery.RelationsWithoutConnection | AHGraR_Server/Server/Project_access/Query_Management.py:26-45 | the same for relation requests, including the branches that query nothing and fail only when the missing session is closed |
| AhgrarQuery.SpeciesOf | AHGraR_Server/Server/Project_access/Query_Management.py:71-74 | one species per gene node |
| AhgrarQuery.ChromosomesOf | AHGraR_Server/Server/Project_access/Query_Management.py:75-89 | a chromosome is listed exactly when some gene of the project, or of the named species, lies on it |
| AhgrarQuery.ListItems | AHGraR_Server/Server/Project_access/Query_Management.py:66-90 | `list_items` sends the listed values joined by line breaks, an empty reply for a listing it does not know, and fails with AttributeError without a connection once it queries |
| AhgrarQuery.ChromosomeListing | AHGraR_Server/Server/Project_access/Query_Management.py:75-89 | a chromosome listing holds each chromosome of the project, or of the species named (tabs in it read as underscores), once and in order, and nothing else |
| AhgrarQuery.ListingValuesClean | AHGraR_Server/Server/Project_access/Query_Management.py:66-90 | listed values hold no line break when no species or chromosome holds one |
| AhgrarQuery.ListingLines | AHGraR_Server/Server/Project_access/Query_Management.py:90 | a non-empty listing, split at its line breaks, gives back exactly the listed values |
| AhgrarQuery.GeneLeqTotalPreorder | AHGraR_Server/Server/Project_access/Query_Management.py:196 | the sort key (species, chromosome, contig, start) orders any two gene nodes, transitively |
| AhgrarQuery.SortGenes | AHGraR_Server/Server/Project_access/Query_Management.py:196 | the gene nodes sorted by species, chromosome, contig and start: a permutation of the nodes, in key order |
| AhgrarQuery.GeneLines | AHGraR_Server/Server/Project_access/Query_Management.py:200-201 | one tab-joined line per gene node |
| AhgrarQuery.ProteinLines | AHGraR_Server/Server/Project_access/Query_Management.py:203-204 | one tab-joined line per protein node |
| AhgrarQuery.RelLines | AHGraR_Server/Server/Project_access/Query_Management.py:206-207 | one tab-joined line per gene relation |
| AhgrarQuery.HomologyLines | AHGraR_Server/Server/Project_access/Query_Management.py:208-209 | one tab-joined line per protein relation |
| AhgrarQuery.AppendLines | AHGraR_Server/Server/Project_access/Query_Management.py:200-201 | the `reply +=` loop leaves the reply followed by every line, each ended by a line break |
| AhgrarQuery.SendDataCmd | AHGraR_Server/Server/Project_access/Query_Management.py:191-212 | `send_data_cmd` builds exactly the CMD reply of the hits |
| AhgrarQuery.CmdReplyParts | AHGraR_Server/Server/Project_access/Query_Management.py:199-211 | the CMD reply is the gene header and the sorted gene lines, the protein header and the protein lines, the relations header and the gene, protein and coding relation lines, in that order |
| AhgrarQuery.CmdGenesSorted | AHGraR_Server/Server/Project_access/Query_Management.py:195-201 | the gene lines of a CMD reply are those of a permutation of the gene nodes sorted by the key |
| AhgrarQuery.LineFields | AHGraR_Server/Server/Project_access/Query_Management.py:201 | a line of values without tabs and line breaks splits on tabs back into its values and holds no line break |
| AhgrarQuery.GeneLinesPlain | AHGraR_Server/Server/Project_access/Query_Management.py:200-201 | the gene lines hold no line break when no value does |
| AhgrarQuery.OtherLinesPlain | AHGraR_Server/Server/Project_access/Query_Management.py:203-211 | the protein and relation lines hold no line break when no value does |
| AhgrarQuery.CmdReplyLines | AHGraR_Server/Server/Project_access/Query_Management.py:199-211 | split at its line breaks, a CMD reply gives its three headers and one line per node and relation in section order, then an empty rest |
| AhgrarQuery.CmdProteinLine | AHGraR_Server/Server/Project_access/Query_Management.py:203-204 | the line of the i-th protein node splits on tabs into its id, name, description, species and chromosome |
| AhgrarQuery.GeneJsons | AHGraR_Server/Server/Project_access/Query_Management.py:224-229 | one JSON node per gene node |
| AhgrarQuery.ProteinJsons | AHGraR_Server/Server/Project_access/Query_Management.py:230-233 | one JSON node per protein node |
| AhgrarQuery.GeneRelJsons | AHGraR_Server/Server/Project_access/Query_Management.py:235-237 | one JSON edge per gene relation |
| AhgrarQuery.HomologyJsons | AHGraR_Server/Server/Project_access/Query_Management.py:248-252 | one JSON edge per protein relation drawn |
| AhgrarQuery.CodingJsons | AHGraR_Server/Server/Project_access/Query_Management.py:253-254 | one JSON edge per coding relation |
| AhgrarQuery.DropSelfLoops | AHGraR_Server/Server/Project_access/Query_Management.py:239 | the relations kept are exactly those between two different proteins |
| AhgrarQuery.KeepOnePerPair | AHGraR_Server/Server/Project_access/Query_Management.py:240-247 | the intended reduction: every relation kept was found, every relation found is kept or has its reverse kept, and no relation nor pair appears twice |
| AhgrarQuery.WebHomologiesOnePerPair | AHGraR_Server/Server/Project_access/Query_Management.py:238-247 | the protein edges drawn were found and are no self-loops, each relation between two different proteins is drawn one way or the other, and no pair is drawn twice |
| AhgrarQuery.OneEdgePerPair | AHGraR_Server/Server/Project_access/Query_Management.py:240-247 | the loop that keeps a relation unless it or its reverse was kept computes `KeepOnePerPair` |
| AhgrarQuery.SendDataWeb | AHGraR_Server/Server/Project_access/Query_Management.py:216-257 | `send_data_web`, with the reverse-edge removal corrected, builds exactly the WEB reply of the hits |
| AhgrarQuery.SendData | AHGraR_Server/Server/Project_access/Query_Management.py:181-186 | a CMD request gets the CMD reply and any other format the WEB reply |
| AhgrarQuery.ReplyStart | AHGraR_Server/Server/Project_access/Query_Management.py:199-257 | a CMD reply starts with `G` and a WEB reply with `{`, so neither is mistaken for a negative status code |
| AhgrarQuery.RemoveFirst | AHGraR_Server/Server/Project_access/Query_Management.py:244-247 | `list.remove` with ValueError ignored drops exactly one copy of a present relation and leaves a list without it unchanged |
| AhgrarQuery.RemoveReversesFrom | AHGraR_Server/Server/Project_access/Query_Management.py:243-247 | the loop as written, walking by position over the shrinking list, only ever removes relations |
| AhgrarQuery.RemoveReversesAsWritten | AHGraR_Server/Server/Project_access/Query_Management.py:243-247 | the loop as written computes `RemoveReversesFrom` from position 0 |
| AhgrarQuery.AsWrittenDrawsFoundEdges | AHGraR_Server/Server/Project_access/Query_Management.py:239-247 | as written, every protein edge drawn was found and is no self-loop |
| AhgrarQuery.AsWrittenKeepsBothDirections | AHGraR_Server/Server/Project_access/Query_Management.py:243-247 | as written, the relations x, reverse, reverse, x keep both directions of the pair |
| AhgrarQuery.NoSelfLoopsKept | AHGraR_Server/Server/Project_access/Query_Management.py:239 | a list without self-loops passes the self-loop filter unchanged |
| AhgrarCmd.ProjectIds | AHGraR_cmd/AHGraR_cmd.py:144-145 | the ids of the project's jobs, in table order: exactly the ids of the rows of that project |
| AhgrarCmd.ProjectIdsUnique | AHGraR_cmd/AHGraR_cmd.py:144-145 | with a primary-key id column, the id list sent in a STAT request names each job once |
| AhgrarCmd.Updated | AHGraR_cmd/AHGraR_cmd.py:104-109 | the UPDATE sets the status of exactly the rows with that id and project, and changes nothing else |
| AhgrarCmd.Refreshed | AHGraR_cmd/AHGraR_cmd.py:147-151 | the statuses of a STAT reply written back pairwise leave a table of the same size |
| AhgrarCmd.RefreshStep | AHGraR_cmd/AHGraR_cmd.py:150-151 | writing back the next (id, status) pair of the zip is one more UPDATE of the refreshed table |
| AhgrarCmd.RefreshTruncated | AHGraR_cmd/AHGraR_cmd.py:149 | `zip` stops at the shorter of the id list and the reply, so statuses beyond the ids change nothing |
| AhgrarCmd.RefreshedById | AHGraR_cmd/AHGraR_cmd.py:144-151 | the job whose id went k-th into the request takes the k-th status of the reply, keeps its own when the reply is shorter, and jobs of other projects never change |
| AhgrarCmd.RefreshedKeepsIds | AHGraR_cmd/AHGraR_cmd.py:147-151 | a refresh changes statuses only, so ids, projects and names stay and ids stay unique |
| AhgrarCmd.Removed | AHGraR_cmd/AHGraR_cmd.py:122-127 | the DELETE removes exactly the rows with that id and project and keeps ids unique |
| AhgrarCmd.JobLines | AHGraR_cmd/AHGraR_cmd.py:152-154 | the job list printed has one line per job of the project, in table order, each starting with that job's id and a tab |
| AhgrarCmd.JobTable.constructor | AHGraR_cmd/AHGraR_cmd.py:322-329 | a fresh job table is empty |
| AhgrarCmd.JobTable.AddJob | AHGraR_cmd/AHGraR_cmd.py:95-101 | `add_jobid` fails with ValueError unless both ids parse as integers, with IntegrityError when the job id is already present, and otherwise appends the job as "started" |
| AhgrarCmd.JobTable.UpdateStatus | AHGraR_cmd/AHGraR_cmd.py:104-109 | `update_jobstatus` applies `Updated` when both ids parse, and raises ValueError leaving the table when one does not |
| AhgrarCmd.JobTable.DeleteJob | AHGraR_cmd/AHGraR_cmd.py:111-127 | `delete_job` asks the server first when told to and stops unless the server answers "Deleted"; then it applies `Removed`, or raises ValueError for an id that does not parse |
| AhgrarCmd.JobTable.PrintJobList | AHGraR_cmd/AHGraR_cmd.py:139-156 | `print_joblist` sends one STAT request with the project's job ids joined by `_`, writes the reply's tab-separated statuses back with `Refreshed`, and lists the project's jobs; a project id that does not parse raises ValueError |
| AhgrarCmd.EscapeKeeps | AHGraR_cmd/AHGraR_cmd.py:211 | a value without `_` is sent as it is |
| AhgrarCmd.UnescapeKeeps | AHGraR_cmd/AHGraR_cmd.py:211 | a field without a tab is read back as it is |
| AhgrarCmd.DigitsPlain | AHGraR_cmd/AHGraR_cmd.py:171 | a project id the client accepts holds neither `_` nor a tab, so it crosses the wire unchanged |
| AhgrarCmd.Routed | AHGraR_cmd/AHGraR_cmd.py:291 | a request made of a two-letter family and `_`-joined escaped values reaches the server's routing as exactly those values |
| AhgrarCmd.ProjectCommand | AHGraR_cmd/AHGraR_cmd.py:48-76 | `project_management` fails with IndexError for fewer than two words or a `status` without an id; a three-word create or delete sends PMCREA or PMDELE with the name; every other command returns "Unknown command" after at most one PMINFO request |
| AhgrarCmd.CreateReachesServer | AHGraR_cmd/AHGraR_cmd.py:67-70 | a project name without `_` reaches the server as the creation of exactly that name; a name with `_` creates no project at all |
| AhgrarCmd.DeleteReachesServer | AHGraR_cmd/AHGraR_cmd.py:71-74 | a project id of digits reaches the server as its deletion |
| AhgrarCmd.AccessedProject | AHGraR_cmd/AHGraR_cmd.py:168-174 | `access project <id>` enters the project exactly when there are three words and the id is digits, and then the id holds no `_` or tab; fewer than two words raise IndexError |
| AhgrarCmd.FileCommand | AHGraR_cmd/AHGraR_cmd.py:203-246 | `file_management` sends a request for sleep, list, a five-word download, or a two-word hide, unhide, remove or import; all but list record a job; no words raise IndexError |
| AhgrarCmd.AccessRequest | AHGraR_cmd/AHGraR_cmd.py:203-263 | values sent after `PA`, the `_`-free ones as they are and the rest escaped, reach the server's project-access routing as themselves |
| AhgrarCmd.AccessRouting | AHGraR_cmd/AHGraR_cmd.py:203-312 | the server routes FILE, BULD, DABA and QURY requests to the file, build, database and query managers |
| AhgrarCmd.FileNameRouted | AHGraR_cmd/AHGraR_cmd.py:220-246 | a hidden, unhidden, removed or imported file name reaches the file manager whole, underscores included |
| AhgrarCmd.DownloadFields | AHGraR_cmd/AHGraR_cmd.py:208-212 | the fields a download puts on the admin socket are FILE, DWNF, the project and the four words, URL underscores included |
| AhgrarCmd.DownloadRouted | AHGraR_cmd/AHGraR_cmd.py:208-212 | a download whose species, variant and file type hold no `_` reaches the file manager with all four words |
| AhgrarCmd.BuildCommand | AHGraR_cmd/AHGraR_cmd.py:249-263 | `build_management` sends `set GFF3` with at least two more words, or `db` alone; no words, or `set` alone, raise IndexError |
| AhgrarCmd.BuildSettingsFields | AHGraR_cmd/AHGraR_cmd.py:250-253 | the fields `set GFF3` puts on the admin socket are BULD, GFF3, the project and the words after GFF3 |
| AhgrarCmd.BuildSettingsRouted | AHGraR_cmd/AHGraR_cmd.py:250-253 | the parser settings of `set GFF3` reach the build manager word for word, underscores included |
| AhgrarCmd.DatabaseCommand | AHGraR_cmd/AHGraR_cmd.py:266-277 | `db_runner` sends a request exactly for the one-word commands start, stop and status |
| AhgrarCmd.DatabaseText | AHGraR_cmd/AHGraR_cmd.py:268-274 | the request is `PADABA_`, the project and the upper-case action, which holds no `_` or tab |
| AhgrarCmd.DatabaseRouted | AHGraR_cmd/AHGraR_cmd.py:266-277 | a database command reaches the database runner as the project and the upper-case action |
| AhgrarCmd.RelatedRequests | AHGraR_cmd/AHGraR_cmd.py:294-297 | at most one request, and only for a `related` command |
| AhgrarCmd.ListRequests | AHGraR_cmd/AHGraR_cmd.py:298-312 | at most one request, and only for a `list` command |
| AhgrarCmd.QueryCommands | AHGraR_cmd/AHGraR_cmd.py:280-312 | `query_management` sends at most two requests, and none unless there are two to five words |
| AhgrarCmd.QuerySecondRequest | AHGraR_cmd/AHGraR_cmd.py:283-298 | two requests go out only for a search whose first term is itself `related` or `list`, because the search rebinds the word list the later tests read |
| AhgrarCmd.SearchThenRelated | AHGraR_cmd/AHGraR_cmd.py:283-297 | `query search related …` sends the search and then a relation request made of the remaining cleaned terms |
| AhgrarCmd.SearchFields | AHGraR_cmd/AHGraR_cmd.py:290-291 | the fields a search puts on the admin socket are QURY, SEAR, the project, CMD and the four stripped terms |
| AhgrarCmd.SearchRouted | AHGraR_cmd/AHGraR_cmd.py:283-293 | a search reaches the query manager as the project, CMD and the four stripped terms, underscores included |
| AhgrarCmd.SearchIsKeywordSearch | AHGraR_cmd/AHGraR_cmd.py:283-291 | the server routes those fields as a keyword search exactly when the last term is not BLAST |
| AhgrarCmd.ChromosomeFields | AHGraR_cmd/AHGraR_cmd.py:309-310 | `list chromosomes <species>` puts QURY, LIST, the project and one field CHROMOSOME followed by the species on the admin socket |
| AhgrarCmd.ChromosomeSpeciesFused | AHGraR_cmd/AHGraR_cmd.py:302-312 | the species is glued onto CHROMOSOME with no separator, so the query manager gets one fused field, never the species alone |
| AhgrarCmd.Submit | AHGraR_cmd/AHGraR_cmd.py:203-263 | a file or build command sends its request; without a job nothing is recorded; a reply or project that is not an integer raises ValueError and a reply id already in the table IntegrityError, both leaving the table as it was; otherwise the job is appended as started |
| AhgrarCmd.JobManagement | AHGraR_cmd/AHGraR_cmd.py:79-89 | `job list` refreshes the project's statuses, `job result` fetches and removes the job locally, `job status` writes back the first status of the reply, `job clear` removes it only after the server answers "Deleted"; anything else changes nothing |
| AhgrarCmd.AccessCommand | AHGraR_cmd/AHGraR_cmd.py:176-198 | one pass of the `project_access` loop leaves on `exit`, sends PMINFO for `status`; `job` with a subcommand has the requests, exit and job table of `JobManaged`, and `file` and `build` those of `Submitted` for their command; a bare `job`, `status`, `database` and `query` return normally and leave the job table as it was |
| AhgrarAdmin.KeepAlnum | AHGraR_admin/AHGraR_admin.py:71 | the name keeps exactly its letters and digits and grows no longer |
| AhgrarAdmin.KeepAlnumSingle | AHGraR_admin/AHGraR_admin.py:71 | a single character is kept exactly when it is a letter or a digit |
| AhgrarAdmin.KeepAlnumAppend | AHGraR_admin/AHGraR_admin.py:71 | the filter goes character by character in order: filtering a concatenation gives the filtered parts concatenated, so with `KeepAlnumSingle` the result is the name's letters and digits in their order and number |
| AhgrarAdmin.KeepAlnumKeeps | AHGraR_admin/AHGraR_admin.py:71 | a name made only of letters and digits passes the filter unchanged |
| AhgrarAdmin.KeepAlnumIdempotent | AHGraR_admin/AHGraR_admin.py:71 | filtering twice is filtering once |
| AhgrarAdmin.CreateRequests | AHGraR_admin/AHGraR_admin.py:64-78 | `create_project` sends at most one request |
| AhgrarAdmin.CreateSendsCleanName | AHGraR_admin/AHGraR_admin.py:64-78 | a creation is requested exactly when the stripped input is not "0" and holds a letter or digit; it carries those letters and digits, and the admin socket creates a project of exactly that name |
| AhgrarAdmin.DeleteProject | AHGraR_admin/AHGraR_admin.py:91-114 | `delete_project` always lists the projects first, and reports a deletion outcome exactly when it sends the deletion |
| AhgrarAdmin.DeleteOnlyConfirmedIds | AHGraR_admin/AHGraR_admin.py:96-114 | the deletion goes out exactly for a non-zero id of digits that the user confirmed with `delete`; the admin socket deletes that project, and success is reported exactly when the reply is the id |
| AhgrarAdmin.MenuStepAsWritten | AHGraR_admin/AHGraR_admin.py:128-148 | the main loop as written acts only on a choice from 1 to 5 |
| AhgrarAdmin.MenuStep | AHGraR_admin/AHGraR_admin.py:128-148 | the corrected main loop, which acts on the number that passed the range test, acts only on a choice from 1 to 5 |
| AhgrarAdmin.LeadingZeroCrashes | AHGraR_admin/AHGraR_admin.py:132-148 | as written, "05" passes the range test and then raises KeyError; corrected, it deletes a project |
| AhgrarAdmin.MenuStepNeverCrashes | AHGraR_admin/AHGraR_admin.py:132-148 | corrected, no input crashes, the same inputs redisplay the options as before, and a single-digit input behaves exactly as written |

## Left out

- Strings.IsDigit: Python's `isdigit`, `isalnum`, `lower`, `upper` and `strip` work on all of Unicode; the model (`IsDigit`, `IsAlnum`, `IsWhitespace`, `LowerChar`, `UpperChar`, `Strip`) knows the ASCII classes only, so a non-ASCII digit, letter or space is treated as any other character.
- Strings.ParseInt: Python's `int()` also accepts underscores between digits and non-ASCII decimal digits; the model accepts surrounding white space, one optional sign and ASCII digits, and rejects the rest.
- MainDb.Store: node ids come from one counter `nextId`, so every new project, task or file node gets an id never used before; Neo4j may reuse the id of a deleted node, which the id-based lookups of the managers then would resolve to the new node.
- Framing.RoundTrip: the length prefix counts characters, where the socket code counts UTF-8 bytes; the two agree only for ASCII payloads, so the round trip is stated for those.
- ProjectLifecycle.ProjectInfo: a project whose name or status is not a string (the `-1` the listing sends when the join fails) cannot occur, because the model stores names and statuses as strings.
- ProjectLifecycle.CreateProject: the INIT status is written and then overwritten in the same call; it is visible only to a concurrent reader, and concurrency is not modelled.
- Gff3Parser.Parser.Convert: the walk of the GFF3 database (`gffutils`) that yields the genes, their transcripts and coding sequences is an input, not modelled.
- Gff3Parser.Parser.Convert, Gff3Parser.Parser.ParseGff3File, AnnotationToCsv.Creator.ParseGff3, AnnotationToCsv.Creator.ParseAndStore, AnnotationToCsv.Creator.CreateGff3, AnnotationToCsv.Creator.CreateCsv: `list(set(self.gene_list))` hands the stable sort the genes in hash order, so Python orders genes sharing contig, start and stop differently from run to run, and with them the 3' and 5' neighbour edges written for them; the model fixes those ties to conversion order. `Gff3Parser.TieFreeOrder` proves that, when no two genes share their key, every order Python can produce is the model's.
- Gff3Parser.Parser.ParseGff3File: genes sharing contig, start and stop are kept in conversion order, as under Gff3Parser.Parser.Convert.
- ParseGff3 (AnnotationToCsv.Creator.ParseGff3): the genes it hands back keep ties in conversion order, as under Gff3Parser.Parser.Convert.
- ParseAndStore (AnnotationToCsv.Creator.ParseAndStore): the gene list it keeps holds ties in conversion order, as under Gff3Parser.Parser.Convert.
- CreateGff3 (AnnotationToCsv.Creator.CreateGff3): the gene and edge files list tied genes in conversion order, where Python's order follows hashing.
- DbBuilder.EvaluateUserRequest: the DB branch runs the corrected clean-up (DbBuilder.BuildDb, DbBuilder.KeepPairs), so it does not raise the RuntimeError the code as written raises (DbBuilder.CleanUpAsWritten) when some (species, variant) group does not hold exactly two files.
- Gff3Parser.ProteinPairs: `list(set(zip(...)))` has no defined order in Python; the model keeps each pair at its first occurrence.
- Gff3Parser.ValLeq: sorting a mix of numbers and texts raises TypeError in Python; the model orders numbers before texts.
- TaskManagement.VisibleTaskIds, TaskManagement.ListReplyLines, ProjectLifecycle.ProjectIds, DbBuilder.VisibleIds: the Cypher queries behind these listings have no ORDER BY, so Neo4j returns the rows in an order of its own; the model fixes ascending id order, which is a modelling choice.
- CsvParser.GeneOf: `csv.DictReader` fills the missing columns of a short row with None, and `int(None)` or `None.split` then raise TypeError or AttributeError, which escape the parser uncaught; the model's rows hold text for every column they have, so a short row is not captured: in the model only a column absent from the header (KeyError) ends in exit code 1, and a non-integer bound raises ValueError.
- AnnotationToCsv.Creator.CreateCsv: `AHGraR_Server/Parser/CSV_parser.py` is not part of this model; its `CSVParser` is taken to match the Daisychain one, which has `parse_csv` and no `parse_gff3_file`.
- AnnotationToCsv.Creator.CreateCsv, Gff3Parser.Parser.ParseGff3File: whether the non-hierarchical pass read a mapped field of some record depends on the GFF3 database, so it is the input `valueRead`.
- DbBuilder.SetGff3Parser: the probe of the GFF3 files that picks the parser settings is an input.
- AnnotationParser.ParseNcbiRefseq: `list(set(...))` has no defined order in Python; the model keeps each gene at its first occurrence, and the stable sort that follows then fixes the order only up to equal sort keys.
- AnnotationParser.ParseNcbiRefseq: the protein-to-gene table that the older NCBI GFF3 parser (`GFF3ParserSimple`) builds is an input; that parser is not part of this model.
- AhgrarQuery.FindNode: Cypher evaluation is not modelled; the rows each query returns are inputs, as they are for every other member of AhgrarQuery and DaisychainQuery.
- Sockets, threads and the select loop of both servers, the gateway's connection handling and the websocket server and its JavaScript client are not part of this model; the framing and dispatch are.
- sqlite access, `gffutils` and `pyfaidx` are not part of this model; their results are inputs.
- protein_node_csv_creator, csv_playground_local and the older protein_parser are not part of this model.
- Floating point formatting, subprocess launches (only their exit codes are inputs), `time.sleep`, random passwords, directory creation, copying and removal are not part of this model.
- The command-line client's main loop, its `shlex` tokenising and `input` prompts, the admin console's project listing and screen clearing, and the change and build stubs that only print are not part of this model.
- The Daisychain relation-branch reply records and the Daisychain `send_data_cmd` body are not part of this model; the listing and search branches are.
- Print statements, the pickle dump of the project dictionary (`__dump_project_dict` is never called) and the reading of the configuration file are not part of this model.


## Findings

| source | as written | input that shows it | evidently intended | confidence | as-written member | corrected member |
|---|---|---|---|---|---|---|
| AHGraR_Gateway/AHGraR_Gateway.py:61-65 | the body loop subtracts the size it asked `recv` for, not the size it got (the same at lines 78-82) | the frame `3|abc` when the first `recv(3)` delivers one character: the gateway returns `"a"` and leaves `bc` in the socket | subtract the length received, as the servers' `receive_data` does, so a short read is followed by another read | not executed | Framing.GatewayShortReadLosesData | Framing.ReceiveData |
| AHGraR_Server/Server/Project_access/Query_Management.py:243-247 | reverse homology edges are removed from the list the loop is iterating over, so the loop skips the element after each removal | the rows `[x, r, r, x]`, where `r` is `x` reversed (a protein pair found through two coding genes): the page gets `[r, x]`, both directions | one edge per pair of proteins, whatever the order and number of repeats; the comment at lines 240-242 asks for the edge from the smaller to the bigger id, which even the loop without the skip does not do (it keeps the direction met first), so the corrected member keeps the first-seen direction | not executed | AhgrarQuery.AsWrittenKeepsBothDirections | AhgrarQuery.WebHomologiesOnePerPair |
| AHGraR_Server/Server/Project_access/DB_Builder.py:66-68 | keys are deleted from the dictionary being iterated over, which raises RuntimeError as soon as one is deleted | the groups `("Ath","v1")` with only `ath.gff3` and `("Osa","v7")` with `osa.faa` and `osa.gff3`: the build stops with RuntimeError | drop every group that does not hold exactly two files and build from the rest | not executed | DbBuilder.CleanUpAsWritten | DbBuilder.KeepPairs |
| AHGraR_Server/Server/Project_access/DB_Builder.py:91-116 | the project id goes to `ID(proj)` as text (lines 95 and 116), and the SET at line 113 compares stored file names with the relative paths built at line 97 | any project and any chosen GFF3 files: the lookup returns no file and the SET changes nothing, yet the task reports success | store the annotation mapping and feature hierarchy on the chosen GFF3 files of that project | not executed | DbBuilder.SettingsNeverStored | DbBuilder.SettingsStored |
| AHGraR_Server/Parser/FASTA_parser.py:32 | `line[1:-1]` drops the last character of a header line, meant to be the newline | a file whose last line is the header `>abc` without a newline: the output header is `>lcl|ab` | drop the `>` and the line end only, so the header `>abc` becomes `>lcl|abc` | not executed | FastaParser.FinalHeaderLosesChar | FastaParser.RewriteIgnoresNewline |
| AHGraR_Server/CSV_creator/gene_node_csv_creator.py:46 | `parse_annotation` is called on the imported module, which defines no such function, instead of on an `AnnotationParser` instance | any list of annotation files: AttributeError before any gene is read | parse every annotation file with an `AnnotationParser` and write the gene CSV files | not executed | GeneNodeCsv.GeneToCsv.CreateCsvAsWritten | GeneNodeCsv.GeneToCsv.CreateCsv |
| Daisychain_Server/Server/Project_access/Query_Management.py:191-205 | the `else: query_hits = []` belongs to the second `if`, so it also runs after the two-field request has been answered | the request `CONTIG` with two fields on a project whose genes have contigs: the reply is empty | a two-field request lists the contigs of all species | not executed | DaisychainQuery.ContigListingAsWrittenEmpty | DaisychainQuery.ContigListing |
| AHGraR_admin/AHGraR_admin.py:132-148 | the menu checks the choice with `int()` but looks the action up by the text typed | the input `05`: it passes the range test, then `actions["05"]` raises KeyError and ends the console | run the action of the number chosen, so `05` acts as `5` | not executed | AhgrarAdmin.LeadingZeroCrashes | AhgrarAdmin.MenuStepNeverCrashes |
