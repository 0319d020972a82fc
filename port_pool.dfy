/**
 * Start-up of the AHGraR server: bringing the main database up, reading
 * the configured port list for project databases, and synchronising the
 * main database's Port nodes with it.
 */
module PortPool {
  import opened Wrappers
  import opened Strings
  import Seqs
  import opened MainDb

  /** Python `range(lo, hi)`. */
  function Range(lo: int, hi: int): (r: seq<int>)
    ensures |r| == if lo < hi then hi - lo else 0
    ensures forall i :: 0 <= i < |r| ==> r[i] == lo + i
    decreases hi - lo
  {
    if lo >= hi then [] else [lo] + Range(lo + 1, hi)
  }

  /**
   * The port numbers one stripped entry of the list stands for: `a-b` with
   * both ends digits is the inclusive range, digits alone one port, and
   * anything else nothing.
   */
  function EntryPorts(entry: string): (ports: seq<int>)
    ensures forall i :: 0 <= i < |ports| ==> ports[i] >= 0
  {
    if '-' in entry then RangePorts(MapStrings(Split(entry, '-'), Strip))
    else if IsDigits(entry) then [DigitsValue(entry)]
    else []
  }

  /** The ports of a range entry split at `-` and stripped: only its first two pieces count. */
  function RangePorts(ends: seq<string>): (ports: seq<int>)
    requires |ends| >= 2
    ensures forall i :: 0 <= i < |ports| ==> ports[i] >= 0
  {
    if IsDigits(ends[0]) && IsDigits(ends[1]) then Range(DigitsValue(ends[0]), DigitsValue(ends[1]) + 1)
    else []
  }

  function PortsOf(entries: seq<string>): seq<int>
  {
    if |entries| == 0 then [] else EntryPorts(entries[0]) + PortsOf(entries[1..])
  }

  /** The port numbers of a `project_ports` setting, in the order of its entries, repeats kept. */
  function ConfiguredPorts(portList: string): seq<int>
  {
    PortsOf(MapStrings(Split(portList, ','), Strip))
  }

  /** A port is configured exactly when one of the entries stands for it. */
  lemma {:induction false} PortsOfMembers(entries: seq<string>, port: int)
    ensures port in PortsOf(entries) <==> exists i :: 0 <= i < |entries| && port in EntryPorts(entries[i])
  {
    if |entries| > 0 {
      PortsOfMembers(entries[1..], port);
      if port in PortsOf(entries[1..]) {
        var i :| 0 <= i < |entries[1..]| && port in EntryPorts(entries[1..][i]);
        assert port in EntryPorts(entries[i + 1]);
      }
      if exists i :: 0 <= i < |entries| && port in EntryPorts(entries[i]) {
        var i :| 0 <= i < |entries| && port in EntryPorts(entries[i]);
        if i > 0 {
          assert entries[1..][i - 1] == entries[i];
        }
      }
    }
  }

  /** Two digit strings joined by `-` split and strip back into themselves. */
  lemma RangeEnds(a: string, b: string)
    requires IsDigits(a) && IsDigits(b)
    ensures '-' in a + "-" + b
    ensures MapStrings(Split(a + "-" + b, '-'), Strip) == [a, b]
  {
    assert (a + "-" + b)[|a|] == '-';
    assert '-' !in a by {
      forall i | 0 <= i < |a| ensures a[i] != '-' { assert IsDigit(a[i]); }
    }
    assert '-' !in b by {
      forall i | 0 <= i < |b| ensures b[i] != '-' { assert IsDigit(b[i]); }
    }
    SplitJoin([a, b], '-');
    assert Join([a, b], '-') == a + "-" + b;
    StripLeftKeeps(a);
    StripRightKeeps(a);
    StripLeftKeeps(b);
    StripRightKeeps(b);
  }

  /** A range entry stands for every port from its first to its last number. */
  lemma RangeEntry(lo: nat, hi: nat, port: int)
    ensures port in EntryPorts(NatToString(lo) + "-" + NatToString(hi)) <==> lo <= port <= hi
  {
    var a, b := NatToString(lo), NatToString(hi);
    RangeEnds(a, b);
    assert EntryPorts(a + "-" + b) == RangePorts([a, b]);
    var r := Range(lo, hi + 1);
    assert RangePorts([a, b]) == r;
    if lo <= port <= hi {
      assert r[port - lo] == port;
    }
  }

  lemma PortsOfStep(entries: seq<string>, i: int)
    requires 0 <= i < |entries|
    ensures PortsOf(entries[i..]) == EntryPorts(entries[i]) + PortsOf(entries[i + 1..])
  {
    assert entries[i..][1..] == entries[i + 1..];
  }

  /** The body of the loop below: the ports of one stripped entry, or none when it is malformed. */
  method ParseEntry(entry: string) returns (ports: seq<int>)
    ensures ports == EntryPorts(entry)
  {
    if '-' in entry {
      var ends := MapStrings(Split(entry, '-'), Strip);
      if !IsDigits(ends[0]) || !IsDigits(ends[1]) {
        return [];
      }
      ports := Range(DigitsValue(ends[0]), DigitsValue(ends[1]) + 1);
      assert ports == RangePorts(ends);
    } else {
      if !IsDigits(entry) {
        return [];
      }
      ports := [DigitsValue(entry)];
    }
  }

  /** The loop of the start-up script that turns the setting into port numbers. */
  method ParsePortList(portList: string) returns (portNumbers: seq<int>)
    ensures portNumbers == ConfiguredPorts(portList)
  {
    var entries := MapStrings(Split(portList, ','), Strip);
    portNumbers := [];
    for i := 0 to |entries|
      invariant portNumbers + PortsOf(entries[i..]) == PortsOf(entries)
    {
      PortsOfStep(entries, i);
      var ports := ParseEntry(entries[i]);
      Seqs.AppendAssoc(portNumbers, ports, PortsOf(entries[i + 1..]));
      portNumbers := portNumbers + ports;
    }
    assert entries[|entries|..] == [];
  }

  /** After the MERGE: every configured port exists; new ones are inactive and free, old ones unchanged. */
  function Merged(ports: map<int, Port>, configured: seq<int>): map<int, Port>
  {
    map nr | nr in ports.Keys + (set p | p in configured) ::
      if nr in ports then ports[nr] else Port("inactive", None)
  }

  /** After the DETACH DELETE: a port survives if it is configured or active. */
  function Pruned(ports: map<int, Port>, configured: seq<int>): map<int, Port>
  {
    map nr | nr in ports && (nr in configured || ports[nr].status == "active") :: ports[nr]
  }

  function Synced(ports: map<int, Port>, configured: seq<int>): map<int, Port>
  {
    Pruned(Merged(ports, configured), configured)
  }

  /**
   * What the synchronisation leaves: exactly the configured ports and the
   * active ones; ports already known keep their status and project, new ones
   * are inactive and belong to no project.
   */
  lemma SyncedContents(ports: map<int, Port>, configured: seq<int>, nr: int)
    ensures nr in Synced(ports, configured) <==> nr in configured || (nr in ports && ports[nr].status == "active")
    ensures nr in Synced(ports, configured) && nr in ports ==> Synced(ports, configured)[nr] == ports[nr]
    ensures nr in Synced(ports, configured) && nr !in ports ==> Synced(ports, configured)[nr] == Port("inactive", None)
  {}

  /** Synchronising twice with the same list is the same as once. */
  lemma SyncIdempotent(ports: map<int, Port>, configured: seq<int>)
    ensures Synced(Synced(ports, configured), configured) == Synced(ports, configured)
  {
    var once := Synced(ports, configured);
    var twice := Synced(once, configured);
    forall nr ensures nr in twice <==> nr in once {
      SyncedContents(ports, configured, nr);
      SyncedContents(once, configured, nr);
    }
    forall nr | nr in twice ensures twice[nr] == once[nr] {
      SyncedContents(once, configured, nr);
    }
  }

  /** The MERGE loop and the DETACH DELETE of the start-up script, on the main database. */
  method SyncPorts(db: Store, configured: seq<int>)
    modifies db
    ensures db.ports == Synced(old(db.ports), configured)
    ensures db.projects == old(db.projects) && db.tasks == old(db.tasks) && db.files == old(db.files)
    ensures db.nextId == old(db.nextId)
  {
    ghost var before := db.ports;
    for i := 0 to |configured|
      invariant db.ports == Merged(before, configured[..i])
      invariant db.projects == old(db.projects) && db.tasks == old(db.tasks) && db.files == old(db.files)
      invariant db.nextId == old(db.nextId)
    {
      var nr := configured[i];
      if nr !in db.ports {
        db.ports := db.ports[nr := Port("inactive", None)];
      }
      assert configured[..i + 1] == configured[..i] + [nr];
    }
    assert configured[..|configured|] == configured;
    db.ports := map nr | nr in db.ports && (nr in configured || db.ports[nr].status == "active") :: db.ports[nr];
  }

  /** How bringing the main database up ends. */
  datatype Startup = Running | Exit3

  /**
   * A status check; if it fails, a start and a second status check; either
   * of those failing ends the server with exit code 3.
   */
  function MainDbStartup(status: int, start: int, recheck: int): (r: Startup)
    ensures r == Running <==> status == 0 || (start == 0 && recheck == 0)
  {
    if status == 0 then Running
    else if start != 0 then Exit3
    else if recheck != 0 then Exit3
    else Running
  }
}
