/**
 * The length-prefixed framing every socket of the system speaks: a frame
 * is `str(len(payload)) + "|" + payload`. The sender writes it whole; the
 * receiver reads the header one character at a time up to the first `|`,
 * converts it with `int()`, then reads the body in `recv` calls of at most
 * 1024 characters.
 *
 * A connection is modelled by value: `stream` is everything the peer sends
 * before it closes, and `grants[k]` bounds how many characters the k-th
 * body `recv` hands over (TCP may deliver less than asked for, but at least
 * one character while data remains; once the grants run out every `recv`
 * gets what it asks for). Characters stand for bytes, so payloads are taken
 * to be ASCII.
 */
module Framing {
  import opened Wrappers
  import opened Strings
  import Seqs

  /** Largest number of characters one body `recv` asks for. */
  const RecvLimit := 1024
  /** Size of the pieces the AHGraR gateway writes back to the user. */
  const UserChunk := 512

  /** The frame every `send_data` writes: the payload's length, a bar, the payload. */
  function Encode(payload: string): string
  {
    NatToString(|payload|) + "|" + payload
  }

  /** How one receive loop ends. */
  datatype Received =
    | Message(text: string)  // the loop returns this text
    | Stalled                // the loop never ends: the stream closed before the frame was complete
    | BadHeader              // `int(header)` raises ValueError
    | Closed                 // the Daisychain client met the end of stream in the header and returned None

  function Min(a: int, b: int): int { if a <= b then a else b }

  /** The number of characters `recv(requested)` returns at `pos`, when the network grants `grant`. */
  function Delivered(stream: string, pos: nat, requested: nat, grant: nat): (got: nat)
    requires pos <= |stream|
    ensures got <= requested && pos + got <= |stream|
    ensures requested > 0 && pos < |stream| ==> got > 0
  {
    Min(Min(requested, |stream| - pos), if grant == 0 then 1 else grant)
  }

  /** The grant of the k-th body `recv`; past the end of `grants` every call gets what it asks for. */
  function GrantAt(grants: seq<nat>, k: nat, requested: nat): nat
  {
    if k < |grants| then grants[k] else requested
  }

  /** What follows the header that ends at index `bar`: the parsed length picks the body. */
  function Body(stream: string, bar: nat): Received
    requires bar < |stream|
  {
    match ParseInt(stream[..bar])
    case None => BadHeader
    case Some(n) =>
      if n <= 0 then Message("")
      else if bar + 1 + n <= |stream| then Message(stream[bar + 1..bar + 1 + n])
      else Stalled
  }

  /**
   * The result of the `receive_data` loop of the servers, the command-line
   * client and the admin client, whatever sizes the body `recv` calls return.
   */
  function ServerDecode(stream: string): Received
  {
    match FirstIndex(stream, '|')
    case None => Stalled
    case Some(bar) => Body(stream, bar)
  }

  /** The Daisychain client's loop: like the server's, but end of stream in the header gives None. */
  function ClientDecode(stream: string): Received
  {
    match FirstIndex(stream, '|')
    case None => Closed
    case Some(bar) => Body(stream, bar)
  }

  /** Reads the header one character at a time; `None` when the stream ends first. */
  method ReceiveHeader(stream: string) returns (bar: Option<nat>)
    ensures bar == FirstIndex(stream, '|')
  {
    var header := "";
    var pos := 0;
    while true
      invariant pos <= |stream|
      invariant header == stream[..pos]
      invariant '|' !in header
      decreases |stream| - pos
    {
      if pos == |stream| {
        return None;
      }
      var incoming := stream[pos..pos + 1];
      if incoming == "|" {
        FirstIndexAt(stream, '|', pos);
        return Some(pos);
      }
      header := header + incoming;
      pos := pos + 1;
    }
  }

  /** The body loop that subtracts what each `recv` actually returned. */
  method ReceiveBody(stream: string, bar: nat, grants: seq<nat>) returns (r: Received)
    requires bar < |stream|
    ensures r == Body(stream, bar)
  {
    var parsed := ParseInt(stream[..bar]);
    if parsed.None? {
      return BadHeader;
    }
    var msgLength := parsed.value;
    var msg := "";
    var start := bar + 1;
    var pos := start;
    var k := 0;
    while msgLength > 0
      invariant start <= pos <= |stream|
      invariant msg == stream[start..pos]
      invariant pos == start + |msg|
      invariant msgLength == parsed.value - |msg|
      invariant parsed.value <= 0 ==> msg == ""
      invariant parsed.value > 0 ==> msgLength >= 0
      decreases msgLength
    {
      var rcvLength := if msgLength >= RecvLimit then RecvLimit else msgLength;
      var got := Delivered(stream, pos, rcvLength, GrantAt(grants, k, rcvLength));
      var chunk := stream[pos..pos + got];
      if chunk == "" {
        // recv keeps returning "" and msg_length never reaches 0
        return Stalled;
      }
      msg := msg + chunk;
      msgLength := msgLength - |chunk|;
      pos := pos + got;
      k := k + 1;
    }
    assert ParseInt(stream[..bar]) == parsed;
    if parsed.value > 0 {
      assert |msg| == parsed.value;
      assert bar + 1 + parsed.value <= |stream|;
      assert msg == stream[bar + 1..bar + 1 + parsed.value];
    } else {
      assert msg == "";
    }
    return Message(msg);
  }

  /** `receive_data` of the servers and of both command-line clients. */
  method ReceiveData(stream: string, grants: seq<nat>) returns (r: Received)
    ensures r == ServerDecode(stream)
  {
    var bar := ReceiveHeader(stream);
    if bar.None? {
      // recv(1) keeps returning "" and the header never ends
      return Stalled;
    }
    r := ReceiveBody(stream, bar.value, grants);
  }

  /** `receive_data` of the Daisychain websocket client. */
  method ClientReceive(stream: string, grants: seq<nat>) returns (r: Received)
    ensures r == ClientDecode(stream)
  {
    var bar := ReceiveHeader(stream);
    if bar.None? {
      return Closed;
    }
    r := ReceiveBody(stream, bar.value, grants);
  }

  lemma FirstBarAfterDigits(h: string, tail: string)
    requires '|' !in h
    ensures FirstIndex(h + "|" + tail, '|') == Some(|h|)
  {
    var s := h + "|" + tail;
    assert s[..|h|] == h;
    FirstIndexAt(s, '|', |h|);
  }

  /**
   * A frame comes back as the payload it carries, whatever follows it, and
   * a `|` inside the payload is never taken for the header's end.
   */
  lemma RoundTrip(payload: string, rest: string)
    requires IsAscii(payload)
    ensures ServerDecode(Encode(payload) + rest) == Message(payload)
    ensures ClientDecode(Encode(payload) + rest) == Message(payload)
  {
    var h := NatToString(|payload|);
    var s := Encode(payload) + rest;
    assert s == h + "|" + (payload + rest);
    assert '|' !in h by {
      forall i | 0 <= i < |h| ensures h[i] != '|' { assert IsDigit(h[i]); }
    }
    FirstBarAfterDigits(h, payload + rest);
    assert s[..|h|] == h;
    assert s[|h| + 1..|h| + 1 + |payload|] == payload;
  }

  /** A header that parses to zero or less yields an empty message without reading further. */
  lemma NonPositiveHeader(h: string, tail: string)
    requires '|' !in h
    requires ParseInt(h).Some? && ParseInt(h).value <= 0
    ensures ServerDecode(h + "|" + tail) == Message("")
  {
    FirstBarAfterDigits(h, tail);
    assert (h + "|" + tail)[..|h|] == h;
  }

  // ---- The AHGraR gateway ----

  /**
   * Where the gateway's body loop stops reading: it subtracts the size it
   * ASKED for, so a short `recv` leaves characters unread and the loop ends
   * early.
   */
  function GatewayEnd(stream: string, pos: nat, remaining: int, grants: seq<nat>, k: nat): (end: nat)
    requires pos <= |stream|
    ensures pos <= end <= |stream|
    decreases remaining
  {
    if remaining <= 0 then pos
    else
      var requested := if remaining >= RecvLimit then RecvLimit else remaining;
      var got := Delivered(stream, pos, requested, GrantAt(grants, k, requested));
      GatewayEnd(stream, pos + got, remaining - requested, grants, k + 1)
  }

  /**
   * The gateway's message: the chunks it received, one after the other,
   * which are the characters from `pos` up to where the loop stops.
   */
  function GatewayBody(stream: string, pos: nat, remaining: int, grants: seq<nat>, k: nat): string
    requires pos <= |stream|
  {
    stream[pos..GatewayEnd(stream, pos, remaining, grants, k)]
  }

  /** Whatever the grants, the gateway never reads more than the header announced. */
  lemma {:induction false} GatewayBodyAtMost(stream: string, pos: nat, remaining: int, grants: seq<nat>, k: nat)
    requires pos <= |stream|
    ensures GatewayEnd(stream, pos, remaining, grants, k) - pos <= (if remaining > 0 then remaining else 0)
    ensures |GatewayBody(stream, pos, remaining, grants, k)| <= (if remaining > 0 then remaining else 0)
    decreases remaining
  {
    if remaining > 0 {
      var requested := if remaining >= RecvLimit then RecvLimit else remaining;
      var got := Delivered(stream, pos, requested, GrantAt(grants, k, requested));
      GatewayBodyAtMost(stream, pos + got, remaining - requested, grants, k + 1);
    }
  }

  function GatewayDecode(stream: string, grants: seq<nat>): Received
  {
    match FirstIndex(stream, '|')
    case None => Stalled
    case Some(bar) =>
      match ParseInt(stream[..bar])
      case None => BadHeader
      case Some(n) => Message(GatewayBody(stream, bar + 1, n, grants, 0))
  }

  /** The gateway's body loop, as written. */
  method GatewayReadBody(stream: string, start: nat, length: int, grants: seq<nat>) returns (msg: string)
    requires start <= |stream|
    ensures msg == GatewayBody(stream, start, length, grants, 0)
  {
    var msgLength := length;
    msg := "";
    var pos: nat := start;
    var k: nat := 0;
    while msgLength > 0
      invariant start <= pos <= |stream|
      invariant msg == stream[start..pos]
      invariant GatewayEnd(stream, pos, msgLength, grants, k) == GatewayEnd(stream, start, length, grants, 0)
      decreases msgLength
    {
      var rcvLength := if msgLength >= RecvLimit then RecvLimit else msgLength;
      var got := Delivered(stream, pos, rcvLength, GrantAt(grants, k, rcvLength));
      Seqs.SliceJoin(stream, start, pos, pos + got);
      msgLength := msgLength - rcvLength;
      msg := msg + stream[pos..pos + got];
      pos := pos + got;
      k := k + 1;
    }
  }

  /** `receive_data_user` and `receive_data_server` of the gateway, as written. */
  method GatewayReceive(stream: string, grants: seq<nat>) returns (r: Received)
    ensures r == GatewayDecode(stream, grants)
  {
    var bar := ReceiveHeader(stream);
    if bar.None? {
      return Stalled;
    }
    var parsed := ParseInt(stream[..bar.value]);
    if parsed.None? {
      return BadHeader;
    }
    var msg := GatewayReadBody(stream, bar.value + 1, parsed.value, grants);
    r := Message(msg);
  }

  /** With every `recv` granted in full, the gateway reads exactly what the servers read. */
  lemma {:induction false} GatewayEndFull(stream: string, pos: nat, remaining: int, grants: seq<nat>, k: nat)
    requires pos <= |stream|
    requires forall j :: 0 <= j < |grants| ==> grants[j] >= RecvLimit
    requires remaining > 0 ==> pos + remaining <= |stream|
    ensures GatewayEnd(stream, pos, remaining, grants, k) == if remaining > 0 then pos + remaining else pos
    decreases remaining
  {
    if remaining > 0 {
      var requested := if remaining >= RecvLimit then RecvLimit else remaining;
      var got := Delivered(stream, pos, requested, GrantAt(grants, k, requested));
      assert got == requested;
      GatewayEndFull(stream, pos + got, remaining - requested, grants, k + 1);
    }
  }

  lemma GatewayAgreesOnFullReads(stream: string, grants: seq<nat>)
    requires forall j :: 0 <= j < |grants| ==> grants[j] >= RecvLimit
    requires ServerDecode(stream) != Stalled
    ensures GatewayDecode(stream, grants) == ServerDecode(stream)
  {
    match FirstIndex(stream, '|')
    case Some(bar) =>
      match ParseInt(stream[..bar])
      case None =>
      case Some(n) =>
        if n > 0 {
          assert bar + 1 + n <= |stream|;
        }
        GatewayEndFull(stream, bar + 1, n, grants, 0);
  }

  /** One short `recv` and the gateway drops the rest of the body; the servers' loop does not. */
  lemma GatewayShortReadLosesData()
    ensures ServerDecode("3|abc") == Message("abc")
    ensures GatewayDecode("3|abc", [1]) == Message("a")
  {
    var s := "3|abc";
    assert FirstIndex(s, '|') == Some(1) by { FirstBarAfterDigits("3", "abc"); }
    assert s[..1] == "3";
    assert ParseInt("3") == Some(3) by { assert IsDigits("3"); }
    assert s[2..5] == "abc";
    assert GatewayEnd(s, 2, 3, [1], 0) == 3 by {
      assert Delivered(s, 2, 3, 1) == 1;
    }
    assert s[2..3] == "a";
  }

  /** One more piece, whole or the last short one, is one more in the count of pieces. */
  lemma ChunkCount(i: nat, end: nat)
    requires i % UserChunk == 0 && i < end <= i + UserChunk
    ensures (end + UserChunk - 1) / UserChunk == (i + UserChunk - 1) / UserChunk + 1
  {
    var q := i / UserChunk;
    assert i == q * UserChunk;
    assert (i + UserChunk - 1) / UserChunk == q;
    assert (end + UserChunk - 1) / UserChunk == q + 1;
  }

  /** `send_data_user`: the header, then the payload in pieces of at most 512 characters. */
  method SendDataUser(reply: string) returns (writes: seq<string>)
    ensures |writes| >= 1 && writes[0] == NatToString(|reply|) + "|"
    ensures Concat(writes) == Encode(reply)
    ensures |writes| - 1 == (|reply| + UserChunk - 1) / UserChunk
    ensures forall j :: 1 <= j < |writes| ==> 0 < |writes[j]| <= UserChunk
  {
    var header := NatToString(|reply|) + "|";
    writes := [header];
    var i := 0;
    while i < |reply|
      invariant 0 <= i <= |reply|
      invariant i % UserChunk == 0 || i == |reply|
      invariant |writes| >= 1 && writes[0] == header
      invariant Concat(writes) == header + reply[..i]
      invariant |writes| - 1 == (i + UserChunk - 1) / UserChunk
      invariant forall j :: 1 <= j < |writes| ==> 0 < |writes[j]| <= UserChunk
    {
      var end := if i + UserChunk <= |reply| then i + UserChunk else |reply|;
      ConcatAppend(writes, reply[i..end]);
      Seqs.AppendAssoc(header, reply[..i], reply[i..end]);
      Seqs.PrefixJoin(reply, i, end);
      ChunkCount(i, end);
      writes := writes + [reply[i..end]];
      i := end;
    }
    assert reply[..i] == reply;
  }

  /**
   * The gateway's `handle`: decode the user's request with the gateway's
   * own receive loop, forward it framed to the server, decode the server's
   * reply the same way and write it back to the user in pieces. Nothing is
   * forwarded when a header does not parse or never ends.
   */
  method GatewayHandle(userStream: string, userGrants: seq<nat>, serverStream: string, serverGrants: seq<nat>)
    returns (toServer: Option<string>, toUser: seq<string>)
    ensures GatewayDecode(userStream, userGrants).Message? ==>
              toServer == Some(Encode(GatewayDecode(userStream, userGrants).text))
    ensures !GatewayDecode(userStream, userGrants).Message? ==> toServer == None && toUser == []
    ensures GatewayDecode(userStream, userGrants).Message? && GatewayDecode(serverStream, serverGrants).Message? ==>
              Concat(toUser) == Encode(GatewayDecode(serverStream, serverGrants).text)
    ensures !GatewayDecode(serverStream, serverGrants).Message? ==> toUser == []
  {
    toUser := [];
    var request := GatewayReceive(userStream, userGrants);
    if !request.Message? {
      return None, [];
    }
    toServer := Some(Encode(request.text));
    var reply := GatewayReceive(serverStream, serverGrants);
    if reply.Message? {
      toUser := SendDataUser(reply.text);
    }
  }

  /**
   * When every `recv` hands over what it asks for, the gateway is a pure
   * pass-through: the server gets the user's frame unchanged and the user
   * gets the server's frame unchanged.
   */
  lemma GatewayPassesThrough(userPayload: string, userRest: string, userGrants: seq<nat>,
                             serverPayload: string, serverRest: string, serverGrants: seq<nat>)
    requires IsAscii(userPayload) && IsAscii(serverPayload)
    requires forall j :: 0 <= j < |userGrants| ==> userGrants[j] >= RecvLimit
    requires forall j :: 0 <= j < |serverGrants| ==> serverGrants[j] >= RecvLimit
    ensures GatewayDecode(Encode(userPayload) + userRest, userGrants) == Message(userPayload)
    ensures GatewayDecode(Encode(serverPayload) + serverRest, serverGrants) == Message(serverPayload)
  {
    RoundTrip(userPayload, userRest);
    GatewayAgreesOnFullReads(Encode(userPayload) + userRest, userGrants);
    RoundTrip(serverPayload, serverRest);
    GatewayAgreesOnFullReads(Encode(serverPayload) + serverRest, serverGrants);
  }

  /**
   * The Daisychain client's `handle`: the browser's request goes to the
   * server framed, and whatever the receive loop returns goes back to the
   * browser unchanged.
   */
  method ClientHandle(webRequest: string, replyStream: string, grants: seq<nat>)
    returns (toServer: string, toBrowser: Received)
    ensures toServer == Encode(webRequest)
    ensures toBrowser == ClientDecode(replyStream)
    ensures ClientDecode(replyStream) == ServerDecode(replyStream) || toBrowser == Closed
  {
    toServer := Encode(webRequest);
    toBrowser := ClientReceive(replyStream, grants);
  }
}
