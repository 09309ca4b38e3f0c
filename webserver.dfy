/**
 * The websocket side of the firmware: the dispatch of received frames to the
 * data, JSON and discard paths, and the outgoing CLI text buffer that
 * multiPrintf fills and the sender task drains.
 *
 * Frame opcodes are those of section 5.2 of RFC 6455; a message split over
 * several frames carries the continuation opcode after its first frame
 * (section 5.4), and the server library keeps the first frame's opcode as
 * the message opcode.
 */
module WebServer {
  import opened Util

  type Opcode = x: int | 0 <= x < 16

  const WsContinuation: Opcode := 0
  const WsText: Opcode := 1
  const WsBinary: Opcode := 2

  /** Longest single-frame JSON text handed to the deserialiser. */
  const MaxJsonLength: nat := 250

  /** The fields of the library's frame info that the dispatch reads. */
  datatype FrameInfo = FrameInfo(messageOpcode: Opcode, opcode: Opcode, final: bool, index: nat, len: nat)

  /** What parseReceived does with one received chunk of `len` bytes. */
  datatype Action =
    | HandleData                    // incomingData
    | HandleJson                    // incomingJson
    | DiscardTooLong(length: nat)   // "DISCARDED INPUT: Too long (%u > 250).\n"
    | DiscardFragmentedText         // "DISCARDED INPUT: Multi-frame text data received.\n"
    | Ignore

  /** The chunk belongs to a binary message: its first frame, or a continuation of one. */
  predicate BinaryMessage(info: FrameInfo)
  {
    info.opcode == WsBinary || (info.opcode == WsContinuation && info.messageOpcode == WsBinary)
  }

  /** The chunk is a whole text message: one final frame, delivered in one piece. */
  predicate WholeText(info: FrameInfo, len: nat)
  {
    info.opcode == WsText && info.final && info.index == 0 && info.len == len
  }

  /** parseReceived. */
  function ParseReceived(info: FrameInfo, len: nat): (a: Action)
    ensures a == HandleData <==> BinaryMessage(info)
    ensures a == HandleJson <==> WholeText(info, len) && len <= MaxJsonLength
    ensures a.DiscardTooLong? <==> WholeText(info, len) && len > MaxJsonLength
    ensures a.DiscardTooLong? ==> a.length == len
    ensures a == DiscardFragmentedText <==>
      !BinaryMessage(info) && !WholeText(info, len) && info.messageOpcode == WsText
    ensures a == Ignore <==>
      !BinaryMessage(info) && !WholeText(info, len) && info.messageOpcode != WsText
  {
    if info.opcode == WsBinary || (info.opcode == WsContinuation && info.messageOpcode == WsBinary) then
      HandleData
    else if info.opcode == WsText && info.final && info.index == 0 && info.len == len then
      if len > 250 then DiscardTooLong(len) else HandleJson
    else if info.messageOpcode == WsText then
      DiscardFragmentedText
    else
      Ignore
  }

  // ------------------------------------------------------------ CLI output

  /** The capacity of the JSON document the sender copies wsOutString into. */
  const JsonDocSize: nat := 4096

  /**
   * A piece of wsOutString taken by the sender: sent to the client as the
   * message's data; too long for the JSON document, so the message carries no
   * data and the text is lost; or thrown away with no client connected.
   */
  datatype Chunk = Sent(text: string) | Overflowed(text: string) | Dropped(text: string)

  /** The sender's state: the buffered text and, as history, the pieces taken from it. */
  datatype Outbox = Outbox(text: string, chunks: seq<Chunk>)

  /**
   * The text fits the document: `room` is what the document's memory pool has
   * left after its two members, and the copy needs the text and its NUL.
   */
  predicate Fits(text: string, room: nat)
  {
    |text| < room
  }

  /** Everything the sender has taken, in order. */
  function Flatten(chunks: seq<Chunk>): string
  {
    if chunks == [] then [] else Flatten(chunks[..|chunks| - 1]) + chunks[|chunks| - 1].text
  }

  lemma {:induction false} FlattenAppend(a: seq<Chunk>, b: seq<Chunk>)
    ensures Flatten(a + b) == Flatten(a) + Flatten(b)
    decreases |b|
  {
    if b == [] {
      assert a + b == a;
    } else {
      assert (a + b)[..|a + b| - 1] == a + b[..|b| - 1];
      FlattenAppend(a, b[..|b| - 1]);
    }
  }

  /** The multiPrintf append to wsOutString. */
  function Printed(b: Outbox, s: string): (r: Outbox)
    ensures r.text == b.text + s && r.chunks == b.chunks
    ensures Flatten(r.chunks) + r.text == Flatten(b.chunks) + b.text + s
  {
    b.(text := b.text + s)
  }

  /**
   * One pass of wsSendCliLoop: with a client connected, a non-empty buffer is
   * sent as one message, whose data is the whole text if the text fits the
   * JSON document and is missing otherwise; without a client the buffer is
   * thrown away. Either way the buffer ends empty and the history records
   * exactly what was taken.
   */
  function Ticked(b: Outbox, connected: bool, room: nat): (r: Outbox)
    ensures r.text == []
    ensures Flatten(r.chunks) == Flatten(b.chunks) + b.text
    ensures connected && b.text != [] && Fits(b.text, room) ==> r.chunks == b.chunks + [Sent(b.text)]
    ensures connected && b.text != [] && !Fits(b.text, room) ==> r.chunks == b.chunks + [Overflowed(b.text)]
    ensures connected && b.text == [] ==> r.chunks == b.chunks
    ensures !connected ==> r.chunks == b.chunks + [Dropped(b.text)]
  {
    if !connected then
      FlattenAppend(b.chunks, [Dropped(b.text)]);
      b.(text := [], chunks := b.chunks + [Dropped(b.text)])
    else if b.text == [] then
      b
    else if |b.text| < room then
      FlattenAppend(b.chunks, [Sent(b.text)]);
      b.(text := [], chunks := b.chunks + [Sent(b.text)])
    else
      FlattenAppend(b.chunks, [Overflowed(b.text)]);
      b.(text := [], chunks := b.chunks + [Overflowed(b.text)])
  }

  /** What the producers and the sender task do to the buffer, one critical section at a time. */
  datatype Event = Print(s: string) | Tick(connected: bool)

  function Replay(b: Outbox, events: seq<Event>, room: nat): Outbox
  {
    if events == [] then b
    else
      var p := Replay(b, events[..|events| - 1], room);
      match events[|events| - 1]
      case Print(s) => Printed(p, s)
      case Tick(c) => Ticked(p, c, room)
  }

  /** The text the producers appended, in order. */
  function PrintedText(events: seq<Event>): string
  {
    if events == [] then []
    else PrintedText(events[..|events| - 1]) + (match events[|events| - 1] case Print(s) => s case Tick(_) => [])
  }

  /** The output is conserved: what was taken, followed by what is still buffered, is what was printed. */
  lemma {:induction false} ReplayConserves(b: Outbox, events: seq<Event>, room: nat)
    ensures var p := Replay(b, events, room);
      Flatten(p.chunks) + p.text == Flatten(b.chunks) + b.text + PrintedText(events)
      && b.chunks <= p.chunks
  {
    if events != [] {
      ReplayConserves(b, events[..|events| - 1], room);
    }
  }

  /**
   * While a client stays connected, nothing is thrown away: every piece taken
   * is a non-empty message sent to it, carrying its text if the text fits the
   * document and losing it only if it does not.
   */
  lemma {:induction false} ReplayConnected(b: Outbox, events: seq<Event>, room: nat)
    requires forall k :: 0 <= k < |events| ==> events[k] != Tick(false)
    ensures var p := Replay(b, events, room);
      b.chunks <= p.chunks &&
      forall i :: |b.chunks| <= i < |p.chunks| ==>
        p.chunks[i].text != [] &&
        ((p.chunks[i].Sent? && Fits(p.chunks[i].text, room)) ||
         (p.chunks[i].Overflowed? && !Fits(p.chunks[i].text, room)))
  {
    if events != [] {
      var init := events[..|events| - 1];
      ReplayConnected(b, init, room);
      var q := Replay(b, init, room);
      var p := Replay(b, events, room);
      match events[|events| - 1]
      case Print(s) =>
        assert p.chunks == q.chunks;
      case Tick(c) =>
        assert c;
        assert p.chunks == q.chunks || (q.text != [] && p.chunks == q.chunks + [if |q.text| < room then Sent(q.text) else Overflowed(q.text)]);
    }
  }

  /** The buffer never holds more than it started with plus what was printed. */
  lemma {:induction false} ReplayBuffered(b: Outbox, events: seq<Event>, room: nat)
    ensures |Replay(b, events, room).text| <= |b.text| + |PrintedText(events)|
  {
    if events != [] {
      ReplayBuffered(b, events[..|events| - 1], room);
    }
  }

  /**
   * While a client stays connected and the output never outgrows the JSON
   * document, every piece taken is delivered whole: nothing is lost.
   */
  lemma {:induction false} ReplayDelivered(b: Outbox, events: seq<Event>, room: nat)
    requires forall k :: 0 <= k < |events| ==> events[k] != Tick(false)
    requires |b.text| + |PrintedText(events)| < room
    ensures var p := Replay(b, events, room);
      b.chunks <= p.chunks &&
      forall i :: |b.chunks| <= i < |p.chunks| ==> p.chunks[i] == Sent(p.chunks[i].text)
  {
    if events != [] {
      var init := events[..|events| - 1];
      ReplayDelivered(b, init, room);
      ReplayBuffered(b, init, room);
      var q := Replay(b, init, room);
      var p := Replay(b, events, room);
      match events[|events| - 1]
      case Print(s) =>
        assert p.chunks == q.chunks;
      case Tick(c) =>
        assert c && |q.text| < room;
        assert p.chunks == q.chunks || p.chunks == q.chunks + [Sent(q.text)];
    }
  }

  /** wsOutString with the history of what the sender took from it. */
  class CliBuffer {
    var text: string
    ghost var chunks: seq<Chunk>

    ghost function View(): Outbox
      reads this
    {
      Outbox(text, chunks)
    }

    constructor ()
      ensures View() == Outbox([], [])
    {
      text := [];
      chunks := [];
    }

    /** wsOutString.append(buffer). */
    method Append(s: string)
      modifies this
      ensures View() == Printed(old(View()), s)
    {
      text := text + s;
    }

    /**
     * One drain step of wsSendCliLoop. Returns whether a message was sent and
     * the text its "data" field carries (none when the text did not fit).
     */
    method SendStep(connected: bool, room: nat) returns (sent: bool, data: Option<string>)
      modifies this
      ensures View() == Ticked(old(View()), connected, room)
      ensures sent == (connected && old(text) != [])
      ensures data == (if sent && Fits(old(text), room) then Some(old(text)) else None)
    {
      if connected {
        if text == [] {
          return false, None;
        }
        sent := true;
        if |text| < room {
          data := Some(text);
          chunks := chunks + [Sent(text)];
        } else {
          data := None;
          chunks := chunks + [Overflowed(text)];
        }
        text := [];
      } else {
        chunks := chunks + [Dropped(text)];
        text := [];
        sent, data := false, None;
      }
    }
  }
}
