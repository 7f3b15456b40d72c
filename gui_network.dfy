/**
 * `WhiteboardPeer` of gui_network2.py. Networks_project_3_1_25_2_39PM.py
 * has the same network logic line for line, so this one class models both.
 *
 * Each socket is a `ConnId` handed out from `nextConn`; `failing` names the
 * connections whose `sendall` raises during one call, and a socket that
 * `handle_client` has closed raises as well. Callbacks queued with
 * `root.after` wait in `pending` until `RunCallback` runs them; the thread
 * that `clear_canvas` starts for its broadcast waits in `broadcastThreads`.
 * Each call that sends records the message and the connections it was
 * handed to, in order, in `sent`.
 */
module GuiNetwork {
  import opened Wire
  import Relay

  /** A callback queued with `root.after(0, ...)`. */
  datatype Callback =
    | DrawFromNetwork(seg: Segment)
    | ClearCanvas(broadcast: bool)
    | SetColor(color: string)

  /** The stroke start after one `draw`, and the segment it drew and broadcast. */
  datatype StrokeStep = StrokeStep(prev: Option<Point>, emitted: Option<Segment>)

  /**
   * `draw` on one motion event. Before any `locate_xy` the attribute
   * `prev_x` does not exist, the handler raises at its first line and
   * nothing happens.
   */
  function OnMotion(prev: Option<Point>, at: Point, author: string): (r: StrokeStep)
    ensures r.emitted.Some? <==> prev.Some?
    ensures prev.None? ==> r.prev == None
    ensures prev.Some? ==> r.prev == Some(at) && r.emitted.value == Segment(prev.value, at, Some(author))
  {
    match prev
    case None => StrokeStep(None, None)
    case Some(p) => StrokeStep(Some(at), Some(Segment(p, at, Some(author))))
  }

  /**
   * The segments a sequence of pointer events draws and broadcasts:
   * `<Button-1>` runs `locate_xy`, `<B1-Motion>` runs `draw`, and no
   * handler is bound to a release.
   */
  function Replay(prev: Option<Point>, events: seq<PointerEvent>, author: string): (r: seq<Segment>)
    ensures |r| <= |events|
    ensures forall i :: 0 <= i < |r| ==> r[i].author == Some(author) && Motion(r[i].to) in events
    decreases |events|
  {
    if events == [] then []
    else match events[0]
      case Press(p) => Replay(Some(p), events[1..], author)
      case Release => Replay(prev, events[1..], author)
      case Motion(p) =>
        var step := OnMotion(prev, p, author);
        (if step.emitted.Some? then [step.emitted.value] else []) + Replay(step.prev, events[1..], author)
  }

  /** Dragging on from `start` draws one segment per motion, each starting where the last ended. */
  lemma {:induction false} DragChains(start: Point, pts: seq<Point>, author: string)
    ensures var segs := Replay(Some(start), Motions(pts), author);
            ChainsFrom(segs, start, pts) &&
            forall i :: 0 <= i < |segs| ==> segs[i].author == Some(author)
    decreases |pts|
  {
    if pts != [] {
      assert Motions(pts)[1..] == Motions(pts[1..]);
      DragChains(pts[0], pts[1..], author);
      var rest := Replay(Some(pts[0]), Motions(pts[1..]), author);
      var segs := [Segment(start, pts[0], Some(author))] + rest;
      assert Replay(Some(start), Motions(pts), author) == segs;
      forall i | 0 < i < |segs| ensures segs[i].from == segs[i - 1].to {
        if i > 1 {
          assert segs[i] == rest[i - 1] && segs[i - 1] == rest[i - 2];
        }
      }
    }
  }

  /** A press followed by a drag: the first segment starts at the press point. */
  lemma PressThenDrag(prev: Option<Point>, start: Point, pts: seq<Point>, author: string)
    ensures ChainsFrom(Replay(prev, [Press(start)] + Motions(pts), author), start, pts)
  {
    assert ([Press(start)] + Motions(pts))[1..] == Motions(pts);
    DragChains(start, pts, author);
  }

  /** Motion events before the first press draw nothing and send nothing. */
  lemma {:induction false} MotionBeforePressDrawsNothing(pts: seq<Point>, author: string)
    ensures Replay(None, Motions(pts), author) == []
    decreases |pts|
  {
    if pts != [] {
      assert Motions(pts)[1..] == Motions(pts[1..]);
      MotionBeforePressDrawsNothing(pts[1..], author);
    }
  }

  class WhiteboardPeer {
    const host: string
    const port: int
    const userName: string
    var connections: seq<ConnId>
    var nextConn: ConnId
    var closed: set<ConnId>
    var color: string
    var prev: Option<Point>
    var lines: seq<Line>
    var pending: seq<Callback>
    var broadcastThreads: seq<Message>
    var sent: seq<Outgoing>

    /** Sockets are distinct objects, so the list never holds one twice. */
    ghost predicate Valid()
      reads this
    {
      && Distinct(connections)
      && (forall c :: c in connections ==> c < nextConn)
      && (forall c :: c in closed ==> c < nextConn)
    }

    /** The pass `relay_message` would make now over `connections`. */
    function Pass(sender: Option<ConnId>, failing: set<ConnId>): (r: Relay.Outcome)
      reads this
    {
      Relay.Run(connections, 0, sender, failing + closed)
    }

    constructor (host: string, port: int, userName: string)
      ensures Valid()
      ensures this.host == host && this.port == port && this.userName == userName
      ensures connections == [] && nextConn == 0 && closed == {} && color == "black" && prev == None
      ensures lines == [] && pending == [] && broadcastThreads == [] && sent == []
    {
      this.host := host;
      this.port := port;
      this.userName := userName;
      connections := [];
      nextConn := 0;
      closed := {};
      color := "black";
      prev := None;
      lines := [];
      pending := [];
      broadcastThreads := [];
      sent := [];
    }

    /** One turn of `start_server`'s accept loop: the new socket is appended. */
    method Accept() returns (conn: ConnId)
      requires Valid()
      modifies this`connections, this`nextConn
      ensures Valid()
      ensures conn == old(nextConn) && conn !in old(connections)
      ensures connections == old(connections) + [conn] && nextConn == old(nextConn) + 1
    {
      conn := nextConn;
      DistinctAppend(connections, conn);
      nextConn := nextConn + 1;
      connections := connections + [conn];
    }

    /**
     * `connect_to_peer`: when `create_connection` raises, the thread dies
     * before anything is appended.
     */
    method ConnectToPeer(reachable: bool) returns (conn: Option<ConnId>)
      requires Valid()
      modifies this`connections, this`nextConn
      ensures Valid()
      ensures reachable ==> conn.Some? && conn.value !in old(connections) &&
                            connections == old(connections) + [conn.value] && nextConn == old(nextConn) + 1
      ensures !reachable ==> conn == None && connections == old(connections) && nextConn == old(nextConn)
    {
      if reachable {
        var c := Accept();
        conn := Some(c);
      } else {
        conn := None;
      }
    }

    /** `handle_client` leaving its loop closes the socket but leaves it listed. */
    method HandleClientExit(conn: ConnId)
      requires Valid() && conn < nextConn
      modifies this`closed
      ensures Valid()
      ensures closed == old(closed) + {conn} && connections == old(connections)
    {
      closed := closed + {conn};
    }

    /** `self.connections.remove(connection)`: the first occurrence leaves the list. */
    method Remove(conn: ConnId)
      requires Valid() && conn in connections
      modifies this`connections
      ensures Valid() && conn !in connections
      ensures connections == Relay.RemoveFirst(old(connections), conn)
    {
      connections := Relay.RemoveFirst(connections, conn);
    }

    /** `relay_message`: the loop over the live list, with `list.remove` on a failed send. */
    method RelayMessage(msg: Message, sender: Option<ConnId>, failing: set<ConnId>)
      requires Valid()
      modifies this`connections, this`sent
      ensures Valid()
      ensures var r := old(Pass(sender, failing));
              connections == r.remaining && sent == old(sent) + [Outgoing(msg, r.attempted)]
    {
      ghost var total := Pass(sender, failing);
      ghost var rest := total;
      var targets: seq<ConnId> := [];
      var i := 0;
      while i < |connections|
        invariant Valid() && sent == old(sent)
        invariant rest == Relay.Run(connections, i, sender, failing + closed)
        invariant rest.remaining == total.remaining && targets + rest.attempted == total.attempted
        decreases |connections| - i
      {
        var c := connections[i];
        Relay.RunVisit(connections, i, sender, failing + closed);
        i := i + 1;
        if Some(c) != sender {
          if c in failing || c in closed {
            Remove(c);
          }
          ghost var next := Relay.Run(connections, i, sender, failing + closed);
          assert rest.attempted == [c] + next.attempted;
          AppendShift(targets, c, next.attempted);
          targets := targets + [c];
          rest := next;
        } else {
          rest := Relay.Run(connections, i, sender, failing + closed);
        }
      }
      assert targets + [] == targets;
      sent := sent + [Outgoing(msg, targets)];
    }

    /** `process_message`: queue the tag's local effect, then relay the message, whatever its tag. */
    method ProcessMessage(msg: Message, sender: ConnId, failing: set<ConnId>)
      requires Valid()
      modifies this`pending, this`connections, this`sent
      ensures Valid()
      ensures msg.DrawEvent? ==> pending == old(pending) + [DrawFromNetwork(msg.seg)]
      ensures msg.Clear? ==> pending == old(pending) + [Callback.ClearCanvas(false)]
      ensures msg.ColorChange? ==> pending == old(pending) + [SetColor(msg.color)]
      ensures msg.PeerList? || msg.Other? ==> pending == old(pending)
      ensures var r := old(Pass(Some(sender), failing));
              connections == r.remaining && sent == old(sent) + [Outgoing(msg, r.attempted)]
    {
      match msg {
        case DrawEvent(seg) => pending := pending + [DrawFromNetwork(seg)];
        case Clear => pending := pending + [Callback.ClearCanvas(false)];
        case ColorChange(c) => pending := pending + [SetColor(c)];
        case PeerList(_) =>
        case Other(_) =>
      }
      RelayMessage(msg, Some(sender), failing);
    }

    /** `draw`: draw prev to the event point, broadcast it to all, advance prev. */
    method Draw(at: Point, failing: set<ConnId>) returns (seg: Option<Segment>)
      requires Valid()
      modifies this`prev, this`lines, this`connections, this`sent
      ensures Valid()
      ensures OnMotion(old(prev), at, userName) == StrokeStep(prev, seg)
      ensures seg.None? ==> lines == old(lines) && connections == old(connections) && sent == old(sent)
      ensures seg.Some? ==>
                lines == old(lines) + [Line(seg.value.from, seg.value.to, color)] &&
                var r := old(Pass(None, failing));
                connections == r.remaining && sent == old(sent) + [Outgoing(DrawEvent(seg.value), r.attempted)]
    {
      match prev
      case None =>
        seg := None;
      case Some(p) =>
        lines := lines + [Line(p, at, color)];
        seg := Some(Segment(p, at, Some(userName)));
        RelayMessage(DrawEvent(seg.value), None, failing);
        prev := Some(at);
    }

    /** `locate_xy`: a press sets the stroke start. */
    method LocateXY(at: Point)
      modifies this`prev
      ensures prev == Some(at)
    {
      prev := Some(at);
    }

    /** `change_color`: set the local colour and broadcast it to every connection. */
    method ChangeColor(newColor: string, failing: set<ConnId>)
      requires Valid()
      modifies this`color, this`connections, this`sent
      ensures Valid()
      ensures color == newColor
      ensures var r := old(Pass(None, failing));
              connections == r.remaining && sent == old(sent) + [Outgoing(ColorChange(newColor), r.attempted)]
    {
      color := newColor;
      RelayMessage(ColorChange(newColor), None, failing);
    }

    /** `clear_canvas`: empty the canvas; only when `broadcast` start a thread relaying a clear. */
    method ClearCanvas(broadcast: bool)
      modifies this`lines, this`broadcastThreads
      ensures lines == []
      ensures broadcastThreads == old(broadcastThreads) + (if broadcast then [Clear] else [])
    {
      lines := [];
      if broadcast {
        broadcastThreads := broadcastThreads + [Clear];
      }
    }

    /** Tk's main loop runs the oldest callback queued with `root.after`. */
    method RunCallback()
      requires Valid() && pending != []
      modifies this`pending, this`lines, this`color, this`broadcastThreads
      ensures Valid()
      ensures pending == old(pending[1..])
      ensures old(pending[0]).DrawFromNetwork? ==>
                var s := old(pending[0]).seg;
                lines == old(lines) + [Line(s.from, s.to, old(color))] &&
                color == old(color) && broadcastThreads == old(broadcastThreads)
      ensures old(pending[0]).ClearCanvas? ==>
                lines == [] && color == old(color) &&
                broadcastThreads == old(broadcastThreads) + (if old(pending[0]).broadcast then [Clear] else [])
      ensures old(pending[0]).SetColor? ==>
                color == old(pending[0]).color && lines == old(lines) && broadcastThreads == old(broadcastThreads)
    {
      var cb := pending[0];
      pending := pending[1..];
      match cb
      case DrawFromNetwork(s) => lines := lines + [Line(s.from, s.to, color)];
      case ClearCanvas(b) => ClearCanvas(b);
      case SetColor(c) => color := c;
    }

    /** The `k`-th started broadcast thread runs `relay_message(msg, None)`. */
    method RunBroadcastThread(k: nat, failing: set<ConnId>)
      requires Valid() && k < |broadcastThreads|
      modifies this`broadcastThreads, this`connections, this`sent
      ensures Valid()
      ensures broadcastThreads == old(broadcastThreads[..k] + broadcastThreads[k + 1..])
      ensures var r := old(Pass(None, failing));
              connections == r.remaining && sent == old(sent) + [Outgoing(old(broadcastThreads[k]), r.attempted)]
    {
      var msg := broadcastThreads[k];
      broadcastThreads := broadcastThreads[..k] + broadcastThreads[k + 1..];
      RelayMessage(msg, None, failing);
    }
  }

  /**
   * A peer connected to `a` and `b` receives a clear from `a`: it is sent
   * on to `b` only, and running the queued `clear_canvas(False)` empties
   * the canvas without a second broadcast.
   */
  method RemoteClearIsRelayedOnce() returns (sent: seq<Outgoing>, threads: seq<Message>)
    ensures sent == [Outgoing(Clear, [1])] && threads == []
  {
    var peer := new WhiteboardPeer("127.0.0.1", 9000, "alice");
    var a := peer.Accept();
    var b := peer.Accept();
    assert a == 0 && b == 1 && peer.connections == [0, 1] && peer.closed == {};
    assert Relay.Run([0, 1], 0, Some(0), {} + {}) == Relay.Outcome([0, 1], [1]);
    peer.ProcessMessage(Clear, a, {});
    peer.RunCallback();
    sent, threads := peer.sent, peer.broadcastThreads;
  }

  /**
   * Three connections, the first failing: a colour change reaches the
   * first (which is removed) and the third, never the second.
   */
  method FailedSendSkipsNext() returns (sent: seq<Outgoing>, left: seq<ConnId>)
    ensures sent == [Outgoing(ColorChange("red"), [0, 2])]
    ensures left == [1, 2]
  {
    var peer := new WhiteboardPeer("127.0.0.1", 9000, "alice");
    var a := peer.Accept();
    var b := peer.Accept();
    var c := peer.Accept();
    assert peer.connections == [0, 1, 2];
    assert Relay.RemoveFirst([0, 1, 2], 0) == [1, 2];
    assert Relay.Run([0, 1, 2], 0, None, {0}) == Relay.Outcome([1, 2], [0, 2]);
    peer.ChangeColor("red", {a});
    sent, left := peer.sent, peer.connections;
  }

  /**
   * A connection whose `handle_client` has ended stays listed until a
   * broadcast reaches it: the send to the closed socket raises, the pass
   * removes it, and the connection after it is skipped.
   */
  method ClosedConnectionLeavesOnNextSend() returns (sent: seq<Outgoing>, listedAfterExit: seq<ConnId>, left: seq<ConnId>)
    ensures listedAfterExit == [0, 1]
    ensures sent == [Outgoing(ColorChange("red"), [0])]
    ensures left == [1]
  {
    var peer := new WhiteboardPeer("127.0.0.1", 9000, "alice");
    var a := peer.Accept();
    var b := peer.Accept();
    peer.HandleClientExit(a);
    listedAfterExit := peer.connections;
    assert peer.connections == [0, 1] && peer.closed == {0};
    assert Relay.RemoveFirst([0, 1], 0) == [1];
    assert Relay.Run([0, 1], 0, None, {} + {0}) == Relay.Outcome([1], [0]);
    peer.ChangeColor("red", {});
    sent, left := peer.sent, peer.connections;
  }
}
