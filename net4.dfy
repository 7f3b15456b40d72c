/**
 * `WhiteboardPeer` of net4.py: the variant that keeps `known_peers`,
 * dials the addresses a `peer_list` message advertises, removes a
 * connection when its `handle_client` ends, and relays only draw events
 * received from the network.
 *
 * As in the gui_network2.py model, sockets are `ConnId`s handed out from
 * `nextConn`, `failing` names the connections whose `sendall` raises during
 * one call, `root.after` callbacks wait in `pending`, started threads wait
 * in `dialThreads`, and every call that sends is recorded in `sent`.
 */
module Net4 {
  import opened Wire
  import Relay
  import Discovery

  /** A callback queued with `root.after(0, ...)`. */
  datatype Callback = NewCanvas | SetColor(color: string)

  /** `drawing` and the stroke's last point after one `draw`, and the segment it drew and broadcast. */
  datatype PenStep = PenStep(drawing: bool, prev: Option<Point>, emitted: Option<Segment>)

  /**
   * `draw` on one motion event. The first motion of a stroke only records
   * its point; each later one draws from the recorded point. The broadcast
   * event carries no user name.
   */
  function OnMotion(drawing: bool, prev: Option<Point>, at: Point): (r: PenStep)
    requires drawing ==> prev.Some?
    ensures r.drawing && r.prev == Some(at)
    ensures r.emitted.Some? <==> drawing
    ensures r.emitted.Some? ==> r.emitted.value == Segment(prev.value, at, None)
  {
    if !drawing then PenStep(true, Some(at), None)
    else PenStep(true, Some(at), Some(Segment(prev.value, at, None)))
  }

  /**
   * The segments a sequence of pointer events draws and broadcasts:
   * `<Button-1>` runs `locate_xy`, `<B1-Motion>` runs `draw` and
   * `<ButtonRelease-1>` runs `stop_draw`.
   */
  function Replay(drawing: bool, prev: Option<Point>, events: seq<PointerEvent>): (r: seq<Segment>)
    requires drawing ==> prev.Some?
    ensures |r| <= |events|
    ensures forall i :: 0 <= i < |r| ==> r[i].author == None && Motion(r[i].to) in events
    decreases |events|
  {
    if events == [] then []
    else match events[0]
      case Press(_) => Replay(drawing, prev, events[1..])
      case Release => Replay(false, prev, events[1..])
      case Motion(p) =>
        var step := OnMotion(drawing, prev, p);
        (if step.emitted.Some? then [step.emitted.value] else []) + Replay(step.drawing, step.prev, events[1..])
  }

  /** While a stroke is under way, each motion draws one segment starting where the last ended. */
  lemma {:induction false} StrokeChains(start: Point, pts: seq<Point>)
    ensures var segs := Replay(true, Some(start), Motions(pts));
            ChainsFrom(segs, start, pts) &&
            forall i :: 0 <= i < |segs| ==> segs[i].author == None
    decreases |pts|
  {
    if pts != [] {
      assert Motions(pts)[1..] == Motions(pts[1..]);
      StrokeChains(pts[0], pts[1..]);
      var rest := Replay(true, Some(pts[0]), Motions(pts[1..]));
      var segs := [Segment(start, pts[0], None)] + rest;
      assert Replay(true, Some(start), Motions(pts)) == segs;
      forall i | 0 < i < |segs| ensures segs[i].from == segs[i - 1].to {
        if i > 1 {
          assert segs[i] == rest[i - 1] && segs[i - 1] == rest[i - 2];
        }
      }
    }
  }

  /**
   * A stroke started after a release: its first motion draws nothing, and
   * the rest chain from that motion's point, whatever point was recorded
   * before.
   */
  lemma StrokeAfterRelease(drawing: bool, prev: Option<Point>, first: Point, pts: seq<Point>)
    requires drawing ==> prev.Some?
    ensures Replay(drawing, prev, [Release, Motion(first)] + Motions(pts)) == Replay(true, Some(first), Motions(pts))
    ensures ChainsFrom(Replay(drawing, prev, [Release, Motion(first)] + Motions(pts)), first, pts)
  {
    var ev := [Release, Motion(first)] + Motions(pts);
    assert ev[1..] == [Motion(first)] + Motions(pts);
    assert ev[1..][1..] == Motions(pts);
    StrokeChains(first, pts);
  }

  /** A press does not touch the stroke: `locate_xy` only records the press point. */
  lemma PressLeavesStroke(drawing: bool, prev: Option<Point>, at: Point, events: seq<PointerEvent>)
    requires drawing ==> prev.Some?
    ensures Replay(drawing, prev, [Press(at)] + events) == Replay(drawing, prev, events)
  {
    assert ([Press(at)] + events)[1..] == events;
  }

  /**
   * What `send_peer_list` advertises teaches a peer at `self` that starts
   * from nothing every address the sender knows except `self`, and makes it
   * dial each of them once.
   */
  lemma PeerListTeachesKnownPeers(known: set<Address>, self: Address, list: seq<Address>)
    requires Distinct(list) && forall a :: a in list <==> a in known
    ensures var m := Discovery.MergePeerList({}, self, list);
            m.known == known - {self} &&
            Distinct(m.dials) && forall a :: a in m.dials <==> a in known && a != self
  {
    Discovery.MergeAddsAdvertised({}, self, list);
    Discovery.MergeDialsEachNewAddressOnce({}, self, list);
  }

  class WhiteboardPeer {
    const host: string
    const port: int
    var connections: seq<ConnId>
    var nextConn: ConnId
    var closed: set<ConnId>
    var knownPeers: set<Address>
    var color: string
    var drawing: bool
    var prev: Option<Point>
    var current: Point
    var lines: seq<Line>
    var pending: seq<Callback>
    var dialThreads: seq<Address>
    var sent: seq<Outgoing>

    /**
     * Sockets are distinct objects; a socket leaves the list when its
     * `handle_client` closes it; `prev_x`/`prev_y` exist once a stroke has
     * begun.
     */
    ghost predicate Valid()
      reads this
    {
      && Distinct(connections)
      && (forall c :: c in connections ==> c < nextConn && c !in closed)
      && (forall c :: c in closed ==> c < nextConn)
      && (drawing ==> prev.Some?)
    }

    /** The pass `relay_message` would make now over `connections`. */
    function Pass(sender: Option<ConnId>, failing: set<ConnId>): (r: Relay.Outcome)
      reads this
    {
      Relay.Run(connections, 0, sender, failing)
    }

    /** The peer's own listening address, as compared in the `peer_list` branch. */
    function Self(): (a: Address)
      reads this
    {
      Address(host, port)
    }

    constructor (host: string, port: int)
      ensures Valid()
      ensures this.host == host && this.port == port
      ensures connections == [] && nextConn == 0 && closed == {} && knownPeers == {}
      ensures color == "black" && !drawing && prev == None && current == Point(0, 0)
      ensures lines == [] && pending == [] && dialThreads == [] && sent == []
    {
      this.host := host;
      this.port := port;
      connections := [];
      nextConn := 0;
      closed := {};
      knownPeers := {};
      color := "black";
      drawing := false;
      prev := None;
      current := Point(0, 0);
      lines := [];
      pending := [];
      dialThreads := [];
      sent := [];
    }

    /** One turn of `start_server`'s accept loop: the new socket is appended. */
    method Accept() returns (conn: ConnId)
      requires Valid()
      modifies this`connections, this`nextConn
      ensures Valid()
      ensures conn == old(nextConn) && conn !in old(connections)
      ensures connections == old(connections) + [conn] && nextConn == old(nextConn) + 1
    {
      conn := nextConn;
      DistinctAppend(connections, conn);
      nextConn := nextConn + 1;
      connections := connections + [conn];
    }

    /**
     * `connect_to_peer`: the socket is appended and the address becomes
     * known, with no check against the peer's own address; when
     * `create_connection` raises nothing changes.
     */
    method ConnectToPeer(peer: Address, reachable: bool) returns (conn: Option<ConnId>)
      requires Valid()
      modifies this`connections, this`nextConn, this`knownPeers
      ensures Valid()
      ensures reachable ==> conn.Some? && conn.value !in old(connections) &&
                            connections == old(connections) + [conn.value] && nextConn == old(nextConn) + 1 &&
                            knownPeers == old(knownPeers) + {peer}
      ensures !reachable ==> conn == None && connections == old(connections) && nextConn == old(nextConn) &&
                             knownPeers == old(knownPeers)
    {
      if reachable {
        var c := Accept();
        knownPeers := knownPeers + {peer};
        conn := Some(c);
      } else {
        conn := None;
      }
    }

    /** `handle_client` leaving its loop closes the socket and removes it if still listed. */
    method HandleClientExit(conn: ConnId)
      requires Valid() && conn < nextConn
      modifies this`closed, this`connections
      ensures Valid()
      ensures closed == old(closed) + {conn} && conn !in connections
      ensures conn in old(connections) ==> connections == Relay.RemoveFirst(old(connections), conn)
      ensures conn !in old(connections) ==> connections == old(connections)
    {
      if conn in connections {
        Remove(conn);
      }
      closed := closed + {conn};
    }

    /** `self.connections.remove(connection)`: the first occurrence leaves the list. */
    method Remove(conn: ConnId)
      requires Valid() && conn in connections
      modifies this`connections
      ensures Valid() && conn !in connections
      ensures connections == Relay.RemoveFirst(old(connections), conn)
    {
      connections := Relay.RemoveFirst(connections, conn);
    }

    /**
     * `relay_message`: the loop over the live list; a failed send removes
     * the connection if it is still listed, which it always is here.
     */
    method RelayMessage(msg: Message, sender: Option<ConnId>, failing: set<ConnId>)
      requires Valid()
      modifies this`connections, this`sent
      ensures Valid()
      ensures var r := old(Pass(sender, failing));
              connections == r.remaining && sent == old(sent) + [Outgoing(msg, r.attempted)]
    {
      ghost var total := Pass(sender, failing);
      ghost var rest := total;
      var targets: seq<ConnId> := [];
      var i := 0;
      while i < |connections|
        invariant Valid() && sent == old(sent)
        invariant rest == Relay.Run(connections, i, sender, failing)
        invariant rest.remaining == total.remaining && targets + rest.attempted == total.attempted
        decreases |connections| - i
      {
        var c := connections[i];
        Relay.RunVisit(connections, i, sender, failing);
        i := i + 1;
        if Some(c) != sender {
          if c in failing && c in connections {
            Remove(c);
          }
          ghost var next := Relay.Run(connections, i, sender, failing);
          assert rest.attempted == [c] + next.attempted;
          AppendShift(targets, c, next.attempted);
          targets := targets + [c];
          rest := next;
        } else {
          rest := Relay.Run(connections, i, sender, failing);
        }
      }
      assert targets + [] == targets;
      sent := sent + [Outgoing(msg, targets)];
    }

    /**
     * The `peer_list` loop of `process_message`: each new address other
     * than the peer's own becomes known and gets a dial thread.
     */
    method MergeAdvertised(peers: seq<Address>)
      modifies this`knownPeers, this`dialThreads
      ensures var m := Discovery.MergePeerList(old(knownPeers), Self(), peers);
              knownPeers == m.known && dialThreads == old(dialThreads) + m.dials
    {
      var i := 0;
      while i < |peers|
        invariant 0 <= i <= |peers|
        invariant var m := Discovery.MergePeerList(old(knownPeers), Self(), peers[..i]);
                  knownPeers == m.known && dialThreads == old(dialThreads) + m.dials
      {
        var p := peers[i];
        assert peers[..i + 1][..i] == peers[..i];
        if p !in knownPeers && p != Address(host, port) {
          knownPeers := knownPeers + {p};
          dialThreads := dialThreads + [p];
        }
        i := i + 1;
      }
      assert peers[..|peers|] == peers;
    }

    /**
     * `process_message`: a draw event is drawn at once in the current
     * colour and relayed to all but the sender; a clear or a colour change
     * is queued and NOT relayed; a peer list is merged; any other tag is
     * ignored.
     */
    method ProcessMessage(msg: Message, sender: ConnId, failing: set<ConnId>)
      requires Valid()
      modifies this`lines, this`pending, this`knownPeers, this`dialThreads, this`connections, this`sent
      ensures Valid()
      ensures msg.DrawEvent? ==>
                lines == old(lines) + [Line(msg.seg.from, msg.seg.to, color)] &&
                var r := old(Pass(Some(sender), failing));
                connections == r.remaining && sent == old(sent) + [Outgoing(msg, r.attempted)]
      ensures !msg.DrawEvent? ==> lines == old(lines) && connections == old(connections) && sent == old(sent)
      ensures msg.Clear? ==> pending == old(pending) + [Callback.NewCanvas]
      ensures msg.ColorChange? ==> pending == old(pending) + [SetColor(msg.color)]
      ensures !msg.Clear? && !msg.ColorChange? ==> pending == old(pending)
      ensures msg.PeerList? ==>
                var m := Discovery.MergePeerList(old(knownPeers), Self(), msg.peers);
                knownPeers == m.known && dialThreads == old(dialThreads) + m.dials
      ensures !msg.PeerList? ==> knownPeers == old(knownPeers) && dialThreads == old(dialThreads)
    {
      match msg {
        case DrawEvent(seg) =>
          lines := lines + [Line(seg.from, seg.to, color)];
          RelayMessage(msg, Some(sender), failing);
        case Clear =>
          pending := pending + [Callback.NewCanvas];
        case ColorChange(c) =>
          pending := pending + [SetColor(c)];
        case PeerList(peers) =>
          MergeAdvertised(peers);
        case Other(_) =>
      }
    }

    /** `send_event`: broadcast a draw event to every connection. */
    method SendEvent(seg: Segment, failing: set<ConnId>)
      requires Valid()
      modifies this`connections, this`sent
      ensures Valid()
      ensures var r := old(Pass(None, failing));
              connections == r.remaining && sent == old(sent) + [Outgoing(DrawEvent(seg), r.attempted)]
    {
      RelayMessage(DrawEvent(seg), None, failing);
    }

    /**
     * `send_peer_list`: one message listing every known address, each
     * once, in some order, handed to `conn` alone; a failed send is
     * swallowed. Nothing in net4.py calls it.
     */
    method SendPeerList(conn: ConnId, fails: bool) returns (msg: Message, delivered: bool)
      requires Valid()
      modifies this`sent
      ensures msg.PeerList? && Distinct(msg.peers) && forall a :: a in msg.peers <==> a in knownPeers
      ensures delivered <==> !fails && conn !in closed
      ensures sent == old(sent) + [Outgoing(msg, [conn])]
    {
      var rest := knownPeers;
      var list: seq<Address> := [];
      while rest != {}
        invariant rest <= knownPeers && Distinct(list) && sent == old(sent)
        invariant forall a :: a in list <==> a in knownPeers && a !in rest
        decreases |rest|
      {
        var a :| a in rest;
        DistinctAppend(list, a);
        list := list + [a];
        rest := rest - {a};
      }
      msg := PeerList(list);
      delivered := !fails && conn !in closed;
      sent := sent + [Outgoing(msg, [conn])];
    }

    /** `draw`: start a stroke, or draw from the recorded point and broadcast the segment. */
    method Draw(at: Point, failing: set<ConnId>) returns (seg: Option<Segment>)
      requires Valid()
      modifies this`drawing, this`prev, this`lines, this`connections, this`sent
      ensures Valid()
      ensures OnMotion(old(drawing), old(prev), at) == PenStep(drawing, prev, seg)
      ensures seg.None? ==> lines == old(lines) && connections == old(connections) && sent == old(sent)
      ensures seg.Some? ==>
                lines == old(lines) + [Line(seg.value.from, seg.value.to, color)] &&
                var r := old(Pass(None, failing));
                connections == r.remaining && sent == old(sent) + [Outgoing(DrawEvent(seg.value), r.attempted)]
    {
      if !drawing {
        drawing := true;
        prev := Some(at);
        seg := None;
        return;
      }
      var p := prev.value;
      lines := lines + [Line(p, at, color)];
      seg := Some(Segment(p, at, None));
      SendEvent(seg.value, failing);
      prev := Some(at);
    }

    /** `stop_draw`: the next motion starts a new stroke. */
    method StopDraw()
      modifies this`drawing
      ensures !drawing
    {
      drawing := false;
    }

    /** `locate_xy`: a press records its point in `current_x`/`current_y`, which nothing reads. */
    method LocateXY(at: Point)
      modifies this`current
      ensures current == at
    {
      current := at;
    }

    /** `show_color`: set the local colour and broadcast it to every connection. */
    method ShowColor(newColor: string, failing: set<ConnId>)
      requires Valid()
      modifies this`color, this`connections, this`sent
      ensures Valid()
      ensures color == newColor
      ensures var r := old(Pass(None, failing));
              connections == r.remaining && sent == old(sent) + [Outgoing(ColorChange(newColor), r.attempted)]
    {
      color := newColor;
      RelayMessage(ColorChange(newColor), None, failing);
    }

    /** `new_canvas`: empty the canvas and broadcast a clear to every connection. */
    method NewCanvas(failing: set<ConnId>)
      requires Valid()
      modifies this`lines, this`connections, this`sent
      ensures Valid()
      ensures lines == []
      ensures var r := old(Pass(None, failing));
              connections == r.remaining && sent == old(sent) + [Outgoing(Clear, r.attempted)]
    {
      lines := [];
      RelayMessage(Clear, None, failing);
    }

    /** Tk's main loop runs the oldest callback queued with `root.after`. */
    method RunCallback(failing: set<ConnId>)
      requires Valid() && pending != []
      modifies this`pending, this`lines, this`color, this`connections, this`sent
      ensures Valid()
      ensures pending == old(pending[1..])
      ensures old(pending[0]).NewCanvas? ==>
                lines == [] && color == old(color) &&
                var r := old(Pass(None, failing));
                connections == r.remaining && sent == old(sent) + [Outgoing(Clear, r.attempted)]
      ensures old(pending[0]).SetColor? ==>
                color == old(pending[0]).color && lines == old(lines) &&
                connections == old(connections) && sent == old(sent)
    {
      var cb := pending[0];
      pending := pending[1..];
      match cb {
        case NewCanvas => NewCanvas(failing);
        case SetColor(c) => color := c;
      }
    }

    /**
     * The `k`-th started dial thread runs `connect_to_peer` on the address
     * it was started for.
     */
    method RunDialThread(k: nat, reachable: bool) returns (conn: Option<ConnId>)
      requires Valid() && k < |dialThreads|
      modifies this`dialThreads, this`connections, this`nextConn, this`knownPeers
      ensures Valid()
      ensures dialThreads == old(dialThreads[..k] + dialThreads[k + 1..])
      ensures reachable ==> conn.Some? && conn.value !in old(connections) &&
                            connections == old(connections) + [conn.value] &&
                            nextConn == old(nextConn) + 1 && knownPeers == old(knownPeers) + {old(dialThreads[k])}
      ensures !reachable ==> conn == None && connections == old(connections) && nextConn == old(nextConn) &&
                             knownPeers == old(knownPeers)
    {
      var peer := dialThreads[k];
      dialThreads := dialThreads[..k] + dialThreads[k + 1..];
      conn := ConnectToPeer(peer, reachable);
    }
  }

  /**
   * A peer connected to `a` and `b` receives a clear from `a`: nothing is
   * relayed at once, and running the queued `new_canvas` sends a clear to
   * both, the originator included.
   */
  method ClearEchoesToOrigin() returns (before: seq<Outgoing>, after: seq<Outgoing>)
    ensures before == [] && after == [Outgoing(Clear, [0, 1])]
  {
    var peer := new WhiteboardPeer("127.0.0.1", 9000);
    var a := peer.Accept();
    var b := peer.Accept();
    assert peer.connections == [0, 1];
    peer.ProcessMessage(Clear, a, {});
    before := peer.sent;
    assert Relay.Run([0, 1], 0, None, {}) == Relay.Outcome([0, 1], [0, 1]);
    peer.RunCallback({});
    after := peer.sent;
  }

  /**
   * A peer at 127.0.0.1:9000 told of itself, of 9001 twice and of 9002
   * learns 9001 and 9002 and dials each once.
   */
  method PeerListSkipsSelfAndRepeats() returns (known: set<Address>, dials: seq<Address>)
    ensures known == {Address("127.0.0.1", 9001), Address("127.0.0.1", 9002)}
    ensures dials == [Address("127.0.0.1", 9001), Address("127.0.0.1", 9002)]
  {
    var peer := new WhiteboardPeer("127.0.0.1", 9000);
    var me, p1, p2 := Address("127.0.0.1", 9000), Address("127.0.0.1", 9001), Address("127.0.0.1", 9002);
    var list := [me, p1, p1, p2];
    assert list[..3] == [me, p1, p1] && list[..3][..2] == [me, p1] && [me, p1][..1] == [me] && [me][..0] == [];
    assert Discovery.MergePeerList({}, me, [me]) == Discovery.Merged({}, []);
    assert Discovery.MergePeerList({}, me, [me, p1]) == Discovery.Merged({p1}, [p1]);
    assert Discovery.MergePeerList({}, me, [me, p1, p1]) == Discovery.Merged({p1}, [p1]);
    assert Discovery.MergePeerList({}, me, list) == Discovery.Merged({p1, p2}, [p1, p2]);
    peer.ProcessMessage(PeerList(list), 0, {});
    known, dials := peer.knownPeers, peer.dialThreads;
  }
}
