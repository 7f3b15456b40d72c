/**
 * Values exchanged by whiteboard peers.
 *
 * A socket object becomes an opaque connection id; a pickled message
 * dictionary becomes a `Message`, one variant per value of its "type" key.
 */
module Wire {

  datatype Option<+T> = None | Some(value: T)

  /** Identity of one socket in a peer's `connections` list. */
  type ConnId = nat

  /** A `(host, port)` pair as kept in `known_peers`. */
  datatype Address = Address(host: string, port: int)

  datatype Point = Point(x: int, y: int)

  /**
   * The "data" of a draw_event: prev_x/prev_y, x/y and, in the two
   * variants that send it, user_name.
   */
  datatype Segment = Segment(from: Point, to: Point, author: Option<string>)

  /**
   * A wire message by its "type" tag; `Other` stands for any tag the peer
   * does not recognise.
   */
  datatype Message =
    | DrawEvent(seg: Segment)
    | Clear
    | ColorChange(color: string)
    | PeerList(peers: seq<Address>)
    | Other(tag: string)

  /**
   * A pointer event on the canvas: `<Button-1>`, `<B1-Motion>` and
   * `<ButtonRelease-1>`.
   */
  datatype PointerEvent = Press(at: Point) | Motion(at: Point) | Release

  /** A drag through `pts`: one motion event per point. */
  function Motions(pts: seq<Point>): (r: seq<PointerEvent>)
    ensures |r| == |pts| && forall i :: 0 <= i < |pts| ==> r[i] == Motion(pts[i])
  {
    seq(|pts|, i requires 0 <= i < |pts| => Motion(pts[i]))
  }

  /** One `create_line` on the canvas, in the colour the peer had when drawing it. */
  datatype Line = Line(from: Point, to: Point, color: string)

  /** One message handed to `sendall` on each of `to`, in that order. */
  datatype Outgoing = Outgoing(msg: Message, to: seq<ConnId>)

  predicate Distinct<T(==)>(s: seq<T>) {
    forall i, j :: 0 <= i < j < |s| ==> s[i] != s[j]
  }

  lemma DistinctAppend<T>(s: seq<T>, x: T)
    requires Distinct(s) && x !in s
    ensures Distinct(s + [x])
  {
    assert forall i :: 0 <= i < |s| ==> (s + [x])[i] == s[i];
  }

  lemma AppendShift<T>(a: seq<T>, x: T, b: seq<T>)
    ensures a + ([x] + b) == (a + [x]) + b
  {
  }

  lemma ConsTail<T>(s: seq<T>)
    requires s != []
    ensures [s[0]] + s[1..] == s
  {
  }

  lemma TailOfCons<T>(x: T, s: seq<T>)
    ensures ([x] + s)[1..] == s
  {
  }

  /**
   * The segments of one drag stroke that starts at `start` and passes
   * through `pts`: each segment ends at its point and starts where the
   * previous one ended.
   */
  ghost predicate ChainsFrom(segs: seq<Segment>, start: Point, pts: seq<Point>) {
    && |segs| == |pts|
    && (forall i :: 0 <= i < |segs| ==> segs[i].to == pts[i])
    && (|segs| > 0 ==> segs[0].from == start)
    && (forall i :: 0 < i < |segs| ==> segs[i].from == segs[i - 1].to)
  }
}
