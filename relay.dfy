/**
 * `relay_message`: a Python `for` loop over the peer's own `connections`
 * list that skips the sender and calls `list.remove` on every connection
 * whose `sendall` raised.
 *
 * Python's list iterator walks an index over the live list, so removing
 * the element just visited shifts its successor into the visited slot and
 * that successor is never visited in this pass. `Run` follows the loop
 * step by step; `Marks` describes the same pass element by element of the
 * original list, and `RunFollowsMarks` proves the two agree.
 */
module Relay {
  import opened Wire

  /** Python's `list.remove(x)`: drops the first element equal to `x`. */
  function RemoveFirst(s: seq<ConnId>, x: ConnId): (r: seq<ConnId>)
    requires x in s
    ensures |r| == |s| - 1
    ensures forall y :: y in r ==> y in s
    ensures Distinct(s) ==> Distinct(r) && x !in r
  {
    if s[0] == x then
      assert forall y :: y in s[1..] ==> y in s;
      s[1..]
    else
      var rest := RemoveFirst(s[1..], x);
      assert Distinct(s) ==> s[0] !in s[1..] && Distinct(s[1..]);
      [s[0]] + rest
  }

  lemma {:induction false} RemoveFirstSplit(p: seq<ConnId>, x: ConnId, q: seq<ConnId>)
    requires x !in p
    ensures RemoveFirst(p + [x] + q, x) == p + q
    decreases |p|
  {
    if p != [] {
      assert (p + [x] + q)[1..] == p[1..] + [x] + q;
      RemoveFirstSplit(p[1..], x, q);
    }
  }

  /** The list after the pass, and the connections a send was attempted on, in order. */
  datatype Outcome = Outcome(remaining: seq<ConnId>, attempted: seq<ConnId>)

  /**
   * The loop from iterator index `i` on: `conns` is the list as it stands,
   * `sender` is `None` for a locally originated message, and `failing` holds
   * the connections whose `sendall` raises.
   */
  function Run(conns: seq<ConnId>, i: nat, sender: Option<ConnId>, failing: set<ConnId>): (r: Outcome)
    ensures sender.Some? ==> sender.value !in r.attempted
    ensures forall c :: c in r.remaining ==> c in conns
    ensures forall c :: c in r.attempted ==> c in conns
    decreases |conns| - i
  {
    if i >= |conns| then Outcome(conns, [])
    else
      var c := conns[i];
      if sender == Some(c) then Run(conns, i + 1, sender, failing)
      else if c in failing then
        var rest := Run(RemoveFirst(conns, c), i + 1, sender, failing);
        Outcome(rest.remaining, [c] + rest.attempted)
      else
        var rest := Run(conns, i + 1, sender, failing);
        Outcome(rest.remaining, [c] + rest.attempted)
  }

  /** One iteration of the loop at index `i`, as the loop body performs it. */
  lemma RunVisit(conns: seq<ConnId>, i: nat, sender: Option<ConnId>, failing: set<ConnId>)
    requires i < |conns|
    ensures var c := conns[i];
            var next := if sender != Some(c) && c in failing then RemoveFirst(conns, c) else conns;
            var r := Run(next, i + 1, sender, failing);
            Run(conns, i, sender, failing) ==
              Outcome(r.remaining, (if sender == Some(c) then [] else [c]) + r.attempted)
  {
  }

  /** What one pass does to one element of the list it started from. */
  datatype Mark =
    | Excluded  // the sender: not sent to, kept
    | Sent      // sent to successfully, kept
    | Dropped   // sent to, the send raised, removed
    | Skipped   // shifted into the slot of a dropped one: never visited, kept

  function Marks(s: seq<ConnId>, sender: Option<ConnId>, failing: set<ConnId>): (m: seq<Mark>)
    ensures |m| == |s|
    decreases |s|
  {
    if s == [] then []
    else if sender == Some(s[0]) then [Excluded] + Marks(s[1..], sender, failing)
    else if s[0] in failing then
      [Dropped] + (if |s| == 1 then [] else [Skipped] + Marks(s[2..], sender, failing))
    else [Sent] + Marks(s[1..], sender, failing)
  }

  /** The elements of `s` whose mark is not `Dropped`, in order. */
  function Kept(s: seq<ConnId>, m: seq<Mark>): (r: seq<ConnId>)
    requires |m| == |s|
    ensures |r| <= |s|
    ensures forall x :: x in r ==> x in s
  {
    if s == [] then []
    else (if m[0] == Dropped then [] else [s[0]]) + Kept(s[1..], m[1..])
  }

  /** The elements of `s` marked `Sent` or `Dropped`, in order. */
  function Targeted(s: seq<ConnId>, m: seq<Mark>): (r: seq<ConnId>)
    requires |m| == |s|
    ensures |r| <= |s|
    ensures forall x :: x in r ==> x in s
  {
    if s == [] then []
    else (if m[0] == Sent || m[0] == Dropped then [s[0]] else []) + Targeted(s[1..], m[1..])
  }

  /** The elements of `s` other than `sender`, in order. */
  function Others(s: seq<ConnId>, sender: Option<ConnId>): (r: seq<ConnId>)
    ensures forall x :: x in r <==> x in s && sender != Some(x)
  {
    if s == [] then []
    else (if sender == Some(s[0]) then [] else [s[0]]) + Others(s[1..], sender)
  }

  /**
   * No element of `s` occurs again after it: `Distinct` stated by
   * recursion. `RunFollowsMarks` carries this form because the verifier
   * unfolds it one element at a time, where the quantified `Distinct` over
   * growing concatenations made each induction step costly;
   * `DistinctIsUnique` connects the two.
   */
  predicate Unique(s: seq<ConnId>) {
    s == [] || (s[0] !in s[1..] && Unique(s[1..]))
  }

  lemma {:induction false} DistinctIsUnique(s: seq<ConnId>)
    requires Distinct(s)
    ensures Unique(s)
    decreases |s|
  {
    if s != [] {
      assert Distinct(s[1..]);
      DistinctIsUnique(s[1..]);
    }
  }

  /**
   * The loop, started with `p` already behind the iterator and `s` still
   * ahead of it, ends with `p` followed by the kept part of `s`, having
   * attempted exactly the targeted part of `s`.
   */
  lemma {:induction false} RunFollowsMarks(p: seq<ConnId>, s: seq<ConnId>, sender: Option<ConnId>, failing: set<ConnId>)
    requires Unique(s) && forall x :: x in p ==> x !in s
    ensures var m := Marks(s, sender, failing);
            Run(p + s, |p|, sender, failing) == Outcome(p + Kept(s, m), Targeted(s, m))
    decreases |s|, 1
  {
    if s == [] {
      assert p + s == p;
    } else if sender == Some(s[0]) || s[0] !in failing {
      KeptStep(p, s, sender, failing);
    } else {
      DroppedStep(p, s, sender, failing);
    }
  }

  /** The step of `RunFollowsMarks` where the head of `s` stays in the list. */
  lemma {:induction false} KeptStep(p: seq<ConnId>, s: seq<ConnId>, sender: Option<ConnId>, failing: set<ConnId>)
    requires Unique(s) && (forall x :: x in p ==> x !in s)
    requires s != [] && (sender == Some(s[0]) || s[0] !in failing)
    ensures var m := Marks(s, sender, failing);
            Run(p + s, |p|, sender, failing) == Outcome(p + Kept(s, m), Targeted(s, m))
    decreases |s|, 0
  {
    var p' := p + [s[0]];
    var m1 := Marks(s[1..], sender, failing);
    KeptHeadMarks(s, sender, failing);
    ConsTail(s);
    AppendShift(p, s[0], s[1..]);
    RunFollowsMarks(p', s[1..], sender, failing);
    AppendShift(p, s[0], Kept(s[1..], m1));
  }

  /** A head that stays in the list contributes itself to the kept part, and to the targeted part unless it is the sender. */
  lemma KeptHeadMarks(s: seq<ConnId>, sender: Option<ConnId>, failing: set<ConnId>)
    requires s != [] && (sender == Some(s[0]) || s[0] !in failing)
    ensures var m := Marks(s, sender, failing);
            var m1 := Marks(s[1..], sender, failing);
            Kept(s, m) == [s[0]] + Kept(s[1..], m1) &&
            Targeted(s, m) == (if sender == Some(s[0]) then [] else [s[0]]) + Targeted(s[1..], m1)
  {
    var m1 := Marks(s[1..], sender, failing);
    var k := if sender == Some(s[0]) then Excluded else Sent;
    assert Marks(s, sender, failing) == [k] + m1;
    TailOfCons(k, m1);
  }

  /** The step of `RunFollowsMarks` where the send to the head of `s` raises. */
  lemma {:induction false} DroppedStep(p: seq<ConnId>, s: seq<ConnId>, sender: Option<ConnId>, failing: set<ConnId>)
    requires Unique(s) && (forall x :: x in p ==> x !in s)
    requires s != [] && sender != Some(s[0]) && s[0] in failing
    ensures var m := Marks(s, sender, failing);
            Run(p + s, |p|, sender, failing) == Outcome(p + Kept(s, m), Targeted(s, m))
    decreases |s|, 0
  {
    ConsTail(s);
    AppendShift(p, s[0], s[1..]);
    RunDropsVisited(p, s[0], s[1..], sender, failing);
    if |s| == 1 {
      assert p + s[1..] == p;
    } else {
      var s1 := s[1..];
      ConsTail(s1);
      assert s1[1..] == s[2..];
      AppendShift(p, s[1], s[2..]);
      RunFollowsMarks(p + [s[1]], s[2..], sender, failing);
      DroppedMarks(p, s, sender, failing);
    }
  }

  /** One iteration that visits `x` at index `|p|` and removes it. */
  lemma RunDropsVisited(p: seq<ConnId>, x: ConnId, q: seq<ConnId>, sender: Option<ConnId>, failing: set<ConnId>)
    requires x !in p && sender != Some(x) && x in failing
    ensures var rest := Run(p + q, |p| + 1, sender, failing);
            Run(p + [x] + q, |p|, sender, failing) == Outcome(rest.remaining, [x] + rest.attempted)
  {
    assert (p + [x] + q)[|p|] == x;
    RemoveFirstSplit(p, x, q);
  }

  /** A dropped head is followed by a skipped second element. */
  lemma DroppedHeadMarks(s: seq<ConnId>, sender: Option<ConnId>, failing: set<ConnId>)
    requires |s| >= 2 && sender != Some(s[0]) && s[0] in failing
    ensures var m := Marks(s, sender, failing);
            m[0] == Dropped && m[1..][0] == Skipped && m[1..][1..] == Marks(s[2..], sender, failing)
  {
    var m2 := Marks(s[2..], sender, failing);
    assert Marks(s, sender, failing) == [Dropped] + ([Skipped] + m2);
    TailOfCons(Dropped, [Skipped] + m2);
    TailOfCons(Skipped, m2);
  }

  /**
   * A dropped head is followed by a skipped second element, so the pass
   * over the rest of the list picks up after both.
   */
  lemma DroppedMarks(p: seq<ConnId>, s: seq<ConnId>, sender: Option<ConnId>, failing: set<ConnId>)
    requires |s| >= 2 && sender != Some(s[0]) && s[0] in failing
    ensures var m := Marks(s, sender, failing);
            var m2 := Marks(s[2..], sender, failing);
            (p + [s[1]]) + Kept(s[2..], m2) == p + Kept(s, m) &&
            [s[0]] + Targeted(s[2..], m2) == Targeted(s, m)
  {
    var m := Marks(s, sender, failing);
    var m2 := Marks(s[2..], sender, failing);
    DroppedHeadMarks(s, sender, failing);
    var s1, m1 := s[1..], m[1..];
    assert s1[1..] == s[2..];
    assert Kept(s1, m1) == [s[1]] + Kept(s[2..], m2);
    assert Targeted(s1, m1) == Targeted(s[2..], m2);
    assert Kept(s, m) == [] + Kept(s1, m1);
    AppendShift(p, s[1], Kept(s[2..], m2));
  }

  /**
   * The local rule of a pass: an element right after a dropped one is
   * skipped; otherwise the sender is excluded, and any other element is
   * dropped exactly when its send fails.
   */
  lemma {:induction false} MarkRule(s: seq<ConnId>, sender: Option<ConnId>, failing: set<ConnId>, k: nat)
    requires k < |s|
    ensures var m := Marks(s, sender, failing);
            m[k] == (if k > 0 && m[k - 1] == Dropped then Skipped
                     else if sender == Some(s[k]) then Excluded
                     else if s[k] in failing then Dropped
                     else Sent)
    decreases |s|
  {
    var m := Marks(s, sender, failing);
    if k > 0 {
      if sender == Some(s[0]) || s[0] !in failing {
        assert m[1..] == Marks(s[1..], sender, failing);
        MarkRule(s[1..], sender, failing, k - 1);
      } else if k > 1 {
        assert m[2..] == Marks(s[2..], sender, failing);
        MarkRule(s[2..], sender, failing, k - 2);
      }
    }
  }

  lemma {:induction false} KeptAt(s: seq<ConnId>, m: seq<Mark>, k: nat)
    requires |m| == |s| && Distinct(s) && k < |s|
    ensures s[k] in Kept(s, m) <==> m[k] != Dropped
    decreases |s|
  {
    assert Distinct(s[1..]);
    if k > 0 {
      KeptAt(s[1..], m[1..], k - 1);
    }
  }

  lemma {:induction false} TargetedAt(s: seq<ConnId>, m: seq<Mark>, k: nat)
    requires |m| == |s| && Distinct(s) && k < |s|
    ensures s[k] in Targeted(s, m) <==> m[k] == Sent || m[k] == Dropped
    decreases |s|
  {
    assert Distinct(s[1..]);
    if k > 0 {
      TargetedAt(s[1..], m[1..], k - 1);
    }
  }

  lemma {:induction false} TargetedDistinct(s: seq<ConnId>, m: seq<Mark>)
    requires |m| == |s| && Distinct(s)
    ensures Distinct(Targeted(s, m))
    decreases |s|
  {
    if s != [] {
      assert Distinct(s[1..]);
      TargetedDistinct(s[1..], m[1..]);
      assert s[0] !in s[1..];
    }
  }

  /** The pass over a whole list agrees with its marks. */
  lemma RelayByMarks(conns: seq<ConnId>, sender: Option<ConnId>, failing: set<ConnId>)
    requires Distinct(conns)
    ensures var m := Marks(conns, sender, failing);
            Run(conns, 0, sender, failing) == Outcome(Kept(conns, m), Targeted(conns, m))
  {
    assert [] + conns == conns;
    DistinctIsUnique(conns);
    RunFollowsMarks([], conns, sender, failing);
  }

  /**
   * A connection leaves the list exactly when a send to it was attempted
   * and raised; every other connection stays.
   */
  lemma DroppedIffFailedTarget(conns: seq<ConnId>, sender: Option<ConnId>, failing: set<ConnId>, k: nat)
    requires Distinct(conns) && k < |conns|
    ensures var r := Run(conns, 0, sender, failing);
            conns[k] !in r.remaining <==> conns[k] in r.attempted && conns[k] in failing
  {
    var m := Marks(conns, sender, failing);
    RelayByMarks(conns, sender, failing);
    KeptAt(conns, m, k);
    TargetedAt(conns, m, k);
    MarkRule(conns, sender, failing, k);
  }

  /**
   * A connection is sent the message exactly when it is not the sender and
   * the connection before it in the list was not dropped in this pass.
   */
  lemma TargetedIffVisited(conns: seq<ConnId>, sender: Option<ConnId>, failing: set<ConnId>, k: nat)
    requires Distinct(conns) && k < |conns|
    ensures var r := Run(conns, 0, sender, failing);
            conns[k] in r.attempted <==>
              sender != Some(conns[k]) &&
              (k == 0 || !(conns[k - 1] in r.attempted && conns[k - 1] in failing))
  {
    var m := Marks(conns, sender, failing);
    RelayByMarks(conns, sender, failing);
    TargetedAt(conns, m, k);
    MarkRule(conns, sender, failing, k);
    if k > 0 {
      TargetedAt(conns, m, k - 1);
      MarkRule(conns, sender, failing, k - 1);
    }
  }

  /**
   * The iterator quirk: the connection right after a dropped one is not
   * sent this message, although it stays in the list.
   */
  lemma SuccessorOfDroppedIsSkipped(conns: seq<ConnId>, sender: Option<ConnId>, failing: set<ConnId>, k: nat)
    requires Distinct(conns) && k + 1 < |conns|
    requires conns[k] in Run(conns, 0, sender, failing).attempted && conns[k] in failing
    ensures var r := Run(conns, 0, sender, failing);
            conns[k + 1] !in r.attempted && conns[k + 1] in r.remaining
  {
    TargetedIffVisited(conns, sender, failing, k + 1);
    DroppedIffFailedTarget(conns, sender, failing, k + 1);
  }

  /** Each connection is sent the message at most once per pass. */
  lemma AttemptsAreDistinct(conns: seq<ConnId>, sender: Option<ConnId>, failing: set<ConnId>)
    requires Distinct(conns)
    ensures Distinct(Run(conns, 0, sender, failing).attempted)
  {
    RelayByMarks(conns, sender, failing);
    TargetedDistinct(conns, Marks(conns, sender, failing));
  }

  lemma {:induction false} NoFailureMarks(s: seq<ConnId>, sender: Option<ConnId>, failing: set<ConnId>)
    requires forall x :: x in s ==> x !in failing
    ensures var m := Marks(s, sender, failing);
            Kept(s, m) == s && Targeted(s, m) == Others(s, sender)
    decreases |s|
  {
    if s != [] {
      var m1 := Marks(s[1..], sender, failing);
      var k := if sender == Some(s[0]) then Excluded else Sent;
      assert Marks(s, sender, failing) == [k] + m1;
      TailOfCons(k, m1);
      NoFailureMarks(s[1..], sender, failing);
      ConsTail(s);
    }
  }

  /**
   * When no send raises, the list is left as it was and every connection
   * except the sender is sent the message, in list order.
   */
  lemma EveryoneReachedWithoutFailures(conns: seq<ConnId>, sender: Option<ConnId>, failing: set<ConnId>)
    requires Distinct(conns)
    requires forall x :: x in conns ==> x !in failing
    ensures var r := Run(conns, 0, sender, failing);
            r.remaining == conns && r.attempted == Others(conns, sender)
  {
    RelayByMarks(conns, sender, failing);
    NoFailureMarks(conns, sender, failing);
  }

  /**
   * A concrete pass over three connections with the first one failing: the
   * second is never visited, the third is.
   */
  lemma SkipExample()
    ensures Run([1, 2, 3], 0, None, {1}) == Outcome([2, 3], [1, 3])
  {
    assert RemoveFirst([1, 2, 3], 1) == [2, 3];
  }
}
