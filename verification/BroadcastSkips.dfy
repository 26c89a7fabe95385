/**
 Which listed sockets a broadcast misses, and that it can raise: the walk by index over a list that
 others shorten meanwhile.
 */
module BroadcastSkips {
  import opened Wrappers
  import opened WebSockets

  /** The place of a listed socket. */
  function Pos(xs: seq<nat>, x: nat): (k: nat)
    requires x in xs
    ensures k < |xs| && xs[k] == x
  {
    if xs[0] == x then 0 else 1 + Pos(xs[1..], x)
  }

  /** Exactly the elements behind the removed one move, by one place. */
  lemma {:induction false} RemovePos(xs: seq<nat>, y: nat, x: nat)
    requires y in xs && x in xs && x != y
    ensures x in Remove(xs, y)
    ensures Pos(Remove(xs, y), x) == Pos(xs, x) - if Pos(xs, y) < Pos(xs, x) then 1 else 0
  {
    if xs[0] == y {
      assert xs == [xs[0]] + xs[1..];
    } else if xs[0] != x {
      RemovePos(xs[1..], y, x);
      assert Remove(xs, y)[1..] == Remove(xs[1..], y);
    }
  }

  lemma {:induction false} PruneMovesDown(xs: seq<nat>, dead: seq<nat>, x: nat)
    requires Distinct(xs) && x in xs && x in Prune(xs, dead).left
    ensures Pos(Prune(xs, dead).left, x) <= Pos(xs, x)
    decreases |dead|
  {
    if dead != [] && dead[0] in xs {
      RemoveDistinct(xs, dead[0]);
      PruneIsFilter(Remove(xs, dead[0]), dead[1..]);
      assert x in Elements(Prune(xs, dead).left);
      assert x in Elements(Remove(xs, dead[0]));
      RemovePos(xs, dead[0], x);
      PruneMovesDown(Remove(xs, dead[0]), dead[1..], x);
    }
  }

  lemma {:induction false} AppendKeepsPos(xs: seq<nat>, y: nat, x: nat)
    requires x in xs
    ensures Pos(xs + [y], x) == Pos(xs, x)
  {
    if xs[0] != x {
      assert (xs + [y])[1..] == xs[1..] + [y];
      AppendKeepsPos(xs[1..], y, x);
    }
  }

  lemma PosUnique(xs: seq<nat>, x: nat, k: nat)
    requires Distinct(xs) && k < |xs| && xs[k] == x
    ensures x in xs && Pos(xs, x) == k
  {
  }

  /** No event moves a socket that stays listed further back. */
  lemma NeverMovesBack(s: State, e: Event, x: nat)
    requires Inv(s) && Enabled(s, e) && x in s.conns && x in Next(s, e).conns
    ensures Pos(Next(s, e).conns, x) <= Pos(s.conns, x)
  {
    match e
    case Connect(ws) => AppendKeepsPos(s.conns, ws, x);
    case Disconnect(ws) =>
      if ws in s.conns {
        RemoveDistinct(s.conns, ws);
        assert x in Elements(Remove(s.conns, ws));
        RemovePos(s.conns, ws, x);
      }
    case SendEnded(b, ok) =>
      if s.casts[b].next >= |s.conns| {
        PruneMovesDown(s.conns, DeadAfter(s.casts[b], ok), x);
      }
    case _ =>
  }

  // ----- slipping behind a broadcast

  predicate IsSending(s: State, b: nat) {
    b in s.casts && s.casts[b].Sending?
  }

  /**
   Another event than the broadcast's own moves a listed socket from in front of its position to
   behind it: something nearer the front leaves the list.
   */
  predicate Slips(s: State, e: Event, b: nat, x: nat) {
    && Enabled(s, e) && IsSending(s, b) && !Own(e, b)
    && x in s.conns && Pos(s.conns, x) >= s.casts[b].next
    && x in Next(s, e).conns && Pos(Next(s, e).conns, x) < s.casts[b].next
  }

  /** Having slipped is being behind the position unvisited, and after the end being unvisited. */
  ghost predicate SlippedMeans(s: State, b: nat, x: nat, slipped: bool) {
    && b in s.casts
    && (slipped <==>
          && x !in s.casts[b].visited
          && (s.casts[b].Sending? && x in s.conns ==> Pos(s.conns, x) < s.casts[b].next))
  }

  lemma SlipStart(s: State, b: nat, x: nat)
    requires Inv(s) && Enabled(s, CastStarted(b)) && x in s.conns
    ensures SlippedMeans(Next(s, CastStarted(b)), b, x, false)
  {
    if s.conns[0] == x {
      PosUnique(s.conns, x, 0);
    }
  }

  lemma SlipOwn(s: State, b: nat, x: nat, ok: bool, slipped: bool)
    requires Inv(s) && Enabled(s, SendEnded(b, ok)) && x in s.conns && SlippedMeans(s, b, x, slipped)
    ensures SlippedMeans(Next(s, SendEnded(b, ok)), b, x, slipped)
  {
    var next := s.casts[b].next;
    if next < |s.conns| && s.conns[next] == x {
      PosUnique(s.conns, x, next);
    }
  }

  lemma SlipOther(s: State, e: Event, b: nat, x: nat, slipped: bool)
    requires Inv(s) && Enabled(s, e) && !Own(e, b) && SlippedMeans(s, b, x, slipped)
    requires IsSending(s, b) ==> x in s.conns && x in Next(s, e).conns
    ensures SlippedMeans(Next(s, e), b, x, slipped || Slips(s, e, b, x))
  {
    CastsKept(s, e, b);
    if IsSending(s, b) {
      NeverMovesBack(s, e, x);
      assert CastInv(s, s.casts[b]);
    }
  }

  // ----- over a run

  lemma {:induction false} PrefixRuns(s: State, es: seq<Event>, i: nat)
    requires i <= |es| && Exec(s, es).Some?
    ensures Exec(s, es[..i]).Some?
    decreases |es|
  {
    if i == |es| {
      assert es[..i] == es;
    } else {
      PrefixRuns(s, es[..|es| - 1], i);
      assert es[..|es| - 1][..i] == es[..i];
    }
  }

  ghost function Before(s: State, es: seq<Event>, i: nat): State
    requires i <= |es| && Exec(s, es).Some?
  {
    PrefixRuns(s, es, i);
    Exec(s, es[..i]).value
  }

  ghost predicate SlipsAt(s: State, es: seq<Event>, b: nat, x: nat, i: nat)
    requires Exec(s, es).Some?
  {
    i < |es| && Slips(Before(s, es, i), es[i], b, x)
  }

  /** The socket is listed when the broadcast starts and as long as it is sending. */
  ghost predicate ListedThroughout(s: State, es: seq<Event>, b: nat, x: nat)
    requires Exec(s, es).Some?
  {
    x in s.conns && forall i: nat | i <= |es| && IsSending(Before(s, es, i), b) :: x in Before(s, es, i).conns
  }

  lemma BeforeInPrefix(s: State, es: seq<Event>, i: nat)
    requires i < |es| && Exec(s, es).Some?
    ensures Exec(s, es[..|es| - 1]).Some? && Before(s, es, i) == Before(s, es[..|es| - 1], i)
  {
    assert es[..|es| - 1][..i] == es[..i];
  }

  /** A socket that has slipped did so before the last event or in it. */
  lemma SlipsSplit(s: State, es: seq<Event>, p: seq<Event>, b: nat, x: nat)
    requires es != [] && p == es[..|es| - 1] && Exec(s, es).Some?
    ensures Exec(s, p).Some?
    ensures (exists i: nat :: SlipsAt(s, es, b, x, i)) <==>
              (exists i: nat :: SlipsAt(s, p, b, x, i))
              || Slips(Before(s, es, |es| - 1), es[|es| - 1], b, x)
  {
    var n := |es| - 1;
    forall i: nat | i < n ensures SlipsAt(s, es, b, x, i) <==> SlipsAt(s, p, b, x, i) {
      BeforeInPrefix(s, es, i);
    }
    if Slips(Before(s, es, n), es[n], b, x) {
      assert SlipsAt(s, es, b, x, n);
    }
  }

  lemma ListedInPrefix(s: State, es: seq<Event>, b: nat, x: nat)
    requires es != [] && Exec(s, es).Some? && ListedThroughout(s, es, b, x)
    ensures Exec(s, es[..|es| - 1]).Some? && ListedThroughout(s, es[..|es| - 1], b, x)
  {
    var n := |es| - 1;
    forall i: nat | i <= n ensures Before(s, es, i) == Before(s, es[..n], i) {
      BeforeInPrefix(s, es, i);
    }
  }

  lemma {:induction false} SlippedInRun(s: State, es: seq<Event>, b: nat, x: nat)
    requires Inv(s) && es != [] && es[0] == CastStarted(b) && Exec(s, es).Some? && ListedThroughout(s, es, b, x)
    ensures SlippedMeans(Exec(s, es).value, b, x, exists i: nat :: SlipsAt(s, es, b, x, i))
    decreases |es|
  {
    var n := |es| - 1;
    var p := es[..n];
    SlipsSplit(s, es, p, b, x);
    if n == 0 {
      SlipStart(s, b, x);
    } else {
      ListedInPrefix(s, es, b, x);
      SlippedInRun(s, p, b, x);
      ExecInv(s, p);
      LastEvent(s, Exec(s, p).value, es, b, x, exists i: nat :: SlipsAt(s, p, b, x, i));
    }
  }

  lemma LastEvent(s: State, s': State, es: seq<Event>, b: nat, x: nat, slipped: bool)
    requires Inv(s') && |es| > 1 && Exec(s, es).Some? && ListedThroughout(s, es, b, x)
    requires s' == Before(s, es, |es| - 1) && SlippedMeans(s', b, x, slipped)
    ensures SlippedMeans(Exec(s, es).value, b, x, slipped || Slips(s', es[|es| - 1], b, x))
  {
    var e := es[|es| - 1];
    assert Before(s, es, |es|) == Exec(s, es).value by {
      assert es[..|es|] == es;
    }
    CastsKept(s', e, b);
    if Own(e, b) {
      SlipOwn(s', b, x, e.ok, slipped);
    } else {
      SlipOther(s', e, b, x, slipped);
    }
  }

  /**
   A socket listed throughout a broadcast is not sent to iff, while the broadcast was sending, some
   event not its own moved the socket from in front of the broadcast's position to behind it.
   */
  lemma SkippedIffSlipped(before: seq<Event>, s: State, es: seq<Event>, s': State, b: nat, x: nat)
    requires Run(before) == Some(s) && Exec(s, es) == Some(s') && es != [] && es[0] == CastStarted(b)
    requires ListedThroughout(s, es, b, x) && b in s'.casts && !IsSending(s', b)
    ensures x !in s'.casts[b].visited <==> exists i: nat :: SlipsAt(s, es, b, x, i)
  {
    ExecInv(START, before);
    SlippedInRun(s, es, b, x);
  }

  /**
   A single departure makes a broadcast miss a socket iff that socket is the very next one and the
   one that leaves stands before it.
   */
  lemma DisconnectSlipsIff(s: State, b: nat, ws: nat, x: nat)
    requires IsSending(s, b) && Enabled(s, Disconnect(ws)) && x in s.conns && x != ws
    ensures Slips(s, Disconnect(ws), b, x) <==>
              ws in s.conns && Pos(s.conns, x) == s.casts[b].next && Pos(s.conns, ws) < s.casts[b].next
  {
    if ws in s.conns {
      RemovePos(s.conns, ws, x);
    }
  }

  /** With a disconnect in between, a broadcast can skip a socket that is listed throughout. */
  lemma DisconnectMakesBroadcastSkip()
    ensures exists es :: Run(es).Some? && 0 in Run(es).value.casts && Run(es).value.casts[0] == Completed([1, 3], [])
                         && Run(es).value.conns == [2, 3]
  {
    var es, s := Extend([], START, Connect(1));
    es, s := Extend(es, s, Connect(2));
    es, s := Extend(es, s, Connect(3));
    assert s.conns == [1, 2, 3];
    es, s := Extend(es, s, CastStarted(0));
    es, s := Extend(es, s, Disconnect(1));
    assert s.conns == [2, 3];
    es, s := Extend(es, s, SendEnded(0, true));
    assert s.casts[0] == Sending(3, 2, [1, 3], []);
    es, s := Extend(es, s, SendEnded(0, true));
  }

  /** With a disconnect of a socket whose send then fails, a broadcast raises. */
  lemma DisconnectMakesBroadcastRaise()
    ensures exists es :: Run(es).Some? && 0 in Run(es).value.casts && Run(es).value.casts[0] == Raised([7], [7])
  {
    var es, s := Extend([], START, Connect(7));
    assert s.conns == [7];
    es, s := Extend(es, s, CastStarted(0));
    es, s := Extend(es, s, Disconnect(7));
    assert s.conns == [] && s.casts[0] == Sending(7, 1, [7], []);
    es, s := Extend(es, s, SendEnded(0, false));
  }
}
