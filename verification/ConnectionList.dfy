/** The shared list itself, changed in place by endpoints and by a broadcast that nothing interrupts. */
module ConnectionList {
  import opened Wrappers
  import opened WebSockets

  /** The sockets whose send succeeded, in list order; ok[i] is the outcome of the i-th send. */
  function Survivors(xs: seq<nat>, ok: seq<bool>): seq<nat>
    requires |xs| <= |ok|
  {
    if xs == [] then []
    else (if ok[0] then [xs[0]] else []) + Survivors(xs[1..], ok[1..])
  }

  /** The sockets whose send failed, in list order. */
  function Casualties(xs: seq<nat>, ok: seq<bool>): seq<nat>
    requires |xs| <= |ok|
  {
    if xs == [] then []
    else (if ok[0] then [] else [xs[0]]) + Casualties(xs[1..], ok[1..])
  }

  lemma {:induction false} SplitMultiset(xs: seq<nat>, ok: seq<bool>)
    requires |xs| <= |ok|
    ensures multiset(Survivors(xs, ok)) + multiset(Casualties(xs, ok)) == multiset(xs)
  {
    if xs != [] {
      SplitMultiset(xs[1..], ok[1..]);
      assert xs == [xs[0]] + xs[1..];
    }
  }

  lemma {:induction false} CasualtiesAppend(xs: seq<nat>, x: nat, ok: seq<bool>)
    requires |xs| < |ok|
    ensures Casualties(xs + [x], ok) == Casualties(xs, ok) + if ok[|xs|] then [] else [x]
  {
    var longer := xs + [x];
    if xs == [] {
      assert longer[1..] == [];
    } else {
      assert longer[0] == xs[0] && longer[1..] == xs[1..] + [x];
      var head := if ok[0] then [] else [xs[0]];
      assert Casualties(longer, ok) == head + Casualties(longer[1..], ok[1..]);
      assert Casualties(xs, ok) == head + Casualties(xs[1..], ok[1..]);
      CasualtiesAppend(xs[1..], x, ok[1..]);
    }
  }

  lemma {:induction false} SurvivorsAreFilter(xs: seq<nat>, ok: seq<bool>)
    requires Distinct(xs) && |xs| <= |ok|
    ensures Survivors(xs, ok) == Without(xs, Elements(Casualties(xs, ok)))
    ensures Elements(Casualties(xs, ok)) <= Elements(xs)
  {
    if xs != [] {
      var rest, ok' := xs[1..], ok[1..];
      SurvivorsAreFilter(rest, ok');
      var gone := Elements(Casualties(xs, ok));
      var gone' := Elements(Casualties(rest, ok'));
      assert gone == gone' + if ok[0] then {} else {xs[0]};
      assert xs[0] !in Elements(rest);
      FilterAgree(rest, gone, gone');
    }
  }

  lemma {:induction false} FilterAgree(xs: seq<nat>, a: set<nat>, b: set<nat>)
    requires forall x | x in xs :: x in a <==> x in b
    ensures Without(xs, a) == Without(xs, b)
  {
    if xs != [] {
      FilterAgree(xs[1..], a, b);
    }
  }

  /** Removing the casualties of a round of sends succeeds and leaves its survivors. */
  lemma UninterruptedOutcome(xs: seq<nat>, ok: seq<bool>)
    requires |xs| <= |ok|
    ensures var pruned := Prune(xs, Casualties(xs, ok));
            && pruned.ok
            && multiset(pruned.left) == multiset(Survivors(xs, ok))
            && (Distinct(xs) ==> pruned.left == Survivors(xs, ok))
  {
    SplitMultiset(xs, ok);
    PruneSucceedsIff(xs, Casualties(xs, ok));
    if Distinct(xs) {
      SurvivorsAreFilter(xs, ok);
      PruneIsFilter(xs, Casualties(xs, ok));
    }
  }

  // ----- the same round as a run of the interleaved machine, with nothing in between

  /** A broadcast suspended in its i-th send. */
  function InSend(xs: seq<nat>, i: nat, ok: seq<bool>): Cast
    requires 0 < i <= |xs| <= |ok|
  {
    Sending(xs[i - 1], i, xs[..i], Casualties(xs[..i - 1], ok))
  }

  function Ended(s: State, b: nat, ok: seq<bool>): State
    requires |s.conns| <= |ok|
  {
    s.(conns := Survivors(s.conns, ok), casts := s.casts[b := Completed(s.conns, Casualties(s.conns, ok))])
  }

  /** The broadcast on its way: suspended in its i-th send, or ended after the last one. */
  function InRound(s: State, b: nat, i: nat, ok: seq<bool>): State
    requires 0 < i && |s.conns| <= |ok|
  {
    if i > |s.conns| then Ended(s, b, ok) else s.(casts := s.casts[b := InSend(s.conns, i, ok)])
  }

  lemma RoundStarts(s: State, b: nat, ok: seq<bool>)
    requires b !in s.casts && |s.conns| <= |ok|
    ensures Next(s, CastStarted(b)) == InRound(s, b, 1, ok)
  {
    var visited: seq<nat> := [];
    if s.conns != [] {
      assert visited + [s.conns[0]] == s.conns[..1];
      assert s.conns[..0] == visited;
    } else {
      assert Prune(s.conns, visited) == Pruned(visited, true);
    }
  }

  lemma DeadSoFar(xs: seq<nat>, i: nat, ok: seq<bool>)
    requires 0 < i <= |xs| <= |ok|
    ensures DeadAfter(InSend(xs, i, ok), ok[i - 1]) == Casualties(xs[..i], ok)
  {
    var front, last := xs[..i - 1], xs[i - 1];
    var cast := InSend(xs, i, ok);
    CasualtiesAppend(front, last, ok);
    assert xs[..i] == front + [last];
    assert cast.dead == Casualties(front, ok) && cast.socket == last;
  }

  lemma RoundEnds(s: State, b: nat, ok: seq<bool>)
    requires Inv(s) && |s.conns| <= |ok|
    ensures Continue(s, b, |s.conns|, s.conns, Casualties(s.conns, ok)) == Ended(s, b, ok)
  {
    UninterruptedOutcome(s.conns, ok);
  }

  lemma RoundGoesOn(s: State, b: nat, i: nat, ok: seq<bool>)
    requires Inv(s) && 0 < i <= |s.conns| <= |ok|
    ensures var s' := InRound(s, b, i, ok);
            Enabled(s', SendEnded(b, ok[i - 1])) && Next(s', SendEnded(b, ok[i - 1])) == InRound(s, b, i + 1, ok)
  {
    var xs, s' := s.conns, InRound(s, b, i, ok);
    DeadSoFar(xs, i, ok);
    assert Next(s', SendEnded(b, ok[i - 1])) == Continue(s', b, i, xs[..i], Casualties(xs[..i], ok));
    if i < |xs| {
      assert xs[..i] + [xs[i]] == xs[..i + 1];
    } else {
      assert xs[..i] == xs;
      RoundEnds(s, b, ok);
    }
  }

  /** The start of a broadcast and the ends of its first n sends. */
  function Round(b: nat, ok: seq<bool>, n: nat): seq<Event>
    requires n <= |ok|
  {
    [CastStarted(b)] + seq(n, i requires 0 <= i < n => SendEnded(b, ok[i]))
  }

  /** Run without other events in between, the machine's broadcast does what the loops below do. */
  lemma {:induction false} RoundAlone(s: State, b: nat, ok: seq<bool>, n: nat)
    requires Inv(s) && b !in s.casts && n <= |s.conns| == |ok|
    ensures Exec(s, Round(b, ok, n)) == Some(InRound(s, b, n + 1, ok))
  {
    if n == 0 {
      assert Round(b, ok, 0)[..0] == [];
      RoundStarts(s, b, ok);
    } else {
      RoundAlone(s, b, ok, n - 1);
      assert Round(b, ok, n)[..n] == Round(b, ok, n - 1);
      RoundGoesOn(s, b, n, ok);
    }
  }

  class Connections {
    var active: seq<nat>

    constructor ()
      ensures active == []
    {
      active := [];
    }

    method Append(ws: nat)
      modifies this
      ensures active == old(active) + [ws]
      ensures Distinct(old(active)) && ws !in old(active) ==> Distinct(active)
    {
      active := active + [ws];
    }

    /** list.remove: fails, changing nothing, on a socket that is not listed. */
    method Take(ws: nat) returns (found: bool)
      modifies this
      ensures found == (ws in old(active))
      ensures active == if found then Remove(old(active), ws) else old(active)
    {
      found := ws in active;
      if found {
        active := Remove(active, ws);
      }
    }

    /** The first loop: one send per listed socket, collecting the failures. */
    method SendToAll(ok: seq<bool>) returns (sent: seq<nat>, dead: seq<nat>)
      requires |ok| == |active|
      ensures sent == active && dead == Casualties(active, ok)
    {
      sent, dead := [], [];
      var i := 0;
      while i < |active|
        invariant i <= |active|
        invariant sent == active[..i] && dead == Casualties(active[..i], ok)
      {
        CasualtiesAppend(active[..i], active[i], ok);
        assert active[..i] + [active[i]] == active[..i + 1];
        sent := sent + [active[i]];
        if !ok[i] {
          dead := dead + [active[i]];
        }
        i := i + 1;
      }
      assert active[..i] == active;
    }

    /** The second loop: removes the dead sockets in place, up to the first that is not listed. */
    method DropDead(dead: seq<nat>) returns (raised: bool)
      modifies this
      ensures active == Prune(old(active), dead).left && raised == !Prune(old(active), dead).ok
      ensures Distinct(old(active)) ==>
                exists k: nat :: PrunedUpTo(old(active), dead, active, k) && (raised <==> k < |dead|)
    {
      if Distinct(active) {
        var k := PruneStopsAtAbsent(active, dead);
      }
      raised := false;
      var j := 0;
      while j < |dead|
        invariant j <= |dead|
        invariant Prune(active, dead[j..]) == Prune(old(active), dead)
      {
        assert dead[j..][1..] == dead[j + 1..];
        var found := Take(dead[j]);
        if !found {
          return true;
        }
        j := j + 1;
      }
    }

    /**
     A broadcast that nothing interrupts: one send per listed socket, in order; the removals never
     fail; without repetitions in the list, exactly the sockets that answered stay, in order.
     */
    method Broadcast(ok: seq<bool>) returns (sent: seq<nat>, raised: bool)
      requires |ok| == |active|
      modifies this
      ensures sent == old(active)
      ensures !raised
      ensures multiset(active) == multiset(Survivors(old(active), ok))
      ensures Distinct(old(active)) ==> active == Survivors(old(active), ok)
    {
      UninterruptedOutcome(active, ok);
      var dead;
      sent, dead := SendToAll(ok);
      raised := DropDead(dead);
    }
  }
}
