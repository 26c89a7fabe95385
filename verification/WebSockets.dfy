/**
 The shared list of WebSocket connections: endpoints append and remove, broadcasts walk it by
 index with a suspension at every send and then remove the sockets whose send failed. A socket is
 a fresh identity per connection.
 */
module WebSockets {
  import opened Wrappers

  // ----- list.remove

  /** Removes the first occurrence. */
  function Remove(xs: seq<nat>, x: nat): seq<nat>
    requires x in xs
  {
    if xs[0] == x then xs[1..] else [xs[0]] + Remove(xs[1..], x)
  }

  datatype Pruned = Pruned(left: seq<nat>, ok: bool)

  /** Removes the dead sockets one after the other; stops with an error at one that is not there. */
  function Prune(xs: seq<nat>, dead: seq<nat>): Pruned
    decreases |dead|
  {
    if dead == [] then Pruned(xs, true)
    else if dead[0] !in xs then Pruned(xs, false)
    else Prune(Remove(xs, dead[0]), dead[1..])
  }

  predicate Distinct(xs: seq<nat>) {
    forall i, j | 0 <= i < j < |xs| :: xs[i] != xs[j]
  }

  function Without(xs: seq<nat>, gone: set<nat>): seq<nat> {
    if xs == [] then []
    else (if xs[0] in gone then [] else [xs[0]]) + Without(xs[1..], gone)
  }

  function Elements(xs: seq<nat>): set<nat> {
    set x | x in xs
  }

  lemma {:induction false} RemoveShape(xs: seq<nat>, x: nat) returns (k: nat)
    requires x in xs
    ensures k < |xs| && xs[k] == x && x !in xs[..k] && Remove(xs, x) == xs[..k] + xs[k + 1..]
  {
    if xs[0] == x {
      k := 0;
    } else {
      var k' := RemoveShape(xs[1..], x);
      k := k' + 1;
      assert xs[..k] == [xs[0]] + xs[1..][..k'];
      assert xs[k + 1..] == xs[1..][k' + 1..];
    }
  }

  lemma RemoveMultiset(xs: seq<nat>, x: nat)
    requires x in xs
    ensures multiset(Remove(xs, x)) == multiset(xs) - multiset{x}
  {
    var k := RemoveShape(xs, x);
    var front, rest := xs[..k], xs[k + 1..];
    assert xs == front + [x] + rest;
    assert multiset(Remove(xs, x)) == multiset(front) + multiset(rest);
  }

  /** The removals succeed iff every dead socket is still listed as often as it is to be removed. */
  lemma {:induction false} PruneSucceedsIff(xs: seq<nat>, dead: seq<nat>)
    ensures Prune(xs, dead).ok <==> multiset(dead) <= multiset(xs)
    ensures Prune(xs, dead).ok ==> multiset(Prune(xs, dead).left) == multiset(xs) - multiset(dead)
    decreases |dead|
  {
    if dead != [] {
      assert dead == [dead[0]] + dead[1..];
      assert multiset(dead) == multiset{dead[0]} + multiset(dead[1..]);
      if dead[0] in xs {
        RemoveMultiset(xs, dead[0]);
        PruneSucceedsIff(Remove(xs, dead[0]), dead[1..]);
      } else {
        assert multiset(dead)[dead[0]] > multiset(xs)[dead[0]];
      }
    }
  }

  lemma {:induction false} WithoutNothing(xs: seq<nat>, gone: set<nat>)
    requires forall x | x in xs :: x !in gone
    ensures Without(xs, gone) == xs
  {
    if xs != [] {
      WithoutNothing(xs[1..], gone);
    }
  }

  lemma {:induction false} RemoveIsFilter(xs: seq<nat>, x: nat)
    requires Distinct(xs) && x in xs
    ensures Remove(xs, x) == Without(xs, {x})
  {
    if xs[0] == x {
      WithoutNothing(xs[1..], {x});
    } else {
      RemoveIsFilter(xs[1..], x);
    }
  }

  lemma {:induction false} WithoutTwice(xs: seq<nat>, a: set<nat>, b: set<nat>)
    ensures Without(Without(xs, a), b) == Without(xs, a + b)
  {
    if xs != [] {
      WithoutTwice(xs[1..], a, b);
      if xs[0] in a {
        assert Without(xs, a) == Without(xs[1..], a);
      } else {
        assert Without(xs, a)[1..] == Without(xs[1..], a);
      }
    }
  }

  lemma RemoveDistinct(xs: seq<nat>, x: nat)
    requires Distinct(xs) && x in xs
    ensures Distinct(Remove(xs, x)) && Elements(Remove(xs, x)) == Elements(xs) - {x}
  {
    var k := RemoveShape(xs, x);
    var ys := Remove(xs, x);
    forall y | y in xs && y != x ensures y in ys {
      var i :| 0 <= i < |xs| && xs[i] == y;
      assert ys[if i < k then i else i - 1] == y;
    }
  }

  /** On a list without repetitions a successful pruning keeps the others, in their order. */
  lemma {:induction false} PruneIsFilter(xs: seq<nat>, dead: seq<nat>)
    requires Distinct(xs)
    ensures Distinct(Prune(xs, dead).left) && Elements(Prune(xs, dead).left) <= Elements(xs)
    ensures Prune(xs, dead).ok ==> Prune(xs, dead).left == Without(xs, Elements(dead))
    decreases |dead|
  {
    if dead == [] {
      WithoutNothing(xs, Elements(dead));
    } else if dead[0] in xs {
      RemoveDistinct(xs, dead[0]);
      RemoveIsFilter(xs, dead[0]);
      PruneIsFilter(Remove(xs, dead[0]), dead[1..]);
      WithoutTwice(xs, {dead[0]}, Elements(dead[1..]));
      assert {dead[0]} + Elements(dead[1..]) == Elements(dead);
    }
  }

  /**
   The removals got as far as position k of the dead: those before it were listed, each of them
   once, and are gone; nothing else is gone; the one at k, if there is one, was not listed.
   */
  ghost predicate PrunedUpTo(xs: seq<nat>, dead: seq<nat>, left: seq<nat>, k: nat) {
    && k <= |dead|
    && Distinct(dead[..k])
    && Elements(dead[..k]) <= Elements(xs)
    && left == Without(xs, Elements(dead[..k]))
    && (k < |dead| ==> dead[k] !in left)
  }

  lemma PrunedFirst(xs: seq<nat>, dead: seq<nat>, left: seq<nat>, k: nat)
    requires Distinct(xs) && dead != [] && dead[0] in xs
    requires PrunedUpTo(Remove(xs, dead[0]), dead[1..], left, k)
    ensures PrunedUpTo(xs, dead, left, k + 1)
  {
    var d := dead[0];
    RemoveDistinct(xs, d);
    RemoveIsFilter(xs, d);
    WithoutTwice(xs, {d}, Elements(dead[1..][..k]));
    assert dead[..k + 1] == [d] + dead[1..][..k];
    assert Elements(dead[..k + 1]) == {d} + Elements(dead[1..][..k]);
    assert d !in Elements(dead[1..][..k]);
  }

  /** The removal loop ends at the first dead socket that is not listed any more, and raises iff there is one. */
  lemma {:induction false} PruneStopsAtAbsent(xs: seq<nat>, dead: seq<nat>) returns (k: nat)
    requires Distinct(xs)
    ensures PrunedUpTo(xs, dead, Prune(xs, dead).left, k) && (Prune(xs, dead).ok <==> k == |dead|)
    decreases |dead|
  {
    if dead == [] || dead[0] !in xs {
      k := 0;
      WithoutNothing(xs, Elements(dead[..0]));
    } else {
      RemoveDistinct(xs, dead[0]);
      var rest := PruneStopsAtAbsent(Remove(xs, dead[0]), dead[1..]);
      k := rest + 1;
      PrunedFirst(xs, dead, Prune(xs, dead).left, rest);
    }
  }

  // ----- the interleaved machine

  datatype Cast =
    | Sending(socket: nat, next: nat, visited: seq<nat>, dead: seq<nat>)   // suspended in a send
    | Completed(visited: seq<nat>, dead: seq<nat>)
    | Raised(visited: seq<nat>, dead: seq<nat>)                            // ValueError out of broadcast_ws

  datatype State = State(
    conns: seq<nat>,            // active_connections
    seen: set<nat>,             // every socket ever accepted
    online: set<nat>,           // sockets whose endpoint is in its receive loop
    casts: map<nat, Cast>
  )

  const START := State([], {}, {}, map[])

  datatype Event =
    | Connect(ws: nat)
    | Disconnect(ws: nat)               // WebSocketDisconnect: the endpoint removes its socket
    | EndpointDied(ws: nat)             // any other exception: the socket stays listed
    | CastStarted(cast: nat)
    | SendEnded(cast: nat, ok: bool)

  predicate Enabled(s: State, e: Event) {
    match e
    case Connect(ws) => ws !in s.seen
    case Disconnect(ws) => ws in s.online
    case EndpointDied(ws) => ws in s.online
    case CastStarted(b) => b !in s.casts
    case SendEnded(b, _) => b in s.casts && s.casts[b].Sending?
  }

  /** The loop of a broadcast from position `next` on: fetch and suspend, or prune and end. */
  function Continue(s: State, b: nat, next: nat, visited: seq<nat>, dead: seq<nat>): State {
    if next < |s.conns| then
      var ws := s.conns[next];
      s.(casts := s.casts[b := Sending(ws, next + 1, visited + [ws], dead)])
    else
      var pruned := Prune(s.conns, dead);
      s.(conns := pruned.left,
         casts := s.casts[b := if pruned.ok then Completed(visited, dead) else Raised(visited, dead)])
  }

  /** The sockets whose send has failed once the current send has ended. */
  function DeadAfter(cast: Cast, ok: bool): seq<nat>
    requires cast.Sending?
  {
    if ok then cast.dead else cast.dead + [cast.socket]
  }

  function Next(s: State, e: Event): State
    requires Enabled(s, e)
  {
    match e
    case Connect(ws) => s.(conns := s.conns + [ws], seen := s.seen + {ws}, online := s.online + {ws})
    case Disconnect(ws) =>
      s.(conns := if ws in s.conns then Remove(s.conns, ws) else s.conns, online := s.online - {ws})
    case EndpointDied(ws) => s.(online := s.online - {ws})
    case CastStarted(b) => Continue(s, b, 0, [], [])
    case SendEnded(b, ok) =>
      var cast := s.casts[b];
      Continue(s, b, cast.next, cast.visited, DeadAfter(cast, ok))
  }

  function Exec(s: State, es: seq<Event>): Option<State> {
    if es == [] then Some(s)
    else
      match Exec(s, es[..|es| - 1])
      case None => None
      case Some(s') => if Enabled(s', es[|es| - 1]) then Some(Next(s', es[|es| - 1])) else None
  }

  function Run(es: seq<Event>): Option<State> {
    Exec(START, es)
  }

  // ----- what every interleaving keeps

  /** Sockets a broadcast has visited are behind its position, or gone from the list. */
  ghost predicate Behind(xs: seq<nat>, visited: seq<nat>, next: nat) {
    forall p: nat | p < |xs| && xs[p] in visited :: p < next
  }

  ghost predicate CastInv(s: State, cast: Cast) {
    && Distinct(cast.visited)
    && Distinct(cast.dead)
    && (cast.Sending? ==>
          && Elements(cast.visited) <= s.seen
          && Elements(cast.dead) <= Elements(cast.visited) - {cast.socket}
          && cast.socket in cast.visited
          && Behind(s.conns, cast.visited, cast.next))
  }

  ghost predicate Inv(s: State) {
    && Distinct(s.conns)
    && Elements(s.conns) <= s.seen
    && forall b | b in s.casts :: CastInv(s, s.casts[b])
  }

  lemma RemoveBehind(xs: seq<nat>, x: nat, visited: seq<nat>, next: nat)
    requires x in xs && Behind(xs, visited, next)
    ensures Behind(Remove(xs, x), visited, next)
  {
    var k := RemoveShape(xs, x);
    var ys := Remove(xs, x);
    forall p: nat | p < |ys| && ys[p] in visited ensures p < next {
      assert ys[p] == xs[if p < k then p else p + 1];
    }
  }

  lemma {:induction false} PruneBehind(xs: seq<nat>, dead: seq<nat>, visited: seq<nat>, next: nat)
    requires Behind(xs, visited, next)
    ensures Behind(Prune(xs, dead).left, visited, next)
    decreases |dead|
  {
    if dead != [] && dead[0] in xs {
      RemoveBehind(xs, dead[0], visited, next);
      PruneBehind(Remove(xs, dead[0]), dead[1..], visited, next);
    }
  }

  lemma ContinueInv(s: State, b: nat, next: nat, visited: seq<nat>, dead: seq<nat>)
    requires Inv(s) && Distinct(visited) && Distinct(dead)
    requires Elements(visited) <= s.seen && Elements(dead) <= Elements(visited) && Behind(s.conns, visited, next)
    ensures Inv(Continue(s, b, next, visited, dead))
  {
    var s' := Continue(s, b, next, visited, dead);
    if next < |s.conns| {
      var ws := s.conns[next];
      assert ws in Elements(s.conns);
      assert ws !in visited;
      assert CastInv(s', s'.casts[b]);
      forall c | c in s'.casts && c != b ensures CastInv(s', s'.casts[c]) {
        assert CastInv(s, s.casts[c]);
      }
    } else {
      PruneIsFilter(s.conns, dead);
      forall c | c in s'.casts && c != b ensures CastInv(s', s'.casts[c]) {
        assert CastInv(s, s.casts[c]);
        if s.casts[c].Sending? {
          PruneBehind(s.conns, dead, s.casts[c].visited, s.casts[c].next);
        }
      }
    }
  }

  lemma DeadAfterInv(s: State, cast: Cast, ok: bool)
    requires CastInv(s, cast) && cast.Sending?
    ensures Distinct(DeadAfter(cast, ok)) && Elements(DeadAfter(cast, ok)) <= Elements(cast.visited)
  {
    assert cast.socket !in Elements(cast.dead);
    forall x | x in DeadAfter(cast, ok) ensures x in cast.visited {
      assert x in Elements(cast.dead) || x == cast.socket;
      assert x in Elements(cast.dead) ==> x in Elements(cast.visited);
    }
  }

  lemma InvStep(s: State, e: Event)
    requires Inv(s) && Enabled(s, e)
    ensures Inv(Next(s, e))
  {
    var s' := Next(s, e);
    match e
    case Connect(ws) =>
      assert ws !in Elements(s.conns);
      forall c | c in s.casts ensures CastInv(s', s.casts[c]) {
        assert CastInv(s, s.casts[c]);
        if s.casts[c].Sending? {
          assert ws !in Elements(s.casts[c].visited);
        }
      }
    case Disconnect(ws) =>
      if ws in s.conns {
        RemoveDistinct(s.conns, ws);
        forall c | c in s.casts ensures CastInv(s', s.casts[c]) {
          assert CastInv(s, s.casts[c]);
          if s.casts[c].Sending? {
            RemoveBehind(s.conns, ws, s.casts[c].visited, s.casts[c].next);
          }
        }
      } else {
        assert forall c | c in s.casts :: CastInv(s, s.casts[c]) ==> CastInv(s', s.casts[c]);
      }
    case EndpointDied(ws) =>
      assert forall c | c in s.casts :: CastInv(s, s.casts[c]) ==> CastInv(s', s.casts[c]);
    case CastStarted(b) =>
      ContinueInv(s, b, 0, [], []);
    case SendEnded(b, ok) =>
      var cast := s.casts[b];
      DeadAfterInv(s, cast, ok);
      ContinueInv(s, b, cast.next, cast.visited, DeadAfter(cast, ok));
  }

  lemma {:induction false} ExecInv(s: State, es: seq<Event>)
    requires Inv(s) && Exec(s, es).Some?
    ensures Inv(Exec(s, es).value)
  {
    if es != [] {
      ExecInv(s, es[..|es| - 1]);
      InvStep(Exec(s, es[..|es| - 1]).value, es[|es| - 1]);
    }
  }

  /**
   In every interleaving of connects, disconnects and broadcasts the list has no repetitions, and
   no broadcast sends twice to a socket.
   */
  lemma NoRepetitions(es: seq<Event>, b: nat)
    requires Run(es).Some?
    ensures Distinct(Run(es).value.conns)
    ensures b in Run(es).value.casts ==> Distinct(Run(es).value.casts[b].visited)
  {
    ExecInv(START, es);
    if b in Run(es).value.casts {
      assert CastInv(Run(es).value, Run(es).value.casts[b]);
    }
  }

  /** Some broadcast that has ended counted the socket among its failures. */
  ghost predicate Failed(s: State, ws: nat) {
    exists b :: b in s.casts && !s.casts[b].Sending? && ws in s.casts[b].dead
  }

  lemma {:induction false} PruneKeeps(xs: seq<nat>, dead: seq<nat>, x: nat)
    requires x in xs && x !in dead
    ensures x in Prune(xs, dead).left
    decreases |dead|
  {
    if dead != [] && dead[0] in xs {
      RemoveMultiset(xs, dead[0]);
      assert x in multiset(Remove(xs, dead[0]));
      PruneKeeps(Remove(xs, dead[0]), dead[1..], x);
    }
  }

  lemma ListedStep(s: State, e: Event, ws: nat)
    requires Enabled(s, e) && (ws in s.conns || Failed(s, ws)) && e != Disconnect(ws)
    ensures ws in Next(s, e).conns || Failed(Next(s, e), ws)
  {
    var s' := Next(s, e);
    if Failed(s, ws) {
      var b :| b in s.casts && !s.casts[b].Sending? && ws in s.casts[b].dead;
      assert b in s'.casts && s'.casts[b] == s.casts[b];
    } else {
      match e
      case Disconnect(x) =>
        if x in s.conns {
          RemoveMultiset(s.conns, x);
          assert ws in multiset(Remove(s.conns, x));
        }
      case SendEnded(b, ok) =>
        var dead := DeadAfter(s.casts[b], ok);
        if ws !in dead {
          PruneKeeps(s.conns, dead, ws);
        } else if s.casts[b].next >= |s.conns| {
          assert ws in s'.casts[b].dead;
        }
      case _ =>
    }
  }

  /**
   A socket that has connected and not disconnected is listed unless a broadcast's send to it has
   failed, also after its endpoint died of another exception; no other socket is listed. Its
   endpoint is in its receive loop iff it has neither disconnected nor died.
   */
  lemma {:induction false} ListMatchesEndpoints(es: seq<Event>, ws: nat)
    requires Run(es).Some?
    ensures var s := Run(es).value;
            && (ws in s.seen <==> Connect(ws) in es)
            && (ws in s.conns ==> Connect(ws) in es && Disconnect(ws) !in es)
            && (Connect(ws) in es && Disconnect(ws) !in es ==> ws in s.conns || Failed(s, ws))
            && (ws in s.online <==> Connect(ws) in es && Disconnect(ws) !in es && EndpointDied(ws) !in es)
    ensures Connect(ws) !in es ==> Disconnect(ws) !in es && EndpointDied(ws) !in es
  {
    if es != [] {
      var p, e := es[..|es| - 1], es[|es| - 1];
      ListMatchesEndpoints(p, ws);
      ExecInv(START, p);
      var s := Run(p).value;
      assert es == p + [e];
      assert forall x :: x in es <==> x in p || x == e;
      if (ws in s.conns || Failed(s, ws)) && e != Disconnect(ws) {
        ListedStep(s, e, ws);
      }
      NotListedStep(s, e, ws);
    }
  }

  /** A socket gets on the list by connecting only, and a disconnect takes it off. */
  lemma NotListedStep(s: State, e: Event, ws: nat)
    requires Inv(s) && Enabled(s, e)
    ensures ws in Next(s, e).conns ==> ws in s.conns || e == Connect(ws)
    ensures e == Disconnect(ws) ==> ws !in Next(s, e).conns
  {
    match e
    case Disconnect(x) =>
      if x in s.conns {
        RemoveDistinct(s.conns, x);
        assert ws in Next(s, e).conns <==> ws in Elements(Remove(s.conns, x));
      }
    case CastStarted(b) => PruneIsFilter(s.conns, []);
    case SendEnded(b, ok) =>
      var dead := DeadAfter(s.casts[b], ok);
      PruneIsFilter(s.conns, dead);
      assert ws in Prune(s.conns, dead).left ==> ws in Elements(Prune(s.conns, dead).left);
    case _ =>
  }

  lemma DistinctWithin(dead: seq<nat>, xs: seq<nat>)
    requires Distinct(dead)
    ensures multiset(dead) <= multiset(xs) <==> Elements(dead) <= Elements(xs)
  {
    forall x: nat ensures multiset(dead)[x] <= 1 {
      DistinctCount(dead, x);
    }
    if Elements(dead) <= Elements(xs) {
      forall x: nat | x in multiset(dead) ensures x in xs {
        assert x in Elements(dead);
        assert x in Elements(xs);
      }
    } else {
      var x :| x in Elements(dead) && x !in Elements(xs);
      assert multiset(dead)[x] > multiset(xs)[x];
    }
  }

  lemma {:induction false} DistinctCount(xs: seq<nat>, x: nat)
    requires Distinct(xs)
    ensures multiset(xs)[x] <= 1
  {
    if xs != [] {
      DistinctCount(xs[1..], x);
      assert xs == [xs[0]] + xs[1..];
      if xs[0] == x {
        assert x !in xs[1..];
      }
    }
  }

  lemma RaisesIff(s: State, b: nat, dead: seq<nat>, visited: seq<nat>)
    requires Distinct(dead)
    ensures Continue(s, b, |s.conns|, visited, dead).casts[b].Raised? <==> exists ws :: ws in dead && ws !in s.conns
  {
    PruneSucceedsIff(s.conns, dead);
    DistinctWithin(dead, s.conns);
    assert forall ws | ws in dead :: ws in Elements(dead);
    assert forall ws :: ws in Elements(s.conns) <==> ws in s.conns;
  }

  /**
   A broadcast ends by raising iff some socket whose send failed has meanwhile left the list, through
   its own endpoint or another broadcast.
   */
  lemma RaisesIffDeadSocketGone(es: seq<Event>, b: nat, ok: bool)
    requires Run(es).Some? && Enabled(Run(es).value, SendEnded(b, ok))
    requires Run(es).value.casts[b].next >= |Run(es).value.conns|
    ensures var s := Run(es).value;
            Next(s, SendEnded(b, ok)).casts[b].Raised? <==>
              exists ws :: ws in DeadAfter(s.casts[b], ok) && ws !in s.conns
  {
    ExecInv(START, es);
    var s := Run(es).value;
    var cast := s.casts[b];
    DeadAfterInv(s, cast, ok);
    RaisesIff(s, b, DeadAfter(cast, ok), cast.visited);
  }

  lemma {:induction false} WithoutMember(xs: seq<nat>, gone: set<nat>, x: nat)
    ensures x in Without(xs, gone) <==> x in xs && x !in gone
  {
    if xs != [] {
      WithoutMember(xs[1..], gone, x);
    }
  }

  /**
   A broadcast that raises has removed its failed sockets up to the first that had left the list, and
   no further: those behind it that were listed stay listed.
   */
  lemma RaiseKeepsTheRest(es: seq<Event>, b: nat, ok: bool) returns (k: nat)
    requires Run(es).Some? && Enabled(Run(es).value, SendEnded(b, ok))
    requires Next(Run(es).value, SendEnded(b, ok)).casts[b].Raised?
    ensures var s := Run(es).value;
            var left := Next(s, SendEnded(b, ok)).conns;
            var dead := DeadAfter(s.casts[b], ok);
            && k < |dead| && dead[k] !in s.conns
            && (forall i | 0 <= i < k :: dead[i] in s.conns && dead[i] !in left)
            && (forall x :: x in left <==> x in s.conns && x !in dead[..k])
            && (forall i | k <= i < |dead| :: dead[i] in left <==> dead[i] in s.conns)
  {
    ExecInv(START, es);
    var s := Run(es).value;
    var cast := s.casts[b];
    var dead := DeadAfter(cast, ok);
    DeadAfterInv(s, cast, ok);
    k := PruneStopsAtAbsent(s.conns, dead);
    var gone := Elements(dead[..k]);
    forall x: nat ensures x in Without(s.conns, gone) <==> x in s.conns && x !in dead[..k] {
      WithoutMember(s.conns, gone, x);
    }
    forall i | 0 <= i < k ensures dead[i] in s.conns {
      assert dead[i] in gone;
      assert dead[i] in Elements(s.conns);
    }
  }

  // ----- a broadcast during which nothing leaves the list

  predicate Own(e: Event, b: nat) {
    e == CastStarted(b) || (e.SendEnded? && e.cast == b)
  }

  /** The event is the broadcast's own, or leaves everything listed in place. */
  predicate NothingLeaves(s: State, e: Event, b: nat) {
    Enabled(s, e) && !Own(e, b) ==> s.conns <= Next(s, e).conns
  }

  /** Everything visited so far is the front of the list; after the end, everything then listed was visited. */
  ghost predicate Undisturbed(s: State, b: nat) {
    && b in s.casts
    && !s.casts[b].Raised?
    && (s.casts[b].Sending? ==>
          && s.casts[b].next <= |s.conns|
          && s.casts[b].visited == s.conns[..s.casts[b].next]
          && Elements(s.casts[b].dead) <= Elements(s.casts[b].visited))
  }

  lemma QuietContinue(s: State, b: nat, next: nat, dead: seq<nat>)
    requires Inv(s) && next <= |s.conns| && Distinct(dead) && Elements(dead) <= Elements(s.conns[..next])
    ensures Undisturbed(Continue(s, b, next, s.conns[..next], dead), b)
    ensures next == |s.conns| ==>
              var s' := Continue(s, b, next, s.conns[..next], dead);
              s'.casts[b] == Completed(s.conns, dead) && s'.conns == Without(s.conns, Elements(dead))
  {
    if next < |s.conns| {
      assert s.conns[..next] + [s.conns[next]] == s.conns[..next + 1];
    } else {
      assert s.conns[..next] == s.conns;
      DistinctWithin(dead, s.conns);
      PruneSucceedsIff(s.conns, dead);
      PruneIsFilter(s.conns, dead);
    }
  }

  lemma CastsKept(s: State, e: Event, b: nat)
    requires Enabled(s, e)
    ensures b in Next(s, e).casts <==> b in s.casts || e == CastStarted(b)
    ensures b in s.casts && !Own(e, b) ==> Next(s, e).casts[b] == s.casts[b]
  {
  }

  lemma GrowthUndisturbed(s: State, s': State, b: nat)
    requires Undisturbed(s, b) && s.conns <= s'.conns && b in s'.casts && s'.casts[b] == s.casts[b]
    ensures Undisturbed(s', b)
  {
  }

  /** How a cast that nothing disturbs ends: it visited the whole list and dropped exactly the failures. */
  lemma QuietStep(s: State, b: nat, e: Event)
    requires Inv(s) && Enabled(s, e) && NothingLeaves(s, e, b)
    requires Undisturbed(s, b) || e == CastStarted(b)
    ensures Undisturbed(Next(s, e), b)
    ensures Own(e, b) && Next(s, e).casts[b].Completed? ==>
              var end := Next(s, e);
              end.casts[b].visited == s.conns && end.conns == Without(s.conns, Elements(end.casts[b].dead))
  {
    if e == CastStarted(b) {
      QuietContinue(s, b, 0, []);
    } else if Own(e, b) {
      var cast := s.casts[b];
      DeadAfterInv(s, cast, e.ok);
      QuietContinue(s, b, cast.next, DeadAfter(cast, e.ok));
    } else {
      CastsKept(s, e, b);
      GrowthUndisturbed(s, Next(s, e), b);
    }
  }

  /**
   A broadcast during which nothing leaves the list but by its own pruning, started in any reachable
   state, never raises; when it ends it has sent once to every listed socket in order, and the list
   keeps exactly the sockets whose send succeeded, in their order.
   */
  lemma {:induction false} QuietBroadcast(es: seq<Event>, b: nat, more: seq<Event>)
    requires Run(es).Some? && more != [] && more[0] == CastStarted(b)
    requires forall i: nat | i < |more| && Exec(Run(es).value, more[..i]).Some? ::
               NothingLeaves(Exec(Run(es).value, more[..i]).value, more[i], b)
    requires Exec(Run(es).value, more).Some?
    ensures var end := Exec(Run(es).value, more).value;
            && Undisturbed(end, b)
            && (Own(more[|more| - 1], b) && end.casts[b].Completed? ==>
                  var before := Exec(Run(es).value, more[..|more| - 1]).value;
                  && end.casts[b].visited == before.conns
                  && end.conns == Without(before.conns, Elements(end.casts[b].dead)))
    decreases |more|
  {
    var s := Run(es).value;
    var n := |more| - 1;
    var p := more[..n];
    ExecInv(START, es);
    ExecInv(s, p);
    if n > 0 {
      forall i: nat | i < n && Exec(s, p[..i]).Some? ensures NothingLeaves(Exec(s, p[..i]).value, p[i], b) {
        assert p[..i] == more[..i];
      }
      QuietBroadcast(es, b, p);
    }
    QuietStep(Exec(s, p).value, b, more[n]);
  }

  lemma Extend(es: seq<Event>, s: State, e: Event) returns (es': seq<Event>, s': State)
    requires Run(es) == Some(s) && Enabled(s, e)
    ensures es' == es + [e] && s' == Next(s, e) && Run(es') == Some(s')
  {
    es', s' := es + [e], Next(s, e);
    assert es'[..|es|] == es;
  }
}
