/**
 The publisher's cached connection and channel, for any number of callers that suspend at every
 await: `_get_channel` under its lock, `close` without it. Closing is permanent and closes a
 connection's channels; a failed open leaves nothing open.
 */
module Publisher {
  import opened Wrappers

  datatype Channel = Channel(conn: nat, isOpen: bool)

  /** Where a caller is suspended. */
  datatype Position =
    | WaitingForLock
    | Connecting                        // holds the lock, awaits connect_robust
    | OpeningChannel(conn: nat)         // holds the lock, awaits conn.channel()
    | ClosingChannel(channel: nat)      // in close(), awaits channel.close()
    | ClosingConnection(conn: nat)      // in close(), awaits connection.close()

  datatype World = World(
    conns: map<nat, bool>,              // every connection ever made, and whether it is open
    chans: map<nat, Channel>,           // every channel ever made
    connection: Option<nat>,            // _connection
    channel: Option<nat>,               // _channel
    lock: Option<nat>,                  // the caller that holds _lock
    callers: map<nat, Position>         // the calls under way
  )

  const START := World(map[], map[], None, None, None, map[])

  datatype Event =
    | GetCalled(p: nat)
    | LockGranted(p: nat)
    | WaitCancelled(p: nat)             // cancelled while it waits for the lock
    | Connected(p: nat, conn: nat)
    | ChannelOpened(p: nat, chan: nat)
    | OpenFailed(p: nat)                // connect or channel() raised, or was cancelled
    | CloseCalled(p: nat)
    | ChannelClosed(p: nat)
    | ConnectionClosed(p: nat)
    | CloseFailed(p: nat)
    | ConnectionDied(conn: nat)         // closed by the other side, for good
    | ChannelDied(chan: nat)

  predicate ConnOpen(w: World, k: nat) {
    k in w.conns && w.conns[k]
  }

  predicate ChanOpen(w: World, ch: nat) {
    ch in w.chans && w.chans[ch].isOpen
  }

  predicate ConnUsable(w: World) {
    w.connection.Some? && ConnOpen(w, w.connection.value)
  }

  predicate ChanUsable(w: World) {
    w.channel.Some? && ChanOpen(w, w.channel.value)
  }

  predicate At(w: World, p: nat, pos: Position) {
    p in w.callers && w.callers[p] == pos
  }

  predicate Enabled(w: World, e: Event) {
    match e
    case GetCalled(p) => p !in w.callers
    case LockGranted(p) => At(w, p, WaitingForLock) && w.lock.None?
    case WaitCancelled(p) => At(w, p, WaitingForLock)
    case Connected(p, k) => At(w, p, Connecting) && k !in w.conns
    case ChannelOpened(p, ch) =>
      p in w.callers && w.callers[p].OpeningChannel? && ConnOpen(w, w.callers[p].conn) && ch !in w.chans
    case OpenFailed(p) => p in w.callers && (w.callers[p].OpeningChannel? || w.callers[p] == Connecting)
    case CloseCalled(p) => p !in w.callers
    case ChannelClosed(p) => p in w.callers && w.callers[p].ClosingChannel?
    case ConnectionClosed(p) => p in w.callers && w.callers[p].ClosingConnection?
    case CloseFailed(p) => p in w.callers && (w.callers[p].ClosingChannel? || w.callers[p].ClosingConnection?)
    case ConnectionDied(k) => ConnOpen(w, k)
    case ChannelDied(ch) => ChanOpen(w, ch)
  }

  function Goto(w: World, p: nat, pos: Position): World {
    w.(callers := w.callers[p := pos])
  }

  function Leave(w: World, p: nat): World {
    w.(callers := w.callers - {p})
  }

  function ShutChannel(w: World, ch: nat): World {
    if ch in w.chans then w.(chans := w.chans[ch := w.chans[ch].(isOpen := false)]) else w
  }

  /** Closing a connection closes its channels with it. */
  function ShutConnection(w: World, k: nat): World {
    w.(conns := map x | x in w.conns :: w.conns[x] && x != k,
       chans := map ch | ch in w.chans :: w.chans[ch].(isOpen := w.chans[ch].isOpen && w.chans[ch].conn != k))
  }

  /** The second half of the locked section: reuse the channel or start opening one. */
  function CheckChannel(w: World, p: nat): World
    requires w.connection.Some?
  {
    if ChanUsable(w) then Leave(w, p).(lock := None)
    else Goto(w, p, OpeningChannel(w.connection.value))
  }

  function CheckConnection(w: World, p: nat): World {
    if ConnUsable(w) then CheckChannel(w, p) else Goto(w, p, Connecting)
  }

  /** The second half of close(). */
  function CloseConnectionNext(w: World, p: nat): World {
    if ConnUsable(w) then Goto(w, p, ClosingConnection(w.connection.value)) else Leave(w, p)
  }

  function Next(w: World, e: Event): World
    requires Enabled(w, e)
  {
    match e
    case GetCalled(p) => Goto(w, p, WaitingForLock)
    case LockGranted(p) => CheckConnection(w.(lock := Some(p)), p)
    case WaitCancelled(p) => Leave(w, p)
    case Connected(p, k) => CheckChannel(w.(conns := w.conns[k := true], connection := Some(k)), p)
    case ChannelOpened(p, ch) =>
      Leave(w, p).(chans := w.chans[ch := Channel(w.callers[p].conn, true)], channel := Some(ch), lock := None)
    case OpenFailed(p) => Leave(w, p).(lock := None)
    case CloseCalled(p) =>
      if ChanUsable(w) then Goto(w, p, ClosingChannel(w.channel.value)) else CloseConnectionNext(w, p)
    case ChannelClosed(p) => CloseConnectionNext(ShutChannel(w, w.callers[p].channel), p)
    case ConnectionClosed(p) => Leave(ShutConnection(w, w.callers[p].conn), p)
    case CloseFailed(p) => Leave(w, p)
    case ConnectionDied(k) => ShutConnection(w, k)
    case ChannelDied(ch) => ShutChannel(w, ch)
  }

  /** The channel a call of `_get_channel` hands out in this event, if it returns in it. */
  function Returned(w: World, e: Event): Option<nat>
    requires Enabled(w, e)
  {
    var w' := Next(w, e);
    match e
    case LockGranted(p) => if p in w'.callers then None else w'.channel
    case Connected(p, _) => if p in w'.callers then None else w'.channel
    case ChannelOpened(_, _) => w'.channel
    case _ => None
  }

  function Run(es: seq<Event>): Option<World> {
    if es == [] then Some(START)
    else
      match Run(es[..|es| - 1])
      case None => None
      case Some(w) => if Enabled(w, es[|es| - 1]) then Some(Next(w, es[|es| - 1])) else None
  }

  predicate InSection(w: World, p: nat) {
    p in w.callers && (w.callers[p] == Connecting || w.callers[p].OpeningChannel?)
  }

  /** Whatever is open is cached, and an open cached channel belongs to the open cached connection. */
  ghost predicate OnlyCachedOpen(w: World) {
    && (forall k: nat | ConnOpen(w, k) :: w.connection == Some(k))
    && (forall ch: nat | ChanOpen(w, ch) ::
          w.channel == Some(ch) && w.connection == Some(w.chans[ch].conn) && ConnOpen(w, w.chans[ch].conn))
  }

  /** One caller's part of the lock discipline: what it awaits inside the lock is still wanted. */
  ghost predicate LockInvFor(w: World, p: nat) {
    && (InSection(w, p) <==> w.lock == Some(p))
    && (At(w, p, Connecting) ==> !ConnUsable(w))
    && (p in w.callers && w.callers[p].OpeningChannel? ==>
          w.connection == Some(w.callers[p].conn) && !ChanUsable(w))
  }

  ghost predicate LockInv(w: World) {
    && (forall p :: LockInvFor(w, p))
    && (w.connection.Some? ==> w.connection.value in w.conns)
    && (w.channel.Some? ==> w.channel.value in w.chans)
  }

  lemma SectionStepFor(w: World, e: Event, q: nat)
    requires OnlyCachedOpen(w) && LockInv(w) && Enabled(w, e)
    ensures LockInvFor(Next(w, e), q)
  {
    assert LockInvFor(w, q);
    match e
    case LockGranted(p) => assert LockInvFor(w, p);
    case Connected(p, k) => assert LockInvFor(w, p);
    case ChannelOpened(p, ch) => assert LockInvFor(w, p);
    case OpenFailed(p) => assert LockInvFor(w, p);
    case ChannelClosed(p) => assert LockInvFor(w, p);
    case _ =>
  }

  lemma SectionStep(w: World, e: Event)
    requires OnlyCachedOpen(w) && LockInv(w) && Enabled(w, e)
    ensures LockInv(Next(w, e))
  {
    forall q ensures LockInvFor(Next(w, e), q) {
      SectionStepFor(w, e, q);
    }
  }

  lemma CachedStep(w: World, e: Event)
    requires OnlyCachedOpen(w) && LockInv(w) && Enabled(w, e)
    ensures OnlyCachedOpen(Next(w, e))
  {
    match e
    case Connected(p, k) => assert LockInvFor(w, p);
    case ChannelOpened(p, ch) => assert LockInvFor(w, p);
    case _ =>
  }

  /**
   For any interleaving of calls, closes, failures and disconnects: every connection and channel
   ever made is closed except the cached ones, and at most one caller is inside the lock.
   */
  lemma {:induction false} NothingLeaks(es: seq<Event>)
    requires Run(es).Some?
    ensures OnlyCachedOpen(Run(es).value) && LockInv(Run(es).value)
  {
    if es != [] {
      var p := es[..|es| - 1];
      NothingLeaks(p);
      SectionStep(Run(p).value, es[|es| - 1]);
      CachedStep(Run(p).value, es[|es| - 1]);
    }
  }

  /** The connections and the channels that are open. */
  function OpenConnections(w: World): set<nat> {
    set k | k in w.conns && w.conns[k]
  }

  function OpenChannels(w: World): set<nat> {
    set ch | ch in w.chans && w.chans[ch].isOpen
  }

  lemma AtMostOne(xs: set<nat>, x: Option<nat>)
    requires forall y | y in xs :: x == Some(y)
    ensures |xs| <= 1
  {
    if x.Some? {
      assert xs == {} || xs == {x.value};
    } else {
      assert xs == {};
    }
  }

  /** At most one connection and one channel are open at any time. */
  lemma AtMostOneOpen(es: seq<Event>)
    requires Run(es).Some?
    ensures |OpenConnections(Run(es).value)| <= 1 && |OpenChannels(Run(es).value)| <= 1
  {
    NothingLeaks(es);
    var w := Run(es).value;
    assert forall k | k in OpenConnections(w) :: ConnOpen(w, k);
    assert forall ch | ch in OpenChannels(w) :: ChanOpen(w, ch);
    AtMostOne(OpenConnections(w), w.connection);
    AtMostOne(OpenChannels(w), w.channel);
  }

  /** A channel handed out is open, cached, and on the open cached connection, at the moment of the return. */
  lemma ReturnedChannelUsable(es: seq<Event>, e: Event, ch: nat)
    requires Run(es).Some? && Enabled(Run(es).value, e) && Returned(Run(es).value, e) == Some(ch)
    ensures var w := Next(Run(es).value, e);
            && ChanOpen(w, ch) && w.channel == Some(ch)
            && ConnOpen(w, w.chans[ch].conn) && w.connection == Some(w.chans[ch].conn)
  {
    NothingLeaks(es);
    var w := Run(es).value;
    CachedStep(w, e);
    SectionStep(w, e);
  }

  /** The event closes this connection. */
  predicate ShutsDown(w: World, e: Event, k: nat) {
    e == ConnectionDied(k) || (e.ConnectionClosed? && At(w, e.p, ClosingConnection(k)))
  }

  /**
   A connection is opened by a call that connects and closed by its own death or a close() that waits
   for just it; a channel likewise, or together with its connection. Nothing else opens or closes either.
   */
  lemma OpenedAndClosedBy(es: seq<Event>, e: Event, k: nat, ch: nat)
    requires Run(es).Some? && Enabled(Run(es).value, e)
    ensures var w := Run(es).value;
            var w' := Next(w, e);
            && (ConnOpen(w', k) <==> (ConnOpen(w, k) && !ShutsDown(w, e, k)) || (e.Connected? && e.conn == k))
            && (ChanOpen(w', ch) <==>
                  || (ChanOpen(w, ch) && e != ChannelDied(ch) && !ShutsDown(w, e, w.chans[ch].conn)
                      && !(e.ChannelClosed? && At(w, e.p, ClosingChannel(ch))))
                  || (e.ChannelOpened? && e.chan == ch))
  {
    NothingLeaks(es);
  }

  /**
   A call that leaves `_get_channel` without failing or being cancelled hands out a channel, in just
   that event; no other event does.
   */
  lemma ReturnsUnlessFailed(es: seq<Event>, e: Event)
    requires Run(es).Some? && Enabled(Run(es).value, e)
    ensures var w := Run(es).value;
            Returned(w, e).Some? <==>
              && !e.WaitCancelled? && !e.OpenFailed?
              && exists p :: (InSection(w, p) || At(w, p, WaitingForLock)) && p !in Next(w, e).callers
  {
    NothingLeaks(es);
    var w := Run(es).value;
    if Returned(w, e).Some? {
      assert (InSection(w, e.p) || At(w, e.p, WaitingForLock)) && e.p !in Next(w, e).callers;
    }
  }

  /** No open connection and no open channel. */
  ghost predicate AllClosed(w: World) {
    (forall k: nat :: !ConnOpen(w, k)) && (forall ch: nat :: !ChanOpen(w, ch))
  }

  /**
   A close() that returns after closing a connection leaves everything closed iff no caller has
   replaced that connection by an open one while close() was suspended.
   */
  lemma CloseReturnsAllClosed(es: seq<Event>, p: nat, k: nat)
    requires Run(es).Some? && At(Run(es).value, p, ClosingConnection(k))
    ensures AllClosed(Next(Run(es).value, ConnectionClosed(p))) <==>
              (Run(es).value.connection == Some(k) || !ConnUsable(Run(es).value))
  {
    NothingLeaks(es);
    var w := Run(es).value;
    var w' := Next(w, ConnectionClosed(p));
    CachedStep(w, ConnectionClosed(p));
    if w.connection != Some(k) && ConnUsable(w) {
      assert ConnOpen(w', w.connection.value);
    } else {
      assert forall k: nat | ConnOpen(w', k) :: ConnOpen(w, k);
      assert forall ch: nat | ChanOpen(w', ch) :: ChanOpen(w, ch);
    }
  }

  /** A close() that has nothing to await when it looks at the connection leaves everything closed. */
  lemma CloseWithoutConnection(es: seq<Event>, e: Event, p: nat)
    requires Run(es).Some? && Enabled(Run(es).value, e)
    requires e == CloseCalled(p) || e == ChannelClosed(p)
    ensures p !in Next(Run(es).value, e).callers <==> AllClosed(Next(Run(es).value, e))
    ensures e == ChannelClosed(p) ==> !ChanOpen(Next(Run(es).value, e), Run(es).value.callers[p].channel)
  {
    NothingLeaks(es);
    var w := Run(es).value;
    var w' := Next(w, e);
    CachedStep(w, e);
    if p in w'.callers {
      assert w'.callers[p].ClosingChannel? || ConnOpen(w', w'.connection.value);
      assert w'.callers[p].ClosingChannel? ==> ChanOpen(w', w'.channel.value);
    }
  }

  lemma Extend(es: seq<Event>, w: World, e: Event) returns (es': seq<Event>, w': World)
    requires Run(es) == Some(w) && Enabled(w, e)
    ensures es' == es + [e] && w' == Next(w, e) && Run(es') == Some(w')
  {
    es', w' := es + [e], Next(w, e);
    assert es'[..|es|] == es;
  }

  // ----- a call of _get_channel that nothing overtakes

  /** What it does to the cache, given what connecting and opening a channel yield, None if they raise. */
  function GetAlone(w: World, newConn: Option<nat>, newChan: Option<nat>): World {
    var w' := if ConnUsable(w) || newConn.None? then w
              else w.(conns := w.conns[newConn.value := true], connection := newConn);
    if !ConnUsable(w') || ChanUsable(w') || newChan.None? then w'
    else w'.(chans := w'.chans[newChan.value := Channel(w'.connection.value, true)], channel := newChan)
  }

  predicate CanGetAlone(w: World, p: nat, newConn: Option<nat>, newChan: Option<nat>) {
    && w.lock.None? && p !in w.callers
    && (newConn.Some? ==> newConn.value !in w.conns)
    && (newChan.Some? ==> newChan.value !in w.chans)
  }

  /** The same world, but for this caller holding the lock. */
  function Inside(w: World, p: nat, pos: Position): World {
    w.(lock := Some(p), callers := w.callers[p := pos])
  }

  lemma EntersLock(es: seq<Event>, w: World, p: nat) returns (es': seq<Event>)
    requires Run(es) == Some(w) && w.lock.None? && p !in w.callers
    ensures Run(es') == Some(CheckConnection(Inside(w, p, WaitingForLock), p))
  {
    var v;
    es', v := Extend(es, w, GetCalled(p));
    es', v := Extend(es', v, LockGranted(p));
  }

  /** The rest of the call once the connection is usable. */
  lemma FinishesAlone(es: seq<Event>, w: World, p: nat, pos: Position, newChan: Option<nat>)
    requires w.lock.None? && p !in w.callers && ConnUsable(w) && (newChan.Some? ==> newChan.value !in w.chans)
    requires Run(es) == Some(CheckChannel(Inside(w, p, pos), p))
    ensures exists es' :: Run(es') == Some(GetAlone(w, None, newChan))
  {
    if ChanUsable(w) {
      assert CheckChannel(Inside(w, p, pos), p) == w;
    } else {
      var es', w' := Extend(es, CheckChannel(Inside(w, p, pos), p),
                            if newChan.Some? then ChannelOpened(p, newChan.value) else OpenFailed(p));
      assert w' == GetAlone(w, None, newChan);
    }
  }

  /** The call's events, one after the other, lead there. */
  lemma GetAloneReached(es: seq<Event>, w: World, p: nat, newConn: Option<nat>, newChan: Option<nat>)
    requires Run(es) == Some(w) && CanGetAlone(w, p, newConn, newChan)
    ensures exists es' :: Run(es') == Some(GetAlone(w, newConn, newChan))
  {
    var es' := EntersLock(es, w, p);
    if ConnUsable(w) {
      FinishesAlone(es', w, p, WaitingForLock, newChan);
    } else {
      var v := Inside(w, p, Connecting);
      assert CheckConnection(Inside(w, p, WaitingForLock), p) == v;
      if newConn.None? {
        es', v := Extend(es', v, OpenFailed(p));
        assert v == w;
      } else {
        var k := newConn.value;
        var w' := w.(conns := w.conns[k := true], connection := Some(k));
        es', v := Extend(es', v, Connected(p, k));
        assert v == CheckChannel(Inside(w', p, Connecting), p);
        FinishesAlone(es', w', p, Connecting, newChan);
      }
    }
  }

  /**
   It ends with a usable channel on a usable connection iff nothing it needs raises, and changes
   nothing iff the cached channel was usable to begin with; then it needs nothing.
   */
  lemma GetAloneOutcome(es: seq<Event>, w: World, newConn: Option<nat>, newChan: Option<nat>)
    requires Run(es) == Some(w)
    ensures ChanUsable(w) ==> ConnUsable(w)
    ensures var w' := GetAlone(w, newConn, newChan);
            && (ChanUsable(w') <==> (ConnUsable(w) || newConn.Some?) && (ChanUsable(w) || newChan.Some?))
            && (ChanUsable(w') ==> ConnUsable(w') && w'.connection == Some(w'.chans[w'.channel.value].conn))
            && (ChanUsable(w') ==> (w' == w <==> ChanUsable(w)))
  {
    NothingLeaks(es);
  }

  // ----- a call of close that nothing overtakes

  /** What it does, given which of the two awaited closes succeed; one that does not ends the call. */
  function CloseAlone(w: World, channelCloses: bool, connectionCloses: bool): World {
    var w' := if ChanUsable(w) && channelCloses then ShutChannel(w, w.channel.value) else w;
    if ChanUsable(w') || !ConnUsable(w') || !connectionCloses then w'
    else ShutConnection(w', w'.connection.value)
  }

  /** The rest of the call from the look at the connection on. */
  lemma ClosesConnectionAlone(es: seq<Event>, w: World, p: nat, connectionCloses: bool)
    requires p !in w.callers && !ChanUsable(w) && Run(es) == Some(CloseConnectionNext(w, p))
    ensures exists es' :: Run(es') == Some(CloseAlone(w, false, connectionCloses))
  {
    if ConnUsable(w) {
      var es', v := Extend(es, CloseConnectionNext(w, p),
                           if connectionCloses then ConnectionClosed(p) else CloseFailed(p));
      assert v == CloseAlone(w, false, connectionCloses);
    } else {
      assert CloseConnectionNext(w, p) == w;
    }
  }

  lemma CloseAloneReached(es: seq<Event>, w: World, p: nat, channelCloses: bool, connectionCloses: bool)
    requires Run(es) == Some(w) && p !in w.callers
    ensures exists es' :: Run(es') == Some(CloseAlone(w, channelCloses, connectionCloses))
  {
    var es', v := Extend(es, w, CloseCalled(p));
    if !ChanUsable(w) {
      ClosesConnectionAlone(es', w, p, connectionCloses);
    } else if channelCloses {
      es', v := Extend(es', v, ChannelClosed(p));
      var shut := ShutChannel(w, w.channel.value);
      assert v == CloseConnectionNext(shut, p);
      ClosesConnectionAlone(es', shut, p, connectionCloses);
    } else {
      es', v := Extend(es', v, CloseFailed(p));
      assert v == w;
    }
  }

  /** It leaves everything closed iff no close it has to await fails; the stale references stay. */
  lemma CloseAloneOutcome(es: seq<Event>, w: World, channelCloses: bool, connectionCloses: bool)
    requires Run(es) == Some(w)
    ensures var w' := CloseAlone(w, channelCloses, connectionCloses);
            && (AllClosed(w') <==> (ChanUsable(w) ==> channelCloses) && (ConnUsable(w) ==> connectionCloses))
            && w'.connection == w.connection && w'.channel == w.channel
  {
    NothingLeaks(es);
    var w' := CloseAlone(w, channelCloses, connectionCloses);
    if ChanUsable(w) && !channelCloses {
      assert ChanOpen(w', w.channel.value);
    } else if ConnUsable(w) && !connectionCloses {
      assert ConnOpen(w', w.connection.value);
    } else {
      assert forall k: nat | ConnOpen(w', k) :: ConnOpen(w, k);
      assert forall ch: nat | ChanOpen(w', ch) :: ChanOpen(w, ch);
    }
  }

  lemma OneConnectionMade() returns (es: seq<Event>, w: World)
    ensures Run(es) == Some(w)
    ensures w == World(map[0 := true], map[], Some(0), None, None, map[])
  {
    es, w := Extend([], START, GetCalled(0));
    es, w := Extend(es, w, LockGranted(0));
    es, w := Extend(es, w, Connected(0, 0));
    es, w := Extend(es, w, OpenFailed(0));
    assert w.callers == map[];
  }

  /** A close() suspended on a connection that dies can be overtaken by a caller that connects afresh. */
  lemma CloseCanBeOvertaken()
    ensures exists es :: Run(es).Some? && At(Run(es).value, 1, ClosingConnection(0))
                         && Run(es).value.connection == Some(1) && ConnUsable(Run(es).value)
  {
    var es, w := OneConnectionMade();
    es, w := Extend(es, w, CloseCalled(1));
    es, w := Extend(es, w, ConnectionDied(0));
    assert w == World(map[0 := false], map[], Some(0), None, None, map[1 := ClosingConnection(0)]);
    es, w := Extend(es, w, GetCalled(0));
    es, w := Extend(es, w, LockGranted(0));
    es, w := Extend(es, w, Connected(0, 1));
    assert ConnUsable(w);
  }
}
