/**
 The publisher module itself: two cached references and a lock. Its methods are whole calls that
 nothing overtakes; how a call is overtaken is the machine's matter.
 */
module PublisherModule {
  import opened Wrappers
  import P = Publisher

  class Cache {
    var connection: Option<nat>
    var channel: Option<nat>
    var lock: Option<nat>
    var callers: map<nat, P.Position>     // the other calls under way, each suspended somewhere
    var conns: map<nat, bool>
    var chans: map<nat, P.Channel>

    function Snapshot(): P.World
      reads this
    {
      P.World(conns, chans, connection, channel, lock, callers)
    }

    /** Some interleaving of callers, closes and disconnects leads here. */
    ghost predicate Valid()
      reads this
    {
      exists es :: P.Run(es) == Some(Snapshot())
    }

    constructor ()
      ensures Valid() && Snapshot() == P.START
    {
      connection, channel, lock, callers, conns, chans := None, None, None, map[], map[], map[];
      new;
      assert P.Run([]) == Some(Snapshot());
    }

    /**
     The whole of `_get_channel`, with the lock free. `newConn` and `newChan` are what connecting
     and opening a channel would yield, None if that raises; the call then raises too.
     It hands out the open cached channel on the open cached connection; it makes a connection iff
     the cached one is not usable, and a channel iff the cached one is not usable, one at most of each.
     */
    method GetChannel(p: nat, newConn: Option<nat>, newChan: Option<nat>) returns (result: Option<nat>)
      requires Valid() && P.CanGetAlone(Snapshot(), p, newConn, newChan)
      modifies this
      ensures Valid() && lock == old(lock) && callers == old(callers)
      ensures result == if P.ChanUsable(Snapshot()) then channel else None
      ensures result.Some? ==> P.ConnUsable(Snapshot()) && connection == Some(chans[result.value].conn)
      ensures result.Some? <==>
                (old(P.ConnUsable(Snapshot())) || newConn.Some?) && (old(P.ChanUsable(Snapshot())) || newChan.Some?)
      ensures result.Some? ==> (Snapshot() == old(Snapshot()) <==> old(P.ChanUsable(Snapshot())))
      ensures conns == if old(P.ConnUsable(Snapshot())) || newConn.None? then old(conns)
                       else old(conns)[newConn.value := true]
      ensures chans == if old(P.ChanUsable(Snapshot())) || result.None? then old(chans)
                       else old(chans)[newChan.value := P.Channel(connection.value, true)]
      ensures connection == if old(P.ConnUsable(Snapshot())) || newConn.None? then old(connection) else newConn
      ensures channel == if old(P.ChanUsable(Snapshot())) || result.None? then old(channel) else newChan
    {
      ghost var es :| P.Run(es) == Some(Snapshot());
      P.GetAloneReached(es, Snapshot(), p, newConn, newChan);
      P.GetAloneOutcome(es, Snapshot(), newConn, newChan);
      result := OpenWhatIsMissing(p, newConn, newChan);
    }

    /** The call's own statements. */
    method OpenWhatIsMissing(p: nat, newConn: Option<nat>, newChan: Option<nat>) returns (result: Option<nat>)
      requires P.CanGetAlone(Snapshot(), p, newConn, newChan)
      requires P.ChanUsable(Snapshot()) ==> P.ConnUsable(Snapshot())
      modifies this
      ensures Snapshot() == P.GetAlone(old(Snapshot()), newConn, newChan)
      ensures result == if P.ChanUsable(Snapshot()) then channel else None
    {
      lock := Some(p);
      if connection.None? || !(connection.value in conns && conns[connection.value]) {
        if newConn.None? {
          lock := None;
          return None;
        }
        conns := conns[newConn.value := true];
        connection := newConn;
      }
      if channel.None? || !(channel.value in chans && chans[channel.value].isOpen) {
        if newChan.None? {
          lock := None;
          return None;
        }
        chans := chans[newChan.value := P.Channel(connection.value, true)];
        channel := newChan;
      }
      lock := None;
      result := channel;
    }

    /**
     The whole of `close`; the flags say whether each awaited close succeeds, and one that does not
     ends the call. The call returns normally iff it leaves everything closed.
     */
    method Close(p: nat, channelCloses: bool, connectionCloses: bool) returns (ok: bool)
      requires Valid() && p !in callers
      modifies this`conns, this`chans
      ensures Valid() && (ok <==> P.AllClosed(Snapshot()))
      ensures ok <==>
                && (old(P.ChanUsable(Snapshot())) ==> channelCloses)
                && (old(P.ConnUsable(Snapshot())) ==> connectionCloses)
      ensures !ok ==>
                && conns == old(conns)
                && (P.ChanUsable(Snapshot()) <==> old(P.ChanUsable(Snapshot())) && !channelCloses)
      ensures conns.Keys == old(conns.Keys) && chans.Keys == old(chans.Keys)
    {
      ghost var es :| P.Run(es) == Some(Snapshot());
      P.CloseAloneReached(es, Snapshot(), p, channelCloses, connectionCloses);
      P.CloseAloneOutcome(es, Snapshot(), channelCloses, connectionCloses);
      ok := CloseWhatIsOpen(channelCloses, connectionCloses);
    }

    /** The call's own statements. */
    method CloseWhatIsOpen(channelCloses: bool, connectionCloses: bool) returns (ok: bool)
      modifies this`conns, this`chans
      ensures Snapshot() == P.CloseAlone(old(Snapshot()), channelCloses, connectionCloses)
      ensures ok <==>
                && (old(P.ChanUsable(Snapshot())) ==> channelCloses)
                && (old(P.ConnUsable(Snapshot())) ==> connectionCloses)
    {
      if channel.Some? && channel.value in chans && chans[channel.value].isOpen {
        if !channelCloses {
          return false;
        }
        chans := chans[channel.value := chans[channel.value].(isOpen := false)];
      }
      if connection.Some? && connection.value in conns && conns[connection.value] {
        if !connectionCloses {
          return false;
        }
        ConnectionGone(connection.value);
      }
      ok := true;
    }

    /** What closing a connection does to the objects: it and its channels are closed. */
    method ConnectionGone(k: nat)
      requires k in conns
      modifies this`conns, this`chans
      ensures Snapshot() == P.ShutConnection(old(Snapshot()), k)
    {
      chans := map ch | ch in chans :: chans[ch].(isOpen := chans[ch].isOpen && chans[ch].conn != k);
      conns := conns[k := false];
    }
  }
}
