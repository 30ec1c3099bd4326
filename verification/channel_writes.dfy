/** What one write on a logical channel puts on which link, and exactly when it
    reports success. */
module ChannelWrites {
  import opened Bytes
  import opened Channel
  import opened Migration

  /** A message that is numbered and retained. */
  predicate Retained(ch: Chan, msg: Message) { msg.Data? && ch.migration }

  /** What the switch to the relay writes. */
  ghost function Takeover(ch: Chan, reason: string): seq<Sent>
    requires ch.fallback.Some?
  {
    var relay := ch.fallback.value;
    if ch.migration then [Sent(relay, Migrate(ch.id, reason))] + Frames(relay, InOrder(ch.pending)) else []
  }

  /** The frames that bring a message across after its first write failed: the
      control message and the replay on a migrating channel, then the message
      itself unless the replay contains it. */
  ghost function Rescue(ch: Chan, msg: Message): seq<Sent>
    requires ch.fallback.Some?
  {
    Takeover(Stamp(ch, msg).0, "write failure")
    + if Retained(ch, msg) then [] else [Sent(ch.fallback.value, Stamp(ch, msg).1)]
  }

  /** What a failed first write leaves on the link. */
  function Leftover(link: LinkID, m: Message, script: seq<Outcome>): seq<Sent> {
    if script != [] && script[0] == LeftButFailed then [Sent(link, m)] else []
  }

  ghost predicate Writable(ch: Chan, msg: Message) { !msg.NoMessage? && !ch.closed && ch.writer.Some? }

  ghost predicate Rescued(ch: Chan, msg: Message, script: seq<Outcome>) {
    !msg.Migrate? && ch.fallback.Some? && script != [] && LinkUp(script[1..], |Rescue(ch, msg)|)
  }

  lemma Behind(trace: seq<Sent>, first: seq<Sent>, rest: seq<Sent>)
    ensures trace + first + rest == trace + (first + rest)
  {
  }

  lemma {:induction false} SendAllIff(net: Net, link: LinkID, msgs: seq<DataMessage>)
    ensures SendAll(net, link, msgs).1 <==> LinkUp(net.script, |msgs|)
    ensures SendAll(net, link, msgs).1 ==> SendAll(net, link, msgs).0 == Net(net.trace + Frames(link, msgs), net.script[|msgs|..])
    decreases |msgs|
  {
    if msgs == [] {
      assert net.trace + [] == net.trace;
    } else {
      LinkUpMore(net.script, 1, |msgs| - 1);
      if LinkUp(net.script, 1) {
        var sent := [Sent(link, Data(msgs[0]))];
        SendOnLiveLink(net, link, Data(msgs[0]), 0);
        SendAllIff(Net(net.trace + sent, net.script[1..]), link, msgs[1..]);
        Behind(net.trace, sent, Frames(link, msgs[1..]));
      }
      if LinkUp(net.script, |msgs|) {
        assert net.script[1..][|msgs| - 1..] == net.script[|msgs|..];
      }
    }
  }

  lemma LinkUpMore(script: seq<Outcome>, k: nat, n: nat)
    ensures LinkUp(script, k + n) <==> LinkUp(script, k) && LinkUp(script[k..], n)
  {
    if LinkUp(script, k) && LinkUp(script[k..], n) {
      forall i | 0 <= i < k + n
        ensures script[i] == Delivered
      {
        if i >= k {
          assert script[i] == script[k..][i - k];
        }
      }
    }
  }

  lemma {:induction false} FramesCount(link: LinkID, msgs: seq<DataMessage>)
    ensures |Frames(link, msgs)| == |msgs|
    decreases |msgs|
  {
    if msgs != [] {
      FramesCount(link, msgs[1..]);
    }
  }

  /** Messages in order behind a control message. */
  lemma SendAllBehind(net: Net, first: Sent, link: LinkID, msgs: seq<DataMessage>)
    requires LinkUp(net.script, 1)
    ensures SendAll(Net(net.trace + [first], net.script[1..]), link, msgs).1 <==> LinkUp(net.script, 1 + |msgs|)
    ensures LinkUp(net.script, 1 + |msgs|) ==>
              SendAll(Net(net.trace + [first], net.script[1..]), link, msgs).0
                == Net(net.trace + ([first] + Frames(link, msgs)), net.script[1 + |msgs|..])
  {
    SendAllIff(Net(net.trace + [first], net.script[1..]), link, msgs);
    LinkUpMore(net.script, 1, |msgs|);
    Behind(net.trace, [first], Frames(link, msgs));
    if LinkUp(net.script, 1 + |msgs|) {
      assert net.script[1..][|msgs|..] == net.script[1 + |msgs|..];
    }
  }

  /** Sending a control message and then messages is sending these frames. */
  lemma AnnouncedSend(net: Net, link: LinkID, m: Message, msgs: seq<DataMessage>, frames: seq<Sent>, n: nat)
    requires frames == [Sent(link, m)] + Frames(link, msgs) && n == 1 + |msgs|
    ensures Send(net, link, m).1 && SendAll(Send(net, link, m).0, link, msgs).1 <==> LinkUp(net.script, n)
    ensures LinkUp(net.script, n) ==> SendAll(Send(net, link, m).0, link, msgs).0 == Net(net.trace + frames, net.script[n..])
  {
    if LinkUp(net.script, 1) {
      var after := Net(net.trace + [Sent(link, m)], net.script[1..]);
      assert Send(net, link, m) == (after, true);
      SendAllBehind(net, Sent(link, m), link, msgs);
    } else {
      assert !Send(net, link, m).1;
    }
  }

  /** The switch to the relay succeeds exactly when all of that is taken. */
  lemma FallbackWrites(ch: Chan, net: Net, reason: string)
    requires !ch.closed && ch.fallback.Some?
    ensures var o, frames := ToFallback(ch, net, reason), Takeover(ch, reason);
            && o.ch == ch.(writer := ch.fallback, path := Relay)
            && (o.status == Ok <==> LinkUp(net.script, |frames|))
            && (o.status == Ok ==> o.net == Net(net.trace + frames, net.script[|frames|..]))
  {
    if ch.migration {
      FramesCount(ch.fallback.value, InOrder(ch.pending));
      AnnouncedSend(net, ch.fallback.value, Migrate(ch.id, reason), InOrder(ch.pending), Takeover(ch, reason), |Takeover(ch, reason)|);
    } else {
      assert net.trace + [] == net.trace;
    }
  }

  /** After a failed write: success exactly when all the frames of the rescue
      are taken, and these are then what was written. */
  lemma RecoverWrites(ch: Chan, msg: Message, net: Net)
    requires !ch.closed && ch.fallback.Some?
    ensures var (c, m) := Stamp(ch, msg); var o := Recover(c, net, m);
            && o.ch == c.(writer := ch.fallback, path := Relay)
            && (o.status == Ok || o.status == TransportDown)
            && (o.status == Ok <==> LinkUp(net.script, |Rescue(ch, msg)|))
            && (o.status == Ok ==> o.net.trace == net.trace + Rescue(ch, msg))
  {
    var (c, m) := Stamp(ch, msg);
    var f := ToFallback(c, net, "write failure");
    var relay := ch.fallback.value;
    var frames := Takeover(c, "write failure");
    FallbackWrites(c, net, "write failure");
    if Retained(ch, msg) {
      assert Rescue(ch, msg) == frames;
    } else {
      assert Rescue(ch, msg) == frames + [Sent(relay, m)];
      LinkUpMore(net.script, |frames|, 1);
      Behind(net.trace, frames, [Sent(relay, m)]);
      if LinkUp(net.script, |frames| + 1) {
        SendOnLiveLink(f.net, relay, m, 0);
      }
    }
  }

  /** A write succeeds exactly when its link takes the message, or when the
      relay takes the whole rescue. */
  lemma WriteOkIff(ch: Chan, net: Net, msg: Message)
    ensures Write(ch, net, msg).status == Ok <==>
              Writable(ch, msg) && (LinkUp(net.script, 1) || Rescued(ch, msg, net.script))
  {
    if Writable(ch, msg) {
      var (c, m) := Stamp(ch, msg);
      var (n, ok) := Send(net, ch.writer.value, m);
      if !ok && !m.Migrate? && ch.fallback.Some? {
        RecoverWrites(ch, msg, n);
        RescueNotEmpty(ch, msg);
      }
    }
  }

  lemma RescueNotEmpty(ch: Chan, msg: Message)
    requires ch.fallback.Some?
    ensures Rescue(ch, msg) != []
  {
  }

  /** What a successful write has written: on an undisturbed link the message,
      last and on the channel's link; after a failover the rescue, on the relay,
      which is then the channel's link. */
  lemma WriteDelivers(ch: Chan, net: Net, msg: Message)
    requires Write(ch, net, msg).status == Ok
    ensures var (c, m) := Stamp(ch, msg); var o := Write(ch, net, msg);
            if LinkUp(net.script, 1) then o.ch == c && ch.writer.Some? && o.net.trace == net.trace + [Sent(ch.writer.value, m)]
            else
              && ch.writer.Some? && ch.fallback.Some? && o.ch == c.(writer := ch.fallback, path := Relay)
              && o.net.trace == net.trace + Leftover(ch.writer.value, m, net.script) + Rescue(ch, msg)
  {
    var (c, m) := Stamp(ch, msg);
    var (n, ok) := Send(net, ch.writer.value, m);
    if !ok {
      RecoverWrites(ch, msg, n);
      assert n.trace == net.trace + Leftover(ch.writer.value, m, net.script);
    }
  }

  /** The rescue ends with the message, or contains it when it is retained. */
  lemma RescueCarries(ch: Chan, msg: Message)
    requires ch.fallback.Some? && KeyedBySequence(ch.pending)
    ensures var m := Stamp(ch, msg).1; var frames := Rescue(ch, msg);
            && Sent(ch.fallback.value, m) in frames
            && (Retained(ch, msg) || frames[|frames| - 1] == Sent(ch.fallback.value, m))
  {
    var (c, m) := Stamp(ch, msg);
    if Retained(ch, msg) {
      var msgs := InOrder(c.pending);
      InOrderMembers(c.pending, m.data);
      var i :| 0 <= i < |msgs| && msgs[i] == m.data;
      FrameAt(ch.fallback.value, msgs, i);
      assert Rescue(ch, msg)[1 + i] == Sent(ch.fallback.value, m);
    }
  }

  lemma FoundBehind(trace: seq<Sent>, left: seq<Sent>, frames: seq<Sent>, x: Sent)
    requires x in frames
    ensures exists i :: |trace| <= i < |trace + left + frames| && (trace + left + frames)[i] == x
  {
    var i :| 0 <= i < |frames| && frames[i] == x;
    assert (trace + left + frames)[|trace| + |left| + i] == x;
  }

  /** A write that reports success has put its message on a link: no message is
      lost behind an Ok. */
  lemma OkIsWritten(ch: Chan, net: Net, msg: Message)
    requires KeyedBySequence(ch.pending) && Write(ch, net, msg).status == Ok
    ensures net.trace <= Write(ch, net, msg).net.trace
    ensures exists i :: |net.trace| <= i < |Write(ch, net, msg).net.trace|
                        && Write(ch, net, msg).net.trace[i].msg == Stamp(ch, msg).1
  {
    var m, trace := Stamp(ch, msg).1, Write(ch, net, msg).net.trace;
    WriteDelivers(ch, net, msg);
    if LinkUp(net.script, 1) {
      assert trace[|net.trace|].msg == m;
    } else {
      RescueCarries(ch, msg);
      FoundBehind(net.trace, Leftover(ch.writer.value, m, net.script), Rescue(ch, msg), Sent(ch.fallback.value, m));
    }
  }

  /** Why a write fails, and what it then leaves of the channel. A message of
      any kind but a control message moves the channel to its relay, whatever
      becomes of the rescue; a retained message stays retained. */
  lemma WriteFails(ch: Chan, net: Net, msg: Message)
    requires Write(ch, net, msg).status != Ok
    ensures var c := Stamp(ch, msg).0; var o := Write(ch, net, msg);
            && (msg.NoMessage? <==> o.status == NilMessage)
            && (!msg.NoMessage? && ch.closed <==> o.status == Closed)
            && (!msg.NoMessage? && !ch.closed && ch.writer.None? <==> o.status == NoWriter)
            && (Writable(ch, msg) && msg.Migrate? <==> o.status == WriteFailed)
            && (Writable(ch, msg) && !msg.Migrate? <==> o.status == TransportDown)
            && (msg.NoMessage? || ch.closed || ch.writer.None? ==> o.net == net)
            && (msg.NoMessage? || ch.closed ==> o.ch == ch)
            && (!msg.NoMessage? && !ch.closed ==>
                  o.ch == if Writable(ch, msg) && !msg.Migrate? && ch.fallback.Some? then c.(writer := ch.fallback, path := Relay) else c)
  {
    if Writable(ch, msg) {
      var (c, m) := Stamp(ch, msg);
      if !m.Migrate? && ch.fallback.Some? {
        RecoverWrites(ch, msg, Send(net, ch.writer.value, m).0);
      }
    }
  }

  // ------------------------------------------------------- replay and switches

  /** How many of n frames leave before the first write that fails, that write
      included when its frame left. */
  function Leaving(script: seq<Outcome>, n: nat): (k: nat)
    ensures k <= n
  {
    if n == 0 || script == [] || script[0] == Refused then 0
    else if script[0] == LeftButFailed then 1
    else 1 + Leaving(script[1..], n - 1)
  }

  lemma OneFrame(link: LinkID, msgs: seq<DataMessage>)
    requires msgs != []
    ensures Frames(link, msgs[..1]) == [Sent(link, Data(msgs[0]))]
  {
    assert msgs[..1][1..] == [];
  }

  lemma FramesLead(link: LinkID, msgs: seq<DataMessage>, k: nat)
    requires k < |msgs|
    ensures Frames(link, msgs[..k + 1]) == [Sent(link, Data(msgs[0]))] + Frames(link, msgs[1..][..k])
  {
    assert msgs[..k + 1][1..] == msgs[1..][..k];
  }

  /** Messages leave in order and none is skipped: the first failure ends it. */
  lemma {:induction false} SendAllInOrder(net: Net, link: LinkID, msgs: seq<DataMessage>)
    ensures SendAll(net, link, msgs).0.trace == net.trace + Frames(link, msgs[..Leaving(net.script, |msgs|)])
    decreases |msgs|
  {
    var k := Leaving(net.script, |msgs|);
    if k == 0 {
      assert net.trace + [] == net.trace;
    } else if net.script[0] == LeftButFailed {
      OneFrame(link, msgs);
    } else {
      var first := [Sent(link, Data(msgs[0]))];
      SendAllInOrder(Net(net.trace + first, net.script[1..]), link, msgs[1..]);
      FramesLead(link, msgs, k - 1);
      Behind(net.trace, first, Frames(link, msgs[1..][..k - 1]));
    }
  }

  /** A replay writes the retained messages in ascending order on the current
      link up to the first failure, and succeeds exactly without one. */
  lemma ReplayWrites(ch: Chan, net: Net)
    requires ch.writer.Some?
    ensures var o, msgs := Replay(ch, net), InOrder(ch.pending);
            && o.ch == ch && (o.status == Ok <==> LinkUp(net.script, |msgs|))
            && o.net.trace == net.trace + Frames(ch.writer.value, msgs[..Leaving(net.script, |msgs|)])
  {
    SendAllIff(net, ch.writer.value, InOrder(ch.pending));
    SendAllInOrder(net, ch.writer.value, InOrder(ch.pending));
  }

  /** The switch to the relay without a control message. */
  lemma RelayWrites(ch: Chan, net: Net)
    requires !ch.closed && ch.fallback.Some?
    ensures var o, msgs := ToRelay(ch, net), if ch.migration then InOrder(ch.pending) else [];
            && o.ch == ch.(writer := ch.fallback, path := Relay) && (o.status == Ok <==> LinkUp(net.script, |msgs|))
            && o.net.trace == net.trace + Frames(ch.fallback.value, msgs[..Leaving(net.script, |msgs|)])
  {
    if ch.migration {
      ReplayWrites(ch.(writer := ch.fallback, path := Relay), net);
    } else {
      assert net.trace + [] == net.trace;
    }
  }

  /** A closed channel, or one without a relay, stays as it is and writes
      nothing. */
  lemma SwitchRefused(ch: Chan, net: Net, reason: string)
    requires ch.closed || ch.fallback.None?
    ensures var o := ToFallback(ch, net, reason); o.ch == ch && o.net == net && o.status == if ch.closed then Closed else NoFallback
    ensures var o := ToRelay(ch, net); o.ch == ch && o.net == net && o.status == if ch.fallback.None? then NoFallback else Closed
  {
  }

  /** A peer that migrates is followed to the relay: everything retained is
      replayed there and an answer ends it. A channel that does not migrate, and
      a message for another channel, change nothing. */
  lemma MigrateFollowed(me: Endpoint, c: ChannelID, reason: string)
    requires !me.ch.closed && me.ch.fallback.Some? && LinkUp(me.net.script, |me.ch.pending| + 1)
    ensures var e, relay := Receive(me, Migrate(c, reason)), me.ch.fallback.value;
            if c == me.ch.id && me.ch.migration
            then
              && e.ch == me.ch.(writer := me.ch.fallback, path := Relay)
              && e.net.trace == me.net.trace + Frames(relay, InOrder(me.ch.pending)) + [Sent(relay, Other([]))]
            else e == me
  {
    if c == me.ch.id && me.ch.migration {
      var relay, msgs := me.ch.fallback.value, InOrder(me.ch.pending);
      LinkUpMore(me.net.script, |msgs|, 1);
      SendAllIff(me.net, relay, msgs);
      SendOnLiveLink(SendAll(me.net, relay, msgs).0, relay, Other([]), 0);
    }
  }

  /** A direct channel that fails is moved to the relay; on the relay already,
      a late failure changes nothing. */
  lemma FailureFollowed(me: Endpoint, peer: Endpoint, reason: string, script: seq<Outcome>)
    requires !me.ch.closed && me.ch.fallback.Some?
    ensures var e := Act(me, peer, DirectFailure(reason, script));
            if me.ch.path == Relay then e == me else e.ch == me.ch.(writer := me.ch.fallback, path := Relay)
  {
    FallbackWrites(me.ch, me.net.(script := script), reason);
  }

  // ----------------------------------------------------------- acknowledging

  /** Without migration nothing is acknowledged. */
  lemma PlainIsSilent(me: Endpoint, peer: Endpoint, d: DataMessage, script: seq<Outcome>)
    requires !me.ch.migration
    ensures Act(me, peer, Consume(script)).net.trace == me.net.trace
    ensures Receive(me, Data(d)).net == me.net
  {
  }

  /** Taking a numbered message from the queue acknowledges it, and that
      acknowledgement releases exactly this message at the sender. */
  lemma ConsumedIsReleased(me: Endpoint, peer: Endpoint, script: seq<Outcome>)
    requires me.ch.migration && !me.ch.closed && me.ch.writer.Some? && me.ch.id == peer.ch.id
    requires me.inbox.present && me.inbox.queue != [] && me.inbox.queue[0].sequence != 0 && LinkUp(script, 1)
    ensures var n, e := me.inbox.queue[0].sequence, Act(me, peer, Consume(script));
            && e.inbox.queue == me.inbox.queue[1..] && e.ch == me.ch
            && e.net.trace == me.net.trace + [Sent(me.ch.writer.value, DataAck(me.ch.id, n))]
            && forall acks :: Act(peer, e, Arrive(|me.net.trace|, acks)).ch == peer.ch.(pending := peer.ch.pending - {n})
  {
    WriteDelivers(me.ch, me.net.(script := script), DataAck(me.ch.id, me.inbox.queue[0].sequence));
  }

  /** A duplicate is not queued again but acknowledged again. */
  lemma DuplicateAnswered(me: Endpoint, d: DataMessage, script: seq<Outcome>)
    requires me.ch.migration && !me.ch.closed && me.ch.writer.Some? && d.channelID == me.ch.id
    requires 1 <= d.sequence <= me.ch.received && LinkUp(script, 1)
    ensures var e := Receive(me.(net := me.net.(script := script)), Data(d));
            && e.inbox == me.inbox && e.enqueued == me.enqueued && e.ch == me.ch
            && e.net.trace == me.net.trace + [Sent(me.ch.writer.value, DataAck(me.ch.id, d.sequence))]
  {
    WriteDelivers(me.ch, me.net.(script := script), DataAck(me.ch.id, d.sequence));
    assert me.enqueued + [] == me.enqueued;
  }
}
