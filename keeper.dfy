/**
 * The stateful part of x/ratelimit/keeper/packet.go: the send and receive middleware
 * steps over the keeper's store, seen as a flow table keyed by (channel, denom) and the
 * set of pending sends keyed by (channel, sequence).
 *
 * CheckRateLimitAndUpdateFlow's body is not part of this model: its decision is the
 * `FlowCheck` function the keeper is built with, and all the model assumes of it is its
 * shape: an error, or whether it updated the flow together with the new flow table.
 */
module RateLimitKeeper {
  import opened Wrappers
  import opened Ibc
  import opened RateLimitPacket

  /** sdk.Context, reduced to the block time a flow check may read. */
  datatype Context = Context(blockTime: int)

  /** A rate limit's flow: what has moved in each direction and the channel value snapshot. */
  datatype Flow = Flow(inflow: int, outflow: int, channelValue: int)

  type FlowKey = (string, string)          // (channelID, denom)
  type FlowTable = map<FlowKey, Flow>
  type PendingSendKey = (string, nat)      // (channelID, packet sequence)

  datatype FlowUpdate = FlowUpdate(updatedFlow: bool, flows: FlowTable)

  /** The decision CheckRateLimitAndUpdateFlow makes for one transfer record. */
  type FlowCheck = (Context, PacketDirection, RateLimitedPacketInfo, FlowTable) -> Result<FlowUpdate, Error>

  /** The part of the store the packet middleware touches. */
  datatype Ledger = Ledger(flows: FlowTable, pendingSends: set<PendingSendKey>)

  /** The error a middleware step returns (None for Go's nil) and the store after it. */
  datatype Transition = Transition(err: Option<Error>, ledger: Ledger)

  /** A send is registered as pending: it parsed, passed the flow check, and updated the flow. */
  predicate RegistersSend(codec: Codec, check: FlowCheck, ctx: Context, ledger: Ledger, packet: Packet) {
    var parsed := ParsePacketInfo(codec, packet, PacketSend);
    && parsed.Success?
    && var checked := check(ctx, PacketSend, parsed.value, ledger.flows);
    && checked.Success?
    && checked.value.updatedFlow
  }

  /**
   * SendRateLimitedPacket on the store: it succeeds exactly when the packet parses and
   * the flow check passes, the parse error or the check's error is returned unchanged, an
   * error leaves the store as it was, and the pending sends
   * grow by (source channel, sequence) exactly when the send is registered.
   */
  function SendTransition(codec: Codec, check: FlowCheck, ctx: Context, ledger: Ledger, packet: Packet): (t: Transition)
    ensures ParsePacketInfo(codec, packet, PacketSend).Failure? ==>
      t.err == Some(ParsePacketInfo(codec, packet, PacketSend).error)
    ensures (&& ParsePacketInfo(codec, packet, PacketSend).Success?
             && check(ctx, PacketSend, ParsePacketInfo(codec, packet, PacketSend).value, ledger.flows).Failure?) ==>
      t.err == Some(check(ctx, PacketSend, ParsePacketInfo(codec, packet, PacketSend).value, ledger.flows).error)
    ensures t.err.None? <==>
      && ParsePacketInfo(codec, packet, PacketSend).Success?
      && check(ctx, PacketSend, ParsePacketInfo(codec, packet, PacketSend).value, ledger.flows).Success?
    ensures t.err.Some? ==> t.ledger == ledger
    ensures t.err.None? ==>
      t.ledger.flows == check(ctx, PacketSend, ParsePacketInfo(codec, packet, PacketSend).value, ledger.flows).value.flows
    ensures t.ledger.pendingSends ==
      if RegistersSend(codec, check, ctx, ledger, packet) then ledger.pendingSends + {(packet.sourceChannel, packet.sequence)}
      else ledger.pendingSends
  {
    match ParsePacketInfo(codec, packet, PacketSend)
    case Failure(err) => Transition(Some(err), ledger)
    case Success(packetInfo) =>
      match check(ctx, PacketSend, packetInfo, ledger.flows)
      case Failure(err) => Transition(Some(err), ledger)
      case Success(update) =>
        var pending :=
          if update.updatedFlow then ledger.pendingSends + {(packetInfo.channelID, packet.sequence)}
          else ledger.pendingSends;
        Transition(None, Ledger(update.flows, pending))
  }

  /**
   * ReceiveRateLimitedPacket on the store: it succeeds exactly when the packet parses and
   * the flow check passes, the parse error or the check's error is returned unchanged, an
   * error leaves the store as it was, and it never registers
   * a pending send.
   */
  function ReceiveTransition(codec: Codec, check: FlowCheck, ctx: Context, ledger: Ledger, packet: Packet): (t: Transition)
    ensures ParsePacketInfo(codec, packet, PacketRecv).Failure? ==>
      t.err == Some(ParsePacketInfo(codec, packet, PacketRecv).error)
    ensures (&& ParsePacketInfo(codec, packet, PacketRecv).Success?
             && check(ctx, PacketRecv, ParsePacketInfo(codec, packet, PacketRecv).value, ledger.flows).Failure?) ==>
      t.err == Some(check(ctx, PacketRecv, ParsePacketInfo(codec, packet, PacketRecv).value, ledger.flows).error)
    ensures t.err.None? <==>
      && ParsePacketInfo(codec, packet, PacketRecv).Success?
      && check(ctx, PacketRecv, ParsePacketInfo(codec, packet, PacketRecv).value, ledger.flows).Success?
    ensures t.err.Some? ==> t.ledger == ledger
    ensures t.err.None? ==>
      t.ledger.flows == check(ctx, PacketRecv, ParsePacketInfo(codec, packet, PacketRecv).value, ledger.flows).value.flows
    ensures t.ledger.pendingSends == ledger.pendingSends
  {
    match ParsePacketInfo(codec, packet, PacketRecv)
    case Failure(err) => Transition(Some(err), ledger)
    case Success(packetInfo) =>
      match check(ctx, PacketRecv, packetInfo, ledger.flows)
      case Failure(err) => Transition(Some(err), ledger)
      case Success(update) => Transition(None, Ledger(update.flows, ledger.pendingSends))
  }

  /** A packet event delivered to the middleware. */
  datatype Event = SendEvent(ctx: Context, packet: Packet) | RecvEvent(ctx: Context, packet: Packet)

  function Step(codec: Codec, check: FlowCheck, ledger: Ledger, event: Event): Ledger {
    match event
    case SendEvent(ctx, packet) => SendTransition(codec, check, ctx, ledger, packet).ledger
    case RecvEvent(ctx, packet) => ReceiveTransition(codec, check, ctx, ledger, packet).ledger
  }

  /** The store after the events, in order, starting from `start`. */
  function Run(codec: Codec, check: FlowCheck, start: Ledger, events: seq<Event>): Ledger
    decreases |events|
  {
    if events == [] then start
    else Step(codec, check, Run(codec, check, start, events[..|events| - 1]), events[|events| - 1])
  }

  /** Event `i` is a send that was registered in the store it met. */
  predicate RegisteredAt(codec: Codec, check: FlowCheck, start: Ledger, events: seq<Event>, i: nat)
    requires i < |events|
  {
    && events[i].SendEvent?
    && RegistersSend(codec, check, events[i].ctx, Run(codec, check, start, events[..i]), events[i].packet)
  }

  /**
   * Only sends the flow check actually counted are pending: every pending key that was
   * not pending at the start is (source channel, sequence) of a registered send.
   */
  lemma {:induction false} PendingSendsWereCounted(
    codec: Codec, check: FlowCheck, start: Ledger, events: seq<Event>, key: PendingSendKey)
    requires key in Run(codec, check, start, events).pendingSends
    ensures key in start.pendingSends || exists i | 0 <= i < |events| ::
      && RegisteredAt(codec, check, start, events, i)
      && key == (events[i].packet.sourceChannel, events[i].packet.sequence)
    decreases |events|
  {
    if events != [] {
      var n := |events| - 1;
      var before := events[..n];
      var prior := Run(codec, check, start, before);
      if key in prior.pendingSends {
        PendingSendsWereCounted(codec, check, start, before, key);
        if key !in start.pendingSends {
          var i :| 0 <= i < |before| && RegisteredAt(codec, check, start, before, i)
            && key == (before[i].packet.sourceChannel, before[i].packet.sequence);
          assert before[..i] == events[..i];
          assert RegisteredAt(codec, check, start, events, i);
        }
      } else {
        assert events[..n] == before;
        assert RegisteredAt(codec, check, start, events, n);
      }
    }
  }

  /** Conversely, every registered send stays pending: nothing here removes an entry. */
  lemma {:induction false} CountedSendsStayPending(
    codec: Codec, check: FlowCheck, start: Ledger, events: seq<Event>, i: nat)
    requires i < |events| && RegisteredAt(codec, check, start, events, i)
    ensures (events[i].packet.sourceChannel, events[i].packet.sequence) in Run(codec, check, start, events).pendingSends
    decreases |events|
  {
    var n := |events| - 1;
    var before := events[..n];
    if i < n {
      assert before[..i] == events[..i];
      CountedSendsStayPending(codec, check, start, before, i);
    } else {
      assert before == events[..i];
    }
  }

  /**
   * The keeper: its store's flow table and pending sends, with the codec and the flow
   * check it was built with.
   */
  class Keeper {
    const codec: Codec
    const checkFlow: FlowCheck
    var flows: FlowTable
    var pendingSends: set<PendingSendKey>

    constructor (codec: Codec, checkFlow: FlowCheck, ledger: Ledger)
      ensures this.codec == codec && this.checkFlow == checkFlow
      ensures State() == ledger
    {
      this.codec := codec;
      this.checkFlow := checkFlow;
      this.flows := ledger.flows;
      this.pendingSends := ledger.pendingSends;
    }

    function State(): Ledger
      reads this
    {
      Ledger(flows, pendingSends)
    }

    /** The flow check: on error the flows are untouched; otherwise they take the checked value. */
    method CheckRateLimitAndUpdateFlow(ctx: Context, direction: PacketDirection, packetInfo: RateLimitedPacketInfo)
      returns (updatedFlow: bool, err: Option<Error>)
      modifies this`flows
      ensures checkFlow(ctx, direction, packetInfo, old(flows)).Failure? ==>
        && err == Some(checkFlow(ctx, direction, packetInfo, old(flows)).error)
        && !updatedFlow
        && flows == old(flows)
      ensures checkFlow(ctx, direction, packetInfo, old(flows)).Success? ==>
        && err.None?
        && updatedFlow == checkFlow(ctx, direction, packetInfo, old(flows)).value.updatedFlow
        && flows == checkFlow(ctx, direction, packetInfo, old(flows)).value.flows
    {
      match checkFlow(ctx, direction, packetInfo, flows)
      case Failure(e) =>
        updatedFlow, err := false, Some(e);
      case Success(update) =>
        updatedFlow, err := update.updatedFlow, None;
        flows := update.flows;
    }

    /** Record that the send (channelID, sequence) was counted and may be reverted. */
    method SetPendingSendPacket(channelID: string, sequence: nat)
      modifies this`pendingSends
      ensures pendingSends == old(pendingSends) + {(channelID, sequence)}
    {
      pendingSends := pendingSends + {(channelID, sequence)};
    }

    /** Middleware for SendPacket: parse, check and update the flow, register if updated. */
    method SendRateLimitedPacket(ctx: Context, packet: Packet) returns (err: Option<Error>)
      modifies this
      ensures Transition(err, State()) == SendTransition(codec, checkFlow, ctx, old(State()), packet)
      ensures pendingSends ==
        if RegistersSend(codec, checkFlow, ctx, old(State()), packet)
        then old(pendingSends) + {(packet.sourceChannel, packet.sequence)}
        else old(pendingSends)
      ensures err.Some? ==> flows == old(flows) && pendingSends == old(pendingSends)
    {
      var parsed := ParsePacketInfo(codec, packet, PacketSend);
      if parsed.Failure? {
        return Some(parsed.error);
      }
      var packetInfo := parsed.value;
      var updatedFlow, checkErr := CheckRateLimitAndUpdateFlow(ctx, PacketSend, packetInfo);
      if checkErr.Some? {
        return checkErr;
      }
      if updatedFlow {
        SetPendingSendPacket(packetInfo.channelID, packet.sequence);
      }
      return None;
    }

    /** Middleware for RecvPacket: parse, then check and update the flow. */
    method ReceiveRateLimitedPacket(ctx: Context, packet: Packet) returns (err: Option<Error>)
      modifies this
      ensures Transition(err, State()) == ReceiveTransition(codec, checkFlow, ctx, old(State()), packet)
      ensures pendingSends == old(pendingSends)
      ensures err.Some? ==> flows == old(flows)
    {
      var parsed := ParsePacketInfo(codec, packet, PacketRecv);
      if parsed.Failure? {
        return Some(parsed.error);
      }
      var _, checkErr := CheckRateLimitAndUpdateFlow(ctx, PacketRecv, parsed.value);
      return checkErr;
    }
  }
}
