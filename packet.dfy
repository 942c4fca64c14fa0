/**
 * The pure part of the rate limiter's packet handling (x/ratelimit/keeper/packet.go):
 * which denom a transfer is accounted under, how a packet becomes a rate-limited
 * transfer record, and how an acknowledgement is classified.
 */
module RateLimitPacket {
  import opened Wrappers
  import opened Ibc

  datatype PacketDirection = PacketSend | PacketRecv

  /** The record the rate limiter accounts: keyed by (channelID, denom). */
  datatype RateLimitedPacketInfo = RateLimitedPacketInfo(
    channelID: string,
    denom: string,
    amount: int,
    sender: string,
    receiver: string)

  datatype Error =
    | PacketDataUnmarshal                  // json.Unmarshal of the packet data failed
    | InvalidPacketAmount(amount: string)  // ErrInvalidRequest: amount is not an sdkmath.Int
    | AckUnmarshal                         // ErrUnknownRequest: the ack bytes did not decode
    | EmptyAckResult                       // ErrInvalidAcknowledgement: empty Result
    | UnsupportedAck                       // ErrInvalidAcknowledgement: neither Result nor Error
    | FlowCheckFailed(reason: string)      // a rejection by CheckRateLimitAndUpdateFlow (e.g. quota
                                           // exceeded); a FlowCheck may return any Error

  /** types.AckResponseStatus and types.AcknowledgementResponse. */
  datatype AckResponseStatus = AckSuccess | AckFailure

  datatype AcknowledgementResponse = AcknowledgementResponse(status: AckResponseStatus, error: string)

  /** The decoders and hash the packet code calls into: foreign code, so parameters. */
  datatype Codec = Codec(
    unmarshalPacketData: seq<byte> -> Option<FungibleTokenPacketData>,
    newIntFromString: string -> Option<int>,
    unmarshalAck: seq<byte> -> Option<Acknowledgement>,
    denomHash: DenomHash)

  /**
   * ParseDenomFromSendPacket: a native denom (no trace path) is accounted as it is;
   * any other denom is accounted as "ibc/" + the hash of the denom string itself.
   */
  function ParseDenomFromSendPacket(packetData: FungibleTokenPacketData, hash: DenomHash): (denom: string)
    ensures !HasTracePath(packetData.denom) ==> denom == packetData.denom
    ensures HasTracePath(packetData.denom) ==> denom == "ibc/" + hash(packetData.denom)
  {
    var denomTrace := ParseDenomTrace(packetData.denom);
    if denomTrace.path == "" then packetData.denom else IBCDenom(denomTrace, hash)
  }

  /**
   * ParseDenomFromRecvPacket. As source, the packet's source prefix is removed and the
   * rest is accounted like a send of it; as sink, the destination prefix is added and
   * the whole is hashed.
   */
  function ParseDenomFromRecvPacket(packet: Packet, packetData: FungibleTokenPacketData, hash: DenomHash): (denom: string)
    ensures ReceiverChainIsSource(packet.sourcePort, packet.sourceChannel, packetData.denom) ==>
      var sourcePrefix := GetDenomPrefix(packet.sourcePort, packet.sourceChannel);
      var unprefixed := packetData.denom[|sourcePrefix|..];
      && sourcePrefix + unprefixed == packetData.denom
      && (!HasTracePath(unprefixed) ==> denom == unprefixed)
      && (HasTracePath(unprefixed) ==> denom == "ibc/" + hash(unprefixed))
    ensures !ReceiverChainIsSource(packet.sourcePort, packet.sourceChannel, packetData.denom) ==>
      denom == "ibc/" + hash(GetDenomPrefix(packet.destPort, packet.destChannel) + packetData.denom)
  {
    if ReceiverChainIsSource(packet.sourcePort, packet.sourceChannel, packetData.denom) then
      var sourcePrefix := GetDenomPrefix(packet.sourcePort, packet.sourceChannel);
      var unprefixedDenom := packetData.denom[|sourcePrefix|..];
      assert sourcePrefix + unprefixedDenom == packetData.denom;
      var denomTrace := ParseDenomTrace(unprefixedDenom);
      if denomTrace.path == "" then unprefixedDenom else IBCDenom(denomTrace, hash)
    else
      var destinationPrefix := GetDenomPrefix(packet.destPort, packet.destChannel);
      var prefixedDenom := destinationPrefix + packetData.denom;
      IBCDenom(ParseDenomTrace(prefixedDenom), hash)
  }

  /** The channel the record is keyed on: always the local end of the channel. */
  function LocalChannel(packet: Packet, direction: PacketDirection): string {
    if direction == PacketSend then packet.sourceChannel else packet.destChannel
  }

  /**
   * ParsePacketInfo: decode the payload, key on the local channel, resolve the denom for
   * the direction, parse the amount, and carry sender and receiver through.
   */
  function ParsePacketInfo(codec: Codec, packet: Packet, direction: PacketDirection): (r: Result<RateLimitedPacketInfo, Error>)
    ensures codec.unmarshalPacketData(packet.data).None? ==> r == Failure(PacketDataUnmarshal)
    ensures codec.unmarshalPacketData(packet.data).Some? ==>
      var packetData := codec.unmarshalPacketData(packet.data).value;
      && (codec.newIntFromString(packetData.amount).None? ==> r == Failure(InvalidPacketAmount(packetData.amount)))
      && (codec.newIntFromString(packetData.amount).Some? ==>
            && r.Success?
            && r.value.channelID == (if direction == PacketSend then packet.sourceChannel else packet.destChannel)
            && r.value.denom == (if direction == PacketSend then ParseDenomFromSendPacket(packetData, codec.denomHash)
                                 else ParseDenomFromRecvPacket(packet, packetData, codec.denomHash))
            && r.value.amount == codec.newIntFromString(packetData.amount).value
            && r.value.sender == packetData.sender
            && r.value.receiver == packetData.receiver)
  {
    match codec.unmarshalPacketData(packet.data)
    case None => Failure(PacketDataUnmarshal)
    case Some(packetData) =>
      var channelID := LocalChannel(packet, direction);
      var denom :=
        if direction == PacketSend then ParseDenomFromSendPacket(packetData, codec.denomHash)
        else ParseDenomFromRecvPacket(packet, packetData, codec.denomHash);
      match codec.newIntFromString(packetData.amount)
      case None => Failure(InvalidPacketAmount(packetData.amount))
      case Some(amount) =>
        Success(RateLimitedPacketInfo(channelID, denom, amount, packetData.sender, packetData.receiver))
  }

  /** The type switch on the acknowledgement's response in AcknowledgeRateLimitedPacket. */
  function ClassifyAcknowledgement(ack: Acknowledgement): (r: Result<AcknowledgementResponse, Error>)
    ensures r == Failure(EmptyAckResult) <==> ack.response.AckResult? && |ack.response.result| == 0
    ensures r == Failure(UnsupportedAck) <==> ack.response.AckUnset?
    ensures r.Success? && r.value.status == AckFailure <==> ack.response.AckError?
    ensures r.Success? && r.value.status == AckSuccess <==> ack.response.AckResult? && |ack.response.result| > 0
    ensures ack.response.AckError? ==> r == Success(AcknowledgementResponse(AckFailure, ack.response.error))
  {
    match ack.response
    case AckResult(result) =>
      if |result| == 0 then Failure(EmptyAckResult) else Success(AcknowledgementResponse(AckSuccess, ""))
    case AckError(error) => Success(AcknowledgementResponse(AckFailure, error))
    case AckUnset => Failure(UnsupportedAck)
  }

  /**
   * AcknowledgeRateLimitedPacket: the packet must parse as a send, the ack bytes must
   * decode, and then the ack is classified.
   */
  function AcknowledgeRateLimitedPacket(codec: Codec, packet: Packet, ack: seq<byte>): (r: Result<AcknowledgementResponse, Error>)
    ensures ParsePacketInfo(codec, packet, PacketSend).Failure? ==> r == Failure(ParsePacketInfo(codec, packet, PacketSend).error)
    ensures ParsePacketInfo(codec, packet, PacketSend).Success? && codec.unmarshalAck(ack).None? ==> r == Failure(AckUnmarshal)
    ensures ParsePacketInfo(codec, packet, PacketSend).Success? && codec.unmarshalAck(ack).Some? ==>
      r == ClassifyAcknowledgement(codec.unmarshalAck(ack).value)
    ensures r.Success? ==> codec.unmarshalPacketData(packet.data).Some? && codec.unmarshalAck(ack).Some?
  {
    match ParsePacketInfo(codec, packet, PacketSend)
    case Failure(err) => Failure(err)
    case Success(_) =>
      match codec.unmarshalAck(ack)
      case None => Failure(AckUnmarshal)
      case Some(acknowledgement) => ClassifyAcknowledgement(acknowledgement)
  }

  /**
   * Send and receive-as-source are inverse hops: a denom that comes back over the
   * channel end it left by is accounted exactly as it was when it left.
   */
  lemma RecvAsSourceUnwindsSend(packet: Packet, packetData: FungibleTokenPacketData, hash: DenomHash, sent: string)
    requires packetData.denom == GetDenomPrefix(packet.sourcePort, packet.sourceChannel) + sent
    ensures ParseDenomFromRecvPacket(packet, packetData, hash) == ParseDenomFromSendPacket(packetData.(denom := sent), hash)
  {
  }

  /** The destination prefix always adds a trace path: its second '/' is past index 0. */
  lemma PrefixedDenomHasTracePath(portID: string, channelID: string, denom: string)
    ensures HasTracePath(GetDenomPrefix(portID, channelID) + denom)
  {
    var prefixed := GetDenomPrefix(portID, channelID) + denom;
    var k := |portID| + |channelID| + 1;
    assert prefixed[k] == '/';
  }

  /**
   * As sink, the receiver accounts the incoming denom under the same key it will use
   * when it later sends the voucher (destination prefix + packet denom) back out.
   */
  lemma RecvAsSinkMatchesSendOfVoucher(packet: Packet, packetData: FungibleTokenPacketData, hash: DenomHash)
    requires !ReceiverChainIsSource(packet.sourcePort, packet.sourceChannel, packetData.denom)
    ensures var voucher := GetDenomPrefix(packet.destPort, packet.destChannel) + packetData.denom;
      ParseDenomFromRecvPacket(packet, packetData, hash) == ParseDenomFromSendPacket(packetData.(denom := voucher), hash)
  {
    PrefixedDenomHasTracePath(packet.destPort, packet.destChannel, packetData.denom);
  }

  /** A receive as sink never yields a native denom: the result always has a trace path. */
  lemma RecvAsSinkIsNeverNative(packet: Packet, packetData: FungibleTokenPacketData, hash: DenomHash)
    requires !ReceiverChainIsSource(packet.sourcePort, packet.sourceChannel, packetData.denom)
    ensures "ibc/" <= ParseDenomFromRecvPacket(packet, packetData, hash)
    ensures HasTracePath(ParseDenomFromRecvPacket(packet, packetData, hash))
  {
    var denom := ParseDenomFromRecvPacket(packet, packetData, hash);
    assert denom[3] == '/';
  }

  /**
   * A native denom sent from chain A (channel end portA/channelA) to chain B (end
   * portB/channelB) and back: A accounts it unhashed on the way out, B accounts the
   * incoming and outgoing voucher under one hashed key, and A accounts the return
   * under the native denom again.
   */
  lemma NativeDenomRoundTrip(
    denom: string, hash: DenomHash, portA: string, channelA: string, portB: string, channelB: string,
    outbound: Packet, inbound: Packet, packetData: FungibleTokenPacketData)
    requires !HasTracePath(denom) && packetData.denom == denom
    requires outbound.sourcePort == portA && outbound.sourceChannel == channelA
    requires outbound.destPort == portB && outbound.destChannel == channelB
    requires inbound.sourcePort == portB && inbound.sourceChannel == channelB
    requires inbound.destPort == portA && inbound.destChannel == channelA
    ensures ParseDenomFromSendPacket(packetData, hash) == denom
    ensures var voucher := GetDenomPrefix(portB, channelB) + denom;
      && ParseDenomFromRecvPacket(outbound, packetData, hash) == "ibc/" + hash(voucher)
      && ParseDenomFromSendPacket(packetData.(denom := voucher), hash) == ParseDenomFromRecvPacket(outbound, packetData, hash)
      && ParseDenomFromRecvPacket(inbound, packetData.(denom := voucher), hash) == denom
  {
    if ReceiverChainIsSource(portA, channelA, denom) {
      SourceDenomHasTracePath(portA, channelA, denom);
      assert false;
    }
    RecvAsSinkMatchesSendOfVoucher(outbound, packetData, hash);
    var voucher := GetDenomPrefix(portB, channelB) + denom;
    RecvAsSourceUnwindsSend(inbound, packetData.(denom := voucher), hash, denom);
  }

  /**
   * The rate-limit key of a return hop: a RECV packet `back` arriving on the channel end
   * that `out` was sent from, carrying `out`'s denom under `back`'s source prefix, is
   * recorded under the same (channel, denom) as the SEND record of `out`.
   */
  lemma ReturnHopSharesRateLimitKey(codec: Codec, out: Packet, back: Packet)
    requires back.destPort == out.sourcePort && back.destChannel == out.sourceChannel
    requires ParsePacketInfo(codec, out, PacketSend).Success?
    requires ParsePacketInfo(codec, back, PacketRecv).Success?
    requires codec.unmarshalPacketData(back.data).value.denom
      == GetDenomPrefix(back.sourcePort, back.sourceChannel) + codec.unmarshalPacketData(out.data).value.denom
    ensures ParsePacketInfo(codec, back, PacketRecv).value.channelID == ParsePacketInfo(codec, out, PacketSend).value.channelID
    ensures ParsePacketInfo(codec, back, PacketRecv).value.denom == ParsePacketInfo(codec, out, PacketSend).value.denom
  {
  }

  /**
   * The rate-limit key of a voucher: the RECV record of `incoming` on a sink chain and
   * the SEND record of `outgoing`, leaving by the channel end `incoming` arrived on with
   * the voucher denom, share one (channel, denom).
   */
  lemma VoucherSharesRateLimitKey(codec: Codec, incoming: Packet, outgoing: Packet)
    requires outgoing.sourcePort == incoming.destPort && outgoing.sourceChannel == incoming.destChannel
    requires ParsePacketInfo(codec, incoming, PacketRecv).Success?
    requires ParsePacketInfo(codec, outgoing, PacketSend).Success?
    requires !ReceiverChainIsSource(incoming.sourcePort, incoming.sourceChannel, codec.unmarshalPacketData(incoming.data).value.denom)
    requires codec.unmarshalPacketData(outgoing.data).value.denom
      == GetDenomPrefix(incoming.destPort, incoming.destChannel) + codec.unmarshalPacketData(incoming.data).value.denom
    ensures ParsePacketInfo(codec, outgoing, PacketSend).value.channelID == ParsePacketInfo(codec, incoming, PacketRecv).value.channelID
    ensures ParsePacketInfo(codec, outgoing, PacketSend).value.denom == ParsePacketInfo(codec, incoming, PacketRecv).value.denom
  {
    var received := codec.unmarshalPacketData(incoming.data).value;
    var leaving := codec.unmarshalPacketData(outgoing.data).value;
    RecvAsSinkMatchesSendOfVoucher(incoming, received, codec.denomHash);
    PrefixedDenomHasTracePath(incoming.destPort, incoming.destChannel, received.denom);
  }

  /**
   * One packet seen at both ends of its hop: the sender's SEND record and the receiver's
   * RECV record fail together, agree on amount, sender and receiver, and are each keyed
   * on their own chain's channel end.
   */
  lemma PacketInfoAtBothEnds(codec: Codec, packet: Packet)
    ensures ParsePacketInfo(codec, packet, PacketSend).Success? <==> ParsePacketInfo(codec, packet, PacketRecv).Success?
    ensures ParsePacketInfo(codec, packet, PacketSend).Success? ==>
      var sent := ParsePacketInfo(codec, packet, PacketSend).value;
      var received := ParsePacketInfo(codec, packet, PacketRecv).value;
      && sent.channelID == packet.sourceChannel
      && received.channelID == packet.destChannel
      && sent.amount == received.amount
      && sent.sender == received.sender
      && sent.receiver == received.receiver
  {
  }
}
