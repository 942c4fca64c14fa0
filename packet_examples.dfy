/**
 * The worked examples in the documentation of ParseDenomFromRecvPacket
 * (x/ratelimit/keeper/packet.go), for any hash function. In the sink examples
 * transfer/channel-X is the local (destination) end of the channel; in the source
 * examples it is the packet's source end, the sending chain's end of the channel.
 */
module RateLimitPacketExamples {
  import opened Ibc
  import opened RateLimitPacket

  /** The sink examples of ParseDenomFromRecvPacket's documentation (local end transfer/channel-X). */
  lemma RecvAsSinkExamples(packet: Packet, hash: DenomHash)
    requires packet.destPort == "transfer" && packet.destChannel == "channel-X"
    requires !ReceiverChainIsSource(packet.sourcePort, packet.sourceChannel, "transfer/channel-Y/ujuno")
    ensures ParseDenomFromRecvPacket(packet, FungibleTokenPacketData("uosmo", "1", "", ""), hash)
      == "ibc/" + hash("transfer/channel-X/uosmo")
    ensures ParseDenomFromRecvPacket(packet, FungibleTokenPacketData("transfer/channel-Y/ujuno", "1", "", ""), hash)
      == "ibc/" + hash("transfer/channel-X/transfer/channel-Y/ujuno")
  {
    var destinationPrefix := GetDenomPrefix(packet.destPort, packet.destChannel);
    assert destinationPrefix == "transfer/channel-X/";
    if ReceiverChainIsSource(packet.sourcePort, packet.sourceChannel, "uosmo") {
      SourceDenomHasTracePath(packet.sourcePort, packet.sourceChannel, "uosmo");
      assert false;
    }
    assert destinationPrefix + "uosmo" == "transfer/channel-X/uosmo";
    assert destinationPrefix + "transfer/channel-Y/ujuno" == "transfer/channel-X/transfer/channel-Y/ujuno";
  }

  /** The first source example of ParseDenomFromRecvPacket's documentation: ustrd comes home. */
  lemma RecvAsSourceNativeExample(packet: Packet, packetData: FungibleTokenPacketData, hash: DenomHash, unwound: string)
    requires packet.sourcePort == "transfer" && packet.sourceChannel == "channel-X"
    requires unwound == "ustrd"
    requires packetData.denom == "transfer/channel-X/" + unwound
    ensures ParseDenomFromRecvPacket(packet, packetData, hash) == unwound
  {
    assert !HasTracePath(unwound);
    RecvAsSourceUnwindsSend(packet, packetData, hash, unwound);
  }

  /** The second source example: a juno voucher coming back keeps the hop it had before. */
  lemma RecvAsSourceTracedExample(packet: Packet, packetData: FungibleTokenPacketData, hash: DenomHash, unwound: string)
    requires packet.sourcePort == "transfer" && packet.sourceChannel == "channel-X"
    requires unwound == "transfer/channel-Z/ujuno"
    requires packetData.denom == "transfer/channel-X/" + unwound
    ensures ParseDenomFromRecvPacket(packet, packetData, hash) == "ibc/" + hash(unwound)
  {
    var sourcePrefix := GetDenomPrefix(packet.sourcePort, packet.sourceChannel);
    assert HasTracePath(unwound) by { assert unwound[8] == '/'; }
    assert packetData.denom == sourcePrefix + unwound;
    RecvAsSourceUnwindsSend(packet, packetData, hash, unwound);
  }
}
