# Rate-limited IBC transfer packets

A Dafny model of the packet side of the `ratelimit` middleware
(`x/ratelimit/keeper/packet.go`). Every ICS-20 transfer that leaves or reaches the
chain is turned into a rate-limited record keyed by `(channel, denom)`. The record goes
through the flow check. Sends that the check actually counted are remembered as
pending, so that a failed transfer can later be reverted.

The model has five modules:

- `Wrappers` (`wrappers.dfy`): `Option` and `Result`, standing in for Go's
  `(value, ok)` and `(value, error)` returns.
- `Ibc` (`ibc.dfy`): the ibc-go pieces the middleware calls. These are packets, the
  transfer payload, denom traces (`ParseDenomTrace`, `GetFullDenomPath`, `IBCDenom`),
  `GetDenomPrefix`, `ReceiverChainIsSource` and acknowledgements. ibc-go's code is not
  part of this model, so these are simplified stand-ins (see "Left out").
- `RateLimitPacket` (`packet.dfy`): the pure functions of `packet.go`. These are denom
  resolution for sends and receives, `ParsePacketInfo`, and acknowledgement
  classification. The module also holds the lemmas that relate the two directions of a
  hop, both for denoms and for the (channel, denom) rate-limit key.
- `RateLimitPacketExamples` (`packet_examples.dfy`): the worked examples from the
  documentation of `ParseDenomFromRecvPacket`.
- `RateLimitKeeper` (`keeper.dfy`): a `Keeper` class whose fields are the flow table
  and the pending-send set. Its methods `SendRateLimitedPacket` and
  `ReceiveRateLimitedPacket` update these fields in place. Each method is specified by
  a pure transition function on a `Ledger` value, and the lemmas are proved about
  those functions. This includes the invariant that, apart from the entries it started
  with, the pending set holds exactly the sends the flow check counted.

Foreign code enters as parameters:

- `Codec`: the JSON decoder for the packet data, the ack decoder, and
  `sdk.NewIntFromString`.
- `DenomHash`: the hex SHA-256 digest written after `ibc/`.
- `FlowCheck`: the decision of `CheckRateLimitAndUpdateFlow`, whose body is not part of
  this model. It is given the `Context` (block time), the direction, the record and the
  flow table. It returns an error, or whether it updated the flow together with the new
  table.

The code has no malformed-denom error: every denom string resolves to something.
The code does not check that the amount is non-negative: whatever `NewIntFromString`
accepts is carried through.

## Model

| member | source | states |
|---|---|---|
| `Ibc.ParseDenomTrace` | x/ratelimit/keeper/packet.go:36-41 | The trace path is empty exactly when the denom has no '/' after its first character. Parsing loses nothing: the full denom path of the result is the input. A non-empty path leaves a base denom without '/' |
| `Ibc.ParseFullDenomPath` | x/ratelimit/keeper/packet.go:42-45 | For a trace whose base denom has no '/', parsing its full path gives the same trace back. This is the other half of the round trip |
| `Ibc.SourceDenomHasTracePath` | x/ratelimit/keeper/packet.go:83-84 | If the receiver chain is source for a denom (the denom starts with `sourcePort/sourceChannel/`), the denom has a trace path. So a native denom never takes the source branch |
| `RateLimitPacket.ParseDenomFromSendPacket` | x/ratelimit/keeper/packet.go:35-48 | A denom without a trace path is returned unchanged. Any other denom becomes `ibc/` followed by the hash of the denom string itself |
| `RateLimitPacket.ParseDenomFromRecvPacket` | x/ratelimit/keeper/packet.go:82-108 | As source: the packet denom is exactly `sourcePort/sourceChannel/` followed by the remainder, so the slice is in bounds. The result is the remainder if it has no trace path, and `ibc/` + hash(remainder) otherwise. As sink: the result is `ibc/` + hash(`destPort/destChannel/` + packet denom) |
| `RateLimitPacket.RecvAsSourceUnwindsSend` | x/ratelimit/keeper/packet.go:84-96 | Receiving `sourcePort/sourceChannel/` + x as source yields the same denom as sending x |
| `RateLimitPacket.PrefixedDenomHasTracePath` | x/ratelimit/keeper/packet.go:99-100 | Prepending `port/channel/` to any denom always produces a denom with a trace path |
| `RateLimitPacket.RecvAsSinkMatchesSendOfVoucher` | x/ratelimit/keeper/packet.go:97-104 | As sink, the receive denom equals the send denom of the voucher (`destPort/destChannel/` + packet denom) |
| `RateLimitPacket.ReturnHopSharesRateLimitKey` | x/ratelimit/keeper/packet.go:113-135 | A RECV packet arriving on the channel end a SEND packet left by, carrying the sent denom under its source prefix, is recorded under the same channel and the same denom as the send: the returning hop is accounted under the key the token left with |
| `RateLimitPacket.VoucherSharesRateLimitKey` | x/ratelimit/keeper/packet.go:113-135 | On a sink chain, the RECV record of an incoming packet and the SEND record of the voucher leaving by the same channel end have equal channel and equal denom: inflow and later outflow of the voucher share one key |
| `RateLimitPacket.RecvAsSinkIsNeverNative` | x/ratelimit/keeper/packet.go:97-104 | A sink receive always yields an `ibc/` denom with a trace path, never a native denom |
| `RateLimitPacket.NativeDenomRoundTrip` | x/ratelimit/keeper/packet.go:50-59 | A native denom sent from A to B and back: A accounts it unhashed on the way out, B accounts the incoming voucher and its send-back under one hashed key, and A accounts the return under the original native denom |
| `RateLimitPacketExamples.RecvAsSinkExamples` | x/ratelimit/keeper/packet.go:61-70 | The documented sink examples, for any hash: `uosmo` and `transfer/channel-Y/ujuno` arriving on `transfer/channel-X` hash to the prefixed denoms |
| `RateLimitPacketExamples.RecvAsSourceNativeExample` | x/ratelimit/keeper/packet.go:72-76 | The documented source example: `transfer/channel-X/ustrd` received over `transfer/channel-X` is `ustrd` |
| `RateLimitPacketExamples.RecvAsSourceTracedExample` | x/ratelimit/keeper/packet.go:78-81 | The documented source example: `transfer/channel-X/transfer/channel-Z/ujuno` becomes `ibc/` + hash(`transfer/channel-Z/ujuno`) |
| `RateLimitPacket.ParsePacketInfo` | x/ratelimit/keeper/packet.go:122-152 | A payload that fails to decode gives the unmarshal error, and an unparsable amount gives the invalid-amount error. Otherwise the record is keyed on the source channel for SEND and the destination channel for RECV, its denom comes from the send or receive resolver, and amount, sender and receiver come from the payload |
| `RateLimitPacket.PacketInfoAtBothEnds` | x/ratelimit/keeper/packet.go:110-121 | For one packet, the SEND record and the RECV record fail together. When they succeed they agree on amount, sender and receiver, and each is keyed on its own chain's channel end |
| `RateLimitPacket.ClassifyAcknowledgement` | x/ratelimit/keeper/packet.go:203-217 | An empty Result is rejected as an invalid acknowledgement. An Error is a FAILURE response carrying its message. A non-empty Result is success. A response with neither set is unsupported. Each is an if-and-only-if |
| `RateLimitPacket.AcknowledgeRateLimitedPacket` | x/ratelimit/keeper/packet.go:191-218 | A packet that does not parse as a send returns its parse error first. Ack bytes that do not decode give the unknown-request error. Otherwise the result is the classification. Success implies both decodes worked |
| `RateLimitKeeper.SendTransition` | x/ratelimit/keeper/packet.go:156-175 | A send succeeds exactly when parsing and the flow check succeed. A parse error, else the flow check's error, is returned unchanged. Any error leaves flows and pending sends unchanged. The flows become the checked flows. `(source channel, sequence)` is added to the pending sends exactly when the check reported an updated flow |
| `RateLimitKeeper.ReceiveTransition` | x/ratelimit/keeper/packet.go:179-187 | A receive succeeds exactly when parsing and the flow check succeed. A parse error, else the flow check's error, is returned unchanged. An error leaves the store unchanged. A receive never changes the pending sends |
| `RateLimitKeeper.PendingSendsWereCounted` | x/ratelimit/keeper/packet.go:168-172 | Over any sequence of send and receive events, every new pending key is (source channel, sequence) of a send that the flow check counted in the store it met |
| `RateLimitKeeper.CountedSendsStayPending` | x/ratelimit/keeper/packet.go:168-172 | Conversely, every send that the flow check counted is in the pending set after any later events |
| `RateLimitKeeper.Keeper.CheckRateLimitAndUpdateFlow` | x/ratelimit/keeper/packet.go:162-166 | On a check error, the error is returned, no update is reported, and the flows are untouched. Otherwise the updated flag and the new flows are those of the check |
| `RateLimitKeeper.Keeper.SetPendingSendPacket` | x/ratelimit/keeper/packet.go:170-172 | Adds `(channelID, sequence)` to the pending sends and changes nothing else |
| `RateLimitKeeper.Keeper.SendRateLimitedPacket` | x/ratelimit/keeper/packet.go:156-175 | The returned error and the new store are those of `SendTransition`. The pending sends grow by `(source channel, sequence)` exactly when the send is registered. On error the store is unchanged |
| `RateLimitKeeper.Keeper.ReceiveRateLimitedPacket` | x/ratelimit/keeper/packet.go:179-187 | The returned error and the new store are those of `ReceiveTransition`. The pending sends are unchanged. On error the flows are unchanged |

## Left out

- `Ibc.ParseDenomTrace`: simplified. ibc-go counts a `port/channel` pair as a hop only when the channel part is a valid channel identifier, and it gives a denom with exactly one '/' an empty path. Here every '/' after the first character starts a trace path, and the split is at the last '/'. So a native denom that contains '/' (such as `factory/<creator>/<sub>`, `gamm/pool/1`, or an `ibc/<hash>` denom itself), which the source returns unchanged at packet.go:40-41 and 91-92, is hashed by the model, and `NativeDenomRoundTrip` covers only native denoms without '/'.
- SHA-256, JSON and protobuf decoding, and `sdk.NewIntFromString` (its base prefixes and 256-bit bound) are foreign code. They are parameters (`DenomHash`, `Codec`), not definitions.
- Amounts are unbounded integers and sequences are naturals. The 256-bit limit of `math.Int` and the `uint64` sequence are not modelled, because the code here does no arithmetic on either.
- `CheckRateLimitAndUpdateFlow` (quota arithmetic, window rollover, channel-value snapshots) is not part of this model. It is the `FlowCheck` parameter. How `SetPendingSendPacket` encodes its key in the store is not part of this model either.
- Reverting the outflow of a failed or timed-out send, and removing pending entries, are not done in `packet.go`. No model of them is given.
- `AcknowledgeRateLimitedPacket`: the Go body does not compile. It returns two values from a single-error function, it uses an undefined `logger`, it leaves `packetInfo` unused, and it has no return after a non-empty Result. The model keeps only the order of its checks and the three-way classification. A non-empty Result is taken to mean a success response.
- Logging (`k.Logger(ctx).Error`) and the `sdk.Context` store are not modelled. The context is reduced to the block time passed to the flow check.
- Packet fields the middleware does not read (timeouts, memo) are not modelled. The direction has only the two values SEND and RECV, so "any other direction" in `ParsePacketInfo` is RECV.
- `x/transfermiddleware/client/cli/tx.go` (a CLI command that builds and broadcasts a transaction) and `tests/zolo_test.go` (a bech32 address assertion) are command-line and encoding glue, with no logic to model.
