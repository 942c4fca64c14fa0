/**
 * The parts of ibc-go's ICS-20 (fungible token transfer) and channel types that the
 * rate limiter reads: packets, the transfer payload, denom traces and acknowledgements.
 *
 * The denom trace parser is a simplification of ibc-go's: a denom is split at its last
 * '/', so every '/' after the first character starts a trace path. The SHA-256 used by
 * `IBCDenom` is a parameter (`DenomHash`), the upper-case hex digest of its argument.
 */
module Ibc {
  import opened Wrappers

  newtype byte = b: int | 0 <= b < 256

  /** channeltypes.Packet, restricted to the fields the rate limiter reads. */
  datatype Packet = Packet(
    sequence: nat,
    sourcePort: string,
    sourceChannel: string,
    destPort: string,
    destChannel: string,
    data: seq<byte>)

  /** transfertypes.FungibleTokenPacketData: the decoded transfer payload. */
  datatype FungibleTokenPacketData = FungibleTokenPacketData(
    denom: string,
    amount: string,
    sender: string,
    receiver: string)

  /** A denom split into its port/channel hops (`path`) and the base denom. */
  datatype DenomTrace = DenomTrace(path: string, baseDenom: string)

  /** The hex SHA-256 digest that ibc-go puts after "ibc/"; not modelled, so a parameter. */
  type DenomHash = string -> string

  /** Whether a '/' occurs after the first character: the denom carries a trace path. */
  predicate HasTracePath(denom: string) {
    exists i | 1 <= i < |denom| :: denom[i] == '/'
  }

  /** Index of the last '/' in `s`, if any. */
  function LastSlash(s: string): (r: Option<nat>)
    ensures r.None? ==> forall j | 0 <= j < |s| :: s[j] != '/'
    ensures r.Some? ==> r.value < |s| && s[r.value] == '/'
    ensures r.Some? ==> forall j | r.value < j < |s| :: s[j] != '/'
  {
    if |s| == 0 then None
    else if s[|s| - 1] == '/' then Some(|s| - 1)
    else LastSlash(s[..|s| - 1])
  }

  /** DenomTrace.GetFullDenomPath: the trace written back as one denom string. */
  function GetFullDenomPath(t: DenomTrace): string {
    if t.path == "" then t.baseDenom else t.path + "/" + t.baseDenom
  }

  /**
   * transfertypes.ParseDenomTrace, simplified. The path is empty exactly when the denom
   * has no '/' after its first character, and parsing loses nothing.
   */
  function ParseDenomTrace(rawDenom: string): (t: DenomTrace)
    ensures t.path == "" <==> !HasTracePath(rawDenom)
    ensures GetFullDenomPath(t) == rawDenom
    ensures t.path != "" ==> '/' !in t.baseDenom
  {
    match LastSlash(rawDenom)
    case None => DenomTrace("", rawDenom)
    case Some(i) =>
      if i == 0 then DenomTrace("", rawDenom)
      else
        assert rawDenom == rawDenom[..i] + "/" + rawDenom[i + 1..];
        DenomTrace(rawDenom[..i], rawDenom[i + 1..])
  }

  /**
   * Parsing the full path of a trace whose base denom has no '/' gives the trace back.
   * This is a property of the simplified parser here: ibc-go parses "a/b" to an empty
   * path, so it does not give back the trace ("a", "b").
   */
  lemma ParseFullDenomPath(t: DenomTrace)
    requires '/' !in t.baseDenom
    ensures ParseDenomTrace(GetFullDenomPath(t)) == t
  {
    var full := GetFullDenomPath(t);
    if t.path != "" {
      var i := |t.path|;
      assert full[i] == '/';
      assert forall j | i < j < |full| :: full[j] == t.baseDenom[j - i - 1];
      var r := LastSlash(full);
      assert r.Some? && r.value == i;
      assert full[..i] == t.path && full[i + 1..] == t.baseDenom;
    } else {
      assert !HasTracePath(full);
    }
  }

  /**
   * DenomTrace.IBCDenom on a trace with a non-empty path: "ibc/" followed by the hash of
   * the full denom path. (ibc-go returns the base denom for an empty path; every call
   * here passes a non-empty path, so that case is not modelled.)
   */
  function IBCDenom(t: DenomTrace, hash: DenomHash): string {
    "ibc/" + hash(GetFullDenomPath(t))
  }

  /** transfertypes.GetDenomPrefix: "port/channel/", with the trailing slash. */
  function GetDenomPrefix(portID: string, channelID: string): string {
    portID + "/" + channelID + "/"
  }

  /**
   * transfertypes.ReceiverChainIsSource: the denom arriving over (sourcePort, sourceChannel)
   * starts with that channel end's prefix, so the receiver is undoing a hop it made itself.
   */
  predicate ReceiverChainIsSource(sourcePort: string, sourceChannel: string, denom: string) {
    GetDenomPrefix(sourcePort, sourceChannel) <= denom
  }

  /** A denom the receiver is source for always carries a trace path, so a native one never is. */
  lemma SourceDenomHasTracePath(sourcePort: string, sourceChannel: string, denom: string)
    requires ReceiverChainIsSource(sourcePort, sourceChannel, denom)
    ensures HasTracePath(denom)
  {
    var prefix := GetDenomPrefix(sourcePort, sourceChannel);
    var k := |sourcePort| + |sourceChannel| + 1;
    assert prefix[k] == '/';
    assert denom[k] == prefix[k];
  }

  /** channeltypes.Acknowledgement's `Response` oneof: a result, an error, or neither set. */
  datatype AckResponse = AckResult(result: seq<byte>) | AckError(error: string) | AckUnset

  datatype Acknowledgement = Acknowledgement(response: AckResponse)
}
