/** `ha-heartbeat`: the high-availability state of the DHCPv4 server. */
module HaClient {
  import opened Wrappers
  import opened Json
  import opened Kea

  datatype Heartbeat = Heartbeat(dateTime: string, scopes: seq<string>, state: string, unsentUpdateCount: int)

  const ZeroHeartbeat: Heartbeat := Heartbeat("", [], "", 0)

  /** The heartbeat command carries no arguments at all. */
  function HeartbeatRequest(): (r: Request)
    ensures r.command == "ha-heartbeat" && Unbacked(r) && |r.arguments| == 0
    ensures EncodeRequest(r).fields.Keys == {"command", "service"}
  {
    var r := Dhcp4Command("ha-heartbeat", map[]);
    assert "service" in EncodeRequest(r).fields;
    r
  }

  /** `HAHeartbeat` returns its target even with an error: empty when the
      call failed before any decoding, and what was decoded before the
      failure when the payload did not decode. */
  function HeartbeatResult(wire: Wire<Heartbeat>): (r: Outcome<Heartbeat>)
    ensures r.err.None? <==> Succeeds(wire)
    ensures r.err.Some? ==> r.err.value == ErrorOf(wire)
    ensures Succeeds(wire) ==> r.value == Decoded(wire, ZeroHeartbeat)
    ensures !Accepted(wire) ==> r.value == ZeroHeartbeat
    ensures Accepted(wire) && !Succeeds(wire) ==> r.value == Envelope(wire).arguments.partial
  {
    var d := Call(wire, ZeroHeartbeat);
    Outcome(d.target, d.err)
  }
}
