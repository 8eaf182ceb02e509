/** The `lease4-*` commands: DHCPv4 leases as the server holds them. None
    of them goes through the configuration backend. */
module Lease4Client {
  import opened Wrappers
  import opened Json
  import opened Kea

  datatype Lease4 = Lease4(
    clientID: string,
    cltt: int,
    fqdnFwd: bool,
    fqdnRev: bool,
    hostname: string,
    hwAddress: string,
    ipAddress: string,
    state: int,
    subnetID: int,
    validLft: int)

  const ZeroLease: Lease4 := Lease4("", 0, false, false, "", "", "", 0, 0, 0)

  /** `lease4-get-all`: a nil list of subnet ids (`None`) sends no
      arguments, any other list, even an empty one, is sent as `subnets`. */
  function GetAllRequest(subnetIDs: Option<seq<int>>): (r: Request)
    ensures r.command == "lease4-get-all" && Unbacked(r)
    ensures subnetIDs.None? ==> r.arguments == map[]
    ensures subnetIDs.Some? ==> r.arguments == map["subnets" := Nums(subnetIDs.value)]
  {
    match subnetIDs
    case None => Dhcp4Command("lease4-get-all", map[])
    case Some(ids) => Dhcp4Command("lease4-get-all", map["subnets" := Nums(ids)])
  }

  /** On the wire, the nil list and the empty list differ: only the nil
      list leaves `arguments` out, which asks for the leases of every subnet. */
  lemma NilAndEmptySubnetsDiffer()
    ensures "arguments" !in EncodeRequest(GetAllRequest(None)).fields
    ensures "arguments" in EncodeRequest(GetAllRequest(Some([]))).fields
    ensures EncodeRequest(GetAllRequest(Some([]))).fields["arguments"] == Obj(map["subnets" := Arr([])])
  {
    assert |GetAllRequest(Some([])).arguments| == 1;
  }

  function ByIPRequest(ip: string): (r: Request)
    ensures r.command == "lease4-get" && Unbacked(r) && r.arguments == map["ip-address" := Str(ip)]
  {
    Dhcp4Command("lease4-get", map["ip-address" := Str(ip)])
  }

  function ByHostRequest(host: string): (r: Request)
    ensures r.command == "lease4-get-by-hostname" && Unbacked(r) && r.arguments == map["hostname" := Str(host)]
  {
    Dhcp4Command("lease4-get-by-hostname", map["hostname" := Str(host)])
  }

  function ByMacRequest(mac: string): (r: Request)
    ensures r.command == "lease4-get-by-hw-address" && Unbacked(r) && r.arguments == map["hw-address" := Str(mac)]
  {
    Dhcp4Command("lease4-get-by-hw-address", map["hw-address" := Str(mac)])
  }

  function DelRequest(ip: string): (r: Request)
    ensures r.command == "lease4-del" && Unbacked(r) && r.arguments == map["ip-address" := Str(ip)]
  {
    Dhcp4Command("lease4-del", map["ip-address" := Str(ip)])
  }

  datatype LeasesReply = LeasesReply(leases: seq<Lease4>)

  /** `GetLease4All`, `GetLease4ByHost` and `GetLease4ByMac`: the leases,
      or nil (here empty) with the error. */
  function LeasesResult(wire: Wire<LeasesReply>): (r: Outcome<seq<Lease4>>)
    ensures Succeeds(wire) ==> r == Outcome(Decoded(wire, LeasesReply([])).leases, None)
    ensures !Succeeds(wire) ==> r == Outcome([], Some(ErrorOf(wire)))
  {
    Finish(wire, LeasesReply([]), (x: LeasesReply) => x.leases, [])
  }

  /** `GetLease4ByIP` decodes straight into a lease and returns it even
      with an error. */
  function LeaseResult(wire: Wire<Lease4>): (r: Outcome<Lease4>)
    ensures r.err.None? <==> Succeeds(wire)
    ensures r.err.Some? ==> r.err.value == ErrorOf(wire)
    ensures Succeeds(wire) ==> r.value == Decoded(wire, ZeroLease)
    ensures !Accepted(wire) ==> r.value == ZeroLease
    ensures Accepted(wire) && !Succeeds(wire) ==> r.value == Envelope(wire).arguments.partial
  {
    var d := Call(wire, ZeroLease);
    Outcome(d.target, d.err)
  }

  /** `DelLease4` passes no target, so the arguments are never decoded: the
      server's text is returned whenever result 0 comes back. */
  function DelResult(wire: Wire<()>): (r: Outcome<string>)
    ensures Accepted(wire) ==> r == Outcome(Envelope(wire).text, None)
    ensures !Accepted(wire) ==> r == Outcome("", Some(ErrorOf(wire)))
  {
    var d := CallUndecoded(wire, ());
    if d.err.Some? then Outcome("", d.err) else Outcome(d.response.value.text, None)
  }

  /** Unlike the decoding lookups, deleting a lease succeeds even when the
      server's arguments would not decode. */
  lemma DelIgnoresMalformedArguments(text: string, msg: string)
    ensures var wire: Wire<()> := Sent(Answer(Envelopes([Response(0, text, Malformed(msg, ()))])));
            DelResult(wire) == Outcome(text, None) && !Succeeds(wire)
  {
  }
}
