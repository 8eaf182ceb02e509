/** Host reservations: the `Reservation` record, `reservation-get-all`,
    `reservation-add` with its IP and MAC pre-validation, and
    `reservation-del`. `net.ParseIP` and `net.ParseMAC` are parameters:
    `ipValid` says whether an address parses and `parseMAC` gives the
    canonical rendering of a hardware address that parses. */
module ReservationClient {
  import opened Wrappers
  import opened Json
  import opened Kea
  import opened Subnet4Client

  /** A nil `user-context` map (`None`) is told apart from an empty one,
      because the provider copies the user context only when it is not nil. */
  datatype Reservation = Reservation(
    bootFileName: string,
    clientID: string,
    circuitID: string,
    duID: string,
    flexID: string,
    ipAddress: string,
    hwAddress: string,
    hostname: string,
    nextServer: string,
    optionData: seq<OptionData>,
    subnetID: int,
    userContext: Option<map<string, Json>>)

  /** The fields of `Reservation` in declaration order. */
  function ReservationFields(r: Reservation): seq<Field> {
    [ Field("boot-file-name", r.bootFileName == "", Str(r.bootFileName)),
      Field("client-id", r.clientID == "", Str(r.clientID)),
      Field("circuit-id", r.circuitID == "", Str(r.circuitID)),
      Field("duid", r.duID == "", Str(r.duID)),
      Field("flex-id", r.flexID == "", Str(r.flexID)),
      Always("ip-address", Str(r.ipAddress)),
      Always("hw-address", Str(r.hwAddress)),
      Always("hostname", Str(r.hostname)),
      Field("next-server", r.nextServer == "", Str(r.nextServer)),
      Field("option-data", |r.optionData| == 0,
            Arr(seq(|r.optionData|, i requires 0 <= i < |r.optionData| => OptionDataJson(r.optionData[i])))),
      Always("subnet-id", Num(r.subnetID)),
      Field("user-context", r.userContext.None? || |r.userContext.value| == 0, Obj(r.userContext.GetOr(map[]))) ]
  }

  /** No two fields of `Reservation` share a JSON key. */
  lemma ReservationFieldsDistinct(r: Reservation)
    ensures DistinctKeys(ReservationFields(r))
  {
    var keys := seq(12, i requires 0 <= i < 12 => ReservationFields(r)[i].key);
    assert keys == ["boot-file-name", "client-id", "circuit-id", "duid", "flex-id", "ip-address",
                    "hw-address", "hostname", "next-server", "option-data", "subnet-id", "user-context"];
  }

  /** `ip-address`, `hw-address`, `hostname` and `subnet-id` are always
      sent, with their values. */
  function ReservationJson(r: Reservation): (j: Json)
    ensures j.Obj?
    ensures "ip-address" in j.fields && j.fields["ip-address"] == Str(r.ipAddress)
    ensures "hw-address" in j.fields && j.fields["hw-address"] == Str(r.hwAddress)
    ensures "hostname" in j.fields && j.fields["hostname"] == Str(r.hostname)
    ensures "subnet-id" in j.fields && j.fields["subnet-id"] == Num(r.subnetID)
  {
    var fs := ReservationFields(r);
    ReservationFieldsDistinct(r);
    FieldWritten(fs, 5); FieldWritten(fs, 6); FieldWritten(fs, 7); FieldWritten(fs, 10);
    Struct(fs)
  }

  /** The client identifiers are each left out exactly when empty. */
  lemma ReservationJsonOmitsEmptyIdentifiers(r: Reservation)
    ensures var j := ReservationJson(r).fields;
            && ("client-id" in j <==> r.clientID != "") && ("circuit-id" in j <==> r.circuitID != "")
            && ("duid" in j <==> r.duID != "") && ("flex-id" in j <==> r.flexID != "")
  {
    var fs := ReservationFields(r);
    ReservationFieldsDistinct(r);
    FieldWritten(fs, 1); FieldWritten(fs, 2); FieldWritten(fs, 3); FieldWritten(fs, 4);
  }

  /** The boot file name, `next-server`, option data and user context are
      each left out exactly when empty. */
  lemma ReservationJsonOmitsEmptyBoot(r: Reservation)
    ensures var j := ReservationJson(r).fields;
            && ("boot-file-name" in j <==> r.bootFileName != "") && ("next-server" in j <==> r.nextServer != "")
            && ("option-data" in j <==> |r.optionData| > 0) && ("user-context" in j <==> r.userContext.Some? && |r.userContext.value| > 0)
  {
    var fs := ReservationFields(r);
    ReservationFieldsDistinct(r);
    FieldWritten(fs, 0); FieldWritten(fs, 8); FieldWritten(fs, 9); FieldWritten(fs, 11);
  }

  function GetAllRequest(subnetID: int): (r: Request)
    ensures r.command == "reservation-get-all" && Unbacked(r)
    ensures r.arguments == map["subnet-id" := Num(subnetID)]
  {
    Dhcp4Command("reservation-get-all", map["subnet-id" := Num(subnetID)])
  }

  datatype HostsReply = HostsReply(hosts: seq<Reservation>)

  function GetAllResult(wire: Wire<HostsReply>): (r: Outcome<seq<Reservation>>)
    ensures Succeeds(wire) ==> r == Outcome(Decoded(wire, HostsReply([])).hosts, None)
    ensures !Succeeds(wire) ==> r == Outcome([], Some(ErrorOf(wire)))
  {
    Finish(wire, HostsReply([]), (x: HostsReply) => x.hosts, [])
  }

  /** `reservation-add` carrying the reservation as given except for its
      hardware address. */
  function AddRequest(res: Reservation): (r: Request)
    ensures r.command == "reservation-add" && Unbacked(r)
    ensures r.arguments == map["reservation" := ReservationJson(res)]
  {
    Dhcp4Command("reservation-add", map["reservation" := ReservationJson(res)])
  }

  /** `ReservationAdd`: the IP is checked first, then the MAC, which is
      replaced on the by-value copy by its canonical form; only then is a
      request built and sent, and the call's error is returned. */
  method Add(res: Reservation, ipValid: string -> bool, parseMAC: string -> Option<string>, wire: Wire<()>)
    returns (r: Issued)
    ensures !ipValid(res.ipAddress) ==> r == Issued(None, Some(InvalidIP))
    ensures ipValid(res.ipAddress) && parseMAC(res.hwAddress).None? ==> r == Issued(None, Some(InvalidMAC))
    ensures ipValid(res.ipAddress) && parseMAC(res.hwAddress).Some? ==>
              && r.request == Some(AddRequest(res.(hwAddress := parseMAC(res.hwAddress).value)))
              && r.err == StatusOf(wire)
  {
    var copy := res;
    if !ipValid(copy.ipAddress) {
      return Issued(None, Some(InvalidIP));
    }
    match parseMAC(copy.hwAddress) {
      case Some(canonical) =>
        copy := copy.(hwAddress := canonical);
      case None =>
        return Issued(None, Some(InvalidMAC));
    }
    var payload := AddRequest(copy);
    r := Issued(Some(payload), StatusOf(wire));
  }

  function DelRequest(ipAddress: string, subnetID: int): (r: Request)
    ensures r.command == "reservation-del" && Unbacked(r)
    ensures r.arguments.Keys == {"subnet-id", "ip-address"}
    ensures r.arguments["subnet-id"] == Num(subnetID) && r.arguments["ip-address"] == Str(ipAddress)
  {
    Dhcp4Command("reservation-del", map["subnet-id" := Num(subnetID), "ip-address" := Str(ipAddress)])
  }

  /** `ReservationDel`: only the IP is validated. */
  function Del(ipAddress: string, subnetID: int, ipValid: string -> bool, wire: Wire<()>): (r: Issued)
    ensures !ipValid(ipAddress) ==> r == Issued(None, Some(InvalidIP))
    ensures ipValid(ipAddress) ==> r == Issued(Some(DelRequest(ipAddress, subnetID)), StatusOf(wire))
  {
    if !ipValid(ipAddress) then Issued(None, Some(InvalidIP))
    else Issued(Some(DelRequest(ipAddress, subnetID)), StatusOf(wire))
  }
}
