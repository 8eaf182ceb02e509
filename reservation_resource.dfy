/** The `reservation_resource`: a host reservation in one subnet. The
    client's `ReservationGet` and `ReservationUpdate` are called but not
    part of this model, so their outcomes are inputs. */
module ReservationResource {
  import opened Wrappers
  import opened Json
  import opened Kea
  import opened Framework
  import opened Subnet4Client
  import opened ReservationClient
  import opened ProviderModels

  /** The resource's attributes. */
  datatype ReservationModel = ReservationModel(
    subnetID: Attr<int>,
    hostname: Attr<string>,
    reservationHostname: Attr<string>,
    bootFileName: Attr<string>,
    clientID: Attr<string>,
    circuitID: Attr<string>,
    duID: Attr<string>,
    flexID: Attr<string>,
    ipAddress: Attr<string>,
    hwAddress: Attr<string>,
    nextServer: Attr<string>,
    optionData: seq<OptionModel>,
    userContext: Attr<map<string, string>>)

  /** The client methods the resource calls, with their arguments. */
  datatype ReservationCall =
    | AddHost(host: string, reservation: Reservation)
    | GetHost(host: string, key: string, subnetID: int)
    | UpdateHost(host: string, reservation: Reservation)
    | DelHost(host: string, ipAddress: string, subnetID: int)

  // ---- Validation ------------------------------------------------------

  const SubnetIDField: string := "`subnet_id` is required"
  const HostnameField: string := "`hostname` field is required"
  const ReservationHostnameField: string := "`reservation_hostname` field is required"
  const IPAddressField: string := "`ip_address` field is required"
  const HwAddressField: string := "`hw_address` field is required"

  /** Create and Update: subnet id, hostname, reservation hostname, IP and
      hardware address. */
  function ResvChecks(summary: string, config: ReservationModel): seq<Check> {
    [ Check(MissingValue(config.subnetID), Error(summary, SubnetIDField)),
      Check(MissingString(config.hostname), Error(summary, HostnameField)),
      Check(MissingString(config.reservationHostname), Error(summary, ReservationHostnameField)),
      Check(MissingString(config.ipAddress), Error(summary, IPAddressField)),
      Check(MissingString(config.hwAddress), Error(summary, HwAddressField)) ]
  }

  predicate ResvValid(config: ReservationModel) {
    !MissingValue(config.subnetID) && !MissingString(config.hostname) && !MissingString(config.reservationHostname)
    && !MissingString(config.ipAddress) && !MissingString(config.hwAddress)
  }

  /** Read: subnet id, hostname and reservation hostname only. */
  function ReadChecks(config: ReservationModel): seq<Check> {
    ResvChecks("ReservationAdd", config)[..3]
  }

  predicate ReadValid(config: ReservationModel) {
    !MissingValue(config.subnetID) && !MissingString(config.hostname) && !MissingString(config.reservationHostname)
  }

  /** Delete: Read's three and the IP address, but not the hardware address. */
  function DelChecks(config: ReservationModel): seq<Check> {
    ResvChecks("ReservationDel", config)[..4]
  }

  predicate DelValid(config: ReservationModel) {
    ReadValid(config) && !MissingString(config.ipAddress)
  }

  /** Validation passes exactly when the five attributes are given. */
  lemma ResvChecksPass(summary: string, config: ReservationModel)
    ensures Reported(ResvChecks(summary, config)) == [] <==> ResvValid(config)
  {
    var cs := ResvChecks(summary, config);
    ReportedFive(cs[0], cs[1], cs[2], cs[3], cs[4]);
  }

  /** Read passes with the IP or the hardware address missing, Delete only
      with the hardware address missing. */
  lemma ReadAndDelChecksPass(config: ReservationModel)
    ensures Reported(ReadChecks(config)) == [] <==> ReadValid(config)
    ensures Reported(DelChecks(config)) == [] <==> DelValid(config)
  {
    var cs := ResvChecks("ReservationAdd", config);
    assert ReadChecks(config) == [cs[0], cs[1], cs[2]];
    ReportedThree(cs[0], cs[1], cs[2]);
    var ds := ResvChecks("ReservationDel", config);
    assert DelChecks(config) == [ds[0], ds[1], ds[2], ds[3]];
    ReportedFour(ds[0], ds[1], ds[2], ds[3]);
  }

  /** The validation steps of Create and Update. */
  method ValidateResv(summary: string, config: ReservationModel) returns (diags: seq<Diagnostic>)
    ensures diags == Reported(ResvChecks(summary, config))
    ensures diags == [] <==> ResvValid(config)
  {
    ghost var cs := ResvChecks(summary, config);
    diags := [];
    if MissingValue(config.subnetID) {
      diags := diags + [Error(summary, SubnetIDField)];
    }
    assert diags == Flagged(cs[0]);
    if MissingString(config.hostname) {
      diags := diags + [Error(summary, HostnameField)];
    }
    assert diags == Flagged(cs[0]) + Flagged(cs[1]);
    if MissingString(config.reservationHostname) {
      diags := diags + [Error(summary, ReservationHostnameField)];
    }
    assert diags == Flagged(cs[0]) + Flagged(cs[1]) + Flagged(cs[2]);
    if MissingString(config.ipAddress) {
      diags := diags + [Error(summary, IPAddressField)];
    }
    assert diags == Flagged(cs[0]) + Flagged(cs[1]) + Flagged(cs[2]) + Flagged(cs[3]);
    if MissingString(config.hwAddress) {
      diags := diags + [Error(summary, HwAddressField)];
    }
    ReportedFive(cs[0], cs[1], cs[2], cs[3], cs[4]);
    ResvChecksPass(summary, config);
  }

  /** The validation steps of Read (`withIP` false) and Delete (`withIP` true). */
  method ValidateKey(summary: string, withIP: bool, config: ReservationModel) returns (diags: seq<Diagnostic>)
    ensures diags == Reported(ResvChecks(summary, config)[..if withIP then 4 else 3])
  {
    ghost var cs := ResvChecks(summary, config);
    diags := [];
    if MissingValue(config.subnetID) {
      diags := diags + [Error(summary, SubnetIDField)];
    }
    assert diags == Flagged(cs[0]);
    if MissingString(config.hostname) {
      diags := diags + [Error(summary, HostnameField)];
    }
    assert diags == Flagged(cs[0]) + Flagged(cs[1]);
    if MissingString(config.reservationHostname) {
      diags := diags + [Error(summary, ReservationHostnameField)];
    }
    assert diags == Flagged(cs[0]) + Flagged(cs[1]) + Flagged(cs[2]);
    if withIP && MissingString(config.ipAddress) {
      diags := diags + [Error(summary, IPAddressField)];
    }
    if withIP {
      assert cs[..4] == [cs[0], cs[1], cs[2], cs[3]];
      ReportedFour(cs[0], cs[1], cs[2], cs[3]);
    } else {
      assert cs[..3] == [cs[0], cs[1], cs[2]];
      ReportedThree(cs[0], cs[1], cs[2]);
    }
  }

  // ---- The reservation sent --------------------------------------------

  /** The entries of `elements` under `keys`, each value rendered by `quote`. */
  function Quoted(elements: map<string, string>, keys: set<string>, quote: string -> string): map<string, Json>
    requires keys <= elements.Keys
  {
    map k | k in keys :: Str(quote(elements[k]))
  }

  /** The user context sent: each configured entry under its key, as the
      framework's rendering `quote` of the string value. A null or unknown
      map has no entries, and the map is never nil. */
  function ContextSent(uc: Attr<map<string, string>>, quote: string -> string): (m: map<string, Json>)
    ensures m.Keys == ValueOr(uc, map[]).Keys
    ensures forall k | k in m :: m[k] == Str(quote(ValueOr(uc, map[])[k]))
  {
    var elements := ValueOr(uc, map[]);
    Quoted(elements, elements.Keys, quote)
  }

  method ContextFromElements(uc: Attr<map<string, string>>, quote: string -> string) returns (fr: map<string, Json>)
    ensures fr == ContextSent(uc, quote)
  {
    var elements := ValueOr(uc, map[]);
    fr := map[];
    var todo := elements.Keys;
    while todo != {}
      invariant todo <= elements.Keys
      invariant fr == Quoted(elements, elements.Keys - todo, quote)
      decreases |todo|
    {
      var k :| k in todo;
      fr := fr[k := Str(quote(elements[k]))];
      todo := todo - {k};
      assert fr == Quoted(elements, elements.Keys - todo, quote);
    }
  }

  /** The reservation Create and Update send. The optional strings are
      copied only when known, which leaves them empty otherwise. */
  function ResvOf(config: ReservationModel, quote: string -> string): Reservation {
    Reservation(ValueString(config.bootFileName), ValueString(config.clientID), ValueString(config.circuitID),
                ValueString(config.duID), ValueString(config.flexID), ValueString(config.ipAddress),
                ValueString(config.hwAddress), ValueString(config.reservationHostname), ValueString(config.nextServer),
                OptionDataList(config.optionData), ValueInt64(config.subnetID), Some(ContextSent(config.userContext, quote)))
  }

  /** An optional string is copied only when known; it is otherwise left
      empty, which is what `ValueString` gives. */
  method CopyGiven(a: Attr<string>) returns (s: string)
    ensures s == ValueString(a)
  {
    s := "";
    if !a.Null? && !a.Unknown? {
      s := ValueString(a);
    }
  }

  method BuildResv(config: ReservationModel, quote: string -> string) returns (resv: Reservation)
    ensures resv == ResvOf(config, quote)
  {
    var bootFileName := CopyGiven(config.bootFileName);
    var clientID := CopyGiven(config.clientID);
    var circuitID := CopyGiven(config.circuitID);
    var duID := CopyGiven(config.duID);
    var flexID := CopyGiven(config.flexID);
    var nextServer := CopyGiven(config.nextServer);
    var options := OptionDataFromModels(config.optionData);
    var context := ContextFromElements(config.userContext, quote);
    resv := Reservation(bootFileName, clientID, circuitID, duID, flexID, ValueString(config.ipAddress),
                        ValueString(config.hwAddress), ValueString(config.reservationHostname), nextServer,
                        options, ValueInt64(config.subnetID), Some(context));
  }

  /** The error `ReservationAdd` returns for a reservation. */
  function AddError(res: Reservation, ipValid: string -> bool, parseMAC: string -> Option<string>, wire: Wire<()>): Option<Error> {
    if !ipValid(res.ipAddress) then Some(InvalidIP)
    else if parseMAC(res.hwAddress).None? then Some(InvalidMAC)
    else StatusOf(wire)
  }

  // ---- Create, Update, Delete -----------------------------------------

  /** `Create`: validate, send the reservation with `ReservationAdd`, and
      save the configuration unchanged. `render` is the `%v` rendering of
      the reservation in the error text. */
  method Create(config: ReservationModel, ipValid: string -> bool, parseMAC: string -> Option<string>, wire: Wire<()>,
                quote: string -> string, render: Reservation -> string)
    returns (out: Applied<ReservationCall, ReservationModel>)
    ensures !ResvValid(config) ==> out == Applied(Reported(ResvChecks("ReservationAdd", config)), None, None)
    ensures ResvValid(config) ==> out.call == Some(AddHost(config.hostname.v, ResvOf(config, quote)))
    ensures out.state.Some? <==> ResvValid(config) && AddError(ResvOf(config, quote), ipValid, parseMAC, wire).None?
    ensures out.state.Some? ==> out == Applied([], out.call, Some(config))
    ensures ResvValid(config) && AddError(ResvOf(config, quote), ipValid, parseMAC, wire).Some? ==>
              out.diags == [Error("ReservationAdd", "Unable to create reservation in Kea, got error: "
                + Message(AddError(ResvOf(config, quote), ipValid, parseMAC, wire).value) + " | " + render(ResvOf(config, quote)))]
  {
    var diags := ValidateResv("ReservationAdd", config);
    if |diags| > 0 {
      return Applied(diags, None, None);
    }

    var resv := BuildResv(config, quote);
    var call := AddHost(ValueString(config.hostname), resv);
    var added := Add(resv, ipValid, parseMAC, wire);
    assert added.err == AddError(resv, ipValid, parseMAC, wire);
    if added.err.Some? {
      diags := diags + [Error("ReservationAdd", "Unable to create reservation in Kea, got error: "
                              + Message(added.err.value) + " | " + render(resv))];
      return Applied(diags, Some(call), None);
    }
    out := Applied(diags, Some(call), Some(config));
  }

  /** `Update`: Create's reservation under Update's texts, sent with
      `ReservationUpdate`, whose error `updated` is. */
  method Update(config: ReservationModel, updated: Option<Error>, quote: string -> string, render: Reservation -> string)
    returns (out: Applied<ReservationCall, ReservationModel>)
    ensures !ResvValid(config) ==> out == Applied(Reported(ResvChecks("ReservationUpdate", config)), None, None)
    ensures ResvValid(config) ==> out.call == Some(UpdateHost(config.hostname.v, ResvOf(config, quote)))
    ensures out.state.Some? <==> ResvValid(config) && updated.None?
    ensures out.state.Some? ==> out == Applied([], out.call, Some(config))
    ensures ResvValid(config) && updated.Some? ==>
              out.diags == [Error("ReservationUpdate", "Unable to update reservation in Kea, got error: "
                                  + Message(updated.value) + " | " + render(ResvOf(config, quote)))]
  {
    var diags := ValidateResv("ReservationUpdate", config);
    if |diags| > 0 {
      return Applied(diags, None, None);
    }

    var resv := BuildResv(config, quote);
    var call := UpdateHost(ValueString(config.hostname), resv);
    if updated.Some? {
      diags := diags + [Error("ReservationUpdate", "Unable to update reservation in Kea, got error: "
                              + Message(updated.value) + " | " + render(resv))];
      return Applied(diags, Some(call), None);
    }
    out := Applied(diags, Some(call), Some(config));
  }

  /** `Delete`: validate, then remove the reservation by IP and subnet id
      with `ReservationDel`, which checks the IP first. */
  method Delete(config: ReservationModel, ipValid: string -> bool, wire: Wire<()>)
    returns (out: Applied<ReservationCall, ReservationModel>)
    ensures out.state.None?
    ensures !DelValid(config) ==> out == Applied(Reported(DelChecks(config)), None, None)
    ensures DelValid(config) ==> out.call == Some(DelHost(config.hostname.v, config.ipAddress.v, config.subnetID.v))
    ensures DelValid(config) ==>
              var err := Del(config.ipAddress.v, config.subnetID.v, ipValid, wire).err;
              out.diags == if err.None? then [] else [Error("ReservationDel", "Unable to delete reservation, got error: " + Message(err.value))]
  {
    var diags := ValidateKey("ReservationDel", true, config);
    ReadAndDelChecksPass(config);
    if |diags| > 0 {
      return Applied(diags, None, None);
    }

    var call := DelHost(ValueString(config.hostname), ValueString(config.ipAddress), ValueInt64(config.subnetID));
    var deleted := Del(ValueString(config.ipAddress), ValueInt64(config.subnetID), ipValid, wire);
    if deleted.err.Some? {
      diags := diags + [Error("ReservationDel", "Unable to delete reservation, got error: " + Message(deleted.err.value))];
    }
    out := Applied(diags, Some(call), None);
  }

  // ---- Read --------------------------------------------------------------

  /** Read looks the reservation up by its IP address when that is known
      and not empty, and by its hardware address otherwise. */
  function LookupKey(config: ReservationModel): (key: string)
    ensures config.ipAddress.Known? && config.ipAddress.v != "" ==> key == config.ipAddress.v
    ensures !(config.ipAddress.Known? && config.ipAddress.v != "") ==> key == ValueString(config.hwAddress)
  {
    if !config.ipAddress.Null? && !config.ipAddress.Unknown? && ValueString(config.ipAddress) != "" then ValueString(config.ipAddress)
    else ValueString(config.hwAddress)
  }

  /** Kea's `0.0.0.0` next server is stored as empty. */
  function ShownNextServer(nextServer: string): (s: string)
    ensures nextServer == "0.0.0.0" ==> s == ""
    ensures nextServer != "0.0.0.0" ==> s == nextServer
  {
    if nextServer != "0.0.0.0" then nextServer else ""
  }

  /** The entries of `m` under `keys`, each value rendered by `show`. */
  function Shown(m: map<string, Json>, keys: set<string>, show: Json -> string): map<string, string>
    requires keys <= m.Keys
  {
    map k | k in keys :: show(m[k])
  }

  /** A reply's user context, each value under `show`, the `%v` rendering. */
  function ContextShown(m: map<string, Json>, show: Json -> string): (c: map<string, string>)
    ensures c.Keys == m.Keys && forall k | k in m :: c[k] == show(m[k])
  {
    Shown(m, m.Keys, show)
  }

  method ContextFromReply(m: map<string, Json>, show: Json -> string) returns (fr: map<string, string>)
    ensures fr == ContextShown(m, show)
  {
    fr := map[];
    var todo := m.Keys;
    while todo != {}
      invariant todo <= m.Keys
      invariant fr == Shown(m, m.Keys - todo, show)
      decreases |todo|
    {
      var k :| k in todo;
      fr := fr[k := show(m[k])];
      todo := todo - {k};
      assert fr == Shown(m, m.Keys - todo, show);
    }
  }

  /** The state Read saves: every reported attribute replaced, the user
      context only when the reply carries one; subnet id and hostname kept. */
  function ReadState(config: ReservationModel, r: Reservation, show: Json -> string): ReservationModel {
    config.(reservationHostname := Known(r.hostname), bootFileName := Known(r.bootFileName),
            clientID := Known(r.clientID), circuitID := Known(r.circuitID), duID := Known(r.duID),
            flexID := Known(r.flexID), ipAddress := Known(r.ipAddress), hwAddress := Known(r.hwAddress),
            nextServer := Known(ShownNextServer(r.nextServer)), optionData := OptionModelList(r.optionData),
            userContext := if r.userContext.Some? then Known(ContextShown(r.userContext.value, show)) else config.userContext)
  }

  method BuildReadState(config: ReservationModel, r: Reservation, show: Json -> string) returns (state: ReservationModel)
    ensures state == ReadState(config, r, show)
  {
    var nextServer := "";
    if r.nextServer != "0.0.0.0" {
      nextServer := r.nextServer;
    }
    state := config.(reservationHostname := Known(r.hostname));
    state := state.(bootFileName := Known(r.bootFileName));
    state := state.(clientID := Known(r.clientID));
    state := state.(circuitID := Known(r.circuitID));
    state := state.(duID := Known(r.duID));
    state := state.(flexID := Known(r.flexID));
    state := state.(ipAddress := Known(r.ipAddress));
    state := state.(hwAddress := Known(r.hwAddress));
    state := state.(nextServer := Known(nextServer));
    var options := OptionModelsFromData(r.optionData);
    state := state.(optionData := options);
    if r.userContext.Some? {
      var context := ContextFromReply(r.userContext.value, show);
      state := state.(userContext := Known(context));
    }
  }

  /** `Read`: validate, look the reservation up with `ReservationGet`, whose
      outcome `got` is, tolerate "not found", and save what it returned. */
  method Read(config: ReservationModel, got: Outcome<Reservation>, show: Json -> string)
    returns (out: Applied<ReservationCall, ReservationModel>)
    ensures !ReadValid(config) ==> out == Applied(Reported(ReadChecks(config)), None, None)
    ensures ReadValid(config) ==> out.call == Some(GetHost(config.hostname.v, LookupKey(config), config.subnetID.v))
    ensures ReadValid(config) && got.err.Some? && !IsNotFound(got.err.value) ==>
              out.diags == [Error("ReservationGet", "Unable to read example, got error: " + Message(got.err.value))]
    ensures out.state.Some? <==> ReadValid(config) && (got.err.None? || IsNotFound(got.err.value))
    ensures out.state.Some? ==> out.state.value == ReadState(config, got.value, show)
    ensures out.state.None? <==> |out.diags| > 0
  {
    var diags := ValidateKey("ReservationAdd", false, config);
    ReadAndDelChecksPass(config);
    if |diags| > 0 {
      return Applied(diags, None, None);
    }

    var call := GetHost(ValueString(config.hostname), LookupKey(config), ValueInt64(config.subnetID));
    if got.err.Some? && !IsNotFound(got.err.value) {
      diags := diags + [Error("ReservationGet", "Unable to read example, got error: " + Message(got.err.value))];
      return Applied(diags, Some(call), None);
    }
    var state := BuildReadState(config, got.value, show);
    out := Applied(diags, Some(call), Some(state));
  }

  // ---- Properties across operations ----------------------------------

  /** Sending back what Read saved reproduces Kea's reservation, except
      that a `0.0.0.0` next server is sent as empty, option data lose their
      space and gain code 0 when they had none, and the user context is
      re-rendered. */
  lemma ReadThenSend(config: ReservationModel, r: Reservation, show: Json -> string, quote: string -> string)
    ensures var s := ResvOf(ReadState(config, r, show), quote);
            s.hostname == r.hostname && s.bootFileName == r.bootFileName && s.clientID == r.clientID
            && s.circuitID == r.circuitID && s.duID == r.duID && s.flexID == r.flexID
            && s.ipAddress == r.ipAddress && s.hwAddress == r.hwAddress
            && s.nextServer == ShownNextServer(r.nextServer) && s.subnetID == ValueInt64(config.subnetID)
            && |s.optionData| == |r.optionData|
            && forall i | 0 <= i < |r.optionData| ::
                 s.optionData[i] == r.optionData[i].(code := Some(r.optionData[i].code.GetOr(0)), space := None)
  {
  }

  /** A reservation Kea reports with next server `0.0.0.0` is sent back
      without `next-server`, and any other non-empty one is sent as is. */
  lemma ZeroNextServerNotResent(config: ReservationModel, r: Reservation, show: Json -> string, quote: string -> string)
    ensures var j := ReservationJson(ResvOf(ReadState(config, r, show), quote)).fields;
            ("next-server" in j <==> r.nextServer != "0.0.0.0" && r.nextServer != "")
  {
    ReservationJsonOmitsEmptyBoot(ResvOf(ReadState(config, r, show), quote));
  }

  /** Create sends the configured IP address, hardware address, reservation
      hostname and subnet id, before the client's own rewriting of the MAC. */
  lemma CreateSendsConfig(config: ReservationModel, quote: string -> string)
    requires ResvValid(config)
    ensures var j := ReservationJson(ResvOf(config, quote)).fields;
            j["ip-address"] == Str(config.ipAddress.v) && j["hw-address"] == Str(config.hwAddress.v)
            && j["hostname"] == Str(config.reservationHostname.v) && j["subnet-id"] == Num(config.subnetID.v)
  {
  }

  /** The user context is sent exactly when the configured map has entries. */
  lemma ContextSentWhenNotEmpty(config: ReservationModel, quote: string -> string)
    ensures "user-context" in ReservationJson(ResvOf(config, quote)).fields <==> |ValueOr(config.userContext, map[])| > 0
  {
    ReservationJsonOmitsEmptyBoot(ResvOf(config, quote));
    assert ContextSent(config.userContext, quote).Keys == ValueOr(config.userContext, map[]).Keys;
  }
}
