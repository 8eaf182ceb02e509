/** The `reservation_data_source`: a host reservation looked up by IP or
    MAC address. The client's `ReservationGet` is not part of this model,
    so its outcome is an input. */
module ReservationDataSource {
  import opened Wrappers
  import opened Json
  import opened Kea
  import opened Framework
  import opened ReservationClient
  import opened ProviderModels
  import opened ReservationResource

  /** The data source's attributes. */
  datatype ReservationSourceModel = ReservationSourceModel(
    ipOrMac: Attr<string>,
    subnetID: Attr<int>,
    hostname: Attr<string>,
    reservationHostname: Attr<string>,
    bootFileName: Attr<string>,
    clientID: Attr<string>,
    circuitID: Attr<string>,
    duID: Attr<string>,
    flexID: Attr<string>,
    ipAddress: Attr<string>,
    hwAddress: Attr<string>,
    nextServer: Attr<string>,
    optionData: seq<OptionModel>,
    userContext: Attr<map<string, string>>)

  const AddressRequired: Diagnostic := Error("Invalid Configuration", "`ip_or_mac_address` must be specified.")
  const ServerRequired: Diagnostic :=
    Error("Invalid Configuration", "A `hostname` must be specified. DNS name or IP address of the Kea DHCP server.")

  /** Only a null address is refused (an unknown or empty one passes), the
      hostname must not read as empty, and the subnet id is not checked. */
  function SourceChecks(config: ReservationSourceModel): seq<Check> {
    [ Check(config.ipOrMac.Null?, AddressRequired),
      Check(ValueString(config.hostname) == "", ServerRequired) ]
  }

  predicate SourceValid(config: ReservationSourceModel) {
    !config.ipOrMac.Null? && ValueString(config.hostname) != ""
  }

  lemma SourceChecksPass(config: ReservationSourceModel)
    ensures Reported(SourceChecks(config)) == [] <==> SourceValid(config)
    ensures |Reported(SourceChecks(config))| == 2 <==> config.ipOrMac.Null? && ValueString(config.hostname) == ""
  {
    ReportedAll(SourceChecks(config));
  }

  /** The state saved from a reservation: every reported attribute replaced,
      the next server as Kea wrote it, the user context only when the reply
      carries one; address, subnet id and hostname kept. */
  function SourceState(config: ReservationSourceModel, r: Reservation, show: Json -> string): ReservationSourceModel {
    config.(reservationHostname := Known(r.hostname), bootFileName := Known(r.bootFileName),
            clientID := Known(r.clientID), circuitID := Known(r.circuitID), duID := Known(r.duID),
            flexID := Known(r.flexID), ipAddress := Known(r.ipAddress), hwAddress := Known(r.hwAddress),
            nextServer := Known(r.nextServer), optionData := OptionModelList(r.optionData),
            userContext := if r.userContext.Some? then Known(ContextShown(r.userContext.value, show)) else config.userContext)
  }

  method BuildSourceState(config: ReservationSourceModel, r: Reservation, show: Json -> string)
    returns (state: ReservationSourceModel)
    ensures state == SourceState(config, r, show)
  {
    state := config.(reservationHostname := Known(r.hostname));
    state := state.(bootFileName := Known(r.bootFileName));
    state := state.(clientID := Known(r.clientID));
    state := state.(circuitID := Known(r.circuitID));
    state := state.(duID := Known(r.duID));
    state := state.(flexID := Known(r.flexID));
    state := state.(ipAddress := Known(r.ipAddress));
    state := state.(hwAddress := Known(r.hwAddress));
    state := state.(nextServer := Known(r.nextServer));
    var options := OptionModelsFromData(r.optionData);
    state := state.(optionData := options);
    if r.userContext.Some? {
      var context := ContextFromReply(r.userContext.value, show);
      state := state.(userContext := Known(context));
    }
  }

  /** `Read`: validate, look the reservation up by the address as given with
      `ReservationGet`, whose outcome `got` is, tolerate "not found", and
      save what it returned. */
  method Read(config: ReservationSourceModel, got: Outcome<Reservation>, show: Json -> string)
    returns (out: Applied<ReservationCall, ReservationSourceModel>)
    ensures !SourceValid(config) ==> out == Applied(Reported(SourceChecks(config)), None, None)
    ensures SourceValid(config) ==>
              out.call == Some(GetHost(config.hostname.v, ValueString(config.ipOrMac), ValueInt64(config.subnetID)))
    ensures SourceValid(config) && got.err.Some? && !IsNotFound(got.err.value) ==>
              out.diags == [Error("ReservationGet", "Unable to read example, got error: " + Message(got.err.value))]
    ensures out.state.Some? <==> SourceValid(config) && (got.err.None? || IsNotFound(got.err.value))
    ensures out.state.Some? ==> out.state.value == SourceState(config, got.value, show)
    ensures out.state.None? <==> |out.diags| > 0
  {
    var diags: seq<Diagnostic> := [];
    if config.ipOrMac.Null? {
      diags := diags + [AddressRequired];
    }
    if ValueString(config.hostname) == "" {
      diags := diags + [ServerRequired];
    }
    if |diags| > 0 {
      return Applied(diags, None, None);
    }

    var call := GetHost(ValueString(config.hostname), ValueString(config.ipOrMac), ValueInt64(config.subnetID));
    if got.err.Some? && !IsNotFound(got.err.value) {
      diags := diags + [Error("ReservationGet", "Unable to read example, got error: " + Message(got.err.value))];
      return Applied(diags, Some(call), None);
    }
    var state := BuildSourceState(config, got.value, show);
    out := Applied(diags, Some(call), Some(state));
  }

  /** The data source and the resource save the same reservation alike,
      except for the next server, which they store differently exactly when
      Kea reports `0.0.0.0`. */
  lemma SourceAgreesWithResource(config: ReservationSourceModel, rc: ReservationModel, r: Reservation, show: Json -> string)
    requires config.userContext == rc.userContext
    ensures var d := SourceState(config, r, show);
            var s := ReadState(rc, r, show);
            d.reservationHostname == s.reservationHostname && d.bootFileName == s.bootFileName
            && d.clientID == s.clientID && d.circuitID == s.circuitID && d.duID == s.duID && d.flexID == s.flexID
            && d.ipAddress == s.ipAddress && d.hwAddress == s.hwAddress
            && d.optionData == s.optionData && d.userContext == s.userContext
            && (d.nextServer == s.nextServer <==> r.nextServer != "0.0.0.0")
  {
  }
}
