/** The `remote_subnet4_data_source`: a subnet looked up either by prefix
    or by id, with pools and relay addresses as plain string lists. */
module SubnetDataSource {
  import opened Wrappers
  import opened Kea
  import opened Framework
  import opened Subnet4Client
  import opened ProviderModels
  import opened SubnetResource

  /** The data source's attributes. */
  datatype SubnetSourceModel = SubnetSourceModel(
    prefix: Attr<string>,
    subnetID: Attr<int>,
    hostname: Attr<string>,
    id: Attr<int>,
    optionData: seq<OptionModel>,
    pools: Attr<seq<string>>,
    relay: Attr<seq<string>>,
    subnet: Attr<string>)

  const ExactlyOneSelector: Diagnostic :=
    Error("Invalid Configuration", "One and only one of `prefix` or `subnet_id` must be specified.")
  const HostnameRequired: Diagnostic :=
    Error("Invalid Configuration", "A `hostname` must be specified. DNS name or IP address of the Kea DHCP server.")

  /** Exactly one of `prefix` and `subnet_id` must be set (an unknown value
      counts as set), and the hostname must not read as empty. */
  function SourceChecks(config: SubnetSourceModel): seq<Check> {
    [ Check(config.prefix.Null? == config.subnetID.Null?, ExactlyOneSelector),
      Check(ValueString(config.hostname) == "", HostnameRequired) ]
  }

  predicate SourceValid(config: SubnetSourceModel) {
    config.prefix.Null? != config.subnetID.Null? && ValueString(config.hostname) != ""
  }

  lemma SourceChecksPass(config: SubnetSourceModel)
    ensures Reported(SourceChecks(config)) == [] <==> SourceValid(config)
  {
    ReportedAll(SourceChecks(config));
  }

  /** The lookup the configuration selects: by prefix whenever `prefix` is
      not null, by id otherwise. */
  function Lookup(config: SubnetSourceModel): (call: SubnetCall)
    ensures SourceValid(config) && config.prefix.Known? ==> call == GetByPrefix(config.hostname.v, config.prefix.v)
    ensures SourceValid(config) && config.subnetID.Known? ==> call == GetByID(config.hostname.v, config.subnetID.v)
  {
    if !config.prefix.Null? then GetByPrefix(ValueString(config.hostname), ValueString(config.prefix))
    else GetByID(ValueString(config.hostname), ValueInt64(config.subnetID))
  }

  function LookupFailure(call: SubnetCall, e: Error): Diagnostic {
    Error(if call.GetByPrefix? then "RemoteSubnet4GetByPrefix" else "RemoteSubnet4GetByID",
          "Unable to read example, got error: " + Message(e))
  }

  /** The state saved from a subnet: id, option data, pool strings, relay
      addresses and prefix replaced; the selectors and hostname kept. */
  function SourceState(config: SubnetSourceModel, s: RemoteSubnet4): SubnetSourceModel {
    config.(id := Known(s.id), optionData := OptionModelList(s.optionData), pools := Known(PoolNames(s.pools)),
            relay := Known(s.relay.ipAddresses), subnet := Known(s.subnet))
  }

  method BuildSourceState(config: SubnetSourceModel, s: RemoteSubnet4) returns (state: SubnetSourceModel)
    ensures state == SourceState(config, s)
  {
    state := config.(id := Known(s.id));
    var options := OptionModelsFromData(s.optionData);
    state := state.(optionData := options);
    var pools := PoolStrings(s.pools);
    state := state.(pools := Known(pools));
    var relay := RelayStrings(s.relay);
    state := state.(relay := Known(relay));
    state := state.(subnet := Known(s.subnet));
  }

  /** `Read`: validate, look the subnet up, tolerate "not found" (saving the
      empty subnet), and report any other client error. */
  method Read(config: SubnetSourceModel, wire: Wire<SubnetsReply>) returns (out: Applied<SubnetCall, SubnetSourceModel>)
    requires Succeeds(wire) ==> |Decoded(wire, SubnetsReply([])).subnets| > 0
    ensures !SourceValid(config) ==> out == Applied(Reported(SourceChecks(config)), None, None)
    ensures SourceValid(config) ==> out.call == Some(Lookup(config))
    ensures SourceValid(config) && SubnetResult(wire).err.Some? && !IsNotFound(SubnetResult(wire).err.value) ==>
              out.diags == [LookupFailure(Lookup(config), SubnetResult(wire).err.value)]
    ensures out.state.Some? <==>
              SourceValid(config) && (SubnetResult(wire).err.None? || IsNotFound(SubnetResult(wire).err.value))
    ensures out.state.Some? ==> out.state.value == SourceState(config, SubnetResult(wire).value)
    ensures out.state.None? <==> |out.diags| > 0
  {
    var diags: seq<Diagnostic> := [];
    if (!config.prefix.Null? && !config.subnetID.Null?) || (config.prefix.Null? && config.subnetID.Null?) {
      diags := diags + [ExactlyOneSelector];
    }
    if ValueString(config.hostname) == "" {
      diags := diags + [HostnameRequired];
    }
    if |diags| > 0 {
      return Applied(diags, None, None);
    }

    var call: SubnetCall;
    var respData := SubnetResult(wire);
    if !config.prefix.Null? {
      call := GetByPrefix(ValueString(config.hostname), ValueString(config.prefix));
      if respData.err.Some? && !IsNotFound(respData.err.value) {
        diags := diags + [Error("RemoteSubnet4GetByPrefix", "Unable to read example, got error: " + Message(respData.err.value))];
        return Applied(diags, Some(call), None);
      }
    } else {
      call := GetByID(ValueString(config.hostname), ValueInt64(config.subnetID));
      if respData.err.Some? && !IsNotFound(respData.err.value) {
        diags := diags + [Error("RemoteSubnet4GetByID", "Unable to read example, got error: " + Message(respData.err.value))];
        return Applied(diags, Some(call), None);
      }
    }
    var state := BuildSourceState(config, respData.value);
    out := Applied(diags, Some(call), Some(state));
  }

  /** The data source and the resource save the same subnet alike: the same
      id, prefix and option data, and as lists the pools and relay
      addresses the resource keeps as blocks. */
  lemma SourceAgreesWithResource(config: SubnetSourceModel, rc: SubnetModel, s: RemoteSubnet4)
    ensures var d := SourceState(config, s);
            var r := ReadState(rc, s);
            d.id == r.id && d.subnet == r.subnet && d.optionData == r.optionData &&
            |d.pools.v| == |r.pools| && (forall i | 0 <= i < |r.pools| :: Known(d.pools.v[i]) == r.pools[i].pool) &&
            |d.relay.v| == |r.relay| && (forall i | 0 <= i < |r.relay| :: Known(d.relay.v[i]) == r.relay[i].ipAddress)
  {
  }
}
