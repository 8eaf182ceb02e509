/** The `remote-subnet4-*` configuration-backend commands: the wire records
    for subnets, pools, relays and option data, the payload builders and
    the extraction of each reply. */
module Subnet4Client {
  import opened Wrappers
  import opened Json
  import opened Kea

  datatype Pool = Pool(pool: string)

  /** `ip-addresses` is `omitempty`. */
  datatype Relay = Relay(ipAddresses: seq<string>)

  /** `code` and `space` are pointers under `omitempty`. */
  datatype OptionData = OptionData(code: Option<int>, data: string, name: string, space: Option<string>, alwaysSend: bool)

  /** A subnet as Kea reports it. */
  datatype RemoteSubnet4 = RemoteSubnet4(
    fourO6Interface: string,
    fourO6InterfaceID: string,
    fourO6Subnet: string,
    id: int,
    metadata: Metadata,
    optionData: seq<OptionData>,
    pools: seq<Pool>,
    relay: Relay,
    sharedNetworkName: Json,
    subnet: string,
    userContext: map<string, Json>)

  /** A subnet as `remote-subnet4-list` and `remote-subnet4-set` report it. */
  datatype RemoteSubnet4List = RemoteSubnet4List(id: int, metadata: Metadata, sharedNetworkName: string, subnet: string)

  /** A subnet to create. `shared-network-name` is a pointer without
      `omitempty`; `relay` carries `omitempty` but is a struct, which
      `encoding/json` never omits. */
  datatype NewRemoteSubnet4 = NewRemoteSubnet4(
    id: int,
    subnet: string,
    sharedNetworkName: Option<string>,
    pools: seq<Pool>,
    optionData: seq<OptionData>,
    relay: Relay,
    userContext: map<string, string>)

  /** The zero `RemoteSubnet4{}`. */
  const ZeroSubnet: RemoteSubnet4 :=
    RemoteSubnet4("", "", "", 0, Metadata([]), [], [], Relay([]), Null, "", map[])

  function PoolJson(p: Pool): (j: Json)
    ensures j == Obj(map["pool" := Str(p.pool)])
  {
    var fs := [Always("pool", Str(p.pool))];
    FieldWritten(fs, 0);
    OnlyFieldsWritten(fs);
    Struct(fs)
  }

  /** A relay with no addresses serialises to `{}`. */
  function RelayJson(r: Relay): (j: Json)
    ensures j.Obj? && ("ip-addresses" in j.fields <==> |r.ipAddresses| > 0)
    ensures "ip-addresses" in j.fields ==> j.fields["ip-addresses"] == Strs(r.ipAddresses)
    ensures |r.ipAddresses| == 0 ==> j == Obj(map[])
  {
    var fs := [Field("ip-addresses", |r.ipAddresses| == 0, Strs(r.ipAddresses))];
    FieldWritten(fs, 0);
    OnlyFieldsWritten(fs);
    Struct(fs)
  }

  /** The fields of `OptionData` in declaration order. */
  function OptionDataFields(o: OptionData): seq<Field> {
    [ Field("code", o.code.None?, Num(o.code.GetOr(0))),
      Always("data", Str(o.data)),
      Always("name", Str(o.name)),
      Field("space", o.space.None?, Str(o.space.GetOr(""))),
      Always("always-send", Bool(o.alwaysSend)) ]
  }

  /** Serialised option data: a nil code or space is left out. */
  function OptionDataJson(o: OptionData): (j: Json)
    ensures j.Obj? && ("code" in j.fields <==> o.code.Some?) && ("space" in j.fields <==> o.space.Some?)
    ensures o.code.Some? ==> j.fields["code"] == Num(o.code.value)
    ensures o.space.Some? ==> j.fields["space"] == Str(o.space.value)
    ensures "data" in j.fields && j.fields["data"] == Str(o.data)
    ensures "name" in j.fields && j.fields["name"] == Str(o.name)
    ensures "always-send" in j.fields && j.fields["always-send"] == Bool(o.alwaysSend)
  {
    var fs := OptionDataFields(o);
    assert DistinctKeys(fs);
    FieldWritten(fs, 0); FieldWritten(fs, 1); FieldWritten(fs, 2); FieldWritten(fs, 3);
    FieldWritten(fs, 4);
    Struct(fs)
  }

  function StrMapJson(m: map<string, string>): Json {
    Obj(map k | k in m :: Str(m[k]))
  }

  /** The fields of `NewRemoteSubnet4` in declaration order. */
  function NewSubnetFields(s: NewRemoteSubnet4): seq<Field> {
    [ Always("id", Num(s.id)),
      Always("subnet", Str(s.subnet)),
      Always("shared-network-name", if s.sharedNetworkName.Some? then Str(s.sharedNetworkName.value) else Null),
      Always("pools", Arr(seq(|s.pools|, i requires 0 <= i < |s.pools| => PoolJson(s.pools[i])))),
      Always("option-data", Arr(seq(|s.optionData|, i requires 0 <= i < |s.optionData| => OptionDataJson(s.optionData[i])))),
      Always("relay", RelayJson(s.relay)),
      Field("user-context", |s.userContext| == 0, StrMapJson(s.userContext)) ]
  }

  /** Serialised new subnet: `id` and `subnet` carry the subnet's values. */
  function NewSubnetJson(s: NewRemoteSubnet4): (j: Json)
    ensures j.Obj? && "id" in j.fields && "subnet" in j.fields
    ensures j.fields["id"] == Num(s.id) && j.fields["subnet"] == Str(s.subnet)
  {
    var fs := NewSubnetFields(s);
    assert DistinctKeys(fs);
    FieldWritten(fs, 0); FieldWritten(fs, 1);
    Struct(fs)
  }

  /** Everything but an empty user context is sent. */
  lemma NewSubnetJsonKeys(s: NewRemoteSubnet4)
    ensures var j := NewSubnetJson(s).fields;
            && {"id", "subnet", "shared-network-name", "pools", "option-data", "relay"} <= j.Keys
            && ("user-context" in j <==> |s.userContext| > 0)
  {
    var fs := NewSubnetFields(s);
    assert DistinctKeys(fs);
    FieldWritten(fs, 2); FieldWritten(fs, 3); FieldWritten(fs, 4); FieldWritten(fs, 5); FieldWritten(fs, 6);
  }

  /** A nil shared network name is sent as `null` and an empty relay as `{}`. */
  lemma NewSubnetJsonNameAndRelay(s: NewRemoteSubnet4)
    ensures var j := NewSubnetJson(s).fields;
            && "shared-network-name" in j && "relay" in j
            && j["shared-network-name"] == (if s.sharedNetworkName.Some? then Str(s.sharedNetworkName.value) else Null)
            && j["relay"] == RelayJson(s.relay)
  {
    var fs := NewSubnetFields(s);
    assert DistinctKeys(fs);
    FieldWritten(fs, 2); FieldWritten(fs, 5);
  }

  /** Pools and option data are sent element by element, in order. */
  lemma NewSubnetJsonLists(s: NewRemoteSubnet4)
    ensures var j := NewSubnetJson(s).fields;
            && "pools" in j && j["pools"].Arr? && |j["pools"].items| == |s.pools|
            && (forall i | 0 <= i < |s.pools| :: j["pools"].items[i] == PoolJson(s.pools[i]))
            && "option-data" in j && j["option-data"].Arr? && |j["option-data"].items| == |s.optionData|
            && (forall i | 0 <= i < |s.optionData| :: j["option-data"].items[i] == OptionDataJson(s.optionData[i]))
  {
    var fs := NewSubnetFields(s);
    assert DistinctKeys(fs);
    FieldWritten(fs, 3); FieldWritten(fs, 4);
  }

  /** `[{"subnet": prefix}]`. */
  function ByPrefix(prefix: string): Json {
    Arr([Obj(map["subnet" := Str(prefix)])])
  }

  /** `[{"id": id}]`. */
  function ByID(id: int): Json {
    Arr([Obj(map["id" := Num(id)])])
  }

  function ListRequest(c: Client): (r: Request)
    ensures r.command == "remote-subnet4-list" && ConfigBackend(r, c, true)
    ensures r.arguments.Keys == {"remote", "server-tags"}
  {
    Dhcp4Command("remote-subnet4-list", map["remote" := RemoteArg(c), "server-tags" := AllServerTags])
  }

  function GetByPrefixRequest(c: Client, prefix: string): (r: Request)
    ensures r.command == "remote-subnet4-get-by-prefix" && ConfigBackend(r, c, false)
    ensures r.arguments.Keys == {"remote", "subnets"} && r.arguments["subnets"] == ByPrefix(prefix)
  {
    Dhcp4Command("remote-subnet4-get-by-prefix", map["remote" := RemoteArg(c), "subnets" := ByPrefix(prefix)])
  }

  function GetByIDRequest(c: Client, id: int): (r: Request)
    ensures r.command == "remote-subnet4-get-by-id" && ConfigBackend(r, c, false)
    ensures r.arguments.Keys == {"remote", "subnets"} && r.arguments["subnets"] == ByID(id)
  {
    Dhcp4Command("remote-subnet4-get-by-id", map["remote" := RemoteArg(c), "subnets" := ByID(id)])
  }

  function DelByPrefixRequest(c: Client, prefix: string): (r: Request)
    ensures r.command == "remote-subnet4-del-by-prefix" && ConfigBackend(r, c, false)
    ensures r.arguments.Keys == {"remote", "subnets"} && r.arguments["subnets"] == ByPrefix(prefix)
  {
    Dhcp4Command("remote-subnet4-del-by-prefix", map["remote" := RemoteArg(c), "subnets" := ByPrefix(prefix)])
  }

  function DelByIDRequest(c: Client, id: int): (r: Request)
    ensures r.command == "remote-subnet4-del-by-id" && ConfigBackend(r, c, false)
    ensures r.arguments.Keys == {"remote", "subnets"} && r.arguments["subnets"] == ByID(id)
  {
    Dhcp4Command("remote-subnet4-del-by-id", map["remote" := RemoteArg(c), "subnets" := ByID(id)])
  }

  /** The caller's subnets are sent verbatim, in order. */
  function SetRequest(c: Client, subnets: seq<NewRemoteSubnet4>): (r: Request)
    ensures r.command == "remote-subnet4-set" && ConfigBackend(r, c, true)
    ensures r.arguments.Keys == {"remote", "server-tags", "subnets"}
    ensures r.arguments["subnets"].Arr? && |r.arguments["subnets"].items| == |subnets|
    ensures forall i | 0 <= i < |subnets| :: r.arguments["subnets"].items[i] == NewSubnetJson(subnets[i])
  {
    Dhcp4Command("remote-subnet4-set", map[
      "remote" := RemoteArg(c),
      "server-tags" := AllServerTags,
      "subnets" := Arr(seq(|subnets|, i requires 0 <= i < |subnets| => NewSubnetJson(subnets[i])))])
  }

  /** Every subnet command speaks to the DHCPv4 server through the
      configured remote; only list and set carry server tags. */
  lemma ServerTagsOnlyOnListAndSet(c: Client, prefix: string, id: int, subnets: seq<NewRemoteSubnet4>)
    ensures ConfigBackend(ListRequest(c), c, true) && ConfigBackend(SetRequest(c, subnets), c, true)
    ensures ConfigBackend(GetByPrefixRequest(c, prefix), c, false) && ConfigBackend(GetByIDRequest(c, id), c, false)
    ensures ConfigBackend(DelByPrefixRequest(c, prefix), c, false) && ConfigBackend(DelByIDRequest(c, id), c, false)
  {
  }

  // ---- Replies --------------------------------------------------------

  datatype ListReply = ListReply(subnets: seq<RemoteSubnet4List>)
  datatype SubnetsReply = SubnetsReply(subnets: seq<RemoteSubnet4>)
  datatype CountReply = CountReply(count: int)

  /** `RemoteSubnet4List` and `RemoteSubnet4Set`: the server's list, or
      nil (here empty) with the error. */
  function ListResult(wire: Wire<ListReply>): (r: Outcome<seq<RemoteSubnet4List>>)
    ensures Succeeds(wire) ==> r == Outcome(Decoded(wire, ListReply([])).subnets, None)
    ensures !Succeeds(wire) ==> r == Outcome([], Some(ErrorOf(wire)))
  {
    Finish(wire, ListReply([]), (x: ListReply) => x.subnets, [])
  }

  /** `RemoteSubnet4GetByPrefix` and `RemoteSubnet4GetByID` index element
      0 of the reply, so a successful reply must list a subnet. */
  function SubnetResult(wire: Wire<SubnetsReply>): (r: Outcome<RemoteSubnet4>)
    requires Succeeds(wire) ==> |Decoded(wire, SubnetsReply([])).subnets| > 0
    ensures Succeeds(wire) ==> r == Outcome(Decoded(wire, SubnetsReply([])).subnets[0], None)
    ensures !Succeeds(wire) ==> r == Outcome(ZeroSubnet, Some(ErrorOf(wire)))
  {
    var d := Call(wire, SubnetsReply([]));
    if d.err.Some? then Outcome(ZeroSubnet, d.err) else Outcome(d.target.subnets[0], None)
  }

  /** The delete commands: the server's count, or 0 with the error. */
  function CountResult(wire: Wire<CountReply>): (r: Outcome<int>)
    ensures Succeeds(wire) ==> r == Outcome(Decoded(wire, CountReply(0)).count, None)
    ensures !Succeeds(wire) ==> r == Outcome(0, Some(ErrorOf(wire)))
  {
    Finish(wire, CountReply(0), (x: CountReply) => x.count, 0)
  }
}
