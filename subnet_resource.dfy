/** The `remote_subnet4_resource`: a DHCPv4 subnet kept in the Kea
    configuration backend. Its id is derived from the prefix text. */
module SubnetResource {
  import opened Wrappers
  import opened Text
  import opened Kea
  import opened Framework
  import opened Subnet4Client
  import opened ProviderModels

  /** The resource's attributes. */
  datatype SubnetModel = SubnetModel(
    hostname: Attr<string>,
    id: Attr<int>,
    optionData: seq<OptionModel>,
    pools: seq<PoolModel>,
    relay: seq<RelayModel>,
    subnet: Attr<string>)

  /** The client methods the resource calls, with their arguments. */
  datatype SubnetCall =
    | Set(host: string, subnets: seq<NewRemoteSubnet4>)
    | GetByPrefix(host: string, prefix: string)
    | GetByID(host: string, id: int)            // the data source only
    | DelByPrefix(host: string, prefix: string)

  // ---- The subnet id ---------------------------------------------------

  /** The characters `cidrToIDRepl` deletes. */
  const CidrSeparators: set<char> := {'.', '/', ' '}

  /** The text `strconv.Atoi` is given: the part before the first `/`,
      with dots and spaces removed. */
  function CidrDigits(subnet: string): (s: string)
    ensures forall i | 0 <= i < |s| :: s[i] !in CidrSeparators
  {
    Without(BeforeFirst(subnet, '/'), CidrSeparators)
  }

  /** The id the resource gives a subnet. */
  function CidrToID(subnet: string): Result<int, NumError> {
    Atoi(CidrDigits(subnet))
  }

  /** The mask never reaches the id: prefixes that differ only in length
      share one. */
  lemma CidrToIDIgnoresMask(address: string, m1: string, m2: string)
    requires '/' !in address
    ensures CidrToID(address + "/" + m1) == CidrToID(address + "/" + m2)
  {
    BeforeFirstOfJoin(address, '/', m1);
    BeforeFirstOfJoin(address, '/', m2);
  }

  /** Only the digits of the address count, so any two addresses with the
      same digits in the same order share an id. */
  lemma CidrToIDOnlyDigits(a: string, b: string, mask: string)
    requires '/' !in a && '/' !in b && Without(a, CidrSeparators) == Without(b, CidrSeparators)
    ensures CidrToID(a + "/" + mask) == CidrToID(b + "/" + mask)
  {
    BeforeFirstOfJoin(a, '/', mask);
    BeforeFirstOfJoin(b, '/', mask);
  }

  /** Digits pass through the replacer unchanged. */
  lemma {:induction false} WithoutKeepsDigits(s: string)
    requires AllDigits(s)
    ensures Without(s, CidrSeparators) == s
  {
    if |s| > 0 {
      assert IsDigit(s[0]);
      WithoutKeepsDigits(s[1..]);
      assert s == [s[0]] + s[1..];
    }
  }

  /** An octet and the dot after it leave just the octet. */
  lemma WithoutOctet(octet: string, rest: string)
    requires AllDigits(octet)
    ensures Without(octet + "." + rest, CidrSeparators) == octet + Without(rest, CidrSeparators)
  {
    var head := octet + ".";
    WithoutOfJoin(head, rest, CidrSeparators);
    WithoutOfJoin(octet, ".", CidrSeparators);
    WithoutKeepsDigits(octet);
    WithoutDot();
    assert Without(head, CidrSeparators) == octet;
  }

  lemma WithoutDot()
    ensures Without(".", CidrSeparators) == ""
  {
    assert "."[1..] == "";
  }

  /** A dotted quad has no `/` in it. */
  lemma NoSlashInQuad(a: string, b: string, c: string, d: string)
    requires AllDigits(a) && AllDigits(b) && AllDigits(c) && AllDigits(d)
    ensures '/' !in a + "." + b + "." + c + "." + d
  {
    var q := a + "." + b + "." + c + "." + d;
    assert forall i | 0 <= i < |q| :: IsDigit(q[i]) || q[i] == '.';
  }

  /** For a dotted quad, the id's digits are the four octets' texts run
      together, whatever the mask. */
  lemma DottedQuadDigits(a: string, b: string, c: string, d: string, mask: string)
    requires AllDigits(a) && AllDigits(b) && AllDigits(c) && AllDigits(d)
    ensures CidrDigits(a + "." + b + "." + c + "." + d + "/" + mask) == a + b + c + d
  {
    var cd := c + "." + d;
    var bcd := b + "." + cd;
    var q := a + "." + bcd;
    assert q == a + "." + b + "." + c + "." + d;
    NoSlashInQuad(a, b, c, d);
    assert q + "/" + mask == a + "." + b + "." + c + "." + d + "/" + mask;
    BeforeFirstOfJoin(q, '/', mask);
    WithoutKeepsDigits(d);
    WithoutOctet(c, d);
    WithoutOctet(b, cd);
    WithoutOctet(a, bcd);
  }

  lemma ExampleValue()
    ensures Atoi("1921682270") == Success(1921682270)
  {
    assert Digits(1) == "1";
    assert Digits(19) == "19";
    assert Digits(192) == "192";
    assert Digits(1921) == "1921";
    assert Digits(19216) == "19216";
    assert Digits(192168) == "192168";
    assert Digits(1921682) == "1921682";
    assert Digits(19216822) == "19216822";
    assert Digits(192168227) == "192168227";
    assert Digits(1921682270) == "1921682270";
    AtoiDecimal(1921682270);
  }

  /** `192.168.227.0/24` gets id 1921682270. */
  lemma CidrToIDExample()
    ensures CidrToID("192.168.227.0/24") == Success(1921682270)
  {
    DottedQuadDigits("192", "168", "227", "0", "24");
    assert "192" + "." + "168" + "." + "227" + "." + "0" + "/" + "24" == "192.168.227.0/24";
    assert "192" + "168" + "227" + "0" == "1921682270";
    ExampleValue();
  }

  /** Two different networks share an id: the derivation is not injective. */
  lemma CidrToIDNotInjective()
    ensures CidrToID("1.11.1.0/24") == Success(11110)
    ensures CidrToID("11.1.1.0/24") == Success(11110)
  {
    QuadOneElevenOneZero();
    QuadElevenOneOneZero();
    Value11110();
  }

  lemma Value11110()
    ensures Atoi("11110") == Success(11110)
  {
    assert Digits(1) == "1";
    assert Digits(11) == "11";
    assert Digits(111) == "111";
    assert Digits(1111) == "1111";
    assert Digits(11110) == "11110";
    AtoiDecimal(11110);
  }

  lemma QuadOneElevenOneZero()
    ensures CidrDigits("1.11.1.0/24") == "11110"
  {
    DottedQuadDigits("1", "11", "1", "0", "24");
    assert "1" + "." + "11" + "." + "1" + "." + "0" + "/" + "24" == "1.11.1.0/24";
    assert "1" + "11" + "1" + "0" == "11110";
  }

  lemma QuadElevenOneOneZero()
    ensures CidrDigits("11.1.1.0/24") == "11110"
  {
    DottedQuadDigits("11", "1", "1", "0", "24");
    assert "11" + "." + "1" + "." + "1" + "." + "0" + "/" + "24" == "11.1.1.0/24";
    assert "11" + "1" + "1" + "0" == "11110";
  }

  /** `10.0.0.0/8` gets id 10000: every octet's text is kept, zeros included. */
  lemma CidrToIDTenSlashEight()
    ensures CidrToID("10.0.0.0/8") == Success(10000)
  {
    DottedQuadDigits("10", "0", "0", "0", "8");
    assert "10" + "." + "0" + "." + "0" + "." + "0" + "/" + "8" == "10.0.0.0/8";
    assert "10" + "0" + "0" + "0" == "10000";
    Value10000();
  }

  lemma Value10000()
    ensures Atoi("10000") == Success(10000)
  {
    assert Digits(1) == "1";
    assert Digits(10) == "10";
    assert Digits(100) == "100";
    assert Digits(1000) == "1000";
    assert Digits(10000) == "10000";
    AtoiDecimal(10000);
  }

  // ---- Create, Read, Update, Delete -----------------------------------

  const PrefixRequired: Diagnostic := Error("RemoteSubnet4Read", "Subnet4 prefix is required")
  const HostnameRequired: Diagnostic := Error("RemoteSubnet4Read", "Hostname is required")

  /** Every operation first checks that `subnet` and `hostname` are given
      and not empty, reporting both before it stops. */
  function RequiredChecks(config: SubnetModel): seq<Check> {
    [ Check(MissingString(config.subnet), PrefixRequired),
      Check(MissingString(config.hostname), HostnameRequired) ]
  }

  predicate Validated(config: SubnetModel) {
    !MissingString(config.subnet) && !MissingString(config.hostname)
  }

  /** The validation errors vanish exactly when both attributes are given. */
  lemma RequiredChecksPass(config: SubnetModel)
    ensures Reported(RequiredChecks(config)) == [] <==> Validated(config)
  {
    ReportedAll(RequiredChecks(config));
  }

  /** The subnet Create and Update send for a configuration and an id:
      pools, option data and relay addresses in order, no shared network
      and no user context. */
  function NewSubnetOf(config: SubnetModel, id: int): NewRemoteSubnet4 {
    NewRemoteSubnet4(id, ValueString(config.subnet), None, PoolList(config.pools),
                     OptionDataList(config.optionData), RelayOf(config.relay), map[])
  }

  /** The `%s` rendering of the nil error in the "not exactly one subnet" message. */
  const NilErrorText: string := "%!s(<nil>)"

  function ParseFailure(subnet: string, e: NumError): Diagnostic {
    Error("RemoteSubnet4Create",
          "Unable to parse subnet4 prefix `" + subnet + "`, got error: " + AtoiMessage(CidrDigits(subnet), e))
  }

  method BuildNewSubnet(config: SubnetModel, id: int) returns (n: NewRemoteSubnet4)
    ensures n == NewSubnetOf(config, id)
  {
    var pools := PoolsFromModels(config.pools);
    var options := OptionDataFromModels(config.optionData);
    var relay := RelayFromModels(config.relay);
    n := NewRemoteSubnet4(id, ValueString(config.subnet), None, pools, options, relay, map[]);
  }

  /** `Create`: validate, derive the id, send the subnet with
      `RemoteSubnet4Set`, and keep the reply's id and prefix. `render` is
      the `%v` rendering of the subnet in the error text. */
  method Create(config: SubnetModel, wire: Wire<ListReply>, render: NewRemoteSubnet4 -> string)
    returns (out: Applied<SubnetCall, SubnetModel>)
    ensures !Validated(config) ==> out == Applied(Reported(RequiredChecks(config)), None, None)
    ensures Validated(config) && CidrToID(config.subnet.v).Failure? ==>
              out == Applied([ParseFailure(config.subnet.v, CidrToID(config.subnet.v).error)], None, None)
    ensures out.call.Some? <==> Validated(config) && CidrToID(config.subnet.v).Success?
    ensures out.call.Some? ==> out.call.value == Set(config.hostname.v, [NewSubnetOf(config, CidrToID(config.subnet.v).value)])
    ensures out.state.Some? <==> out.call.Some? && ListResult(wire).err.None? && |ListResult(wire).value| == 1
    ensures out.state.Some? ==>
              var res := ListResult(wire).value[0];
              out.state.value == config.(id := Known(res.id), subnet := Known(res.subnet))
    ensures out.call.Some? && ListResult(wire).err.Some? ==>
              out.diags == [Error("RemoteSubnet4Create",
                "Unable to create subnet with new id=" + Decimal(CidrToID(config.subnet.v).value) + " in Kea, got error: "
                + Message(ListResult(wire).err.value) + " | " + render(out.call.value.subnets[0]))]
    ensures out.call.Some? && ListResult(wire).err.None? && |ListResult(wire).value| != 1 ==>
              out.diags == [Error("RemoteSubnet4Update", "Unable to create subnet4 with new id="
                + Decimal(CidrToID(config.subnet.v).value) + " in Kea,, got error: " + NilErrorText)]
    ensures out.state.None? <==> |out.diags| > 0
  {
    var diags: seq<Diagnostic> := [];
    if MissingString(config.subnet) {
      diags := diags + [PrefixRequired];
    }
    if MissingString(config.hostname) {
      diags := diags + [HostnameRequired];
    }
    if |diags| > 0 {
      return Applied(diags, None, None);
    }

    var subnet := ValueString(config.subnet);
    var parsed := Atoi(Without(BeforeFirst(subnet, '/'), CidrSeparators));
    if parsed.Failure? {
      diags := diags + [ParseFailure(subnet, parsed.error)];
      return Applied(diags, None, None);
    }
    var id := parsed.value;

    var newSubnet := BuildNewSubnet(config, id);
    var call := Set(ValueString(config.hostname), [newSubnet]);
    var respData := ListResult(wire);
    if respData.err.Some? {
      diags := diags + [Error("RemoteSubnet4Create",
        "Unable to create subnet with new id=" + Decimal(id) + " in Kea, got error: "
        + Message(respData.err.value) + " | " + render(newSubnet))];
      return Applied(diags, Some(call), None);
    }
    if |respData.value| != 1 {
      diags := diags + [Error("RemoteSubnet4Update",
        "Unable to create subnet4 with new id=" + Decimal(id) + " in Kea,, got error: " + NilErrorText)];
      return Applied(diags, Some(call), None);
    }

    var res := respData.value[0];
    var state := config;
    state := state.(id := Known(res.id));
    state := state.(subnet := Known(res.subnet));
    out := Applied(diags, Some(call), Some(state));
  }

  /** The state Read saves from a subnet Kea reports: id, option data,
      pools, relay and prefix are replaced, hostname is kept. */
  function ReadState(config: SubnetModel, s: RemoteSubnet4): SubnetModel {
    config.(id := Known(s.id), optionData := OptionModelList(s.optionData), pools := PoolModelList(s.pools),
            relay := RelayModelList(s.relay), subnet := Known(s.subnet))
  }

  method BuildReadState(config: SubnetModel, s: RemoteSubnet4) returns (state: SubnetModel)
    ensures state == ReadState(config, s)
  {
    state := config;
    state := state.(id := Known(s.id));
    var options := OptionModelsFromData(s.optionData);
    state := state.(optionData := options);
    var pools := PoolModelsFromPools(s.pools);
    state := state.(pools := pools);
    var relay := RelayModelsFromRelay(s.relay);
    state := state.(relay := relay);
    state := state.(subnet := Known(s.subnet));
  }

  /** `Read`: look the prefix up with `RemoteSubnet4GetByPrefix`. An error
      whose text says "not found" is not reported, and the state is then
      rebuilt from the empty subnet the client returns with it. */
  method Read(config: SubnetModel, wire: Wire<SubnetsReply>) returns (out: Applied<SubnetCall, SubnetModel>)
    requires Succeeds(wire) ==> |Decoded(wire, SubnetsReply([])).subnets| > 0
    ensures !Validated(config) ==> out == Applied(Reported(RequiredChecks(config)), None, None)
    ensures Validated(config) ==> out.call == Some(GetByPrefix(config.hostname.v, config.subnet.v))
    ensures Validated(config) && SubnetResult(wire).err.Some? && !IsNotFound(SubnetResult(wire).err.value) ==>
              out.diags == [Error("RemoteSubnet4GetByPrefix",
                                  "Unable to read example, got error: " + Message(SubnetResult(wire).err.value))]
    ensures out.state.Some? <==>
              Validated(config) && (SubnetResult(wire).err.None? || IsNotFound(SubnetResult(wire).err.value))
    ensures out.state.Some? ==> out.state.value == ReadState(config, SubnetResult(wire).value)
    ensures out.state.None? <==> |out.diags| > 0
  {
    var diags: seq<Diagnostic> := [];
    if MissingString(config.subnet) {
      diags := diags + [PrefixRequired];
    }
    if MissingString(config.hostname) {
      diags := diags + [HostnameRequired];
    }
    if |diags| > 0 {
      return Applied(diags, None, None);
    }

    var call := GetByPrefix(ValueString(config.hostname), ValueString(config.subnet));
    var respData := SubnetResult(wire);
    if respData.err.Some? && !IsNotFound(respData.err.value) {
      diags := diags + [Error("RemoteSubnet4GetByPrefix", "Unable to read example, got error: " + Message(respData.err.value))];
      return Applied(diags, Some(call), None);
    }
    var state := BuildReadState(config, respData.value);
    out := Applied(diags, Some(call), Some(state));
  }

  /** `Update`: Create's request under Update's error texts; the parse
      error keeps Create's summary and the error carries no rendering. */
  method Update(config: SubnetModel, wire: Wire<ListReply>) returns (out: Applied<SubnetCall, SubnetModel>)
    ensures !Validated(config) ==> out == Applied(Reported(RequiredChecks(config)), None, None)
    ensures Validated(config) && CidrToID(config.subnet.v).Failure? ==>
              out == Applied([ParseFailure(config.subnet.v, CidrToID(config.subnet.v).error)], None, None)
    ensures out.call.Some? <==> Validated(config) && CidrToID(config.subnet.v).Success?
    ensures out.call.Some? ==> out.call.value == Set(config.hostname.v, [NewSubnetOf(config, CidrToID(config.subnet.v).value)])
    ensures out.state.Some? <==> out.call.Some? && ListResult(wire).err.None? && |ListResult(wire).value| == 1
    ensures out.state.Some? ==>
              var res := ListResult(wire).value[0];
              out.state.value == config.(id := Known(res.id), subnet := Known(res.subnet))
    ensures out.call.Some? && ListResult(wire).err.Some? ==>
              out.diags == [Error("RemoteSubnet4Update", "Unable to update subnet4 in Kea, got error: " + Message(ListResult(wire).err.value))]
    ensures out.call.Some? && ListResult(wire).err.None? && |ListResult(wire).value| != 1 ==>
              out.diags == [Error("RemoteSubnet4Update", "Unable to update subnet4 in Kea,, got error: " + NilErrorText)]
    ensures out.state.None? <==> |out.diags| > 0
  {
    var diags: seq<Diagnostic> := [];
    if MissingString(config.subnet) {
      diags := diags + [PrefixRequired];
    }
    if MissingString(config.hostname) {
      diags := diags + [HostnameRequired];
    }
    if |diags| > 0 {
      return Applied(diags, None, None);
    }

    var subnet := ValueString(config.subnet);
    var parsed := Atoi(Without(BeforeFirst(subnet, '/'), CidrSeparators));
    if parsed.Failure? {
      diags := diags + [ParseFailure(subnet, parsed.error)];
      return Applied(diags, None, None);
    }

    var newSubnet := BuildNewSubnet(config, parsed.value);
    var call := Set(ValueString(config.hostname), [newSubnet]);
    var respData := ListResult(wire);
    if respData.err.Some? {
      diags := diags + [Error("RemoteSubnet4Update", "Unable to update subnet4 in Kea, got error: " + Message(respData.err.value))];
      return Applied(diags, Some(call), None);
    }
    if |respData.value| != 1 {
      diags := diags + [Error("RemoteSubnet4Update", "Unable to update subnet4 in Kea,, got error: " + NilErrorText)];
      return Applied(diags, Some(call), None);
    }

    var res := respData.value[0];
    var state := config;
    state := state.(id := Known(res.id));
    state := state.(subnet := Known(res.subnet));
    out := Applied(diags, Some(call), Some(state));
  }

  /** `Delete`: remove the prefix with `RemoteSubnet4DelByPrefix`; every
      client error is reported, "not found" included. Delete saves no state. */
  method Delete(config: SubnetModel, wire: Wire<CountReply>) returns (out: Applied<SubnetCall, SubnetModel>)
    ensures out.state.None?
    ensures !Validated(config) ==> out == Applied(Reported(RequiredChecks(config)), None, None)
    ensures Validated(config) ==> out.call == Some(DelByPrefix(config.hostname.v, config.subnet.v))
    ensures Validated(config) ==>
              out.diags == if CountResult(wire).err.None? then []
                           else [Error("RemoteSubnet4DelByPrefix", "Unable to delete prefix, got error: " + Message(CountResult(wire).err.value))]
  {
    var diags: seq<Diagnostic> := [];
    if MissingString(config.subnet) {
      diags := diags + [PrefixRequired];
    }
    if MissingString(config.hostname) {
      diags := diags + [HostnameRequired];
    }
    if |diags| > 0 {
      return Applied(diags, None, None);
    }

    var call := DelByPrefix(ValueString(config.hostname), ValueString(config.subnet));
    var deleted := CountResult(wire);
    if deleted.err.Some? {
      diags := diags + [Error("RemoteSubnet4DelByPrefix", "Unable to delete prefix, got error: " + Message(deleted.err.value))];
    }
    out := Applied(diags, Some(call), None);
  }

  // ---- Properties across operations ----------------------------------

  /** A prefix Kea does not know reads back as subnet 0 with no pools, no
      relay, no option data and an empty prefix. */
  lemma ReadOfAbsentSubnet(config: SubnetModel)
    ensures ReadState(config, ZeroSubnet) ==
              config.(id := Known(0), optionData := [], pools := [], relay := [], subnet := Known(""))
  {
  }

  /** Sending back what Read saved reproduces the pools and relay Kea
      reported, and the option data except that a space is dropped and a
      missing code becomes 0. */
  lemma ReadThenSend(config: SubnetModel, s: RemoteSubnet4, id: int)
    ensures var n := NewSubnetOf(ReadState(config, s), id);
            n.subnet == s.subnet && n.pools == s.pools && n.relay == s.relay &&
            |n.optionData| == |s.optionData| &&
            forall i | 0 <= i < |s.optionData| ::
              n.optionData[i] == s.optionData[i].(code := Some(s.optionData[i].code.GetOr(0)), space := None)
  {
    PoolsRoundTrip(s.pools);
    RelayRoundTrip(s.relay);
  }
}
