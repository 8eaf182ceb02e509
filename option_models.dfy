/** The nested blocks the provider's schemas share (option data, pools and
    relay addresses) and the for-append loops that convert them to and
    from the client's wire records. The subnet resource, the subnet data
    source, the reservation resource and the reservation data source each
    declare their own Go struct for an option-data block; the four have the
    same fields and are one datatype here. */
module ProviderModels {
  import opened Wrappers
  import opened Framework
  import opened Subnet4Client

  /** An `option_data` block. */
  datatype OptionModel = OptionModel(code: Attr<int>, data: Attr<string>, name: Attr<string>, alwaysSend: Attr<bool>)

  /** A `pools` block. */
  datatype PoolModel = PoolModel(pool: Attr<string>)

  /** A `relay` block. */
  datatype RelayModel = RelayModel(ipAddress: Attr<string>)

  /** The option data the provider sends for a block: the code is always
      set (to 0 when not known), the option space never. */
  function OptionDataOf(m: OptionModel): (o: OptionData)
    ensures o.code == Some(ValueInt64(m.code)) && o.space.None?
    ensures o.data == ValueString(m.data) && o.name == ValueString(m.name) && o.alwaysSend == ValueBool(m.alwaysSend)
  {
    OptionData(Some(ValueInt64(m.code)), ValueString(m.data), ValueString(m.name), None, ValueBool(m.alwaysSend))
  }

  /** The block the provider stores for option data it read: every value
      known, and a nil code stored as 0; the option space is dropped. */
  function OptionModelOf(o: OptionData): (m: OptionModel)
    ensures m.code == Known(o.code.GetOr(0))
    ensures m.data == Known(o.data) && m.name == Known(o.name) && m.alwaysSend == Known(o.alwaysSend)
  {
    OptionModel(Known(o.code.GetOr(0)), Known(o.data), Known(o.name), Known(o.alwaysSend))
  }

  predicate AllKnown(m: OptionModel) {
    m.code.Known? && m.data.Known? && m.name.Known? && m.alwaysSend.Known?
  }

  /** A block whose values are all known reads back unchanged after it is sent. */
  lemma OptionModelRoundTrip(m: OptionModel)
    requires AllKnown(m)
    ensures OptionModelOf(OptionDataOf(m)) == m
  {
  }

  /** Option data with a code and no space is sent back unchanged after it
      is stored; a nil code comes back as code 0. */
  lemma OptionDataRoundTrip(o: OptionData)
    requires o.space.None?
    ensures OptionDataOf(OptionModelOf(o)) == o.(code := Some(o.code.GetOr(0)))
  {
  }

  /** Each block converted in order. */
  function OptionDataList(ms: seq<OptionModel>): (os: seq<OptionData>)
    ensures |os| == |ms| && forall i | 0 <= i < |ms| :: os[i] == OptionDataOf(ms[i])
  {
    seq(|ms|, i requires 0 <= i < |ms| => OptionDataOf(ms[i]))
  }

  function OptionModelList(os: seq<OptionData>): (ms: seq<OptionModel>)
    ensures |ms| == |os| && forall i | 0 <= i < |os| :: ms[i] == OptionModelOf(os[i])
  {
    seq(|os|, i requires 0 <= i < |os| => OptionModelOf(os[i]))
  }

  function PoolList(ms: seq<PoolModel>): (ps: seq<Pool>)
    ensures |ps| == |ms| && forall i | 0 <= i < |ms| :: ps[i] == Pool(ValueString(ms[i].pool))
  {
    seq(|ms|, i requires 0 <= i < |ms| => Pool(ValueString(ms[i].pool)))
  }

  function PoolModelList(ps: seq<Pool>): (ms: seq<PoolModel>)
    ensures |ms| == |ps| && forall i | 0 <= i < |ps| :: ms[i] == PoolModel(Known(ps[i].pool))
  {
    seq(|ps|, i requires 0 <= i < |ps| => PoolModel(Known(ps[i].pool)))
  }

  /** The relay addresses, in order; no blocks give a relay without addresses. */
  function RelayOf(ms: seq<RelayModel>): (r: Relay)
    ensures |r.ipAddresses| == |ms| && forall i | 0 <= i < |ms| :: r.ipAddresses[i] == ValueString(ms[i].ipAddress)
  {
    Relay(seq(|ms|, i requires 0 <= i < |ms| => ValueString(ms[i].ipAddress)))
  }

  function RelayModelList(r: Relay): (ms: seq<RelayModel>)
    ensures |ms| == |r.ipAddresses| && forall i | 0 <= i < |ms| :: ms[i] == RelayModel(Known(r.ipAddresses[i]))
  {
    seq(|r.ipAddresses|, i requires 0 <= i < |r.ipAddresses| => RelayModel(Known(r.ipAddresses[i])))
  }

  /** Pools stored and sent again are the pools read. */
  lemma PoolsRoundTrip(ps: seq<Pool>)
    ensures PoolList(PoolModelList(ps)) == ps
  {
  }

  /** A relay stored and sent again is the relay read. */
  lemma RelayRoundTrip(r: Relay)
    ensures RelayOf(RelayModelList(r)) == r
  {
  }

  // ---- The for-append loops ------------------------------------------

  method OptionDataFromModels(ms: seq<OptionModel>) returns (os: seq<OptionData>)
    ensures os == OptionDataList(ms)
  {
    os := [];
    for i := 0 to |ms|
      invariant |os| == i && forall j | 0 <= j < i :: os[j] == OptionDataOf(ms[j])
    {
      os := os + [OptionDataOf(ms[i])];
    }
  }

  method OptionModelsFromData(os: seq<OptionData>) returns (ms: seq<OptionModel>)
    ensures ms == OptionModelList(os)
  {
    ms := [];
    for i := 0 to |os|
      invariant |ms| == i && forall j | 0 <= j < i :: ms[j] == OptionModelOf(os[j])
    {
      var code := 0;
      if os[i].code.Some? {
        code := os[i].code.value;
      }
      ms := ms + [OptionModel(Known(code), Known(os[i].data), Known(os[i].name), Known(os[i].alwaysSend))];
    }
  }

  method PoolsFromModels(ms: seq<PoolModel>) returns (ps: seq<Pool>)
    ensures ps == PoolList(ms)
  {
    ps := [];
    for i := 0 to |ms|
      invariant |ps| == i && forall j | 0 <= j < i :: ps[j] == Pool(ValueString(ms[j].pool))
    {
      ps := ps + [Pool(ValueString(ms[i].pool))];
    }
  }

  method PoolModelsFromPools(ps: seq<Pool>) returns (ms: seq<PoolModel>)
    ensures ms == PoolModelList(ps)
  {
    ms := [];
    for i := 0 to |ps|
      invariant |ms| == i && forall j | 0 <= j < i :: ms[j] == PoolModel(Known(ps[j].pool))
    {
      ms := ms + [PoolModel(Known(ps[i].pool))];
    }
  }

  method RelayFromModels(ms: seq<RelayModel>) returns (r: Relay)
    ensures r == RelayOf(ms)
  {
    r := Relay([]);
    if |ms| == 0 {
      return;
    }
    for i := 0 to |ms|
      invariant |r.ipAddresses| == i && forall j | 0 <= j < i :: r.ipAddresses[j] == ValueString(ms[j].ipAddress)
    {
      r := r.(ipAddresses := r.ipAddresses + [ValueString(ms[i].ipAddress)]);
    }
  }

  method RelayModelsFromRelay(r: Relay) returns (ms: seq<RelayModel>)
    ensures ms == RelayModelList(r)
  {
    ms := [];
    for i := 0 to |r.ipAddresses|
      invariant |ms| == i && forall j | 0 <= j < i :: ms[j] == RelayModel(Known(r.ipAddresses[j]))
    {
      ms := ms + [RelayModel(Known(r.ipAddresses[i]))];
    }
  }

  /** A data source's pools: the pool strings in reply order. */
  function PoolNames(ps: seq<Pool>): (ss: seq<string>)
    ensures |ss| == |ps| && forall i | 0 <= i < |ps| :: ss[i] == ps[i].pool
  {
    seq(|ps|, i requires 0 <= i < |ps| => ps[i].pool)
  }

  method PoolStrings(ps: seq<Pool>) returns (ss: seq<string>)
    ensures ss == PoolNames(ps)
  {
    ss := [];
    for i := 0 to |ps|
      invariant |ss| == i && forall j | 0 <= j < i :: ss[j] == ps[j].pool
    {
      ss := ss + [ps[i].pool];
    }
  }

  /** A data source's relay: the addresses in reply order. */
  method RelayStrings(r: Relay) returns (ss: seq<string>)
    ensures ss == r.ipAddresses
  {
    ss := [];
    for i := 0 to |r.ipAddresses|
      invariant ss == r.ipAddresses[..i]
    {
      ss := ss + [r.ipAddresses[i]];
    }
  }
}
