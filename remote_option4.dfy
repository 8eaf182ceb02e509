/** The `remote-option4-subnet-*` commands: option data attached to one
    subnet through the configuration backend. */
module Option4Client {
  import opened Wrappers
  import opened Json
  import opened Kea
  import opened Subnet4Client

  /** `code` is always serialised; `data` is `omitempty`. */
  datatype OptionReq = OptionReq(code: int, data: string)

  /** The fields of `OptionReq` in declaration order. */
  function OptionReqFields(o: OptionReq): seq<Field> {
    [ Always("code", Num(o.code)), Field("data", o.data == "", Str(o.data)) ]
  }

  /** An option entry: its code, and its data only when not empty. */
  function OptionReqJson(o: OptionReq): (j: Json)
    ensures j.Obj? && "code" in j.fields && j.fields["code"] == Num(o.code)
    ensures "data" in j.fields <==> o.data != ""
    ensures "data" in j.fields ==> j.fields["data"] == Str(o.data)
    ensures j.fields.Keys <= {"code", "data"}
  {
    var fs := OptionReqFields(o);
    assert DistinctKeys(fs);
    FieldWritten(fs, 0); FieldWritten(fs, 1);
    OnlyFieldsWritten(fs);
    Struct(fs)
  }

  /** The caller's `[]OptionReq`: a nil slice (`None`) is sent as `null`,
      any other slice element by element. */
  function OptionReqsJson(opts: Option<seq<OptionReq>>): (j: Json)
    ensures opts.None? <==> j == Null
    ensures opts.Some? ==> j.Arr? && |j.items| == |opts.value|
    ensures opts.Some? ==> forall i | 0 <= i < |opts.value| :: j.items[i] == OptionReqJson(opts.value[i])
  {
    match opts
    case None => Null
    case Some(os) => Arr(seq(|os|, i requires 0 <= i < |os| => OptionReqJson(os[i])))
  }

  /** The arguments shared by set and del: the remote, the subnet by id and
      the options; no server tags. */
  function SubnetOptionsRequest(command: string, c: Client, subnetID: int, opts: Option<seq<OptionReq>>): (r: Request)
    ensures r.command == command && ConfigBackend(r, c, false)
    ensures r.arguments.Keys == {"remote", "subnets", "options"}
    ensures r.arguments["subnets"] == ByID(subnetID) && r.arguments["options"] == OptionReqsJson(opts)
  {
    Dhcp4Command(command, map["remote" := RemoteArg(c), "subnets" := ByID(subnetID), "options" := OptionReqsJson(opts)])
  }

  function SetRequest(c: Client, subnetID: int, opts: Option<seq<OptionReq>>): (r: Request)
    ensures r.command == "remote-option4-subnet-set" && ConfigBackend(r, c, false)
    ensures r.arguments.Keys == {"remote", "subnets", "options"}
    ensures r.arguments["subnets"] == ByID(subnetID) && r.arguments["options"] == OptionReqsJson(opts)
  {
    SubnetOptionsRequest("remote-option4-subnet-set", c, subnetID, opts)
  }

  function DelRequest(c: Client, subnetID: int, opts: Option<seq<OptionReq>>): (r: Request)
    ensures r.command == "remote-option4-subnet-del" && ConfigBackend(r, c, false)
    ensures r.arguments.Keys == {"remote", "subnets", "options"}
    ensures r.arguments["subnets"] == ByID(subnetID) && r.arguments["options"] == OptionReqsJson(opts)
  {
    SubnetOptionsRequest("remote-option4-subnet-del", c, subnetID, opts)
  }

  datatype OptionsReply = OptionsReply(options: seq<OptionReq>)

  /** `RemoteOption4Set` and `RemoteOption4Del`: the options the server
      echoes, or nil (here empty) with the error. */
  function OptionsResult(wire: Wire<OptionsReply>): (r: Outcome<seq<OptionReq>>)
    ensures Succeeds(wire) ==> r == Outcome(Decoded(wire, OptionsReply([])).options, None)
    ensures !Succeeds(wire) ==> r == Outcome([], Some(ErrorOf(wire)))
  {
    Finish(wire, OptionsReply([]), (x: OptionsReply) => x.options, [])
  }
}
