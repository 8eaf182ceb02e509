/** The `remote_option_def4_resource`: a custom DHCPv4 option definition,
    identified by its space and code. */
module OptionDefResource {
  import opened Wrappers
  import opened Json
  import opened Kea
  import opened Framework
  import opened OptionDef4Client

  /** The resource's attributes. */
  datatype OptionDefModel = OptionDefModel(
    hostname: Attr<string>,
    name: Attr<string>,
    code: Attr<int>,
    optionType: Attr<string>,
    isArray: Attr<bool>,
    recordTypes: Attr<string>,
    space: Attr<string>,
    encapsulate: Attr<string>)

  /** The client methods the resource calls, with their arguments. */
  datatype OptionDefCall =
    | SetDef(host: string, def: RemoteOptionDef4)
    | GetDef(host: string, space: string, code: int)
    | DelDef(host: string, space: string, code: int)

  /** A run of an operation that may stop on a nil pointer dereference. */
  datatype Run<A> = Panicked | Returned(value: A)

  // ---- Validation ------------------------------------------------------

  const HostnameField: string := "`hostname` field is required"
  const CodeField: string := "`code` field is required"
  const NameField: string := "`name` field is required"
  const TypeField: string := "`type` field is required"
  const SpaceField: string := "`space` field is required"

  /** Create and Update require hostname, code, name, type and space. */
  function DefChecks(summary: string, config: OptionDefModel): seq<Check> {
    [ Check(MissingString(config.hostname), Error(summary, HostnameField)),
      Check(MissingValue(config.code), Error(summary, CodeField)),
      Check(MissingString(config.name), Error(summary, NameField)),
      Check(MissingString(config.optionType), Error(summary, TypeField)),
      Check(MissingString(config.space), Error(summary, SpaceField)) ]
  }

  predicate DefValid(config: OptionDefModel) {
    !MissingString(config.hostname) && !MissingValue(config.code) && !MissingString(config.name)
    && !MissingString(config.optionType) && !MissingString(config.space)
  }

  /** Read and Delete require only the key: hostname, code and space. Read
      reports a missing hostname under another summary than the rest. */
  function KeyChecks(hostSummary: string, summary: string, config: OptionDefModel): seq<Check> {
    [ Check(MissingString(config.hostname), Error(hostSummary, HostnameField)),
      Check(MissingValue(config.code), Error(summary, CodeField)),
      Check(MissingString(config.space), Error(summary, SpaceField)) ]
  }

  predicate KeyValid(config: OptionDefModel) {
    !MissingString(config.hostname) && !MissingValue(config.code) && !MissingString(config.space)
  }

  lemma DefChecksReported(summary: string, config: OptionDefModel)
    ensures var cs := DefChecks(summary, config);
            Reported(cs) == Flagged(cs[0]) + Flagged(cs[1]) + Flagged(cs[2]) + Flagged(cs[3]) + Flagged(cs[4])
  {
    var cs := DefChecks(summary, config);
    ReportedFive(cs[0], cs[1], cs[2], cs[3], cs[4]);
  }

  lemma KeyChecksReported(hostSummary: string, summary: string, config: OptionDefModel)
    ensures var cs := KeyChecks(hostSummary, summary, config);
            Reported(cs) == Flagged(cs[0]) + Flagged(cs[1]) + Flagged(cs[2])
  {
    var cs := KeyChecks(hostSummary, summary, config);
    ReportedThree(cs[0], cs[1], cs[2]);
  }

  /** Validation passes exactly when the five attributes are given. */
  lemma DefChecksPass(summary: string, config: OptionDefModel)
    ensures Reported(DefChecks(summary, config)) == [] <==> DefValid(config)
  {
    DefChecksReported(summary, config);
  }

  /** Validation passes exactly when the key is given. */
  lemma KeyChecksPass(hostSummary: string, summary: string, config: OptionDefModel)
    ensures Reported(KeyChecks(hostSummary, summary, config)) == [] <==> KeyValid(config)
  {
    KeyChecksReported(hostSummary, summary, config);
  }

  /** The validation steps of Create and Update, in the source's order. */
  method ValidateDef(summary: string, config: OptionDefModel) returns (diags: seq<Diagnostic>)
    ensures diags == Reported(DefChecks(summary, config))
    ensures diags == [] <==> DefValid(config)
  {
    ghost var cs := DefChecks(summary, config);
    diags := [];
    if MissingString(config.hostname) {
      diags := diags + [Error(summary, HostnameField)];
    }
    assert diags == Flagged(cs[0]);
    if MissingValue(config.code) {
      diags := diags + [Error(summary, CodeField)];
    }
    assert diags == Flagged(cs[0]) + Flagged(cs[1]);
    if MissingString(config.name) {
      diags := diags + [Error(summary, NameField)];
    }
    assert diags == Flagged(cs[0]) + Flagged(cs[1]) + Flagged(cs[2]);
    if MissingString(config.optionType) {
      diags := diags + [Error(summary, TypeField)];
    }
    assert diags == Flagged(cs[0]) + Flagged(cs[1]) + Flagged(cs[2]) + Flagged(cs[3]);
    if MissingString(config.space) {
      diags := diags + [Error(summary, SpaceField)];
    }
    DefChecksReported(summary, config);
    DefChecksPass(summary, config);
  }

  /** The validation steps of Read and Delete. */
  method ValidateKey(hostSummary: string, summary: string, config: OptionDefModel) returns (diags: seq<Diagnostic>)
    ensures diags == Reported(KeyChecks(hostSummary, summary, config))
    ensures diags == [] <==> KeyValid(config)
  {
    ghost var cs := KeyChecks(hostSummary, summary, config);
    diags := [];
    if MissingString(config.hostname) {
      diags := diags + [Error(hostSummary, HostnameField)];
    }
    assert diags == Flagged(cs[0]);
    if MissingValue(config.code) {
      diags := diags + [Error(summary, CodeField)];
    }
    assert diags == Flagged(cs[0]) + Flagged(cs[1]);
    if MissingString(config.space) {
      diags := diags + [Error(summary, SpaceField)];
    }
    KeyChecksReported(hostSummary, summary, config);
    KeyChecksPass(hostSummary, summary, config);
  }

  // ---- The definition sent ---------------------------------------------

  /** The definition Create and Update send: name, code, type and space, and
      array, record types and encapsulated space only when given. */
  function DefOf(config: OptionDefModel): RemoteOptionDef4 {
    RemoteOptionDef4(ValueString(config.name), ValueInt64(config.code), ValueString(config.optionType),
                     if Given(config.isArray) then config.isArray.v else false,
                     if Given(config.recordTypes) then config.recordTypes.v else "",
                     ValueString(config.space),
                     if Given(config.encapsulate) then config.encapsulate.v else "")
  }

  method BuildDef(config: OptionDefModel) returns (def: RemoteOptionDef4)
    ensures def == DefOf(config)
  {
    def := RemoteOptionDef4(ValueString(config.name), ValueInt64(config.code), ValueString(config.optionType),
                            false, "", ValueString(config.space), "");
    if !config.isArray.Null? && !config.isArray.Unknown? {
      def := def.(isArray := ValueBool(config.isArray));
    }
    if !config.recordTypes.Null? && !config.recordTypes.Unknown? {
      def := def.(recordTypes := ValueString(config.recordTypes));
    }
    if !config.encapsulate.Null? && !config.encapsulate.Unknown? {
      def := def.(encapsulate := ValueString(config.encapsulate));
    }
  }

  /** A valid configuration's name, code, type and space all reach Kea. */
  lemma DefSendsConfig(config: OptionDefModel)
    requires DefValid(config)
    ensures var j := OptionDefJson(DefOf(config)).fields;
            "name" in j && j["name"] == Str(config.name.v) && j["code"] == Num(config.code.v)
            && "type" in j && j["type"] == Str(config.optionType.v)
            && "space" in j && j["space"] == Str(config.space.v)
  {
    OptionDefJsonValues(DefOf(config));
  }

  /** An optional array flag reaches Kea exactly when it is given and true. */
  lemma DefSendsArrayWhenTrue(config: OptionDefModel)
    ensures "array" in OptionDefJson(DefOf(config)).fields <==> config.isArray == Known(true)
  {
    OptionDefJsonOmitsEmpty(DefOf(config));
  }

  // ---- Create, Update, Delete -----------------------------------------

  /** `Create` and `Update`: validate, then send the definition with
      `RemoteOptionDef4Set`; the configuration is saved unchanged. They
      differ only in their texts. */
  method SetDefinition(summary: string, failure: string, config: OptionDefModel, wire: Wire<()>,
                       render: RemoteOptionDef4 -> string)
    returns (out: Applied<OptionDefCall, OptionDefModel>)
    ensures !DefValid(config) ==> out == Applied(Reported(DefChecks(summary, config)), None, None)
    ensures DefValid(config) ==> out.call == Some(SetDef(config.hostname.v, DefOf(config)))
    ensures DefValid(config) && StatusOf(wire).None? ==> out == Applied([], out.call, Some(config))
    ensures DefValid(config) && StatusOf(wire).Some? ==>
              out == Applied([Error(summary, failure + Message(StatusOf(wire).value) + " | " + render(DefOf(config)))],
                             out.call, None)
  {
    var diags := ValidateDef(summary, config);
    if |diags| > 0 {
      return Applied(diags, None, None);
    }

    var def := BuildDef(config);
    var call := SetDef(ValueString(config.hostname), def);
    var err := StatusOf(wire);
    if err.Some? {
      diags := diags + [Error(summary, failure + Message(err.value) + " | " + render(def))];
      return Applied(diags, Some(call), None);
    }
    out := Applied(diags, Some(call), Some(config));
  }

  method Create(config: OptionDefModel, wire: Wire<()>, render: RemoteOptionDef4 -> string)
    returns (out: Applied<OptionDefCall, OptionDefModel>)
    ensures !DefValid(config) ==> out == Applied(Reported(DefChecks("RemoteOptionDef4Set", config)), None, None)
    ensures DefValid(config) ==> out.call == Some(SetDef(config.hostname.v, DefOf(config)))
    ensures out.state.Some? <==> DefValid(config) && StatusOf(wire).None?
    ensures out.state.Some? ==> out.state.value == config
    ensures DefValid(config) && StatusOf(wire).Some? ==>
              out.diags == [Error("RemoteOptionDef4Set", "Unable to create option-def4 in Kea, got error: "
                                  + Message(StatusOf(wire).value) + " | " + render(DefOf(config)))]
  {
    out := SetDefinition("RemoteOptionDef4Set", "Unable to create option-def4 in Kea, got error: ", config, wire, render);
  }

  method Update(config: OptionDefModel, wire: Wire<()>, render: RemoteOptionDef4 -> string)
    returns (out: Applied<OptionDefCall, OptionDefModel>)
    ensures !DefValid(config) ==> out == Applied(Reported(DefChecks("RemoteOptionDef4Update", config)), None, None)
    ensures DefValid(config) ==> out.call == Some(SetDef(config.hostname.v, DefOf(config)))
    ensures out.state.Some? <==> DefValid(config) && StatusOf(wire).None?
    ensures out.state.Some? ==> out.state.value == config
    ensures DefValid(config) && StatusOf(wire).Some? ==>
              out.diags == [Error("RemoteOptionDef4Update", "Unable to update remote-option-def4 in Kea, got error: "
                                  + Message(StatusOf(wire).value) + " | " + render(DefOf(config)))]
  {
    out := SetDefinition("RemoteOptionDef4Update", "Unable to update remote-option-def4 in Kea, got error: ",
                         config, wire, render);
  }

  /** `Delete`: validate the key, then remove it with `RemoteOptionDef4Del`. */
  method Delete(config: OptionDefModel, wire: Wire<()>) returns (out: Applied<OptionDefCall, OptionDefModel>)
    ensures out.state.None?
    ensures !KeyValid(config) ==> out == Applied(Reported(KeyChecks("RemoteOptionDef4Del", "RemoteOptionDef4Del", config)), None, None)
    ensures KeyValid(config) ==> out.call == Some(DelDef(config.hostname.v, config.space.v, config.code.v))
    ensures KeyValid(config) ==>
              out.diags == if StatusOf(wire).None? then []
                           else [Error("RemoteOptionDef4Del", "Unable to delete remote-option-def4, got error: "
                                       + Message(StatusOf(wire).value))]
  {
    var diags := ValidateKey("RemoteOptionDef4Del", "RemoteOptionDef4Del", config);
    if |diags| > 0 {
      return Applied(diags, None, None);
    }

    var call := DelDef(ValueString(config.hostname), ValueString(config.space), ValueInt64(config.code));
    var err := StatusOf(wire);
    if err.Some? {
      diags := diags + [Error("RemoteOptionDef4Del", "Unable to delete remote-option-def4, got error: " + Message(err.value))];
    }
    out := Applied(diags, Some(call), None);
  }

  // ---- Read --------------------------------------------------------------

  /** Read refreshes type, record types and encapsulated space when Kea
      reports them non-empty and the array flag when Kea reports it true;
      the name and everything else stay as they were. */
  function Merged(config: OptionDefModel, d: RemoteOptionDef4): OptionDefModel {
    config.(optionType := if d.optionType != "" then Known(d.optionType) else config.optionType,
            isArray := if d.isArray then Known(true) else config.isArray,
            recordTypes := if d.recordTypes != "" then Known(d.recordTypes) else config.recordTypes,
            encapsulate := if d.encapsulate != "" then Known(d.encapsulate) else config.encapsulate)
  }

  method Merge(config: OptionDefModel, d: RemoteOptionDef4) returns (state: OptionDefModel)
    ensures state == Merged(config, d)
  {
    state := config;
    if d.optionType != "" {
      state := state.(optionType := Known(d.optionType));
    }
    if d.isArray {
      state := state.(isArray := Known(d.isArray));
    }
    if d.recordTypes != "" {
      state := state.(recordTypes := Known(d.recordTypes));
    }
    if d.encapsulate != "" {
      state := state.(encapsulate := Known(d.encapsulate));
    }
  }

  const ReadFailure: string := "Unable to read remote-option-def4, got error: "

  /** `Read` as written: the client returns a nil definition, without an
      error, when Kea reports none, and the fields of that nil pointer are
      then read. */
  method ReadAsWritten(config: OptionDefModel, wire: Wire<OptionDefsReply>)
    returns (run: Run<Applied<OptionDefCall, OptionDefModel>>)
    ensures !KeyValid(config) ==>
              run == Returned(Applied(Reported(KeyChecks("ReservationAdd", "RemoteOptionDef4Set", config)), None, None))
    ensures run.Panicked? <==>
              KeyValid(config) && GetResult(wire).value.None?
              && (GetResult(wire).err.None? || IsNotFound(GetResult(wire).err.value))
    ensures KeyValid(config) && GetResult(wire).value.Some? ==>
              run == Returned(Applied([], Some(GetDef(config.hostname.v, config.space.v, config.code.v)),
                                      Some(Merged(config, GetResult(wire).value.value))))
  {
    var diags := ValidateKey("ReservationAdd", "RemoteOptionDef4Set", config);
    if |diags| > 0 {
      return Returned(Applied(diags, None, None));
    }

    var call := GetDef(ValueString(config.hostname), ValueString(config.space), ValueInt64(config.code));
    var respData := GetResult(wire);
    if respData.err.Some? && !IsNotFound(respData.err.value) {
      diags := diags + [Error("RemoteOptionDef4Set", ReadFailure + Message(respData.err.value))];
      return Returned(Applied(diags, Some(call), None));
    }
    if respData.value.None? {
      return Panicked;
    }
    var state := Merge(config, respData.value.value);
    run := Returned(Applied(diags, Some(call), Some(state)));
  }

  /** A definition Kea does not know: result 3 with "not found" in its text. */
  const UnknownDefinition: Wire<OptionDefsReply> :=
    Sent(Answer(Envelopes([Response(3, "option definition not found", NoArguments)])))

  /** Reading a definition Kea does not know, the shape of every
      resource's Read after the definition was removed outside Terraform,
      stops on the nil pointer. */
  lemma ReadAsWrittenPanicsOnUnknownDefinition()
    ensures GetResult(UnknownDefinition) == Outcome(None, None)
  {
    NotFoundIsInText(3, "option definition not found");
    assert Text.OccursAt("option definition not found", NotFound, 18);
  }

  /** `Read` as evidently intended: an absent definition, like a "not
      found" error, saves the state unchanged. */
  method Read(config: OptionDefModel, wire: Wire<OptionDefsReply>) returns (out: Applied<OptionDefCall, OptionDefModel>)
    ensures !KeyValid(config) ==> out == Applied(Reported(KeyChecks("ReservationAdd", "RemoteOptionDef4Set", config)), None, None)
    ensures KeyValid(config) ==> out.call == Some(GetDef(config.hostname.v, config.space.v, config.code.v))
    ensures KeyValid(config) && GetResult(wire).err.Some? && !IsNotFound(GetResult(wire).err.value) ==>
              out.diags == [Error("RemoteOptionDef4Set", ReadFailure + Message(GetResult(wire).err.value))] && out.state.None?
    ensures out.state.Some? <==>
              KeyValid(config) && (GetResult(wire).err.None? || IsNotFound(GetResult(wire).err.value))
    ensures out.state.Some? ==>
              out.state.value == if GetResult(wire).value.None? then config else Merged(config, GetResult(wire).value.value)
  {
    var diags := ValidateKey("ReservationAdd", "RemoteOptionDef4Set", config);
    if |diags| > 0 {
      return Applied(diags, None, None);
    }

    var call := GetDef(ValueString(config.hostname), ValueString(config.space), ValueInt64(config.code));
    var respData := GetResult(wire);
    if respData.err.Some? && !IsNotFound(respData.err.value) {
      diags := diags + [Error("RemoteOptionDef4Set", ReadFailure + Message(respData.err.value))];
      return Applied(diags, Some(call), None);
    }
    if respData.value.None? {
      return Applied(diags, Some(call), Some(config));
    }
    var state := Merge(config, respData.value.value);
    out := Applied(diags, Some(call), Some(state));
  }

  // ---- Properties across operations ----------------------------------

  /** Reading back the definition Create sent leaves the state as Create saved it. */
  lemma ReadAfterCreateKeepsState(config: OptionDefModel)
    ensures Merged(config, DefOf(config)) == config
  {
  }

  /** Reading twice refreshes nothing more than reading once. */
  lemma MergeIdempotent(config: OptionDefModel, d: RemoteOptionDef4)
    ensures Merged(Merged(config, d), d) == Merged(config, d)
  {
  }

  /** Read never clears a value: a known attribute stays known. */
  lemma MergeKeepsKnown(config: OptionDefModel, d: RemoteOptionDef4)
    ensures var m := Merged(config, d);
            (config.optionType.Known? ==> m.optionType.Known?) && (config.isArray.Known? ==> m.isArray.Known?)
            && (config.recordTypes.Known? ==> m.recordTypes.Known?) && (config.encapsulate.Known? ==> m.encapsulate.Known?)
            && m.name == config.name && m.code == config.code && m.space == config.space
  {
  }
}
