/** The `remote_option_def4_data_source`: an option definition looked up by
    space and code. */
module OptionDefDataSource {
  import opened Wrappers
  import opened Kea
  import opened Framework
  import opened OptionDef4Client
  import opened OptionDefResource

  /** The state saved from a definition Kea reports: type, array flag,
      record types and encapsulated space are overwritten, empty or not. */
  function Refreshed(config: OptionDefModel, d: RemoteOptionDef4): OptionDefModel {
    config.(optionType := Known(d.optionType), isArray := Known(d.isArray),
            recordTypes := Known(d.recordTypes), encapsulate := Known(d.encapsulate))
  }

  method Overwrite(config: OptionDefModel, d: RemoteOptionDef4) returns (state: OptionDefModel)
    ensures state == Refreshed(config, d)
  {
    state := config;
    state := state.(optionType := Known(d.optionType));
    state := state.(isArray := Known(d.isArray));
    state := state.(recordTypes := Known(d.recordTypes));
    state := state.(encapsulate := Known(d.encapsulate));
  }

  /** `Read`: validate the key under `RemoteOptionDef4Get`, look the
      definition up, save the configuration unchanged when Kea has none,
      and otherwise the four reported attributes. */
  method Read(config: OptionDefModel, wire: Wire<OptionDefsReply>) returns (out: Applied<OptionDefCall, OptionDefModel>)
    ensures !KeyValid(config) ==> out == Applied(Reported(KeyChecks("RemoteOptionDef4Get", "RemoteOptionDef4Get", config)), None, None)
    ensures KeyValid(config) ==> out.call == Some(GetDef(config.hostname.v, config.space.v, config.code.v))
    ensures KeyValid(config) && GetResult(wire).err.Some? && !IsNotFound(GetResult(wire).err.value) ==>
              out.diags == [Error("RemoteOptionDef4Get", ReadFailure + Message(GetResult(wire).err.value))] && out.state.None?
    ensures out.state.Some? <==>
              KeyValid(config) && (GetResult(wire).err.None? || IsNotFound(GetResult(wire).err.value))
    ensures out.state.Some? ==>
              out.state.value == if GetResult(wire).value.None? then config else Refreshed(config, GetResult(wire).value.value)
  {
    var diags := ValidateKey("RemoteOptionDef4Get", "RemoteOptionDef4Get", config);
    if |diags| > 0 {
      return Applied(diags, None, None);
    }

    var call := GetDef(ValueString(config.hostname), ValueString(config.space), ValueInt64(config.code));
    var respData := GetResult(wire);
    if respData.err.Some? && !IsNotFound(respData.err.value) {
      diags := diags + [Error("RemoteOptionDef4Get", ReadFailure + Message(respData.err.value))];
      return Applied(diags, Some(call), None);
    }
    if respData.value.None? {
      return Applied(diags, Some(call), Some(config));
    }
    var state := Overwrite(config, respData.value.value);
    out := Applied(diags, Some(call), Some(state));
  }

  /** The four attributes the data source saves depend on Kea's definition
      alone, never on the configuration. */
  lemma ReportedIgnoresConfig(c1: OptionDefModel, c2: OptionDefModel, d: RemoteOptionDef4)
    ensures var s1 := Refreshed(c1, d);
            var s2 := Refreshed(c2, d);
            s1.optionType == s2.optionType && s1.isArray == s2.isArray
            && s1.recordTypes == s2.recordTypes && s1.encapsulate == s2.encapsulate
  {
  }

  /** The data source and the resource save the same state exactly when
      the resource's merge touches every one of the four attributes, or
      they already hold Kea's values. */
  lemma SourceAgreesWithResource(config: OptionDefModel, d: RemoteOptionDef4)
    ensures Refreshed(config, d) == Merged(config, d) <==>
              (d.optionType != "" || config.optionType == Known(""))
              && (d.isArray || config.isArray == Known(false))
              && (d.recordTypes != "" || config.recordTypes == Known(""))
              && (d.encapsulate != "" || config.encapsulate == Known(""))
  {
    if Refreshed(config, d) == Merged(config, d) {
      assert Refreshed(config, d).optionType == Merged(config, d).optionType;
      assert Refreshed(config, d).isArray == Merged(config, d).isArray;
      assert Refreshed(config, d).recordTypes == Merged(config, d).recordTypes;
      assert Refreshed(config, d).encapsulate == Merged(config, d).encapsulate;
    }
  }
}
