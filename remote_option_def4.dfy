/** The `remote-option-def4-*` commands: custom DHCPv4 option definitions,
    identified by option space and code. */
module OptionDef4Client {
  import opened Wrappers
  import opened Json
  import opened Kea

  /** `code` is always serialised; every other field is `omitempty`. */
  datatype RemoteOptionDef4 = RemoteOptionDef4(
    name: string,
    code: int,
    optionType: string,
    isArray: bool,
    recordTypes: string,
    space: string,
    encapsulate: string)

  /** The fields of `RemoteOptionDef4` in declaration order. */
  function OptionDefFields(d: RemoteOptionDef4): seq<Field> {
    [ Field("name", d.name == "", Str(d.name)),
      Always("code", Num(d.code)),
      Field("type", d.optionType == "", Str(d.optionType)),
      Field("array", !d.isArray, Bool(d.isArray)),
      Field("record-types", d.recordTypes == "", Str(d.recordTypes)),
      Field("space", d.space == "", Str(d.space)),
      Field("encapsulate", d.encapsulate == "", Str(d.encapsulate)) ]
  }

  /** The document `encoding/json` writes for a definition: `code` is
      always sent, with its value. */
  function OptionDefJson(d: RemoteOptionDef4): (j: Json)
    ensures j.Obj? && "code" in j.fields && j.fields["code"] == Num(d.code)
  {
    var fs := OptionDefFields(d);
    assert DistinctKeys(fs);
    FieldWritten(fs, 1);
    Struct(fs)
  }

  /** Every other field is sent only when not empty, and `array` only when true. */
  lemma OptionDefJsonOmitsEmpty(d: RemoteOptionDef4)
    ensures var j := OptionDefJson(d).fields;
            ("name" in j <==> d.name != "") && ("type" in j <==> d.optionType != "")
            && ("array" in j <==> d.isArray) && ("record-types" in j <==> d.recordTypes != "")
            && ("space" in j <==> d.space != "") && ("encapsulate" in j <==> d.encapsulate != "")
  {
    var fs := OptionDefFields(d);
    assert DistinctKeys(fs);
    FieldWritten(fs, 0); FieldWritten(fs, 2); FieldWritten(fs, 3);
    FieldWritten(fs, 4); FieldWritten(fs, 5); FieldWritten(fs, 6);
  }

  /** The fields sent carry the definition's values. */
  lemma OptionDefJsonValues(d: RemoteOptionDef4)
    ensures var j := OptionDefJson(d).fields;
            (d.name != "" ==> "name" in j && j["name"] == Str(d.name))
            && (d.optionType != "" ==> "type" in j && j["type"] == Str(d.optionType))
            && (d.isArray ==> "array" in j && j["array"] == Bool(true))
            && (d.recordTypes != "" ==> "record-types" in j && j["record-types"] == Str(d.recordTypes))
            && (d.space != "" ==> "space" in j && j["space"] == Str(d.space))
            && (d.encapsulate != "" ==> "encapsulate" in j && j["encapsulate"] == Str(d.encapsulate))
  {
    var fs := OptionDefFields(d);
    assert DistinctKeys(fs);
    FieldWritten(fs, 0); FieldWritten(fs, 2); FieldWritten(fs, 3);
    FieldWritten(fs, 4); FieldWritten(fs, 5); FieldWritten(fs, 6);
  }

  /** Nothing but the definition's seven fields is sent. */
  lemma OptionDefJsonKeys(d: RemoteOptionDef4)
    ensures OptionDefJson(d).fields.Keys <= {"name", "code", "type", "array", "record-types", "space", "encapsulate"}
  {
    var fs := OptionDefFields(d);
    assert DistinctKeys(fs);
    OnlyFieldsWritten(fs);
  }

  /** The key `Get` and `Del` send: `RemoteOptionDef4{Space: space, Code: code}`. */
  function KeyDef(space: string, code: int): RemoteOptionDef4 {
    RemoteOptionDef4("", code, "", false, "", space, "")
  }

  /** A definition is looked up by space and code alone: the key serialises
      to `code` and, when not empty, `space`. */
  lemma KeySerialisesSpaceAndCode(space: string, code: int)
    ensures OptionDefJson(KeyDef(space, code)) ==
              Obj(if space == "" then map["code" := Num(code)] else map["code" := Num(code), "space" := Str(space)])
  {
    var d := KeyDef(space, code);
    OptionDefJsonOmitsEmpty(d);
    OptionDefJsonValues(d);
    OptionDefJsonKeys(d);
  }

  function SetRequest(c: Client, def: RemoteOptionDef4): (r: Request)
    ensures r.command == "remote-option-def4-set" && ConfigBackend(r, c, true)
    ensures r.arguments.Keys == {"remote", "server-tags", "option-defs"}
    ensures r.arguments["option-defs"] == Arr([OptionDefJson(def)])
  {
    Dhcp4Command("remote-option-def4-set", map[
      "remote" := RemoteArg(c), "server-tags" := AllServerTags, "option-defs" := Arr([OptionDefJson(def)])])
  }

  function GetRequest(c: Client, space: string, code: int): (r: Request)
    ensures r.command == "remote-option-def4-get" && ConfigBackend(r, c, true)
    ensures r.arguments.Keys == {"remote", "server-tags", "option-defs"}
    ensures r.arguments["option-defs"] == Arr([OptionDefJson(KeyDef(space, code))])
  {
    Dhcp4Command("remote-option-def4-get", map[
      "remote" := RemoteArg(c), "server-tags" := AllServerTags, "option-defs" := Arr([OptionDefJson(KeyDef(space, code))])])
  }

  function DelRequest(c: Client, space: string, code: int): (r: Request)
    ensures r.command == "remote-option-def4-del" && ConfigBackend(r, c, true)
    ensures r.arguments.Keys == {"remote", "server-tags", "option-defs"}
    ensures r.arguments["option-defs"] == Arr([OptionDefJson(KeyDef(space, code))])
  {
    Dhcp4Command("remote-option-def4-del", map[
      "remote" := RemoteArg(c), "server-tags" := AllServerTags, "option-defs" := Arr([OptionDefJson(KeyDef(space, code))])])
  }

  datatype OptionDefsReply = OptionDefsReply(count: int, optionDefs: seq<RemoteOptionDef4>)

  /** `RemoteOptionDef4Get`: an error from `make` is returned as is; a
      "not found" error from `do` and an empty list both mean the
      definition is absent; any other error is returned as is; otherwise
      element 0. */
  function GetResult(wire: Wire<OptionDefsReply>): (r: Outcome<Option<RemoteOptionDef4>>)
    ensures wire.Unbuilt? ==> r == Outcome(None, Some(ErrorOf(wire)))
    ensures wire.Sent? && !Succeeds(wire) && IsNotFound(ErrorOf(wire)) ==> r == Outcome(None, None)
    ensures wire.Sent? && !Succeeds(wire) && !IsNotFound(ErrorOf(wire)) ==> r == Outcome(None, Some(ErrorOf(wire)))
    ensures Succeeds(wire) ==>
              var defs := Decoded(wire, OptionDefsReply(0, [])).optionDefs;
              r == Outcome(if |defs| == 0 then None else Some(defs[0]), None)
  {
    var d := Call(wire, OptionDefsReply(0, []));
    if d.err.Some? then
      if wire.Sent? && IsNotFound(d.err.value) then Outcome(None, None) else Outcome(None, d.err)
    else if |d.target.optionDefs| == 0 then Outcome(None, None)
    else Outcome(Some(d.target.optionDefs[0]), None)
  }

  /** A Kea result code is read as absence exactly when its text says "not found". */
  lemma GetResultAbsentOnNotFoundText(code: int, text: string)
    requires code != 0
    ensures var wire: Wire<OptionDefsReply> := Sent(Answer(Envelopes([Response(code, text, NoArguments)])));
            GetResult(wire).err.None? <==> Text.Contains(text, NotFound)
  {
    NotFoundIsInText(code, text);
  }
}
