/** JSON documents as the Go code produces and consumes them. Number
    formatting and string escaping belong to `encoding/json` and are not
    modelled. An object is a map from keys to values; a Go struct is
    serialised from its list of fields, in declaration order, each under its
    JSON name and each dropped when its tag says `omitempty` and its value is
    empty. */
module Json {

  datatype Json =
    | Null
    | Bool(b: bool)
    | Num(n: int)
    | Str(s: string)
    | Arr(items: seq<Json>)
    | Obj(fields: map<string, Json>)

  /** A JSON array of strings, in order. */
  function Strs(ss: seq<string>): (j: Json)
    ensures j.Arr? && |j.items| == |ss|
    ensures forall i | 0 <= i < |ss| :: j.items[i] == Str(ss[i])
  {
    Arr(seq(|ss|, i requires 0 <= i < |ss| => Str(ss[i])))
  }

  /** A JSON array of integers, in order. */
  function Nums(ns: seq<int>): (j: Json)
    ensures j.Arr? && |j.items| == |ns|
    ensures forall i | 0 <= i < |ns| :: j.items[i] == Num(ns[i])
  {
    Arr(seq(|ns|, i requires 0 <= i < |ns| => Num(ns[i])))
  }

  /** One struct field: its JSON name, whether `omitempty` drops it (the
      tag is present and the Go value is empty), and its JSON value. */
  datatype Field = Field(key: string, omit: bool, value: Json)

  /** A field that is always written. */
  function Always(key: string, value: Json): Field {
    Field(key, false, value)
  }

  predicate DistinctKeys(fs: seq<Field>) {
    forall i, j | 0 <= i < j < |fs| :: fs[i].key != fs[j].key
  }

  /** The members `encoding/json` writes for a struct. */
  function Members(fs: seq<Field>): map<string, Json> {
    if |fs| == 0 then map[]
    else
      var last := fs[|fs| - 1];
      var m := Members(fs[..|fs| - 1]);
      if last.omit then m else m[last.key := last.value]
  }

  /** Exactly the fields that are not omitted are written, each with its value. */
  lemma {:induction false} MembersAreUnomittedFields(fs: seq<Field>)
    requires DistinctKeys(fs)
    ensures forall i | 0 <= i < |fs| :: (fs[i].key in Members(fs) <==> !fs[i].omit)
    ensures forall i | 0 <= i < |fs| && !fs[i].omit :: Members(fs)[fs[i].key] == fs[i].value
    ensures forall k | k in Members(fs) :: exists i | 0 <= i < |fs| :: fs[i].key == k && !fs[i].omit
  {
    if |fs| > 0 {
      var init := fs[..|fs| - 1];
      assert DistinctKeys(init);
      MembersAreUnomittedFields(init);
      forall k | k in Members(fs)
        ensures exists i | 0 <= i < |fs| :: fs[i].key == k && !fs[i].omit
      {
        if k != fs[|fs| - 1].key || fs[|fs| - 1].omit {
          var i :| 0 <= i < |init| && init[i].key == k && !init[i].omit;
          assert fs[i] == init[i];
        }
      }
    }
  }

  /** Field `i` is written, with its value, exactly when it is not omitted. */
  lemma FieldWritten(fs: seq<Field>, i: nat)
    requires DistinctKeys(fs) && i < |fs|
    ensures fs[i].key in Members(fs) <==> !fs[i].omit
    ensures !fs[i].omit ==> Members(fs)[fs[i].key] == fs[i].value
  {
    MembersAreUnomittedFields(fs);
  }

  /** Nothing but the struct's fields is written. */
  lemma OnlyFieldsWritten(fs: seq<Field>)
    requires DistinctKeys(fs)
    ensures forall k | k in Members(fs) :: exists i | 0 <= i < |fs| :: fs[i].key == k
  {
    MembersAreUnomittedFields(fs);
  }

  /** A serialised struct. */
  function Struct(fs: seq<Field>): (j: Json)
    requires DistinctKeys(fs)
    ensures j.Obj? && j.fields == Members(fs)
  {
    Obj(Members(fs))
  }
}
