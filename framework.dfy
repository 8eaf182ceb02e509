/** The Terraform plugin-framework values the provider reads and writes:
    attribute values that may be null or unknown, and the diagnostics list
    an operation appends to. Reading the configuration and saving the
    state are the framework's; an operation's saved state is its result. */
module Framework {
  import opened Wrappers

  /** A `types.String`, `types.Int64`, `types.Bool` or `types.Map`: null,
      unknown (while planning) or known. */
  datatype Attr<+T> = Null | Unknown | Known(v: T)

  /** `ValueString()`, `ValueInt64()`, `ValueBool()`: the Go zero value
      unless the value is known. */
  function ValueOr<T>(a: Attr<T>, zero: T): (x: T)
    ensures a.Known? ==> x == a.v
    ensures !a.Known? ==> x == zero
  {
    if a.Known? then a.v else zero
  }

  function ValueString(a: Attr<string>): string {
    ValueOr(a, "")
  }

  function ValueInt64(a: Attr<int>): int {
    ValueOr(a, 0)
  }

  function ValueBool(a: Attr<bool>): bool {
    ValueOr(a, false)
  }

  /** `IsNull() || IsUnknown() || ValueString() == ""`, the provider's test
      for a required string. */
  predicate MissingString(a: Attr<string>) {
    !a.Known? || a.v == ""
  }

  /** `IsNull() || IsUnknown()`, the provider's test for a required number. */
  predicate MissingValue<T>(a: Attr<T>) {
    !a.Known?
  }

  /** `!IsNull() && !IsUnknown()`: an optional value the user gave. */
  predicate Given<T>(a: Attr<T>) {
    a.Known?
  }

  /** `AddError(summary, detail)` and `AddAttributeError(path, summary, detail)`. */
  datatype Diagnostic =
    | Error(summary: string, detail: string)
    | AttributeError(attribute: string, summary: string, detail: string)

  /** One validation step: whether it fails, and the error it then adds. */
  datatype Check = Check(fails: bool, diagnostic: Diagnostic)

  /** The errors a run of validation steps adds, in order: one for each
      step that fails. */
  function Reported(checks: seq<Check>): (ds: seq<Diagnostic>)
    ensures |ds| <= |checks|
  {
    if |checks| == 0 then []
    else
      var rest := Reported(checks[..|checks| - 1]);
      var last := checks[|checks| - 1];
      if last.fails then rest + [last.diagnostic] else rest
  }

  /** Validation adds no error exactly when no step fails, and every step
      that fails adds its own error, so all of them are reported together. */
  lemma {:induction false} ReportedAll(checks: seq<Check>)
    ensures |Reported(checks)| == 0 <==> forall i | 0 <= i < |checks| :: !checks[i].fails
    ensures forall i | 0 <= i < |checks| && checks[i].fails :: checks[i].diagnostic in Reported(checks)
  {
    if |checks| > 0 {
      var init := checks[..|checks| - 1];
      ReportedAll(init);
      assert forall i | 0 <= i < |init| :: init[i] == checks[i];
    }
  }

  /** The error a single step adds: none, or its own. */
  function Flagged(c: Check): (ds: seq<Diagnostic>)
    ensures ds == [] <==> !c.fails
  {
    if c.fails then [c.diagnostic] else []
  }

  /** One more step adds its own error, if any, after the others. */
  lemma ReportedSnoc(checks: seq<Check>, c: Check)
    ensures Reported(checks + [c]) == Reported(checks) + Flagged(c)
  {
    assert (checks + [c])[..|checks|] == checks;
  }

  lemma ReportedThree(a: Check, b: Check, c: Check)
    ensures Reported([a, b, c]) == Flagged(a) + Flagged(b) + Flagged(c)
  {
    ReportedSnoc([], a);
    assert [] + [a] == [a];
    ReportedSnoc([a], b);
    assert [a] + [b] == [a, b];
    ReportedSnoc([a, b], c);
    assert [a, b] + [c] == [a, b, c];
  }

  lemma ReportedFour(a: Check, b: Check, c: Check, d: Check)
    ensures Reported([a, b, c, d]) == Flagged(a) + Flagged(b) + Flagged(c) + Flagged(d)
  {
    ReportedThree(a, b, c);
    ReportedSnoc([a, b, c], d);
    assert [a, b, c] + [d] == [a, b, c, d];
  }

  lemma ReportedFive(a: Check, b: Check, c: Check, d: Check, e: Check)
    ensures Reported([a, b, c, d, e]) == Flagged(a) + Flagged(b) + Flagged(c) + Flagged(d) + Flagged(e)
  {
    ReportedFour(a, b, c, d);
    ReportedSnoc([a, b, c, d], e);
    assert [a, b, c, d] + [e] == [a, b, c, d, e];
  }

  /** What an operation did: the errors it added, the client call it made,
      if any, and the state it saved, if any. */
  datatype Applied<C, S> = Applied(diags: seq<Diagnostic>, call: Option<C>, state: Option<S>)
}
