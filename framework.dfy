/**
 * The small part of the Terraform plugin framework that the resources and
 * data sources lean on: attribute values (null, unknown or known), their
 * `Value…()` and `…Pointer()` accessors, diagnostics, and what a lifecycle
 * call leaves in the response state.
 */
module Framework {
  import opened Wrappers
  import Bson

  /** An attribute value of the framework: `types.String`, `types.Bool`, `types.Int32`, `types.Int64`. */
  datatype Value<T> = Null | Unknown | Known(v: T)

  type TfString = Value<string>
  type TfBool = Value<bool>
  type TfInt = Value<int>

  /** `ValueString()`: the known string, "" when null or unknown. */
  function ValueString(s: TfString): (r: string)
    ensures s.Known? ==> r == s.v
    ensures !s.Known? ==> r == ""
  {
    if s.Known? then s.v else ""
  }

  /** `ValueBool()`: the known boolean, false when null or unknown. */
  function ValueBool(b: TfBool): (r: bool)
    ensures b.Known? ==> r == b.v
    ensures !b.Known? ==> !r
  {
    b.Known? && b.v
  }

  /** `ValueInt32()` / `ValueInt64()`: the known number, 0 when null or unknown. */
  function ValueInt(i: TfInt): (r: int)
    ensures i.Known? ==> r == i.v
    ensures !i.Known? ==> r == 0
  {
    if i.Known? then i.v else 0
  }

  /**
   * `ValueBoolPointer()`, `ValueInt32Pointer()`, `ValueStringPointer()`:
   * nil for a null value, otherwise a pointer to the stored value (the zero
   * value when unknown).
   */
  function ToPointer<T>(x: Value<T>, zero: T): (p: Option<T>)
    ensures p.None? <==> x.Null?
    ensures x.Known? ==> p == Some(x.v)
    ensures x.Unknown? ==> p == Some(zero)
  {
    match x
    case Null => None
    case Unknown => Some(zero)
    case Known(v) => Some(v)
  }

  /** `types.BoolPointerValue`, `types.Int32PointerValue`: null for nil, known otherwise. */
  function FromPointer<T>(p: Option<T>): (x: Value<T>)
    ensures x.Null? <==> p.None?
    ensures p.Some? ==> x == Known(p.value)
  {
    if p.Some? then Known(p.value) else Null
  }

  /** A value that is not unknown survives the trip to a pointer and back. */
  lemma PointerRoundTrip<T>(x: Value<T>, zero: T)
    requires !x.Unknown?
    ensures FromPointer(ToPointer(x, zero)) == x
  {
  }

  /** An `Optional`+`Computed` attribute with a static `Default`: a null configuration value plans as the default. */
  function WithDefault<T>(x: Value<T>, default: T): (r: Value<T>)
    ensures x.Null? ==> r == Known(default)
    ensures !x.Null? ==> r == x
  {
    if x.Null? then Known(default) else x
  }

  /**
   * The detail line of a diagnostic. `Text` is a plain string; the skipped
   * index-key warning keeps the offending entry, whose `%q`/`%T`/`%v`
   * rendering is left to Go's fmt package.
   */
  datatype Detail = Text(text: string) | UnsupportedKeyOrder(field: string, value: Bson.BsonValue)

  /** `resp.Diagnostics.AddError(summary, detail)` and `AddWarning(summary, detail)`. */
  datatype Diagnostic = Error(summary: string, detail: Detail) | Warning(summary: string, detail: Detail)

  /** `Diagnostics.HasError()`. */
  predicate HasError(diags: seq<Diagnostic>) {
    exists i :: 0 <= i < |diags| && diags[i].Error?
  }

  /**
   * What a lifecycle call did to `resp.State`: `Untouched` when it returned
   * before setting it (the framework's pre-populated value stays), `Stored(m)`
   * after `resp.State.Set(ctx, &m)`, `Removed` after `resp.State.RemoveResource`.
   */
  datatype StateOutcome<M> = Untouched | Stored(model: M) | Removed

  /** The outcome of a plan for an existing resource, derived from the schema's plan modifiers. */
  datatype Verdict = Unchanged | UpdateInPlace | Replace
}
