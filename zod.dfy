/**
 * What this model needs of the validation library the schemas are written in: a
 * field of the parsed object is either missing (`undefined`), `null` or given, and
 * JavaScript numbers are reals so that `.int()` is a real check.
 */
module Zod {

  /** One property of the object handed to a schema. */
  datatype Field<T> = Missing | Null | Given(value: T)

  /** `z.number().int()`. */
  predicate IsInt(x: real) {
    x.Floor as real == x
  }

  /** `z.number().int().nonnegative()`. */
  predicate IsNonNegInt(x: real) {
    IsInt(x) && x >= 0.0
  }

  /** A given field holding a non-negative integer, as a `nat`. */
  function NatOf(x: real): (n: nat)
    requires IsNonNegInt(x)
    ensures n as real == x
  {
    x.Floor
  }

  /** `.default(d)`: only a missing field is replaced; `null` stays `null`. */
  function WithDefault<T>(f: Field<T>, d: T): (r: Field<T>)
    ensures f.Missing? ==> r == Given(d)
    ensures !f.Missing? ==> r == f
  {
    if f.Missing? then Given(d) else f
  }

  /** `z.string().min(1)` on a required property. */
  predicate NonEmptyGiven(f: Field<string>) {
    f.Given? && |f.value| >= 1
  }

  /** `z.string().min(lo).max(hi)` on a required property. */
  predicate LengthGiven(f: Field<string>, lo: nat, hi: nat) {
    f.Given? && lo <= |f.value| <= hi
  }

  /** `z.string().max(hi).optional()`: absent, or at most `hi` characters. */
  predicate OptionalMaxLength(f: Field<string>, hi: nat) {
    f.Missing? || (f.Given? && |f.value| <= hi)
  }

  /** `z.string().max(hi).nullable().optional()`: absent, `null`, or at most `hi` characters. */
  predicate NullableMaxLength(f: Field<string>, hi: nat) {
    !f.Given? || |f.value| <= hi
  }

  /** `z.number().int().nonnegative()` on a required property. */
  predicate NonNegIntGiven(f: Field<real>) {
    f.Given? && IsNonNegInt(f.value)
  }

  /** An optional property with a default: absent or given, never `null`. */
  predicate MissingOrGiven<T>(f: Field<T>) {
    f.Missing? || f.Given?
  }
}
