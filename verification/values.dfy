/** The values a request property can hold when the class-validator decorators of the
    DTOs run on it (after class-transformer's `@Type(() => Number)` conversion), and the
    decorators themselves as predicates. A JavaScript number is held as an exact `real`. */
module Values {

  /** A JavaScript value. `NaN` and the two infinities are the non-finite numbers;
      booleans, objects and arrays are `Other`, which no decorator used here accepts. */
  datatype Value =
    | Undefined
    | Null
    | Str(s: string)
    | Num(x: real)
    | NaN
    | Infinity(negative: bool)
    | Other

  /** The value domains the decorators refer to whose definitions are not part of this
      model: the Prisma enumerations `tools_owner_department` and `tools_status`, and the
      URL check behind `@IsUrl()`. */
  datatype Domains = Domains(departments: set<string>, statuses: set<string>, isUrl: string -> bool)

  predicate IsWhole(x: real)
  {
    x.Floor as real == x
  }

  /** `@IsOptional()`: undefined and null skip every other decorator of the property. */
  predicate IsAbsent(v: Value)
  {
    v.Undefined? || v.Null?
  }

  /** `@IsString()` */
  predicate IsString(v: Value)
  {
    v.Str?
  }

  /** `@IsNotEmpty()`: anything but '', null and undefined. */
  predicate IsNotEmpty(v: Value)
  {
    v != Str("") && !IsAbsent(v)
  }

  /** `@Length(lo, hi)` */
  predicate HasLength(v: Value, lo: nat, hi: nat)
  {
    v.Str? && lo <= |v.s| <= hi
  }

  /** `@MaxLength(hi)` */
  predicate HasMaxLength(v: Value, hi: nat)
  {
    v.Str? && |v.s| <= hi
  }

  /** `@IsUrl()` */
  predicate IsUrl(dom: Domains, v: Value)
  {
    v.Str? && dom.isUrl(v.s)
  }

  /** `@IsInt()`: a number with no fractional part (never NaN or an infinity). */
  predicate IsInt(v: Value)
  {
    v.Num? && IsWhole(v.x)
  }

  /** `@IsNumber({ maxDecimalPlaces: 2 })`: a finite number with at most two digits
      after the decimal point. */
  predicate IsNumberCents(v: Value)
  {
    v.Num? && IsWhole(v.x * 100.0)
  }

  /** `@Min(m)`: a number that is at least m (+Infinity passes, NaN does not). */
  predicate AtLeast(v: Value, m: int)
  {
    (v.Num? && v.x >= m as real) || v == Infinity(false)
  }

  /** `@Max(m)`: a number that is at most m (-Infinity passes, NaN does not). */
  predicate AtMost(v: Value, m: int)
  {
    (v.Num? && v.x <= m as real) || v == Infinity(true)
  }

  /** `@IsEnum(E)`: one of the enumeration's string values. */
  predicate IsEnum(v: Value, members: set<string>)
  {
    v.Str? && v.s in members
  }

  /** The whole number of cents in an amount that has at most two decimals. */
  function Cents(x: real): (c: int)
    requires IsWhole(x * 100.0)
    ensures c as real == x * 100.0
    ensures x >= 0.0 <==> c >= 0
  {
    (x * 100.0).Floor
  }

  /** The JavaScript number holding the integer n. */
  function IntNumber(n: int): Value
  {
    Num(n as real)
  }

  /** The amount a whole number of cents stands for. */
  function Amount(c: int): (x: real)
  {
    c as real / 100.0
  }

  /** Cents and amounts with at most two decimals are in one-to-one correspondence. */
  lemma CentsRoundTrip(c: int)
    ensures IsWhole(Amount(c) * 100.0) && Cents(Amount(c)) == c
  {
    assert Amount(c) * 100.0 == c as real;
  }
}
