/** `CreateToolDto`: the body of a create request and the class-validator decorators
    on each of its properties. The body has no `status` and no `active_users_count`
    property, so a caller cannot choose either at creation. */
module CreateToolDto {
  import opened Wrappers
  import opened Values

  /** The body as the decorators see it: one value per declared property. */
  datatype Input = Input(
    name: Value,
    description: Value,
    vendor: Value,
    websiteUrl: Value,
    categoryId: Value,
    monthlyCost: Value,
    ownerDepartment: Value)

  /** `@IsString() @IsNotEmpty() @Length(2, 100)` */
  predicate NameOk(v: Value)
  {
    IsString(v) && IsNotEmpty(v) && HasLength(v, 2, 100)
  }

  /** `@IsOptional() @IsString()` */
  predicate DescriptionOk(v: Value)
  {
    IsAbsent(v) || IsString(v)
  }

  /** `@IsString() @IsNotEmpty() @MaxLength(100)` */
  predicate VendorOk(v: Value)
  {
    IsString(v) && IsNotEmpty(v) && HasMaxLength(v, 100)
  }

  /** `@IsOptional() @IsUrl()` */
  predicate WebsiteUrlOk(dom: Domains, v: Value)
  {
    IsAbsent(v) || IsUrl(dom, v)
  }

  /** `@IsInt() @Min(1)` */
  predicate CategoryIdOk(v: Value)
  {
    IsInt(v) && AtLeast(v, 1)
  }

  /** `@IsNumber({ maxDecimalPlaces: 2 }) @Min(0)` */
  predicate MonthlyCostOk(v: Value)
  {
    IsNumberCents(v) && AtLeast(v, 0)
  }

  /** `@IsEnum(tools_owner_department)` */
  predicate OwnerDepartmentOk(dom: Domains, v: Value)
  {
    IsEnum(v, dom.departments)
  }

  /** The body passes every decorator. */
  predicate Valid(dom: Domains, i: Input)
  {
    && NameOk(i.name)
    && DescriptionOk(i.description)
    && VendorOk(i.vendor)
    && WebsiteUrlOk(dom, i.websiteUrl)
    && CategoryIdOk(i.categoryId)
    && MonthlyCostOk(i.monthlyCost)
    && OwnerDepartmentOk(dom, i.ownerDepartment)
  }

  /** A validated body in typed form; the cost is a whole number of cents. */
  datatype Dto = Dto(
    name: string,
    description: Option<string>,
    vendor: string,
    websiteUrl: Option<string>,
    categoryId: int,
    monthlyCostCents: int,
    ownerDepartment: string)

  /** The accepted domain, stated on the typed body. */
  predicate WellFormed(dom: Domains, d: Dto)
  {
    && 2 <= |d.name| <= 100
    && 1 <= |d.vendor| <= 100
    && (d.websiteUrl.Some? ==> dom.isUrl(d.websiteUrl.value))
    && d.categoryId >= 1
    && d.monthlyCostCents >= 0
    && d.ownerDepartment in dom.departments
  }

  function OptionalText(v: Value): Option<string>
  {
    if v.Str? then Some(v.s) else None
  }

  /** Reads a validated body; undefined and null optional properties become None. */
  function Decode(dom: Domains, i: Input): (d: Dto)
    requires Valid(dom, i)
    ensures WellFormed(dom, d)
    ensures d.categoryId as real == i.categoryId.x
    ensures Amount(d.monthlyCostCents) == i.monthlyCost.x
  {
    Dto(i.name.s, OptionalText(i.description), i.vendor.s, OptionalText(i.websiteUrl),
        i.categoryId.x.Floor, Cents(i.monthlyCost.x), i.ownerDepartment.s)
  }

  function OptionalValue(o: Option<string>): Value
  {
    if o.Some? then Str(o.value) else Undefined
  }

  /** The request body a client sends for a typed body. */
  function Encode(d: Dto): Input
  {
    Input(Str(d.name), OptionalValue(d.description), Str(d.vendor), OptionalValue(d.websiteUrl),
          IntNumber(d.categoryId), Num(Amount(d.monthlyCostCents)), Str(d.ownerDepartment))
  }

  /** Every body in the typed domain passes the decorators and reads back unchanged:
      together with Decode's contract, the decorators accept exactly that domain. */
  lemma EncodeDecode(dom: Domains, d: Dto)
    requires WellFormed(dom, d)
    ensures Valid(dom, Encode(d))
    ensures Decode(dom, Encode(d)) == d
  {
    CentsRoundTrip(d.monthlyCostCents);
  }

  /** `name` is a string of 2 to 100 characters (`@IsNotEmpty()` adds nothing to that). */
  lemma NameDomain(v: Value)
    ensures NameOk(v) <==> v.Str? && 2 <= |v.s| <= 100
  {
  }

  /** `vendor` is a string of 1 to 100 characters. */
  lemma VendorDomain(v: Value)
    ensures VendorOk(v) <==> v.Str? && 1 <= |v.s| <= 100
  {
    if v.Str? && |v.s| >= 1 {
      assert v != Str("");
    }
  }

  /** `category_id` is a whole number, at least 1. */
  lemma CategoryIdDomain(v: Value)
    ensures CategoryIdOk(v) <==> exists n: int :: n >= 1 && v == IntNumber(n)
  {
    if CategoryIdOk(v) {
      assert v == IntNumber(v.x.Floor);
    }
  }

  /** `monthly_cost` is a non-negative whole number of cents. */
  lemma MonthlyCostDomain(v: Value)
    ensures MonthlyCostOk(v) <==> exists c: int :: c >= 0 && v == Num(Amount(c))
  {
    if MonthlyCostOk(v) {
      var c := Cents(v.x);
      assert v == Num(Amount(c));
    }
    if exists c: int :: c >= 0 && v == Num(Amount(c)) {
      var c: int :| c >= 0 && v == Num(Amount(c));
      CentsRoundTrip(c);
    }
  }

  /** The optional properties accept undefined and null; `website_url` must otherwise
      pass the URL check, `description` must otherwise be a string. */
  lemma OptionalDomains(dom: Domains, v: Value)
    ensures DescriptionOk(v) <==> v.Undefined? || v.Null? || v.Str?
    ensures WebsiteUrlOk(dom, v) <==> v.Undefined? || v.Null? || (v.Str? && dom.isUrl(v.s))
  {
  }

  /** A cost with a third decimal (12.345) is refused, and so is a negative one. */
  lemma CostPrecisionAndSign()
    ensures !MonthlyCostOk(Num(12.345))
    ensures !MonthlyCostOk(Num(-0.01))
    ensures MonthlyCostOk(Num(12.5))
  {
    assert (12.345 * 100.0).Floor == 1234;
  }

  /** A one-character name is refused although it is not empty. */
  lemma NameNeedsTwoCharacters()
    ensures !NameOk(Str("a")) && NameOk(Str("ab"))
  {
  }
}
