/** `UpdateToolDto`: `PartialType(CreateToolDto)` plus an optional `status`. Every
    property of the create body becomes optional; a supplied one keeps its decorators. */
module UpdateToolDto {
  import opened Wrappers
  import opened Values
  import CreateToolDto

  /** The properties of the create body, and `status`. */
  datatype Input = Input(fields: CreateToolDto.Input, status: Value)

  /** `PartialType` adds `@IsOptional()` in front of a property's own check. */
  predicate Optional(v: Value, checked: bool)
  {
    IsAbsent(v) || checked
  }

  predicate Valid(dom: Domains, u: Input)
  {
    var f := u.fields;
    && Optional(f.name, CreateToolDto.NameOk(f.name))
    && Optional(f.description, CreateToolDto.DescriptionOk(f.description))
    && Optional(f.vendor, CreateToolDto.VendorOk(f.vendor))
    && Optional(f.websiteUrl, CreateToolDto.WebsiteUrlOk(dom, f.websiteUrl))
    && Optional(f.categoryId, CreateToolDto.CategoryIdOk(f.categoryId))
    && Optional(f.monthlyCost, CreateToolDto.MonthlyCostOk(f.monthlyCost))
    && Optional(f.ownerDepartment, CreateToolDto.OwnerDepartmentOk(dom, f.ownerDepartment))
    && Optional(u.status, IsEnum(u.status, dom.statuses))
  }

  /** The body `{}`. */
  const Empty := Input(CreateToolDto.Input(Undefined, Undefined, Undefined, Undefined,
                                           Undefined, Undefined, Undefined), Undefined)

  /** A validated update body in typed form: None for a property not supplied. */
  datatype Patch = Patch(
    name: Option<string>,
    description: Option<string>,
    vendor: Option<string>,
    websiteUrl: Option<string>,
    categoryId: Option<int>,
    monthlyCostCents: Option<int>,
    ownerDepartment: Option<string>,
    status: Option<string>)

  /** Every supplied property lies in the domain the create body has for it. */
  predicate WellFormed(dom: Domains, p: Patch)
  {
    && (p.name.Some? ==> 2 <= |p.name.value| <= 100)
    && (p.vendor.Some? ==> 1 <= |p.vendor.value| <= 100)
    && (p.websiteUrl.Some? ==> dom.isUrl(p.websiteUrl.value))
    && (p.categoryId.Some? ==> p.categoryId.value >= 1)
    && (p.monthlyCostCents.Some? ==> p.monthlyCostCents.value >= 0)
    && (p.ownerDepartment.Some? ==> p.ownerDepartment.value in dom.departments)
    && (p.status.Some? ==> p.status.value in dom.statuses)
  }

  function Decode(dom: Domains, u: Input): (p: Patch)
    requires Valid(dom, u)
    ensures WellFormed(dom, p)
    ensures p.categoryId.Some? ==> u.fields.categoryId == Num(p.categoryId.value as real)
    ensures p.monthlyCostCents.Some? ==> u.fields.monthlyCost == Num(Amount(p.monthlyCostCents.value))
  {
    var f := u.fields;
    Patch(
      CreateToolDto.OptionalText(f.name),
      CreateToolDto.OptionalText(f.description),
      CreateToolDto.OptionalText(f.vendor),
      CreateToolDto.OptionalText(f.websiteUrl),
      if f.categoryId.Num? then Some(f.categoryId.x.Floor) else None,
      if f.monthlyCost.Num? then Some(Cents(f.monthlyCost.x)) else None,
      CreateToolDto.OptionalText(f.ownerDepartment),
      if u.status.Str? then Some(u.status.s) else None)
  }

  /** The patch that sets every property of a create body. */
  function FromDto(d: CreateToolDto.Dto): Patch
  {
    Patch(Some(d.name), d.description, Some(d.vendor), d.websiteUrl, Some(d.categoryId),
          Some(d.monthlyCostCents), Some(d.ownerDepartment), None)
  }

  /** The empty body is a valid update, and it changes nothing. */
  lemma EmptyIsValid(dom: Domains)
    ensures Valid(dom, Empty)
    ensures Decode(dom, Empty) == Patch(None, None, None, None, None, None, None, None)
  {
  }

  /** Every valid create body is a valid update body, and it reads as the patch that
      sets each of its properties. */
  lemma CreateBodyIsUpdateBody(dom: Domains, i: CreateToolDto.Input)
    requires CreateToolDto.Valid(dom, i)
    ensures Valid(dom, Input(i, Undefined))
    ensures Decode(dom, Input(i, Undefined)) == FromDto(CreateToolDto.Decode(dom, i))
  {
  }

  /** A supplied status must be a member of the status enumeration. */
  lemma StatusChecked(dom: Domains, s: string)
    ensures Valid(dom, Empty.(status := Str(s))) <==> s in dom.statuses
  {
  }

  /** The update body a client sends for a typed patch: a property not set is left out. */
  function Encode(p: Patch): Input
  {
    Input(CreateToolDto.Input(
            CreateToolDto.OptionalValue(p.name),
            CreateToolDto.OptionalValue(p.description),
            CreateToolDto.OptionalValue(p.vendor),
            CreateToolDto.OptionalValue(p.websiteUrl),
            if p.categoryId.Some? then IntNumber(p.categoryId.value) else Undefined,
            if p.monthlyCostCents.Some? then Num(Amount(p.monthlyCostCents.value)) else Undefined,
            CreateToolDto.OptionalValue(p.ownerDepartment)),
          CreateToolDto.OptionalValue(p.status))
  }

  /** Every patch in the typed domain passes the decorators and reads back unchanged:
      together with Decode's contract, the update decorators accept exactly that domain. */
  lemma EncodeDecode(dom: Domains, p: Patch)
    requires WellFormed(dom, p)
    ensures Valid(dom, Encode(p))
    ensures Decode(dom, Encode(p)) == p
  {
    if p.monthlyCostCents.Some? {
      CentsRoundTrip(p.monthlyCostCents.value);
    }
  }

  /** A supplied property is held to exactly its create check: each of the seven
      properties, supplied alone, makes a valid update iff it passes the create
      decorators (a one-character name is refused in an update as in a create). */
  lemma SuppliedFieldsChecked(dom: Domains, v: Value)
    requires !IsAbsent(v)
    ensures var f := Empty.fields;
            && (Valid(dom, Empty.(fields := f.(name := v))) <==> CreateToolDto.NameOk(v))
            && (Valid(dom, Empty.(fields := f.(description := v))) <==> CreateToolDto.DescriptionOk(v))
            && (Valid(dom, Empty.(fields := f.(vendor := v))) <==> CreateToolDto.VendorOk(v))
            && (Valid(dom, Empty.(fields := f.(websiteUrl := v))) <==> CreateToolDto.WebsiteUrlOk(dom, v))
            && (Valid(dom, Empty.(fields := f.(categoryId := v))) <==> CreateToolDto.CategoryIdOk(v))
            && (Valid(dom, Empty.(fields := f.(monthlyCost := v))) <==> CreateToolDto.MonthlyCostOk(v))
            && (var u := Empty.(fields := f.(ownerDepartment := v));
                Valid(dom, u) <==> CreateToolDto.OwnerDepartmentOk(dom, v))
  {
  }
}
