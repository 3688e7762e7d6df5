/** `ListToolsQueryDto`: the query string of a list request. All nine parameters are
    optional; `ToolsSortBy` and `SortOrder` are the two enumerations it declares. */
module ListToolsQueryDto {
  import opened Wrappers
  import opened Values

  /** `ToolsSortBy` */
  datatype SortBy = ByName | ByCost | ByDate

  /** `SortOrder` */
  datatype Order = Asc | Desc

  function SortByText(k: SortBy): string
  {
    match k
    case ByName => "name"
    case ByCost => "cost"
    case ByDate => "date"
  }

  function OrderText(o: Order): string
  {
    match o
    case Asc => "asc"
    case Desc => "desc"
  }

  const SortByTexts: set<string> := {"name", "cost", "date"}
  const OrderTexts: set<string> := {"asc", "desc"}

  datatype Input = Input(
    department: Value,
    status: Value,
    category: Value,
    minCost: Value,
    maxCost: Value,
    page: Value,
    limit: Value,
    sortBy: Value,
    order: Value)

  /** `@IsOptional() @IsEnum(...)` */
  predicate EnumOk(v: Value, members: set<string>)
  {
    IsAbsent(v) || IsEnum(v, members)
  }

  /** `@IsOptional() @Type(() => Number) @IsNumber({ maxDecimalPlaces: 2 }) @Min(0)` */
  predicate CostOk(v: Value)
  {
    IsAbsent(v) || (IsNumberCents(v) && AtLeast(v, 0))
  }

  /** `@IsOptional() @Type(() => Number) @IsInt() @Min(1)`, with `@Max(hi)` when hi is given */
  predicate CountOk(v: Value, hi: Option<int>)
  {
    IsAbsent(v) || (IsInt(v) && AtLeast(v, 1) && (hi.Some? ==> AtMost(v, hi.value)))
  }

  /** Every parameter passes its decorators. Nothing here relates min_cost to max_cost. */
  predicate Valid(dom: Domains, q: Input)
  {
    && EnumOk(q.department, dom.departments)
    && EnumOk(q.status, dom.statuses)
    && (IsAbsent(q.category) || IsString(q.category))
    && CostOk(q.minCost)
    && CostOk(q.maxCost)
    && CountOk(q.page, None)
    && CountOk(q.limit, Some(100))
    && EnumOk(q.sortBy, SortByTexts)
    && EnumOk(q.order, OrderTexts)
  }

  /** A validated query in typed form; costs in cents, None where not supplied. */
  datatype Query = Query(
    department: Option<string>,
    status: Option<string>,
    category: Option<string>,
    minCostCents: Option<int>,
    maxCostCents: Option<int>,
    page: Option<int>,
    limit: Option<int>,
    sortBy: Option<SortBy>,
    order: Option<Order>)

  /** The accepted domain, stated on the typed query. */
  predicate WellFormed(dom: Domains, r: Query)
  {
    && (r.department.Some? ==> r.department.value in dom.departments)
    && (r.status.Some? ==> r.status.value in dom.statuses)
    && (r.minCostCents.Some? ==> r.minCostCents.value >= 0)
    && (r.maxCostCents.Some? ==> r.maxCostCents.value >= 0)
    && (r.page.Some? ==> r.page.value >= 1)
    && (r.limit.Some? ==> 1 <= r.limit.value <= 100)
  }

  function TextOf(v: Value): Option<string>
  {
    if v.Str? then Some(v.s) else None
  }

  function CentsOf(v: Value): Option<int>
    requires CostOk(v)
  {
    if v.Num? then Some(Cents(v.x)) else None
  }

  function WholeOf(v: Value): Option<int>
  {
    if v.Num? then Some(v.x.Floor) else None
  }

  function SortByOf(v: Value): Option<SortBy>
  {
    if v == Str("name") then Some(ByName)
    else if v == Str("cost") then Some(ByCost)
    else if v == Str("date") then Some(ByDate)
    else None
  }

  function OrderOf(v: Value): Option<Order>
  {
    if v == Str("asc") then Some(Asc) else if v == Str("desc") then Some(Desc) else None
  }

  function Decode(dom: Domains, q: Input): (r: Query)
    requires Valid(dom, q)
    ensures WellFormed(dom, r)
    ensures r.sortBy.Some? <==> !IsAbsent(q.sortBy)
    ensures r.sortBy.Some? ==> q.sortBy == Str(SortByText(r.sortBy.value))
    ensures r.order.Some? <==> !IsAbsent(q.order)
    ensures r.order.Some? ==> q.order == Str(OrderText(r.order.value))
  {
    Query(TextOf(q.department), TextOf(q.status), TextOf(q.category), CentsOf(q.minCost),
          CentsOf(q.maxCost), WholeOf(q.page), WholeOf(q.limit), SortByOf(q.sortBy), OrderOf(q.order))
  }

  function TextValue(o: Option<string>): Value
  {
    if o.Some? then Str(o.value) else Undefined
  }

  function CentsValue(o: Option<int>): Value
  {
    if o.Some? then Num(Amount(o.value)) else Undefined
  }

  function WholeValue(o: Option<int>): Value
  {
    if o.Some? then IntNumber(o.value) else Undefined
  }

  function SortByValue(o: Option<SortBy>): Value
  {
    if o.Some? then Str(SortByText(o.value)) else Undefined
  }

  function OrderValue(o: Option<Order>): Value
  {
    if o.Some? then Str(OrderText(o.value)) else Undefined
  }

  /** The query string a client sends for a typed query. */
  function Encode(r: Query): Input
  {
    Input(TextValue(r.department), TextValue(r.status), TextValue(r.category),
          CentsValue(r.minCostCents), CentsValue(r.maxCostCents),
          WholeValue(r.page), WholeValue(r.limit), SortByValue(r.sortBy), OrderValue(r.order))
  }

  lemma TextRoundTrip(o: Option<string>, members: set<string>)
    requires o.Some? ==> o.value in members
    ensures EnumOk(TextValue(o), members) && TextOf(TextValue(o)) == o
  {
  }

  lemma CostRoundTrip(o: Option<int>)
    requires o.Some? ==> o.value >= 0
    ensures CostOk(CentsValue(o)) && CentsOf(CentsValue(o)) == o
  {
    if o.Some? { CentsRoundTrip(o.value); }
  }

  lemma CountRoundTrip(o: Option<int>, hi: Option<int>)
    requires o.Some? ==> o.value >= 1 && (hi.Some? ==> o.value <= hi.value)
    ensures CountOk(WholeValue(o), hi) && WholeOf(WholeValue(o)) == o
  {
  }

  lemma SortRoundTrip(s: Option<SortBy>, o: Option<Order>)
    ensures EnumOk(SortByValue(s), SortByTexts) && SortByOf(SortByValue(s)) == s
    ensures EnumOk(OrderValue(o), OrderTexts) && OrderOf(OrderValue(o)) == o
  {
  }

  /** Every query in the typed domain passes the decorators and reads back unchanged. */
  lemma EncodeDecode(dom: Domains, r: Query)
    requires WellFormed(dom, r)
    ensures Valid(dom, Encode(r))
    ensures Decode(dom, Encode(r)) == r
  {
    TextRoundTrip(r.department, dom.departments);
    TextRoundTrip(r.status, dom.statuses);
    assert TextOf(TextValue(r.category)) == r.category;
    CostRoundTrip(r.minCostCents);
    CostRoundTrip(r.maxCostCents);
    CountRoundTrip(r.page, None);
    CountRoundTrip(r.limit, Some(100));
    SortRoundTrip(r.sortBy, r.order);
  }

  /** The empty query string is valid and supplies nothing. */
  lemma EmptyQueryValid(dom: Domains)
    ensures var q := Input(Undefined, Undefined, Undefined, Undefined, Undefined,
                           Undefined, Undefined, Undefined, Undefined);
            Valid(dom, q) && Decode(dom, q) == Query(None, None, None, None, None, None, None, None, None)
  {
  }

  /** The limit is refused above 100 and below 1, and page 0 is refused. */
  lemma PagingBounds(dom: Domains, q: Input)
    requires Valid(dom, q)
    ensures q.limit.Num? ==> 1.0 <= q.limit.x <= 100.0
    ensures q.page.Num? ==> q.page.x >= 1.0
    ensures !q.limit.NaN? && !q.limit.Infinity? && !q.page.NaN? && !q.page.Infinity?
  {
  }

  /** The validators do not order the two cost bounds: min_cost=50 with max_cost=10
      passes them. */
  lemma CostBoundsNotOrdered(dom: Domains)
    ensures Valid(dom, Input(Undefined, Undefined, Undefined, Num(50.0), Num(10.0),
                             Undefined, Undefined, Undefined, Undefined))
  {
  }

  /** `category` is any string: unlike department and status it is not an enumeration. */
  lemma CategoryIsFreeText(dom: Domains, s: string)
    ensures Valid(dom, Input(Undefined, Undefined, Str(s), Undefined, Undefined,
                             Undefined, Undefined, Undefined, Undefined))
  {
  }
}
