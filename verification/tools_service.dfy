/** `ToolsService`: the tool store and the three operations on it, `countTools`,
    `getToolById` and `createTool`. Money is held in whole cents, dates in whole days,
    and the current date is a parameter. */
module ToolsService {
  import opened Wrappers
  import opened Values
  import opened UsageAggregate
  import CreateToolDto
  import Strings
  import Envelope
  import HttpExceptionFilter
  import PrismaExceptionFilter

  /** A row of the `tools` table. */
  datatype Tool = Tool(
    id: int,
    name: string,
    description: Option<string>,
    vendor: string,
    websiteUrl: Option<string>,
    categoryId: int,
    monthlyCostCents: int,
    ownerDepartment: string,
    status: string,
    activeUsersCount: int,
    createdAt: int,
    updatedAt: int)

  /** The object the service returns for a tool: the row with its category's name in
      place of the category id; `getToolById` adds the total cost and the usage metrics. */
  datatype ToolView = ToolView(
    id: int,
    name: string,
    description: Option<string>,
    vendor: string,
    websiteUrl: Option<string>,
    category: string,
    monthlyCostCents: int,
    ownerDepartment: string,
    status: string,
    activeUsersCount: int,
    totalMonthlyCostCents: Option<int>,
    createdAt: int,
    updatedAt: int,
    usageMetrics: Option<Usage>)

  /** What an operation returns, or the exception it throws. */
  datatype Outcome =
    | Ok(view: ToolView)
    | ValidationFailed(details: map<string, string>)
    | NotFound(message: string)

  const NameNotUnique: map<string, string> := map["name" := "Tool name must be unique"]
  const CategoryMissing: map<string, string> := map["category_id" := "Category does not exist"]
  /** The status every created tool gets. */
  const Active := "active"

  function NotFoundMessage(id: int): string
  {
    "Tool with ID " + Strings.IntToString(id) + " does not exist"
  }

  /** The not-found message names the id it was raised for: no two ids share one. */
  lemma NotFoundMessageNamesId(a: int, b: int)
    requires NotFoundMessage(a) == NotFoundMessage(b)
    ensures a == b
  {
    var ma, mb := NotFoundMessage(a), NotFoundMessage(b);
    assert ma[13..|ma| - 15] == Strings.IntToString(a);
    assert mb[13..|mb| - 15] == Strings.IntToString(b);
    Strings.IntToStringInjective(a, b);
  }

  /** `total_monthly_cost`: the monthly cost times the number of active users, exact in
      cents where the source rounds a float product to two decimals. */
  function TotalMonthlyCostCents(t: Tool): (c: int)
    ensures Amount(c) == Amount(t.monthlyCostCents) * t.activeUsersCount as real
    ensures t.monthlyCostCents >= 0 && t.activeUsersCount >= 0 ==> c >= 0
    ensures t.activeUsersCount == 0 ==> c == 0
  {
    t.monthlyCostCents * t.activeUsersCount
  }

  /** A tool costing 12.50 a month with 3 active users costs 37.50 in all. */
  lemma TotalCostExample(t: Tool)
    requires t.monthlyCostCents == 1250 && t.activeUsersCount == 3
    ensures TotalMonthlyCostCents(t) == 3750
  {
  }

  /** The projection `createTool` returns: no total cost, no usage metrics. */
  function CreatedView(t: Tool, category: string): ToolView
  {
    ToolView(t.id, t.name, t.description, t.vendor, t.websiteUrl, category, t.monthlyCostCents,
             t.ownerDepartment, t.status, t.activeUsersCount, None, t.createdAt, t.updatedAt, None)
  }

  /** The projection `getToolById` returns. */
  function DetailView(t: Tool, category: string, usage: Usage): ToolView
  {
    ToolView(t.id, t.name, t.description, t.vendor, t.websiteUrl, category, t.monthlyCostCents,
             t.ownerDepartment, t.status, t.activeUsersCount, Some(TotalMonthlyCostCents(t)),
             t.createdAt, t.updatedAt, Some(usage))
  }

  /** The view shows the row's own fields unchanged. */
  predicate Shows(v: ToolView, t: Tool)
  {
    && v.id == t.id && v.name == t.name && v.description == t.description
    && v.vendor == t.vendor && v.websiteUrl == t.websiteUrl
    && v.monthlyCostCents == t.monthlyCostCents && v.ownerDepartment == t.ownerDepartment
    && v.status == t.status && v.activeUsersCount == t.activeUsersCount
    && v.createdAt == t.createdAt && v.updatedAt == t.updatedAt
  }

  /** The row `tools.create` inserts: the body's fields, status "active", no users. */
  function NewTool(id: int, d: CreateToolDto.Dto, now: int): Tool
  {
    Tool(id, d.name, d.description, d.vendor, d.websiteUrl, d.categoryId, d.monthlyCostCents,
         d.ownerDepartment, Active, 0, now, now)
  }

  /** `tools.findUnique({ where: { id } })` */
  function Lookup(ts: seq<Tool>, id: int): (r: Option<Tool>)
    ensures r.None? <==> forall i :: 0 <= i < |ts| ==> ts[i].id != id
    ensures r.Some? ==> r.value in ts && r.value.id == id
  {
    if |ts| == 0 then None
    else if ts[0].id == id then Some(ts[0])
    else Lookup(ts[1..], id)
  }

  /** A row appended under a new id is what a lookup of that id finds. */
  lemma {:induction false} LookupAppended(ts: seq<Tool>, t: Tool)
    requires t.id !in IdSet(ts)
    ensures Lookup(ts + [t], t.id) == Some(t)
  {
    if |ts| > 0 {
      assert ts[0].id in IdSet(ts);
      assert (ts + [t])[1..] == ts[1..] + [t];
      assert IdSet(ts[1..]) <= IdSet(ts) by {
        forall x | x in IdSet(ts[1..]) ensures x in IdSet(ts) {
          var i :| 0 <= i < |ts[1..]| && ts[1..][i].id == x;
          assert ts[i + 1].id == x;
        }
      }
      LookupAppended(ts[1..], t);
    }
  }

  /** `tools.findFirst({ where: { name } })` finds a row. */
  predicate NameTaken(ts: seq<Tool>, name: string)
  {
    exists i | 0 <= i < |ts| :: ts[i].name == name
  }

  function IdSet(ts: seq<Tool>): set<int>
  {
    set i | 0 <= i < |ts| :: ts[i].id
  }

  lemma IdSetAppend(ts: seq<Tool>, t: Tool)
    ensures IdSet(ts + [t]) == IdSet(ts) + {t.id}
  {
    var all := ts + [t];
    forall x | x in IdSet(all) ensures x in IdSet(ts) + {t.id} {
      var i :| 0 <= i < |all| && all[i].id == x;
      if i < |ts| { assert ts[i] == all[i]; }
    }
    forall x | x in IdSet(ts) ensures x in IdSet(all) {
      var i :| 0 <= i < |ts| && ts[i].id == x;
      assert all[i] == ts[i];
    }
    assert all[|ts|] == t;
  }

  predicate DistinctIds(ts: seq<Tool>)
  {
    forall i, j :: 0 <= i < j < |ts| ==> ts[i].id != ts[j].id
  }

  /** With distinct ids there are as many ids as rows. */
  lemma {:induction false} DistinctIdsCount(ts: seq<Tool>)
    requires DistinctIds(ts)
    ensures |IdSet(ts)| == |ts|
  {
    if |ts| > 0 {
      var n := |ts| - 1;
      DistinctIdsCount(ts[..n]);
      assert IdSet(ts) == IdSet(ts[..n]) + {ts[n].id};
      assert ts[n].id !in IdSet(ts[..n]);
    }
  }

  /** The invariant of the store: unique ids below the next id to assign, unique
      names, every tool's category present, every log row referring to a tool, and
      every row within the domains the schema gives its columns. */
  predicate Consistent(domains: Domains, tools: seq<Tool>, categories: map<int, string>,
                       logs: seq<UsageLog>, nextId: int)
  {
    && Active in domains.statuses
    && DistinctIds(tools)
    && (forall i, j :: 0 <= i < j < |tools| ==> tools[i].name != tools[j].name)
    && (forall i :: 0 <= i < |tools| ==>
          && tools[i].id < nextId
          && tools[i].categoryId in categories
          && tools[i].monthlyCostCents >= 0
          && tools[i].activeUsersCount >= 0
          && tools[i].ownerDepartment in domains.departments
          && tools[i].status in domains.statuses)
    && (forall k :: 0 <= k < |logs| ==> logs[k].toolId in IdSet(tools))
  }

  /** Appending a row with the next id, an unused name, a known category and values in
      their domains keeps the store consistent. */
  lemma AppendKeepsConsistent(domains: Domains, tools: seq<Tool>, categories: map<int, string>,
                              logs: seq<UsageLog>, nextId: int, t: Tool)
    requires Consistent(domains, tools, categories, logs, nextId)
    requires t.id == nextId && !NameTaken(tools, t.name) && t.categoryId in categories
    requires t.monthlyCostCents >= 0 && t.activeUsersCount >= 0
    requires t.ownerDepartment in domains.departments && t.status in domains.statuses
    ensures Consistent(domains, tools + [t], categories, logs, nextId + 1)
    ensures IdSet(tools + [t]) == IdSet(tools) + {t.id} && t.id !in IdSet(tools)
  {
    IdSetAppend(tools, t);
    var all := tools + [t];
    forall i, j | 0 <= i < j < |all| ensures all[i].id != all[j].id && all[i].name != all[j].name {
      if j == |tools| {
        assert all[i] == tools[i];
      }
    }
  }

  /** A tool id no log row refers to has no usage. */
  lemma UnreferencedIdNoUsage(tools: seq<Tool>, logs: seq<UsageLog>, id: int, today: int)
    requires forall k :: 0 <= k < |logs| ==> logs[k].toolId in IdSet(tools)
    requires id !in IdSet(tools)
    ensures Last30Days(logs, id, today) == Usage(0, 0)
  {
    NoLogsNoUsage(logs, id, today);
  }

  /** What a successful create does to the store: the appended row has a fresh id that
      a lookup finds, the store stays consistent, and no log row refers to the new id. */
  lemma CreateSucceeds(domains: Domains, tools: seq<Tool>, categories: map<int, string>,
                       logs: seq<UsageLog>, nextId: int, d: CreateToolDto.Dto, now: int)
    requires Consistent(domains, tools, categories, logs, nextId)
    requires CreateToolDto.WellFormed(domains, d)
    requires !NameTaken(tools, d.name) && d.categoryId in categories
    ensures var t := NewTool(nextId, d, now);
            && Consistent(domains, tools + [t], categories, logs, nextId + 1)
            && nextId !in IdSet(tools)
            && |IdSet(tools)| == |tools| && |IdSet(tools + [t])| == |tools| + 1
            && Lookup(tools + [t], nextId) == Some(t)
            && forall today :: Last30Days(logs, nextId, today) == Usage(0, 0)
  {
    var t := NewTool(nextId, d, now);
    AppendKeepsConsistent(domains, tools, categories, logs, nextId, t);
    DistinctIdsCount(tools);
    DistinctIdsCount(tools + [t]);
    LookupAppended(tools, t);
    forall today ensures Last30Days(logs, nextId, today) == Usage(0, 0) {
      UnreferencedIdNoUsage(tools, logs, nextId, today);
    }
  }

  /** The record store: tools, the category names by id, and the usage logs. */
  class ToolStore {
    const domains: Domains
    var tools: seq<Tool>
    var categories: map<int, string>
    var usageLogs: seq<UsageLog>
    /** The id the store assigns to the next inserted tool. */
    var nextId: int

    ghost predicate Valid()
      reads this
    {
      Consistent(domains, tools, categories, usageLogs, nextId)
    }

    function Ids(): set<int>
      reads this
    {
      IdSet(tools)
    }

    constructor (domains: Domains, tools: seq<Tool>, categories: map<int, string>,
                 usageLogs: seq<UsageLog>, nextId: int)
      requires Consistent(domains, tools, categories, usageLogs, nextId)
      ensures Valid()
      ensures this.domains == domains && this.tools == tools && this.categories == categories
      ensures this.usageLogs == usageLogs && this.nextId == nextId
    {
      this.domains := domains;
      this.tools := tools;
      this.categories := categories;
      this.usageLogs := usageLogs;
      this.nextId := nextId;
    }

    /** `countTools`: the number of stored tools, one per distinct id. */
    function CountTools(): (n: nat)
      reads this
      requires Valid()
      ensures n == |Ids()|
    {
      DistinctIdsCount(tools);
      |tools|
    }

    /** `getToolById`: NotFound for an unknown id; otherwise the tool with its category
        name, its total monthly cost and its usage over the 30 days before `today`. */
    function GetToolById(id: int, today: int): (r: Outcome)
      reads this
      requires Valid()
      ensures !r.ValidationFailed?
      ensures r.NotFound? <==> id !in Ids()
      ensures r.NotFound? ==> r.message == NotFoundMessage(id)
      ensures r.Ok? ==> exists i :: 0 <= i < |tools| && tools[i].id == id && Shows(r.view, tools[i])
                                    && r.view.category == categories[tools[i].categoryId]
      ensures r.Ok? ==> r.view.totalMonthlyCostCents == Some(r.view.monthlyCostCents * r.view.activeUsersCount)
      ensures r.Ok? ==> r.view.usageMetrics == Some(Last30Days(usageLogs, id, today))
    {
      match Lookup(tools, id)
      case None => NotFound(NotFoundMessage(id))
      case Some(t) =>
        Ok(DetailView(t, categories[t.categoryId], Last30Days(usageLogs, id, today)))
    }

    /** `createTool`: the name must be unused (checked first), then the category must
        exist; on success one row is appended with a fresh id, status "active" and no
        active users, and its projection is returned. */
    method CreateTool(input: CreateToolDto.Input, now: int) returns (r: Outcome)
      requires Valid()
      requires CreateToolDto.Valid(domains, input)
      modifies this
      ensures Valid()
      ensures categories == old(categories) && usageLogs == old(usageLogs)
      ensures var d := CreateToolDto.Decode(domains, input);
              && (NameTaken(old(tools), d.name) ==> r == ValidationFailed(NameNotUnique))
              && (!NameTaken(old(tools), d.name) && d.categoryId !in old(categories) ==>
                    r == ValidationFailed(CategoryMissing))
              && (r.Ok? <==> !NameTaken(old(tools), d.name) && d.categoryId in old(categories))
              && (r.Ok? ==> && old(nextId) !in old(Ids())
                            && tools == old(tools) + [NewTool(old(nextId), d, now)]
                            && r.view == CreatedView(NewTool(old(nextId), d, now), categories[d.categoryId]))
      ensures r.ValidationFailed? ==> tools == old(tools) && nextId == old(nextId)
      ensures r.Ok? ==> nextId == old(nextId) + 1
      ensures !r.NotFound?
      ensures r.Ok? ==> && r.view.status == Active && r.view.activeUsersCount == 0
                        && r.view.usageMetrics.None? && r.view.totalMonthlyCostCents.None?
                        && CountTools() == old(CountTools()) + 1
      ensures r.Ok? ==> && Lookup(tools, r.view.id) == Some(tools[|tools| - 1])
                        && forall today :: Last30Days(usageLogs, r.view.id, today) == Usage(0, 0)
      ensures r.Ok? ==> forall today :: GetToolById(r.view.id, today)
                          == Ok(DetailView(tools[|tools| - 1], r.view.category, Usage(0, 0)))
    {
      var d := CreateToolDto.Decode(domains, input);
      if NameTaken(tools, d.name) {
        return ValidationFailed(NameNotUnique);
      }
      if d.categoryId !in categories {
        return ValidationFailed(CategoryMissing);
      }
      var tool := NewTool(nextId, d, now);
      CreateSucceeds(domains, tools, categories, usageLogs, nextId, d, now);
      tools := tools + [tool];
      nextId := nextId + 1;
      r := Ok(CreatedView(tool, categories[d.categoryId]));
    }
  }

  /** The service's two validation failures are `BadRequestException(body)`, whose
      response is the body object itself; its not-found failure is
      `NotFoundException(message)`, whose response is `{ message, error: "Not Found" }`. */
  function Thrown(o: Outcome): (e: HttpExceptionFilter.Exception)
    requires !o.Ok?
    ensures e.HttpError? && e.status == (if o.ValidationFailed? then Envelope.BadRequest else Envelope.NotFound)
  {
    match o
    case ValidationFailed(details) =>
      HttpExceptionFilter.HttpError(Envelope.BadRequest,
        HttpExceptionFilter.ObjectData(Envelope.ValidationBody(details)), "Bad Request Exception")
    case NotFound(message) =>
      HttpExceptionFilter.HttpError(Envelope.NotFound,
        HttpExceptionFilter.ObjectData(Envelope.Body(Some("Not Found"), None, Some(Envelope.Text(message)), None)),
        message)
  }

  /** A service failure reaches the client as written: field errors as a 400
      `{ error: "Validation failed", details }`, a missing tool as a 404
      `{ error: "Tool not found", message }`. */
  lemma FailuresReachClient(o: Outcome, url: string)
    requires !o.Ok?
    ensures var r := HttpExceptionFilter.Catch(Thrown(o), url);
            && !r.logged
            && (o.ValidationFailed? ==> r.status == Envelope.BadRequest && r.body == Envelope.ValidationBody(o.details))
            && (o.NotFound? ==> r.status == Envelope.NotFound
                                && r.body == Envelope.ToolNotFoundBody(Envelope.Text(o.message)))
  {
  }

  /** Asking for an unknown id always yields the 404 "Tool not found" envelope naming it. */
  lemma MissingIdReply(store: ToolStore, id: int, today: int, url: string)
    requires store.Valid() && id !in store.Ids()
    ensures HttpExceptionFilter.Catch(Thrown(store.GetToolById(id, today)), url)
         == Envelope.Reply(Envelope.NotFound, Envelope.ToolNotFoundBody(Envelope.Text(NotFoundMessage(id))), false)
  {
  }

  /** A duplicate name caught by the store's unique constraint (P2002) gets the same body
      as one caught by the service's own check; only the status differs, 409 against 400. */
  lemma LateDuplicateLooksLikeEarly(detail: string, url: string)
    ensures var late := PrismaExceptionFilter.Catch(PrismaExceptionFilter.KnownRequest(PrismaExceptionFilter.UniqueViolation, detail));
            var early := HttpExceptionFilter.Catch(Thrown(ValidationFailed(NameNotUnique)), url);
            late.body == early.body && late.status == Envelope.Conflict && early.status == Envelope.BadRequest
  {
  }

  /** Creating two tools with the same name: when the first call succeeds, the second
      fails on the name, and the store holds one more tool than before. */
  method CreateTwice(store: ToolStore, input: CreateToolDto.Input, now1: int, now2: int)
    returns (first: Outcome, second: Outcome)
    requires store.Valid() && CreateToolDto.Valid(store.domains, input)
    modifies store
    ensures store.Valid()
    ensures first.Ok? ==> second == ValidationFailed(NameNotUnique) && store.CountTools() == old(store.CountTools()) + 1
  {
    first := store.CreateTool(input, now1);
    ghost var afterFirst := store.tools;
    if first.Ok? {
      var d := CreateToolDto.Decode(store.domains, input);
      assert afterFirst[|afterFirst| - 1].name == d.name;
    }
    second := store.CreateTool(input, now2);
  }
}
