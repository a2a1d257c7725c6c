/**
 * The project library: its own project delete cascade (different from the one
 * of the projects screen), project statistics, reading projects through the
 * response helpers, and the row `createProject` inserts.
 */
module Projects {
  import opened Common
  import opened Store
  import opened SupabaseHelpers

  // ---------------------------------------------------------------------------
  // deleteProject

  /**
   * First step of `deleteProject`: when the project has cap tables, the members of all
   * of them, then the cap tables themselves.
   */
  ghost function SweepCapTables(s: Stage, p: Id, cts: set<Id>, faults: set<Call>): (r: Stage)
    requires !s.outcome.Skipped?
    ensures !r.outcome.Skipped?
  {
    if cts == {} then s
    else
      var s1 := Then(s, Call(Delete, CapTableInvestors), faults, DeleteMembersOfCapTables(s.db, cts));
      Then(s1, Call(Delete, CapTables), faults, DeleteCapTablesOfProject(s1.db, p))
  }

  /** The cap-table read, then the cap-table steps; a failed read aborts with nothing deleted. */
  ghost function AfterCapTables(db: Db, p: Id, faults: set<Call>): (r: Stage)
    ensures !r.outcome.Skipped?
  {
    if Call(Select, CapTables) in faults then Stage(db, Aborted(Fault(Call(Select, CapTables))))
    else SweepCapTables(Stage(db, Completed), p, CapTablesOfProject(db, p), faults)
  }

  /**
   * Second step: read the project's subscriptions (after the cap tables are gone) and,
   * when there are some, delete their invoices, their events and the subscriptions.
   */
  ghost function SweepSubscriptions(s: Stage, p: Id, faults: set<Call>): (r: Stage)
    requires !s.outcome.Skipped?
    ensures !r.outcome.Skipped?
    ensures s.outcome.Aborted? ==> r == s
  {
    if s.outcome.Aborted? then s
    else if Call(Select, Subscriptions) in faults then Stage(s.db, Aborted(Fault(Call(Select, Subscriptions))))
    else
      var subs := SubscriptionsOfProject(s.db, p);
      if subs == {} then s
      else
        var s1 := Then(s, Call(Delete, Invoices), faults, DeleteInvoicesOf(s.db, subs));
        var s2 := Then(s1, Call(Delete, Events), faults, DeleteEventsOf(s1.db, subs));
        Then(s2, Call(Delete, Subscriptions), faults, DeleteSubscriptionsOfProject(s2.db, p))
  }

  /** The store after `deleteProject(p)` and how it ends; any error aborts the remaining steps. */
  ghost function DeleteProjectSpec(db: Db, p: Id, faults: set<Call>): Stage {
    var s := SweepSubscriptions(AfterCapTables(db, p, faults), p, faults);
    Then(s, Call(Delete, Projects), faults, DeleteProjectRow(s.db, p))
  }

  /** The calls `deleteProject` issues on store `db` when none fails, in order. */
  ghost function DeleteProjectCalls(db: Db, p: Id): seq<Call> {
    [Call(Select, CapTables)]
    + (if CapTablesOfProject(db, p) == {} then [] else [Call(Delete, CapTableInvestors), Call(Delete, CapTables)])
    + [Call(Select, Subscriptions)]
    + (if SubscriptionsOfProject(db, p) == {} then [] else [Call(Delete, Invoices), Call(Delete, Events), Call(Delete, Subscriptions)])
    + [Call(Delete, Projects)]
  }

  /** The store with the project, its cap tables and their members, its subscriptions and their invoices and events removed. */
  ghost function Cascaded(db: Db, p: Id): Db {
    var cts := CapTablesOfProject(db, p);
    var subs := SubscriptionsOfProject(db, p);
    db.(projects := db.projects - {p},
        capTables := db.capTables - cts, capTableInvestors := db.capTableInvestors - MembersOfCapTables(db, cts),
        subscriptions := db.subscriptions - subs,
        invoices := db.invoices - RecordsOf(db.invoices, subs), events := db.events - RecordsOf(db.events, subs))
  }

  /** None of the calls faults exactly when each step that runs is fault-free. */
  lemma DeleteProjectCallsFree(db: Db, p: Id, faults: set<Call>)
    ensures (forall c :: c in DeleteProjectCalls(db, p) ==> c !in faults) <==>
      Call(Select, CapTables) !in faults && Call(Select, Subscriptions) !in faults && Call(Delete, Projects) !in faults
      && (CapTablesOfProject(db, p) != {} ==> Call(Delete, CapTableInvestors) !in faults && Call(Delete, CapTables) !in faults)
      && (SubscriptionsOfProject(db, p) != {} ==>
            Call(Delete, Invoices) !in faults && Call(Delete, Events) !in faults && Call(Delete, Subscriptions) !in faults)
  {
    var calls := DeleteProjectCalls(db, p);
    var a := if CapTablesOfProject(db, p) == {} then [] else [Call(Delete, CapTableInvestors), Call(Delete, CapTables)];
    var b := if SubscriptionsOfProject(db, p) == {} then [] else [Call(Delete, Invoices), Call(Delete, Events), Call(Delete, Subscriptions)];
    assert calls == [Call(Select, CapTables)] + a + [Call(Select, Subscriptions)] + b + [Call(Delete, Projects)];
    assert calls[0] == Call(Select, CapTables);
    assert calls[1 + |a|] == Call(Select, Subscriptions);
    assert calls[|calls| - 1] == Call(Delete, Projects);
    if a != [] {
      assert calls[1] == a[0] && calls[2] == a[1];
    }
    if b != [] {
      assert calls[2 + |a|] == b[0] && calls[3 + |a|] == b[1] && calls[4 + |a|] == b[2];
    }
  }

  /**
   * The cap-table steps complete exactly when the read and, if there are cap tables,
   * both deletes succeed; then the project's cap tables and their members are gone.
   */
  lemma AfterCapTablesEffect(db: Db, p: Id, faults: set<Call>)
    ensures AfterCapTables(db, p, faults).outcome == Completed <==>
      Call(Select, CapTables) !in faults
      && (CapTablesOfProject(db, p) != {} ==> Call(Delete, CapTableInvestors) !in faults && Call(Delete, CapTables) !in faults)
    ensures var cts := CapTablesOfProject(db, p);
      AfterCapTables(db, p, faults).outcome == Completed ==>
        AfterCapTables(db, p, faults).db
          == db.(capTables := db.capTables - cts, capTableInvestors := db.capTableInvestors - MembersOfCapTables(db, cts))
  {
    var cts := CapTablesOfProject(db, p);
    if cts == {} {
      assert MembersOfCapTables(db, cts) == {};
    } else {
      assert CapTablesOfProject(DeleteMembersOfCapTables(db, cts), p) == cts;
    }
  }

  /**
   * From a completed stage, the subscription steps complete exactly when the read and,
   * if there are subscriptions, the three deletes succeed; then the subscriptions
   * read and their invoices and events are gone.
   */
  lemma SweepSubscriptionsEffect(db: Db, p: Id, faults: set<Call>)
    ensures SweepSubscriptions(Stage(db, Completed), p, faults).outcome == Completed <==>
      Call(Select, Subscriptions) !in faults
      && (SubscriptionsOfProject(db, p) != {} ==>
            Call(Delete, Invoices) !in faults && Call(Delete, Events) !in faults && Call(Delete, Subscriptions) !in faults)
    ensures var subs := SubscriptionsOfProject(db, p);
      SweepSubscriptions(Stage(db, Completed), p, faults).outcome == Completed ==>
        SweepSubscriptions(Stage(db, Completed), p, faults).db
          == db.(subscriptions := db.subscriptions - subs, invoices := db.invoices - RecordsOf(db.invoices, subs),
                 events := db.events - RecordsOf(db.events, subs))
  {
    var subs := SubscriptionsOfProject(db, p);
    if subs == {} {
      assert RecordsOf(db.invoices, subs) == {} && RecordsOf(db.events, subs) == {};
    } else {
      var db2 := DeleteEventsOf(DeleteInvoicesOf(db, subs), subs);
      assert SubscriptionsOfProject(db2, p) == subs;
    }
  }

  /** `deleteProject` completes exactly when none of the calls it issues faults, and then it leaves `Cascaded`. */
  lemma DeleteProjectCompletes(db: Db, p: Id, faults: set<Call>)
    ensures DeleteProjectSpec(db, p, faults).outcome == Completed <==>
      forall c :: c in DeleteProjectCalls(db, p) ==> c !in faults
    ensures DeleteProjectSpec(db, p, faults).outcome == Completed ==> DeleteProjectSpec(db, p, faults).db == Cascaded(db, p)
  {
    DeleteProjectCallsFree(db, p, faults);
    AfterCapTablesEffect(db, p, faults);
    var s1 := AfterCapTables(db, p, faults);
    if s1.outcome == Completed {
      var subs := SubscriptionsOfProject(db, p);
      assert SubscriptionsOfProject(s1.db, p) == subs;
      SweepSubscriptionsEffect(s1.db, p, faults);
      assert RecordsOf(s1.db.invoices, subs) == RecordsOf(db.invoices, subs);
    }
  }

  /**
   * A completed `deleteProject` leaves no cap table, member, subscription, invoice or
   * event of the project behind, but never touches token allocations: those of the
   * deleted subscriptions remain. Investors, redemptions and group links are untouched.
   */
  lemma DeleteProjectNoOrphans(db: Db, p: Id, faults: set<Call>)
    requires Integrity(db)
    requires DeleteProjectSpec(db, p, faults).outcome == Completed
    ensures var r := DeleteProjectSpec(db, p, faults).db;
      p !in r.projects && CapTablesOfProject(r, p) == {} && SubscriptionsOfProject(r, p) == {}
      && CapTablesLinked(r) && MembersLinked(r) && SubscriptionsLinked(r) && InvoicesLinked(r) && EventsLinked(r)
      && RedemptionsLinked(r) && ApproversLinked(r) && GroupLinksLinked(r)
      && r.allocations == db.allocations && r.investors == db.investors && r.redemptions == db.redemptions
      && r.approvers == db.approvers && r.groupMembers == db.groupMembers
  {
    DeleteProjectCompletes(db, p, faults);
    CascadedIsLinked(db, p);
  }

  lemma CascadedIsLinked(db: Db, p: Id)
    requires Integrity(db)
    ensures var r := Cascaded(db, p);
      CapTablesLinked(r) && MembersLinked(r) && SubscriptionsLinked(r) && InvoicesLinked(r) && EventsLinked(r)
      && RedemptionsLinked(r) && ApproversLinked(r) && GroupLinksLinked(r)
  {
    var r := Cascaded(db, p);
    var cts := CapTablesOfProject(db, p);
    var subs := SubscriptionsOfProject(db, p);
    assert MembersLinked(r) by {
      forall k | k in r.capTableInvestors ensures r.capTableInvestors[k].capTableId in r.capTables {
        assert k !in MembersOfCapTables(db, cts);
      }
    }
    assert InvoicesLinked(r) by {
      forall k | k in r.invoices ensures r.invoices[k].subscriptionId in r.subscriptions {
        assert k !in RecordsOf(db.invoices, subs);
      }
    }
    assert EventsLinked(r) by {
      forall k | k in r.events ensures r.events[k].subscriptionId in r.subscriptions {
        assert k !in RecordsOf(db.events, subs);
      }
    }
  }

  /** Whatever fails, `deleteProject` never changes token allocations, investors, redemptions, approvers or group links. */
  lemma DeleteProjectFrame(db: Db, p: Id, faults: set<Call>)
    ensures var r := DeleteProjectSpec(db, p, faults).db;
      r.allocations == db.allocations && r.investors == db.investors && r.redemptions == db.redemptions
      && r.approvers == db.approvers && r.groupMembers == db.groupMembers
  {
    var s1 := AfterCapTables(db, p, faults);
    if Call(Select, CapTables) !in faults {
      SweepCapTablesFrame(Stage(db, Completed), p, CapTablesOfProject(db, p), faults);
    }
    var s2 := SweepSubscriptions(s1, p, faults);
    SweepSubscriptionsFrame(s1, p, faults);
    assert Untouched(s1.db, s2.db);
    var s3 := Then(s2, Call(Delete, Projects), faults, DeleteProjectRow(s2.db, p));
    assert Untouched(s2.db, s3.db);
  }

  lemma SweepSubscriptionsFrame(s: Stage, p: Id, faults: set<Call>)
    requires !s.outcome.Skipped?
    ensures var r := SweepSubscriptions(s, p, faults).db;
      r.allocations == s.db.allocations && r.investors == s.db.investors && r.redemptions == s.db.redemptions
      && r.approvers == s.db.approvers && r.groupMembers == s.db.groupMembers
  {
    if s.outcome.Completed? && Call(Select, Subscriptions) !in faults {
      var subs := SubscriptionsOfProject(s.db, p);
      if subs != {} {
        var s1 := Then(s, Call(Delete, Invoices), faults, DeleteInvoicesOf(s.db, subs));
        assert Untouched(s.db, s1.db);
        var s2 := Then(s1, Call(Delete, Events), faults, DeleteEventsOf(s1.db, subs));
        assert Untouched(s1.db, s2.db);
        var s3 := Then(s2, Call(Delete, Subscriptions), faults, DeleteSubscriptionsOfProject(s2.db, p));
        assert Untouched(s2.db, s3.db);
      }
    }
  }

  /** The tables `deleteProject` never writes are the same in both stores. */
  ghost predicate Untouched(a: Db, b: Db) {
    b.allocations == a.allocations && b.investors == a.investors && b.redemptions == a.redemptions
    && b.approvers == a.approvers && b.groupMembers == a.groupMembers
  }

  lemma SweepCapTablesFrame(s: Stage, p: Id, cts: set<Id>, faults: set<Call>)
    requires !s.outcome.Skipped?
    ensures Untouched(s.db, SweepCapTables(s, p, cts, faults).db)
  {
    if cts != {} {
      var s1 := Then(s, Call(Delete, CapTableInvestors), faults, DeleteMembersOfCapTables(s.db, cts));
      assert Untouched(s.db, s1.db);
    }
  }

  /** The allocations of a deleted subscription survive a completed `deleteProject`, pointing at nothing. */
  lemma DeleteProjectOrphansAllocations()
    ensures var db := EmptyDb.(projects := map[1 := Project("p", None, "draft", "equity", NoTerms)],
                               investors := map[2 := Investor("i", "i@x", "individual", None, "not_started", None, None, None)],
                               subscriptions := map[3 := Subscription(2, 1, false, false, false, None)],
                               allocations := map[4 := TokenAllocation(3, "ERC-20", 100, false)]);
      Integrity(db) && DeleteProjectSpec(db, 1, {}).outcome == Completed
      && !AllocationsLinked(DeleteProjectSpec(db, 1, {}).db)
  {
    var db := EmptyDb.(projects := map[1 := Project("p", None, "draft", "equity", NoTerms)],
                       investors := map[2 := Investor("i", "i@x", "individual", None, "not_started", None, None, None)],
                       subscriptions := map[3 := Subscription(2, 1, false, false, false, None)],
                       allocations := map[4 := TokenAllocation(3, "ERC-20", 100, false)]);
    assert CapTablesOfProject(db, 1) == {};
    assert SubscriptionsOfProject(db, 1) == {3};
    DeleteProjectCompletes(db, 1, {});
    var r := Cascaded(db, 1);
    assert 3 !in r.subscriptions && 4 in r.allocations;
  }

  /**
   * A failed subscription read comes after the cap tables were deleted: they stay
   * deleted, and nothing else has changed.
   */
  lemma SubscriptionReadFailureKeepsCapTableDeletes(db: Db, p: Id, faults: set<Call>)
    requires Call(Select, Subscriptions) in faults
    requires Call(Select, CapTables) !in faults && Call(Delete, CapTableInvestors) !in faults && Call(Delete, CapTables) !in faults
    ensures var s := DeleteProjectSpec(db, p, faults);
      var cts := CapTablesOfProject(db, p);
      s == Stage(db.(capTables := db.capTables - cts, capTableInvestors := db.capTableInvestors - MembersOfCapTables(db, cts)),
                 Aborted(Fault(Call(Select, Subscriptions))))
  {
    AfterCapTablesEffect(db, p, faults);
  }

  /** The cap-table read and deletes of `deleteProject`, against the store. */
  method RemoveCapTables(db: Backend, p: Id, faults: set<Call>) returns (outcome: Outcome)
    modifies db
    ensures Stage(db.State(), outcome) == AfterCapTables(old(db.State()), p, faults)
  {
    var capTables := db.SelectCapTablesOfProject(p, Call(Select, CapTables) in faults);
    if capTables.Err? { return Aborted(capTables.error); }
    if capTables.value != {} {
      var ok := db.DeleteCapTableInvestorsIn(capTables.value, Call(Delete, CapTableInvestors) in faults);
      if !ok { return Aborted(Fault(Call(Delete, CapTableInvestors))); }
      ok := db.DeleteCapTablesWhereProject(p, Call(Delete, CapTables) in faults);
      if !ok { return Aborted(Fault(Call(Delete, CapTables))); }
    }
    outcome := Completed;
  }

  /** `deleteProject(p)` against the store. */
  method DeleteProject(db: Backend, p: Id, faults: set<Call>) returns (outcome: Outcome)
    modifies db
    ensures Stage(db.State(), outcome) == DeleteProjectSpec(old(db.State()), p, faults)
  {
    outcome := RemoveCapTables(db, p, faults);
    if outcome.Aborted? { return; }
    var ok: bool;
    var subs := db.SelectSubscriptionsOfProject(p, Call(Select, Subscriptions) in faults);
    if subs.Err? { return Aborted(subs.error); }
    if subs.value != {} {
      ok := db.DeleteInvoicesIn(subs.value, Call(Delete, Invoices) in faults);
      if !ok { return Aborted(Fault(Call(Delete, Invoices))); }
      ok := db.DeleteEventsIn(subs.value, Call(Delete, Events) in faults);
      if !ok { return Aborted(Fault(Call(Delete, Events))); }
      ok := db.DeleteSubscriptionsWhereProject(p, Call(Delete, Subscriptions) in faults);
      if !ok { return Aborted(Fault(Call(Delete, Subscriptions))); }
    }
    ok := db.DeleteProject(p, Call(Delete, Projects) in faults);
    if !ok { return Aborted(Fault(Call(Delete, Projects))); }
    outcome := Completed;
  }

  // ---------------------------------------------------------------------------
  // getProjectStatistics

  datatype ProjectStatistics = ProjectStatistics(investorCount: int, totalAllocation: int)

  /** The sum of the joined amounts, a missing one counting as 0. */
  ghost function TotalAllocation(amounts: map<Id, Option<int>>): int
    decreases |amounts|
  {
    if amounts == map[] then 0
    else
      var k :| k in amounts;
      amounts[k].GetOr(0) + TotalAllocation(amounts - {k})
  }

  /** The total does not depend on which row is taken first. */
  lemma {:induction false} TotalAllocationRemove(amounts: map<Id, Option<int>>, k: Id)
    requires k in amounts
    ensures TotalAllocation(amounts) == amounts[k].GetOr(0) + TotalAllocation(amounts - {k})
    decreases |amounts|
  {
    var j :| j in amounts && TotalAllocation(amounts) == amounts[j].GetOr(0) + TotalAllocation(amounts - {j});
    if j != k {
      TotalAllocationRemove(amounts - {j}, k);
      TotalAllocationRemove(amounts - {k}, j);
      assert amounts - {j} - {k} == amounts - {k} - {j};
    }
  }

  /** Adding a row adds its amount, or nothing when it has none. */
  lemma TotalAllocationAdd(amounts: map<Id, Option<int>>, k: Id, v: Option<int>)
    requires k !in amounts
    ensures TotalAllocation(amounts[k := v]) == TotalAllocation(amounts) + v.GetOr(0)
  {
    TotalAllocationRemove(amounts[k := v], k);
    assert amounts[k := v] - {k} == amounts;
  }

  /** No rows, no allocation; and rows whose investors have no amount add nothing. */
  lemma {:induction false} TotalAllocationOfMissing(amounts: map<Id, Option<int>>)
    requires forall k :: k in amounts ==> amounts[k] == None
    ensures TotalAllocation(amounts) == 0
    decreases |amounts|
  {
    if amounts != map[] {
      var k :| k in amounts;
      TotalAllocationRemove(amounts, k);
      TotalAllocationOfMissing(amounts - {k});
    }
  }

  /**
   * `getProjectStatistics(p)`: `single()` on the cap table; "no single row" yields
   * {0, 0}, any other error is rethrown; then the member count and the sum of the
   * members' joined subscription amounts.
   */
  ghost function ProjectStatisticsSpec(db: Db, p: Id, faults: set<Call>): Result<ProjectStatistics> {
    if Call(Select, CapTables) in faults then Err(Fault(Call(Select, CapTables)))
    else
      match Single(CapTablesOfProject(db, p), CapTables)
      case Err(_) => Ok(ProjectStatistics(0, 0))
      case Ok(ct) =>
        if Call(Count, CapTableInvestors) in faults then Err(Fault(Call(Count, CapTableInvestors)))
        else if Call(Select, CapTableInvestors) in faults then Err(Fault(Call(Select, CapTableInvestors)))
        else
          var members := MembersOfCapTables(db, {ct});
          Ok(ProjectStatistics(|members|, TotalAllocation(map k | k in members :: JoinedAmount(db, k))))
  }

  /** A project without a cap table has zero statistics, unless the lookup itself faults. */
  lemma StatisticsWithoutCapTable(db: Db, p: Id, faults: set<Call>)
    requires CapTablesOfProject(db, p) == {}
    ensures ProjectStatisticsSpec(db, p, faults) ==
      if Call(Select, CapTables) in faults then Err(Fault(Call(Select, CapTables))) else Ok(ProjectStatistics(0, 0))
  {
  }

  /** `getProjectStatistics(p)` against the store: the reduce over the joined rows is the loop. */
  method ProjectStatisticsOf(db: Backend, p: Id, faults: set<Call>) returns (r: Result<ProjectStatistics>)
    ensures r == ProjectStatisticsSpec(db.State(), p, faults)
  {
    var capTable := db.SingleCapTableOfProject(p, Call(Select, CapTables) in faults);
    if capTable.Err? {
      if capTable.error.NoSingleRow? { return Ok(ProjectStatistics(0, 0)); }
      return Err(capTable.error);
    }
    var count := db.CountCapTableInvestors(capTable.value, Call(Count, CapTableInvestors) in faults);
    if count.Err? { return Err(count.error); }
    var rows := db.SelectCapTableInvestorAmounts(capTable.value, Call(Select, CapTableInvestors) in faults);
    if rows.Err? { return Err(rows.error); }
    var total := 0;
    var remaining := rows.value;
    while remaining != map[]
      invariant remaining.Keys <= rows.value.Keys
      invariant forall k :: k in remaining ==> remaining[k] == rows.value[k]
      invariant total + TotalAllocation(remaining) == TotalAllocation(rows.value)
      decreases |remaining|
    {
      var k :| k in remaining;
      TotalAllocationRemove(remaining, k);
      total := total + remaining[k].GetOr(0);
      remaining := remaining - {k};
    }
    ghost var members := MembersOfCapTables(db.State(), {capTable.value});
    assert rows.value == map k | k in members :: JoinedAmount(db.State(), k);
    r := Ok(ProjectStatistics(count.value, total));
  }

  // ---------------------------------------------------------------------------
  // getProjects / getProject

  /** A call that either returns a value or throws with a message. */
  datatype Thrown<T> = Returned(value: T) | Raised(message: string)

  /** `getProjects`: the mapped rows, or a throw on a backend or mapping error. */
  function GetProjects<T, U>(data: Option<seq<T>>, error: Option<string>, mapper: T -> Mapped<U>): (r: Thrown<seq<U>>)
    ensures error.Some? ==> r == Raised(error.value)
    ensures error.None? ==> (r.Returned? <==> forall i :: 0 <= i < |data.GetOr([])| ==> mapper(data.GetOr([])[i]).Value?)
    ensures error.None? && r.Returned? ==>
      |r.value| == |data.GetOr([])| && forall i :: 0 <= i < |data.GetOr([])| ==> r.value[i] == mapper(data.GetOr([])[i]).value
    ensures error.None? && r.Raised? ==> exists i :: 0 <= i < |data.GetOr([])| && mapper(data.GetOr([])[i]) == Threw(r.message)
  {
    var h := HandleResponse(data, error, mapper);
    if h.error.Some? then Raised(h.error.value) else Returned(h.items)
  }

  /** `getProject`: the mapped row, or null on a backend or mapping error; it never throws. */
  function GetProject<T, U>(data: Option<T>, error: Option<string>, mapper: T -> Mapped<U>): (r: Option<U>)
    ensures error.Some? ==> r == None
    ensures error.None? && data.Some? && mapper(data.value).Value? ==> r == Some(mapper(data.value).value)
    ensures error.None? && data.Some? && mapper(data.value).Threw? ==> r == None
  {
    HandleSingleResponse(data, error, mapper).item
  }

  /** Where `getProjects` throws, `getProject` on the same failure returns null instead. */
  lemma ListThrowsSingleReturnsNull<T, U>(row: T, error: Option<string>, mapper: T -> Mapped<U>)
    requires error.Some? || mapper(row).Threw?
    ensures GetProjects(Some([row]), error, mapper).Raised?
    ensures GetProject(Some(row), error, mapper) == None
  {
    if error.None? {
      assert MapAll([row], mapper).Threw?;
    }
  }

  // ---------------------------------------------------------------------------
  // createProject

  /** The form fields `createProject` stores. */
  datatype ProjectData = ProjectData(name: string, description: Option<string>, status: string, projectType: string,
                                     terms: Terms)

  /**
   * The inserted row: an empty or missing description is stored as null; the token symbol,
   * target raise, authorized shares and share price are stored as given; the valuation,
   * funding round, legal entity, jurisdiction and tax id are stored as null unless truthy.
   */
  function CreatedRow(d: ProjectData): (r: Project)
    ensures r.name == d.name && r.status == d.status && r.projectType == d.projectType
    ensures r.description == (if Truthy(d.description) then d.description else None)
    ensures r.terms.tokenSymbol == d.terms.tokenSymbol && r.terms.targetRaise == d.terms.targetRaise
    ensures r.terms.authorizedShares == d.terms.authorizedShares && r.terms.sharePrice == d.terms.sharePrice
    ensures r.terms.companyValuation == OrNull(d.terms.companyValuation) && r.terms.fundingRound == OrNull(d.terms.fundingRound)
    ensures r.terms.legalEntity == OrNull(d.terms.legalEntity) && r.terms.jurisdiction == OrNull(d.terms.jurisdiction)
    ensures r.terms.taxId == OrNull(d.terms.taxId)
  {
    var t := d.terms;
    Project(d.name, if Truthy(d.description) then d.description else None, d.status, d.projectType,
            t.(companyValuation := OrNull(t.companyValuation), fundingRound := OrNull(t.fundingRound),
               legalEntity := OrNull(t.legalEntity), jurisdiction := OrNull(t.jurisdiction), taxId := OrNull(t.taxId)))
  }

  /** `createProject`: insert the row under a fresh id; an error is thrown. */
  method CreateProject(db: Backend, d: ProjectData, newId: Id, fail: bool) returns (r: Result<Project>)
    modifies db
    ensures r == if fail then Err(Fault(Call(Insert, Projects)))
                 else if newId in old(db.projects) then Err(KeyTaken(Projects)) else Ok(CreatedRow(d))
    ensures db.State() == if r.Err? then old(db.State()) else old(db.State()).(projects := old(db.projects)[newId := CreatedRow(d)])
  {
    var row := CreatedRow(d);
    var e := db.InsertProject(newId, row, fail);
    if e.Some? { return Err(e.value); }
    r := Ok(row);
  }
}
