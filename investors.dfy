/**
 * The investor library: the investor delete cascade with its fatal and
 * non-blocking steps, deleting one subscription, building the update record of an
 * investor, enriching an investor's subscriptions with their token allocations,
 * adding an investor to a project's cap table, and the defaults of new rows.
 */
module Investors {
  import opened Common
  import opened Store

  // ---------------------------------------------------------------------------
  // deleteInvestor

  /** The calls whose failure `deleteInvestor` only logs before carrying on. */
  const NonBlocking: set<Call> :=
    {Call(Select, Redemptions), Call(Delete, Approvers), Call(Delete, Redemptions), Call(Delete, GroupMembers)}

  /** Fatal steps two and three: when the investor has subscriptions, their allocations, then the subscriptions. */
  function SweepSubscriptions(s: Stage, i: Id, subs: set<Id>, faults: set<Call>): (r: Stage)
    requires !s.outcome.Skipped?
    ensures !r.outcome.Skipped?
  {
    if subs == {} then s
    else
      var s1 := Then(s, Call(Delete, Allocations), faults, DeleteAllocationsOf(s.db, subs));
      Then(s1, Call(Delete, Subscriptions), faults, DeleteSubscriptionsOfInvestor(s1.db, i))
  }

  /** The subscription read, then the subscription steps; a failed read aborts with nothing deleted. */
  function AfterSubscriptions(db: Db, i: Id, faults: set<Call>): (r: Stage)
    ensures !r.outcome.Skipped?
  {
    if Call(Select, Subscriptions) in faults then Stage(db, Aborted(Fault(Call(Select, Subscriptions))))
    else SweepSubscriptions(Stage(db, Completed), i, SubscriptionsOfInvestor(db, i), faults)
  }

  /** The redemption steps, all non-blocking: a failed read skips them, a failed delete is passed over. */
  function SweepRedemptions(s: Stage, i: Id, faults: set<Call>): (r: Stage)
    requires !s.outcome.Skipped?
    ensures r.outcome == s.outcome
    ensures s.outcome.Aborted? ==> r == s
    ensures r.db == s.db.(redemptions := r.db.redemptions, approvers := r.db.approvers)
  {
    if s.outcome.Aborted? || Call(Select, Redemptions) in faults then s
    else
      var reds := RedemptionsOfInvestor(s.db, i);
      if reds == {} then s
      else
        var s1 := Try(s, Call(Delete, Approvers), faults, DeleteApproversOf(s.db, reds));
        Try(s1, Call(Delete, Redemptions), faults, DeleteRedemptionsOfInvestor(s1.db, i))
  }

  /**
   * The store after `deleteInvestor(i)` and how it ends: subscriptions (fatal),
   * redemptions (non-blocking), cap-table links (fatal), group links
   * (non-blocking), then the investor (fatal).
   */
  function DeleteInvestorSpec(db: Db, i: Id, faults: set<Call>): Stage {
    var s1 := AfterSubscriptions(db, i, faults);
    var s2 := SweepRedemptions(s1, i, faults);
    var s3 := Then(s2, Call(Delete, CapTableInvestors), faults, DeleteMembershipsOfInvestor(s2.db, i));
    var s4 := Try(s3, Call(Delete, GroupMembers), faults, DeleteGroupLinksOfInvestor(s3.db, i));
    Then(s4, Call(Delete, Investors), faults, DeleteInvestorRow(s4.db, i))
  }

  /** The fatal calls `deleteInvestor` issues on store `db`. */
  function FatalCalls(db: Db, i: Id): seq<Call> {
    [Call(Select, Subscriptions)]
    + (if SubscriptionsOfInvestor(db, i) == {} then [] else [Call(Delete, Allocations), Call(Delete, Subscriptions)])
    + [Call(Delete, CapTableInvestors), Call(Delete, Investors)]
  }

  /** The store with the investor and everything that must go with it removed. */
  function InvestorCascaded(db: Db, i: Id): Db {
    var subs := SubscriptionsOfInvestor(db, i);
    var reds := RedemptionsOfInvestor(db, i);
    db.(investors := db.investors - {i},
        subscriptions := db.subscriptions - subs, allocations := db.allocations - AllocationsOf(db, subs),
        redemptions := db.redemptions - reds, approvers := db.approvers - ApproversOf(db, reds),
        capTableInvestors := db.capTableInvestors - MembershipsOfInvestor(db, i),
        groupMembers := db.groupMembers - GroupLinksOfInvestor(db, i))
  }

  lemma FatalCallsListed(db: Db, i: Id, faults: set<Call>)
    ensures (forall c :: c in FatalCalls(db, i) ==> c !in faults) <==>
      Call(Select, Subscriptions) !in faults && Call(Delete, CapTableInvestors) !in faults && Call(Delete, Investors) !in faults
      && (SubscriptionsOfInvestor(db, i) != {} ==> Call(Delete, Allocations) !in faults && Call(Delete, Subscriptions) !in faults)
  {
    var calls := FatalCalls(db, i);
    var a := if SubscriptionsOfInvestor(db, i) == {} then [] else [Call(Delete, Allocations), Call(Delete, Subscriptions)];
    assert calls == [Call(Select, Subscriptions)] + a + [Call(Delete, CapTableInvestors), Call(Delete, Investors)];
    assert calls[0] == Call(Select, Subscriptions);
    assert calls[1 + |a|] == Call(Delete, CapTableInvestors) && calls[2 + |a|] == Call(Delete, Investors);
    if a != [] {
      assert calls[1] == a[0] && calls[2] == a[1];
    }
  }

  /**
   * The subscription steps use no non-blocking call; they complete exactly when
   * none of their fatal calls fails, and then remove exactly the investor's
   * subscriptions and the allocations of those subscriptions.
   */
  lemma AfterSubscriptionsEffect(db: Db, i: Id, faults: set<Call>)
    ensures AfterSubscriptions(db, i, faults) == AfterSubscriptions(db, i, faults - NonBlocking)
    ensures AfterSubscriptions(db, i, faults).outcome == Completed <==>
      Call(Select, Subscriptions) !in faults
      && (SubscriptionsOfInvestor(db, i) != {} ==> Call(Delete, Allocations) !in faults && Call(Delete, Subscriptions) !in faults)
    ensures var subs := SubscriptionsOfInvestor(db, i);
      AfterSubscriptions(db, i, faults).outcome == Completed ==>
        AfterSubscriptions(db, i, faults).db
          == db.(subscriptions := db.subscriptions - subs, allocations := db.allocations - AllocationsOf(db, subs))
  {
    var subs := SubscriptionsOfInvestor(db, i);
    if subs == {} {
      assert AllocationsOf(db, subs) == {};
    } else {
      assert SubscriptionsOfInvestor(DeleteAllocationsOf(db, subs), i) == subs;
    }
  }

  /** Without non-blocking faults the redemption steps remove the investor's redemptions and their approvers. */
  lemma SweepRedemptionsClears(db: Db, i: Id, faults: set<Call>)
    requires Call(Select, Redemptions) !in faults && Call(Delete, Approvers) !in faults && Call(Delete, Redemptions) !in faults
    ensures var reds := RedemptionsOfInvestor(db, i);
      SweepRedemptions(Stage(db, Completed), i, faults)
        == Stage(db.(redemptions := db.redemptions - reds, approvers := db.approvers - ApproversOf(db, reds)), Completed)
  {
    var reds := RedemptionsOfInvestor(db, i);
    if reds == {} {
      assert ApproversOf(db, reds) == {};
    } else {
      var db1 := DeleteApproversOf(db, reds);
      assert db1.redemptions == db.redemptions;
      assert RedemptionsOfInvestor(db1, i) == reds;
    }
  }

  /** After the subscription steps the outcome depends on two fatal calls only. */
  lemma DeleteInvestorOutcome(db: Db, i: Id, faults: set<Call>)
    ensures var s1 := AfterSubscriptions(db, i, faults);
      DeleteInvestorSpec(db, i, faults).outcome ==
        if s1.outcome.Aborted? then s1.outcome
        else if Call(Delete, CapTableInvestors) in faults then Aborted(Fault(Call(Delete, CapTableInvestors)))
        else if Call(Delete, Investors) in faults then Aborted(Fault(Call(Delete, Investors)))
        else Completed
  {
  }

  /**
   * `deleteInvestor` completes exactly when none of its fatal calls fails; the
   * non-blocking calls never decide how it ends.
   */
  lemma DeleteInvestorCompletes(db: Db, i: Id, faults: set<Call>)
    ensures DeleteInvestorSpec(db, i, faults).outcome == Completed <==> forall c :: c in FatalCalls(db, i) ==> c !in faults
    ensures DeleteInvestorSpec(db, i, faults).outcome == DeleteInvestorSpec(db, i, faults - NonBlocking).outcome
  {
    FatalCallsListed(db, i, faults);
    AfterSubscriptionsEffect(db, i, faults);
    DeleteInvestorOutcome(db, i, faults);
    DeleteInvestorOutcome(db, i, faults - NonBlocking);
  }

  /**
   * With no non-blocking fault, a completed `deleteInvestor` removes exactly the
   * investor, its subscriptions and their allocations, its redemptions and their
   * approvers, and its cap-table and group links.
   */
  lemma DeleteInvestorEffect(db: Db, i: Id, faults: set<Call>)
    requires faults !! NonBlocking
    requires DeleteInvestorSpec(db, i, faults).outcome == Completed
    ensures DeleteInvestorSpec(db, i, faults).db == InvestorCascaded(db, i)
  {
    DeleteInvestorOutcome(db, i, faults);
    AfterSubscriptionsEffect(db, i, faults);
    var db1 := AfterSubscriptions(db, i, faults).db;
    assert RedemptionsOfInvestor(db1, i) == RedemptionsOfInvestor(db, i);
    assert Call(Select, Redemptions) in NonBlocking && Call(Delete, Approvers) in NonBlocking && Call(Delete, Redemptions) in NonBlocking;
    SweepRedemptionsClears(db1, i, faults);
    var reds := RedemptionsOfInvestor(db, i);
    assert ApproversOf(db1, reds) == ApproversOf(db, reds);
    var db2 := SweepRedemptions(Stage(db1, Completed), i, faults).db;
    assert MembershipsOfInvestor(db2, i) == MembershipsOfInvestor(db, i);
    assert GroupLinksOfInvestor(db2, i) == GroupLinksOfInvestor(db, i);
    assert Call(Delete, GroupMembers) in NonBlocking;
  }

  /**
   * The store left by a complete cascade has no row pointing at the investor, its
   * subscriptions or its redemptions, except the subscription invoices and events,
   * which `deleteInvestor` never deletes.
   */
  lemma CascadedNoOrphans(db: Db, i: Id)
    requires Integrity(db)
    ensures var r := InvestorCascaded(db, i);
      i !in r.investors && SubscriptionsOfInvestor(r, i) == {} && RedemptionsOfInvestor(r, i) == {}
      && CapTablesLinked(r) && MembersLinked(r) && SubscriptionsLinked(r) && AllocationsLinked(r)
      && RedemptionsLinked(r) && ApproversLinked(r) && GroupLinksLinked(r)
  {
    var r := InvestorCascaded(db, i);
    var subs := SubscriptionsOfInvestor(db, i);
    var reds := RedemptionsOfInvestor(db, i);
    assert AllocationsLinked(r) by {
      forall k | k in r.allocations ensures r.allocations[k].subscriptionId in r.subscriptions {
        assert k !in AllocationsOf(db, subs);
      }
    }
    assert ApproversLinked(r) by {
      forall k | k in r.approvers ensures r.approvers[k].redemptionId in r.redemptions {
        assert k !in ApproversOf(db, reds);
      }
    }
  }

  /** Completed with no non-blocking fault: nothing orphaned but invoices and events. */
  lemma DeleteInvestorNoOrphans(db: Db, i: Id, faults: set<Call>)
    requires Integrity(db) && faults !! NonBlocking
    requires DeleteInvestorSpec(db, i, faults).outcome == Completed
    ensures var r := DeleteInvestorSpec(db, i, faults).db;
      i !in r.investors && SubscriptionsOfInvestor(r, i) == {}
      && CapTablesLinked(r) && MembersLinked(r) && SubscriptionsLinked(r) && AllocationsLinked(r)
      && RedemptionsLinked(r) && ApproversLinked(r) && GroupLinksLinked(r)
  {
    DeleteInvestorEffect(db, i, faults);
    CascadedNoOrphans(db, i);
  }

  /** A store with one investor (1) and one redemption request (2) of it. */
  function RedeemingDb(): Db {
    EmptyDb.(investors := map[1 := Investor("i", "i@x", "individual", None, "not_started", None, None, None)],
             redemptions := map[2 := Redemption(1)])
  }

  lemma RedeemingDbIntact()
    ensures Integrity(RedeemingDb())
  {
    var db := RedeemingDb();
    assert RedemptionsLinked(db);
  }

  /** A failed redemption delete is passed over: the investor is still deleted and its redemption is left orphaned. */
  lemma NonBlockingFaultOrphansRedemption()
    ensures var s := DeleteInvestorSpec(RedeemingDb(), 1, {Call(Delete, Redemptions)});
      Integrity(RedeemingDb()) && s.outcome == Completed && 1 !in s.db.investors && !RedemptionsLinked(s.db)
  {
    var db := RedeemingDb();
    RedeemingDbIntact();
    var faults := {Call(Delete, Redemptions)};
    assert SubscriptionsOfInvestor(db, 1) == {};
    var s1 := AfterSubscriptions(db, 1, faults);
    assert s1 == Stage(db, Completed);
    assert RedemptionsOfInvestor(db, 1) == {2};
    assert ApproversOf(db, {2}) == {};
    var s2 := SweepRedemptions(s1, 1, faults);
    assert s2.db == db;
    assert MembershipsOfInvestor(db, 1) == {} && GroupLinksOfInvestor(db, 1) == {};
    DeleteInvestorOutcome(db, 1, faults);
    var s := DeleteInvestorSpec(db, 1, faults);
    assert s.db == db.(investors := map[]);
    assert 2 in s.db.redemptions;
  }

  /** A store with a project (1), an investor (2), a subscription (3) of it and an invoice (4) of the subscription. */
  function InvoicedDb(): Db {
    EmptyDb.(projects := map[1 := Project("p", None, "draft", "equity", NoTerms)],
             investors := map[2 := Investor("i", "i@x", "individual", None, "not_started", None, None, None)],
             subscriptions := map[3 := Subscription(2, 1, false, false, false, None)],
             invoices := map[4 := SubscriptionRecord(3)])
  }

  lemma InvoicedDbIntact()
    ensures Integrity(InvoicedDb())
  {
    var db := InvoicedDb();
    assert SubscriptionsLinked(db) && InvoicesLinked(db);
  }

  /** Invoices of the investor's subscriptions survive a completed `deleteInvestor`, pointing at nothing. */
  lemma DeleteInvestorOrphansInvoices()
    ensures var s := DeleteInvestorSpec(InvoicedDb(), 2, {});
      Integrity(InvoicedDb()) && s.outcome == Completed && !InvoicesLinked(s.db)
  {
    var db := InvoicedDb();
    InvoicedDbIntact();
    assert SubscriptionsOfInvestor(db, 2) == {3};
    AfterSubscriptionsEffect(db, 2, {});
    DeleteInvestorOutcome(db, 2, {});
    DeleteInvestorEffect(db, 2, {});
    var r := InvestorCascaded(db, 2);
    assert 3 !in r.subscriptions && 4 in r.invoices;
  }

  /**
   * A failed cap-table-link delete comes after the subscriptions and allocations
   * are gone: they stay deleted while the investor row remains.
   */
  lemma MembershipFailureKeepsEarlierDeletes(db: Db, i: Id, faults: set<Call>)
    requires Call(Delete, CapTableInvestors) in faults
    requires Call(Select, Subscriptions) !in faults && Call(Delete, Allocations) !in faults && Call(Delete, Subscriptions) !in faults
    ensures var s := DeleteInvestorSpec(db, i, faults);
      s.outcome == Aborted(Fault(Call(Delete, CapTableInvestors)))
      && s.db.investors == db.investors && SubscriptionsOfInvestor(s.db, i) == {}
      && s.db.allocations == db.allocations - AllocationsOf(db, SubscriptionsOfInvestor(db, i))
  {
    AfterSubscriptionsEffect(db, i, faults);
    DeleteInvestorOutcome(db, i, faults);
    var s1 := AfterSubscriptions(db, i, faults);
    var s2 := SweepRedemptions(s1, i, faults);
    assert s2.db.subscriptions == s1.db.subscriptions && s2.db.investors == db.investors;
  }

  /** The subscription steps of `deleteInvestor` against the store. */
  method RemoveSubscriptions(db: Backend, i: Id, faults: set<Call>) returns (outcome: Outcome)
    modifies db
    ensures Stage(db.State(), outcome) == AfterSubscriptions(old(db.State()), i, faults)
  {
    var subs := db.SelectSubscriptionsOfInvestor(i, Call(Select, Subscriptions) in faults);
    if subs.Err? { return Aborted(subs.error); }
    if subs.value != {} {
      var ok := db.DeleteAllocationsIn(subs.value, Call(Delete, Allocations) in faults);
      if !ok { return Aborted(Fault(Call(Delete, Allocations))); }
      ok := db.DeleteSubscriptionsWhereInvestor(i, Call(Delete, Subscriptions) in faults);
      if !ok { return Aborted(Fault(Call(Delete, Subscriptions))); }
    }
    outcome := Completed;
  }

  /** The redemption steps of `deleteInvestor` against the store; their failures are only logged. */
  method RemoveRedemptions(db: Backend, i: Id, faults: set<Call>)
    modifies db
    ensures db.State() == SweepRedemptions(Stage(old(db.State()), Completed), i, faults).db
  {
    var reds := db.SelectRedemptionsOfInvestor(i, Call(Select, Redemptions) in faults);
    if reds.Ok? && reds.value != {} {
      var ok := db.DeleteApproversIn(reds.value, Call(Delete, Approvers) in faults);
      ok := db.DeleteRedemptionsWhereInvestor(i, Call(Delete, Redemptions) in faults);
    }
  }

  /** `deleteInvestor(i)` against the store. */
  method DeleteInvestor(db: Backend, i: Id, faults: set<Call>) returns (outcome: Outcome)
    modifies db
    ensures Stage(db.State(), outcome) == DeleteInvestorSpec(old(db.State()), i, faults)
  {
    outcome := RemoveSubscriptions(db, i, faults);
    if outcome.Aborted? { return; }
    RemoveRedemptions(db, i, faults);
    var ok := db.DeleteCapTableInvestorsWhereInvestor(i, Call(Delete, CapTableInvestors) in faults);
    if !ok { return Aborted(Fault(Call(Delete, CapTableInvestors))); }
    ok := db.DeleteGroupLinksWhereInvestor(i, Call(Delete, GroupMembers) in faults);
    ok := db.DeleteInvestor(i, Call(Delete, Investors) in faults);
    if !ok { return Aborted(Fault(Call(Delete, Investors))); }
    outcome := Completed;
  }

  // ---------------------------------------------------------------------------
  // deleteSubscription

  /** `deleteSubscription(s)`: its allocations, then the subscription; either error aborts. */
  function DeleteSubscriptionSpec(db: Db, s: Id, faults: set<Call>): Stage {
    var s1 := Then(Stage(db, Completed), Call(Delete, Allocations), faults, DeleteAllocationsOf(db, {s}));
    Then(s1, Call(Delete, Subscriptions), faults, DeleteSubscriptionRow(s1.db, s))
  }

  /**
   * A failed allocation delete leaves the store as it was, the subscription
   * included; a completed delete leaves neither the subscription nor an allocation
   * of it, and keeps allocations linked.
   */
  lemma DeleteSubscriptionEffect(db: Db, s: Id, faults: set<Call>)
    ensures Call(Delete, Allocations) in faults ==>
      DeleteSubscriptionSpec(db, s, faults) == Stage(db, Aborted(Fault(Call(Delete, Allocations))))
    ensures DeleteSubscriptionSpec(db, s, faults).outcome == Completed <==>
      Call(Delete, Allocations) !in faults && Call(Delete, Subscriptions) !in faults
    ensures var r := DeleteSubscriptionSpec(db, s, faults);
      r.outcome == Completed ==>
        s !in r.db.subscriptions && AllocationsOf(r.db, {s}) == {}
        && (AllocationsLinked(db) ==> AllocationsLinked(r.db))
  {
    var r := DeleteSubscriptionSpec(db, s, faults);
    if r.outcome == Completed {
      assert AllocationsLinked(db) ==> AllocationsLinked(r.db) by {
        if AllocationsLinked(db) {
          forall k | k in r.db.allocations ensures r.db.allocations[k].subscriptionId in r.db.subscriptions {
            assert k !in AllocationsOf(db, {s});
          }
        }
      }
    }
  }

  /** `deleteSubscription(s)` against the store. */
  method DeleteSubscription(db: Backend, s: Id, faults: set<Call>) returns (outcome: Outcome)
    modifies db
    ensures Stage(db.State(), outcome) == DeleteSubscriptionSpec(old(db.State()), s, faults)
  {
    var ok := db.DeleteAllocationsIn({s}, Call(Delete, Allocations) in faults);
    if !ok { return Aborted(Fault(Call(Delete, Allocations))); }
    ok := db.DeleteSubscription(s, Call(Delete, Subscriptions) in faults);
    if !ok { return Aborted(Fault(Call(Delete, Subscriptions))); }
    outcome := Completed;
  }

  // ---------------------------------------------------------------------------
  // updateInvestor

  /**
   * The fields of an investor update: `None` (or `Undefined`) when the property is
   * undefined. The nullable fields may also be `null`; the expiry date is given as
   * the ISO text it converts to.
   */
  datatype InvestorUpdates = InvestorUpdates(
    name: Option<string>, email: Option<string>, kind: Option<string>, company: Cell,
    kycStatus: Option<string>, kycExpiryDate: Cell, walletAddress: Cell)

  /** The update field a column comes from, `Undefined` when it was not given. */
  function FieldFor(u: InvestorUpdates, column: Column): Cell {
    match column
    case NameColumn => Given(u.name)
    case EmailColumn => Given(u.email)
    case TypeColumn => Given(u.kind)
    case CompanyColumn => u.company
    case KycStatusColumn => Given(u.kycStatus)
    case KycExpiryColumn => u.kycExpiryDate
    case WalletColumn => u.walletAddress
    case UpdatedAtColumn => Undefined
  }

  function Given(s: Option<string>): Cell {
    if s.Some? then Text(s.value) else Undefined
  }

  /** What is sent for a given field: `date?.toISOString()` turns a null expiry date into undefined. */
  function Sent(column: Column, value: Cell): Cell {
    if column == KycExpiryColumn && value == Null then Undefined else value
  }

  /** `if (field !== undefined) record[column] = value`. */
  function Include(rec: map<Column, Cell>, column: Column, field: Cell): map<Column, Cell> {
    if field == Undefined then rec else rec[column := Sent(column, field)]
  }

  /** The record `updateInvestor` sends: `updated_at`, then each field in the order the source tests them. */
  function UpdateRecord(u: InvestorUpdates, now: string): map<Column, Cell> {
    var r := map[UpdatedAtColumn := Text(now)];
    var r := Include(r, NameColumn, Given(u.name));
    var r := Include(r, EmailColumn, Given(u.email));
    var r := Include(r, TypeColumn, Given(u.kind));
    var r := Include(r, CompanyColumn, u.company);
    var r := Include(r, KycStatusColumn, Given(u.kycStatus));
    var r := Include(r, KycExpiryColumn, u.kycExpiryDate);
    Include(r, WalletColumn, u.walletAddress)
  }

  /**
   * The record always carries `updated_at`, and carries each other column exactly
   * when its field is not undefined, with the field's value (a null expiry date
   * sent as undefined).
   */
  lemma UpdateRecordColumns(u: InvestorUpdates, now: string)
    ensures var rec := UpdateRecord(u, now);
      UpdatedAtColumn in rec && rec[UpdatedAtColumn] == Text(now)
      && forall c :: c != UpdatedAtColumn ==>
           (c in rec <==> FieldFor(u, c) != Undefined) && (c in rec ==> rec[c] == Sent(c, FieldFor(u, c)))
  {
    var rec := UpdateRecord(u, now);
    forall c | c != UpdatedAtColumn
      ensures (c in rec <==> FieldFor(u, c) != Undefined) && (c in rec ==> rec[c] == Sent(c, FieldFor(u, c)))
    {
      match c
      case NameColumn =>
      case EmailColumn =>
      case TypeColumn =>
      case CompanyColumn =>
      case KycStatusColumn =>
      case KycExpiryColumn =>
      case WalletColumn =>
    }
  }

  /** `updateInvestor`'s record, built one conditional assignment at a time. */
  method BuildUpdateRecord(u: InvestorUpdates, now: string) returns (rec: map<Column, Cell>)
    ensures rec == UpdateRecord(u, now)
  {
    rec := map[UpdatedAtColumn := Text(now)];
    if u.name.Some? { rec := rec[NameColumn := Text(u.name.value)]; }
    assert rec == Include(map[UpdatedAtColumn := Text(now)], NameColumn, Given(u.name));
    ghost var r1 := rec;
    if u.email.Some? { rec := rec[EmailColumn := Text(u.email.value)]; }
    assert rec == Include(r1, EmailColumn, Given(u.email));
    ghost var r2 := rec;
    if u.kind.Some? { rec := rec[TypeColumn := Text(u.kind.value)]; }
    assert rec == Include(r2, TypeColumn, Given(u.kind));
    ghost var r3 := rec;
    if u.company != Undefined { rec := rec[CompanyColumn := u.company]; }
    assert rec == Include(r3, CompanyColumn, u.company);
    ghost var r4 := rec;
    if u.kycStatus.Some? { rec := rec[KycStatusColumn := Text(u.kycStatus.value)]; }
    assert rec == Include(r4, KycStatusColumn, Given(u.kycStatus));
    ghost var r5 := rec;
    if u.kycExpiryDate != Undefined {
      rec := rec[KycExpiryColumn := if u.kycExpiryDate.Text? then u.kycExpiryDate else Undefined];
    }
    assert rec == Include(r5, KycExpiryColumn, u.kycExpiryDate);
    ghost var r6 := rec;
    if u.walletAddress != Undefined { rec := rec[WalletColumn := u.walletAddress]; }
    assert rec == Include(r6, WalletColumn, u.walletAddress);
  }

  /**
   * The row an update leaves: each given field replaces its column, `null` clears
   * company and wallet, and everything not given is kept. A `null` expiry date
   * does not clear the stored one: it is sent as undefined.
   */
  lemma UpdateRecordApplied(row: Investor, u: InvestorUpdates, now: string)
    ensures var r := PatchInvestor(row, UpdateRecord(u, now));
      r.name == u.name.GetOr(row.name) && r.email == u.email.GetOr(row.email)
      && r.kind == u.kind.GetOr(row.kind) && r.kycStatus == u.kycStatus.GetOr(row.kycStatus)
      && r.company == (match u.company case Text(t) => Some(t) case Null => None case Undefined => row.company)
      && r.wallet == (match u.walletAddress case Text(t) => Some(t) case Null => None case Undefined => row.wallet)
      && r.kycExpiry == (if u.kycExpiryDate.Text? then Some(u.kycExpiryDate.text) else row.kycExpiry)
      && r.subscriptionAmount == row.subscriptionAmount
  {
    UpdateRecordColumns(u, now);
  }

  /** An empty update changes no column. */
  lemma EmptyUpdateKeepsRow(row: Investor, now: string)
    ensures PatchInvestor(row, UpdateRecord(InvestorUpdates(None, None, None, Undefined, None, Undefined, Undefined), now)) == row
  {
    UpdateRecordApplied(row, InvestorUpdates(None, None, None, Undefined, None, Undefined, Undefined), now);
  }

  /** `updateInvestor(i, u)`: the record, then `update … where id = i` with `single()`; errors are thrown. */
  method UpdateInvestor(db: Backend, i: Id, u: InvestorUpdates, now: string, fail: bool) returns (r: Result<Investor>)
    modifies db`investors
    ensures r == if fail then Err(Fault(Call(Update, Investors)))
                 else if i !in old(db.investors) then Err(NoSingleRow(Investors))
                 else Ok(PatchInvestor(old(db.investors)[i], UpdateRecord(u, now)))
    ensures db.State() == if r.Err? then old(db.State()) else old(db.State()).(investors := old(db.investors)[i := r.value])
  {
    var rec := BuildUpdateRecord(u, now);
    r := db.UpdateInvestor(i, rec, fail);
  }

  // ---------------------------------------------------------------------------
  // getInvestorSubscriptions

  /** A subscription as read, with the name of the project it joins to (if any). */
  datatype SubscriptionRow = SubscriptionRow(id: Id, projectName: Option<string>)
  datatype AllocationRow = AllocationRow(id: Id, subscriptionId: Id, tokenType: string, tokenAmount: int)

  /** A subscription with its project name and token allocations attached. */
  datatype Enriched = Enriched(subscription: SubscriptionRow, projectName: string, tokenType: Option<string>,
                               tokenAmount: int, tokenAllocations: seq<AllocationRow>)

  /** The allocations of subscription `sid`, in the order they were read. */
  function AllocationsFor(all: seq<AllocationRow>, sid: Id): (r: seq<AllocationRow>)
    ensures |r| <= |all|
    ensures forall a :: a in r <==> a in all && a.subscriptionId == sid
    ensures r != [] ==> exists j :: 0 <= j < |all| && all[j] == r[0]
                                    && forall j' :: 0 <= j' < j ==> all[j'].subscriptionId != sid
    ensures r == [] <==> forall j :: 0 <= j < |all| ==> all[j].subscriptionId != sid
  {
    if all == [] then []
    else
      var rest := AllocationsFor(all[1..], sid);
      if all[0].subscriptionId == sid then
        [all[0]] + rest
      else
        assert rest != [] ==> (exists j :: 0 <= j < |all[1..]| && all[1..][j] == rest[0]
                                 && forall j' :: 0 <= j' < j ==> all[1..][j'].subscriptionId != sid);
        rest
  }

  /** One subscription enriched from the allocations read. */
  function EnrichOne(sub: SubscriptionRow, allocs: seq<AllocationRow>): Enriched {
    var mine := AllocationsFor(allocs, sub.id);
    Enriched(sub, OrElse(sub.projectName, "Unknown Project"),
             if |mine| > 0 then Some(mine[0].tokenType) else None,
             if |mine| > 0 then mine[0].tokenAmount else 0,
             mine)
  }

  /**
   * The enrichment: one entry per subscription, in order; its allocations are those
   * with its id; token type and amount come from the first of them, else null and 0;
   * a missing project name reads "Unknown Project".
   */
  lemma EnrichmentShape(subs: seq<SubscriptionRow>, allocs: seq<AllocationRow>)
    ensures var r := seq(|subs|, k requires 0 <= k < |subs| => EnrichOne(subs[k], allocs));
      |r| == |subs|
      && forall k :: 0 <= k < |subs| ==>
        r[k].subscription == subs[k]
        && (forall a :: a in r[k].tokenAllocations <==> a in allocs && a.subscriptionId == subs[k].id)
        && r[k].projectName == (if Truthy(subs[k].projectName) then subs[k].projectName.value else "Unknown Project")
        && ((forall j :: 0 <= j < |allocs| ==> allocs[j].subscriptionId != subs[k].id) ==>
              r[k].tokenType == None && r[k].tokenAmount == 0)
        && (r[k].tokenAllocations != [] ==>
              exists j :: 0 <= j < |allocs| && allocs[j].subscriptionId == subs[k].id
                && r[k].tokenType == Some(allocs[j].tokenType) && r[k].tokenAmount == allocs[j].tokenAmount
                && forall j' :: 0 <= j' < j ==> allocs[j'].subscriptionId != subs[k].id)
  {
  }

  /**
   * `getInvestorSubscriptions`: a failed subscription read is thrown; no
   * subscriptions returns them as read (empty) without reading allocations; a
   * failed allocation read is thrown; otherwise the enriched list.
   */
  function InvestorSubscriptions(subs: Result<seq<SubscriptionRow>>, allocs: Result<seq<AllocationRow>>): (r: Result<seq<Enriched>>)
    ensures subs.Err? ==> r == Err(subs.error)
    ensures subs == Ok([]) ==> r == Ok([])
    ensures subs.Ok? && subs.value != [] && allocs.Err? ==> r == Err(allocs.error)
    ensures subs.Ok? && allocs.Ok? ==> r.Ok? && |r.value| == |subs.value|
                                       && forall k :: 0 <= k < |r.value| ==> r.value[k] == EnrichOne(subs.value[k], allocs.value)
  {
    if subs.Err? then Err(subs.error)
    else if subs.value == [] then Ok([])
    else if allocs.Err? then Err(allocs.error)
    else Ok(seq(|subs.value|, k requires 0 <= k < |subs.value| => EnrichOne(subs.value[k], allocs.value)))
  }

  // ---------------------------------------------------------------------------
  // addInvestorToProject

  /** The caller's subscription fields that the row takes. */
  datatype SubscriptionForm = SubscriptionForm(confirmed: Option<bool>, isAllocated: Option<bool>,
                                               distributed: Option<bool>, notes: Option<string>)

  /** The subscription row: flags default to false (`|| false`) and empty notes to null. */
  function NewSubscriptionRow(i: Id, p: Id, f: SubscriptionForm): (r: Subscription)
    ensures r.investorId == i && r.projectId == p
    ensures r.isConfirmed <==> f.confirmed == Some(true)
    ensures r.isAllocated <==> f.isAllocated == Some(true)
    ensures r.isDistributed <==> f.distributed == Some(true)
    ensures r.notes == (if Truthy(f.notes) then f.notes else None)
  {
    Subscription(i, p, f.confirmed.GetOr(false), f.isAllocated.GetOr(false), f.distributed.GetOr(false),
                 if Truthy(f.notes) then f.notes else None)
  }

  /**
   * The store after `addInvestorToProject(p, i, f)` and how it ends: the single cap
   * table of the project, the subscription insert, then the cap-table link insert.
   */
  ghost function AddInvestorSpec(db: Db, p: Id, i: Id, f: SubscriptionForm, subId: Id, linkId: Id, faults: set<Call>): Stage {
    if Call(Select, CapTables) in faults then Stage(db, Aborted(Fault(Call(Select, CapTables))))
    else match Single(CapTablesOfProject(db, p), CapTables)
      case Err(e) => Stage(db, Aborted(e))
      case Ok(ct) =>
        var e1 := InsertResult(Call(Insert, Subscriptions) in faults, subId in db.subscriptions, Subscriptions);
        if e1.Some? then Stage(db, Aborted(e1.value))
        else
          var db1 := db.(subscriptions := db.subscriptions[subId := NewSubscriptionRow(i, p, f)]);
          var e2 := InsertResult(Call(Insert, CapTableInvestors) in faults, linkId in db.capTableInvestors, CapTableInvestors);
          if e2.Some? then Stage(db1, Aborted(e2.value))
          else Stage(db1.(capTableInvestors := db.capTableInvestors[linkId := CapTableInvestor(ct, i)]), Completed)
  }

  /** A failed cap-table lookup, or a project without exactly one cap table, inserts nothing. */
  lemma AddInvestorLookupFailure(db: Db, p: Id, i: Id, f: SubscriptionForm, subId: Id, linkId: Id, faults: set<Call>)
    requires Call(Select, CapTables) in faults || |CapTablesOfProject(db, p)| != 1
    ensures AddInvestorSpec(db, p, i, f, subId, linkId, faults).db == db
    ensures AddInvestorSpec(db, p, i, f, subId, linkId, faults).outcome.Aborted?
  {
  }

  /** A failed cap-table link insert leaves the new subscription in place: nothing compensates. */
  lemma AddInvestorKeepsSubscriptionOnLinkFailure(db: Db, p: Id, i: Id, f: SubscriptionForm, subId: Id, linkId: Id, faults: set<Call>)
    requires Call(Select, CapTables) !in faults && Call(Insert, Subscriptions) !in faults && Call(Insert, CapTableInvestors) in faults
    requires |CapTablesOfProject(db, p)| == 1 && subId !in db.subscriptions
    ensures var s := AddInvestorSpec(db, p, i, f, subId, linkId, faults);
      s.outcome == Aborted(Fault(Call(Insert, CapTableInvestors)))
      && s.db == db.(subscriptions := db.subscriptions[subId := NewSubscriptionRow(i, p, f)])
  {
    var x :| x in CapTablesOfProject(db, p);
    assert CapTablesOfProject(db, p) == {x} by {
      assert |CapTablesOfProject(db, p) - {x}| == 0;
    }
  }

  /**
   * `addInvestorToProject` completes exactly when the project has one cap table,
   * both new keys are free and none of its three calls fails.
   */
  lemma AddInvestorCompletes(db: Db, p: Id, i: Id, f: SubscriptionForm, subId: Id, linkId: Id, faults: set<Call>)
    ensures AddInvestorSpec(db, p, i, f, subId, linkId, faults).outcome == Completed <==>
      |CapTablesOfProject(db, p)| == 1 && subId !in db.subscriptions && linkId !in db.capTableInvestors
      && Call(Select, CapTables) !in faults && Call(Insert, Subscriptions) !in faults && Call(Insert, CapTableInvestors) !in faults
  {
  }

  /**
   * On completion the project's one cap table gains the investor and the project
   * the subscription; adding an existing investor keeps the store free of orphans.
   */
  lemma AddInvestorEffect(db: Db, p: Id, i: Id, f: SubscriptionForm, subId: Id, linkId: Id, faults: set<Call>)
    requires Integrity(db) && i in db.investors
    requires AddInvestorSpec(db, p, i, f, subId, linkId, faults).outcome == Completed
    ensures var s := AddInvestorSpec(db, p, i, f, subId, linkId, faults);
      Integrity(s.db) && s.db.subscriptions[subId] == NewSubscriptionRow(i, p, f)
      && SubscriptionsOfProject(s.db, p) == SubscriptionsOfProject(db, p) + {subId}
      && exists ct :: CapTablesOfProject(db, p) == {ct} && s.db.capTableInvestors[linkId] == CapTableInvestor(ct, i)
  {
    var ct := Single(CapTablesOfProject(db, p), CapTables).value;
    assert ct in db.capTables && db.capTables[ct].projectId == p;
  }

  /** `addInvestorToProject(p, i, f)` against the store; the new keys are parameters. */
  method AddInvestorToProject(db: Backend, p: Id, i: Id, f: SubscriptionForm, subId: Id, linkId: Id, faults: set<Call>)
    returns (outcome: Outcome)
    modifies db
    ensures Stage(db.State(), outcome) == AddInvestorSpec(old(db.State()), p, i, f, subId, linkId, faults)
  {
    var capTable := db.SingleCapTableOfProject(p, Call(Select, CapTables) in faults);
    if capTable.Err? { return Aborted(capTable.error); }
    var e := db.InsertSubscription(subId, NewSubscriptionRow(i, p, f), Call(Insert, Subscriptions) in faults);
    if e.Some? { return Aborted(e.value); }
    e := db.InsertCapTableInvestor(linkId, CapTableInvestor(capTable.value, i), Call(Insert, CapTableInvestors) in faults);
    if e.Some? { return Aborted(e.value); }
    outcome := Completed;
  }

  // ---------------------------------------------------------------------------
  // addTokenAllocation and createInvestor

  datatype AllocationForm = AllocationForm(tokenAmount: int, tokenType: string, distributed: Option<bool>)

  /** The allocation row: `distributed` defaults to false. */
  function NewAllocationRow(sid: Id, f: AllocationForm): (r: TokenAllocation)
    ensures r.subscriptionId == sid && r.tokenAmount == f.tokenAmount && r.tokenType == f.tokenType
    ensures r.distributed <==> f.distributed == Some(true)
  {
    TokenAllocation(sid, f.tokenType, f.tokenAmount, f.distributed.GetOr(false))
  }

  /** `addTokenAllocation(sid, f)`: one insert; its error is thrown. */
  method AddTokenAllocation(db: Backend, sid: Id, f: AllocationForm, newId: Id, fail: bool) returns (r: Result<TokenAllocation>)
    modifies db`allocations
    ensures r == if fail then Err(Fault(Call(Insert, Allocations)))
                 else if newId in old(db.allocations) then Err(KeyTaken(Allocations)) else Ok(NewAllocationRow(sid, f))
    ensures db.State() == if r.Err? then old(db.State()) else old(db.State()).(allocations := old(db.allocations)[newId := r.value])
  {
    var row := NewAllocationRow(sid, f);
    var e := db.InsertAllocation(newId, row, fail);
    if e.Some? { return Err(e.value); }
    r := Ok(row);
  }

  /** The caller's investor fields; the expiry date is given as its ISO text. */
  datatype InvestorForm = InvestorForm(name: string, email: string, kind: string, company: Option<string>,
                                       kycStatus: Option<string>, kycExpiryDate: Option<string>, walletAddress: Option<string>)

  /** The investor row: empty optional fields become null and the KYC status defaults to "not_started". */
  function NewInvestorRow(f: InvestorForm): (r: Investor)
    ensures r.name == f.name && r.email == f.email && r.kind == f.kind
    ensures r.kycStatus == (if Truthy(f.kycStatus) then f.kycStatus.value else "not_started")
    ensures r.company == (if Truthy(f.company) then f.company else None)
    ensures r.kycExpiry == (if Truthy(f.kycExpiryDate) then f.kycExpiryDate else None)
    ensures r.wallet == (if Truthy(f.walletAddress) then f.walletAddress else None)
    ensures r.subscriptionAmount == None
  {
    Investor(f.name, f.email, f.kind, if Truthy(f.company) then f.company else None,
             OrElse(f.kycStatus, "not_started"), if Truthy(f.kycExpiryDate) then f.kycExpiryDate else None,
             if Truthy(f.walletAddress) then f.walletAddress else None, None)
  }

  /** `createInvestor(f)`: one insert; its error is thrown. */
  method CreateInvestor(db: Backend, f: InvestorForm, newId: Id, fail: bool) returns (r: Result<Investor>)
    modifies db`investors
    ensures r == if fail then Err(Fault(Call(Insert, Investors)))
                 else if newId in old(db.investors) then Err(KeyTaken(Investors)) else Ok(NewInvestorRow(f))
    ensures db.State() == if r.Err? then old(db.State()) else old(db.State()).(investors := old(db.investors)[newId := r.value])
  {
    var row := NewInvestorRow(f);
    var e := db.InsertInvestor(newId, row, fail);
    if e.Some? { return Err(e.value); }
    r := Ok(row);
  }
}
