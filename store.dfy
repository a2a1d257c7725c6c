/**
 * The remote relational store as the cap-table screens and libraries see it:
 * one table per entity, each row keyed by its primary key and carrying only
 * the columns the core reads or writes (foreign keys, names, flags).
 *
 * Every remote call of the core is a method of `Backend` that takes a `fail`
 * flag standing for a backend error (network, permission, constraint): a
 * failed call changes nothing and reports `Fault(call)`.
 */
module Store {
  import opened Common

  /** A value of one of the optional project columns as the form hands it over: text or a number. */
  datatype Scalar = Str(text: string) | Num(number: real)

  /** JavaScript truthiness of an optional scalar: present, and neither "" nor 0. */
  predicate ScalarTruthy(v: Option<Scalar>) {
    v.Some? && match v.value
      case Str(t) => t != ""
      case Num(x) => x != 0.0
  }

  /** `v || null`: the value when it is truthy, null otherwise. */
  function OrNull(v: Option<Scalar>): (r: Option<Scalar>)
    ensures ScalarTruthy(v) ==> r == v
    ensures !ScalarTruthy(v) ==> r == None
    ensures ScalarTruthy(r) || r == None
  {
    if ScalarTruthy(v) then v else None
  }

  /** The optional token and company columns of a project row; None is null or omitted. */
  datatype Terms = Terms(tokenSymbol: Option<Scalar>, targetRaise: Option<Scalar>, authorizedShares: Option<Scalar>,
                         sharePrice: Option<Scalar>, companyValuation: Option<Scalar>, fundingRound: Option<Scalar>,
                         legalEntity: Option<Scalar>, jurisdiction: Option<Scalar>, taxId: Option<Scalar>)

  const NoTerms := Terms(None, None, None, None, None, None, None, None, None)

  datatype Project = Project(name: string, description: Option<string>, status: string, projectType: string, terms: Terms)
  datatype CapTable = CapTable(projectId: Id, name: string)
  datatype CapTableInvestor = CapTableInvestor(capTableId: Id, investorId: Id)
  datatype Investor = Investor(name: string, email: string, kind: string, company: Option<string>,
                               kycStatus: string, kycExpiry: Option<string>, wallet: Option<string>,
                               subscriptionAmount: Option<int>)
  datatype Subscription = Subscription(investorId: Id, projectId: Id, isConfirmed: bool, isAllocated: bool,
                                       isDistributed: bool, notes: Option<string>)
  datatype TokenAllocation = TokenAllocation(subscriptionId: Id, tokenType: string, tokenAmount: int, distributed: bool)
  /** A row of `subscription_invoices` or `subscription_events`: only its subscription matters here. */
  datatype SubscriptionRecord = SubscriptionRecord(subscriptionId: Id)
  datatype Redemption = Redemption(investorId: Id)
  datatype Approver = Approver(redemptionId: Id)
  datatype GroupMember = GroupMember(groupId: Id, investorId: Id)

  datatype Db = Db(
    projects: map<Id, Project>,
    capTables: map<Id, CapTable>,
    capTableInvestors: map<Id, CapTableInvestor>,
    investors: map<Id, Investor>,
    subscriptions: map<Id, Subscription>,
    allocations: map<Id, TokenAllocation>,
    invoices: map<Id, SubscriptionRecord>,
    events: map<Id, SubscriptionRecord>,
    redemptions: map<Id, Redemption>,
    approvers: map<Id, Approver>,
    groupMembers: map<Id, GroupMember>)

  datatype Table = Projects | CapTables | CapTableInvestors | Investors | Subscriptions | Allocations
                 | Invoices | Events | Redemptions | Approvers | GroupMembers
  /** `Count` is a `select` that asks only for the exact row count. */
  datatype Verb = Select | Count | Insert | Update | Delete
  /** A remote call: a verb on a table. Within one handler no call is issued twice. */
  datatype Call = Call(verb: Verb, table: Table)

  datatype Error =
    | Fault(call: Call)           // the backend reported an error
    | MultipleRows(table: Table)  // `maybeSingle()` matched more than one row
    | NoSingleRow(table: Table)   // `single()` matched no row or several rows
    | DuplicateName(name: string) // a project with this name already exists
    | KeyTaken(table: Table)      // an insert reused an existing primary key

  datatype Result<T> = Ok(value: T) | Err(error: Error)

  /** How a multi-step handler ended: every step ran, the first fatal error, or nothing to act on. */
  datatype Outcome = Completed | Aborted(error: Error) | Skipped

  // ---------------------------------------------------------------------------
  // Queries: the ids of the rows a filter selects.

  function CapTablesOfProject(db: Db, p: Id): (r: set<Id>)
    ensures forall k :: k in r <==> k in db.capTables && db.capTables[k].projectId == p
  {
    set k | k in db.capTables && db.capTables[k].projectId == p
  }

  function SubscriptionsOfProject(db: Db, p: Id): (r: set<Id>)
    ensures forall k :: k in r <==> k in db.subscriptions && db.subscriptions[k].projectId == p
  {
    set k | k in db.subscriptions && db.subscriptions[k].projectId == p
  }

  function SubscriptionsOfInvestor(db: Db, i: Id): (r: set<Id>)
    ensures forall k :: k in r <==> k in db.subscriptions && db.subscriptions[k].investorId == i
  {
    set k | k in db.subscriptions && db.subscriptions[k].investorId == i
  }

  function RedemptionsOfInvestor(db: Db, i: Id): (r: set<Id>)
    ensures forall k :: k in r <==> k in db.redemptions && db.redemptions[k].investorId == i
  {
    set k | k in db.redemptions && db.redemptions[k].investorId == i
  }

  /** Projects called `name`, leaving out the project `except` when one is given. */
  function ProjectsNamed(db: Db, name: string, except: Option<Id>): (r: set<Id>)
    ensures forall k :: k in r <==> k in db.projects && db.projects[k].name == name && except != Some(k)
  {
    set k | k in db.projects && db.projects[k].name == name && except != Some(k)
  }

  function MembersOfCapTables(db: Db, cts: set<Id>): (r: set<Id>)
    ensures forall k :: k in r <==> k in db.capTableInvestors && db.capTableInvestors[k].capTableId in cts
  {
    set k | k in db.capTableInvestors && db.capTableInvestors[k].capTableId in cts
  }

  function MembershipsOfInvestor(db: Db, i: Id): (r: set<Id>)
    ensures forall k :: k in r <==> k in db.capTableInvestors && db.capTableInvestors[k].investorId == i
  {
    set k | k in db.capTableInvestors && db.capTableInvestors[k].investorId == i
  }

  function AllocationsOf(db: Db, subs: set<Id>): (r: set<Id>)
    ensures forall k :: k in r <==> k in db.allocations && db.allocations[k].subscriptionId in subs
  {
    set k | k in db.allocations && db.allocations[k].subscriptionId in subs
  }

  function RecordsOf(t: map<Id, SubscriptionRecord>, subs: set<Id>): (r: set<Id>)
    ensures forall k :: k in r <==> k in t && t[k].subscriptionId in subs
  {
    set k | k in t && t[k].subscriptionId in subs
  }

  function ApproversOf(db: Db, reds: set<Id>): (r: set<Id>)
    ensures forall k :: k in r <==> k in db.approvers && db.approvers[k].redemptionId in reds
  {
    set k | k in db.approvers && db.approvers[k].redemptionId in reds
  }

  function GroupLinksOfInvestor(db: Db, i: Id): (r: set<Id>)
    ensures forall k :: k in r <==> k in db.groupMembers && db.groupMembers[k].investorId == i
  {
    set k | k in db.groupMembers && db.groupMembers[k].investorId == i
  }

  // ---------------------------------------------------------------------------
  // Reads with `maybeSingle()` / `single()` semantics.

  /** `maybeSingle()`: no row is `null`, one row is that row, several rows are an error. */
  ghost function MaybeSingle(ids: set<Id>, t: Table): (r: Result<Option<Id>>)
    ensures |ids| == 0 ==> r == Ok(None)
    ensures |ids| > 1 ==> r == Err(MultipleRows(t))
    ensures |ids| == 1 ==> r.Ok? && r.value.Some? && ids == {r.value.value}
  {
    if |ids| == 0 then Ok(None)
    else if |ids| > 1 then Err(MultipleRows(t))
    else
      var x :| x in ids;
      assert ids == {x} by {
        assert |ids - {x}| == 0;
      }
      Ok(Some(x))
  }

  /** `single()`: exactly one row is that row; no row or several rows are the "no single row" error. */
  ghost function Single(ids: set<Id>, t: Table): (r: Result<Id>)
    ensures |ids| != 1 ==> r == Err(NoSingleRow(t))
    ensures |ids| == 1 ==> r.Ok? && ids == {r.value}
  {
    if |ids| != 1 then Err(NoSingleRow(t))
    else
      var x :| x in ids;
      assert ids == {x} by {
        assert |ids - {x}| == 0;
      }
      Ok(x)
  }

  /** The `subscription_amount` a `cap_table_investors` row joins to, if its investor exists and has one. */
  function JoinedAmount(db: Db, k: Id): Option<int>
    requires k in db.capTableInvestors
  {
    var inv := db.capTableInvestors[k].investorId;
    if inv in db.investors then db.investors[inv].subscriptionAmount else None
  }

  /**
   * A column value sent in an update: text, `null`, or `undefined` (which the JSON
   * request body drops, so the column keeps its value).
   */
  datatype Cell = Text(text: string) | Null | Undefined

  /** The `investors` columns an update record can set. */
  datatype Column = NameColumn | EmailColumn | TypeColumn | CompanyColumn | KycStatusColumn
                  | KycExpiryColumn | WalletColumn | UpdatedAtColumn
  {
    /** The column's name in the table. */
    function Name(): string {
      match this
      case NameColumn => "name"
      case EmailColumn => "email"
      case TypeColumn => "type"
      case CompanyColumn => "company"
      case KycStatusColumn => "kyc_status"
      case KycExpiryColumn => "kyc_expiry_date"
      case WalletColumn => "wallet_address"
      case UpdatedAtColumn => "updated_at"
    }
  }

  /** The new value of an optional text column under an update record. */
  function PatchOptional(current: Option<string>, rec: map<Column, Cell>, column: Column): Option<string> {
    if column !in rec then current
    else match rec[column]
      case Text(t) => Some(t)
      case Null => None
      case Undefined => current
  }

  /** The new value of a required text column (the update fields for these columns are never null). */
  function PatchRequired(current: string, rec: map<Column, Cell>, column: Column): string {
    if column in rec && rec[column].Text? then rec[column].text else current
  }

  /** An `investors` row after `update(rec)`; `updated_at` is not part of the row here. */
  function PatchInvestor(row: Investor, rec: map<Column, Cell>): Investor {
    row.(name := PatchRequired(row.name, rec, NameColumn), email := PatchRequired(row.email, rec, EmailColumn),
         kind := PatchRequired(row.kind, rec, TypeColumn), company := PatchOptional(row.company, rec, CompanyColumn),
         kycStatus := PatchRequired(row.kycStatus, rec, KycStatusColumn),
         kycExpiry := PatchOptional(row.kycExpiry, rec, KycExpiryColumn),
         wallet := PatchOptional(row.wallet, rec, WalletColumn))
  }

  /** The `projects` columns an edit may carry besides the name, which it always carries. */
  datatype ProjectKey = DescriptionKey | StatusKey | ProjectTypeKey | TokenSymbolKey | TargetRaiseKey
                      | AuthorizedSharesKey | SharePriceKey | CompanyValuationKey | FundingRoundKey
                      | LegalEntityKey | JurisdictionKey | TaxIdKey

  /** The keys of a submitted project object: its values for exactly the columns in `keys`. */
  datatype ProjectEdit = ProjectEdit(values: Project, keys: set<ProjectKey>)

  /** One column after a partial update: the submitted value when its key was sent. */
  function PatchColumn<T>(current: T, e: ProjectEdit, key: ProjectKey, submitted: T): T {
    if key in e.keys then submitted else current
  }

  /** A `projects` row after `update(edit)`: the submitted columns change, every other column keeps its value. */
  function PatchProject(row: Project, e: ProjectEdit): (r: Project)
    ensures r.name == e.values.name
    ensures r.description == (if DescriptionKey in e.keys then e.values.description else row.description)
    ensures r.status == (if StatusKey in e.keys then e.values.status else row.status)
    ensures r.projectType == (if ProjectTypeKey in e.keys then e.values.projectType else row.projectType)
    ensures r.terms.tokenSymbol == (if TokenSymbolKey in e.keys then e.values.terms.tokenSymbol else row.terms.tokenSymbol)
    ensures r.terms.targetRaise == (if TargetRaiseKey in e.keys then e.values.terms.targetRaise else row.terms.targetRaise)
    ensures r.terms.authorizedShares == (if AuthorizedSharesKey in e.keys then e.values.terms.authorizedShares else row.terms.authorizedShares)
    ensures r.terms.sharePrice == (if SharePriceKey in e.keys then e.values.terms.sharePrice else row.terms.sharePrice)
    ensures r.terms.companyValuation == (if CompanyValuationKey in e.keys then e.values.terms.companyValuation else row.terms.companyValuation)
    ensures r.terms.fundingRound == (if FundingRoundKey in e.keys then e.values.terms.fundingRound else row.terms.fundingRound)
    ensures r.terms.legalEntity == (if LegalEntityKey in e.keys then e.values.terms.legalEntity else row.terms.legalEntity)
    ensures r.terms.jurisdiction == (if JurisdictionKey in e.keys then e.values.terms.jurisdiction else row.terms.jurisdiction)
    ensures r.terms.taxId == (if TaxIdKey in e.keys then e.values.terms.taxId else row.terms.taxId)
  {
    var v, t := e.values, row.terms;
    Project(v.name, PatchColumn(row.description, e, DescriptionKey, v.description),
            PatchColumn(row.status, e, StatusKey, v.status), PatchColumn(row.projectType, e, ProjectTypeKey, v.projectType),
            Terms(PatchColumn(t.tokenSymbol, e, TokenSymbolKey, v.terms.tokenSymbol),
                  PatchColumn(t.targetRaise, e, TargetRaiseKey, v.terms.targetRaise),
                  PatchColumn(t.authorizedShares, e, AuthorizedSharesKey, v.terms.authorizedShares),
                  PatchColumn(t.sharePrice, e, SharePriceKey, v.terms.sharePrice),
                  PatchColumn(t.companyValuation, e, CompanyValuationKey, v.terms.companyValuation),
                  PatchColumn(t.fundingRound, e, FundingRoundKey, v.terms.fundingRound),
                  PatchColumn(t.legalEntity, e, LegalEntityKey, v.terms.legalEntity),
                  PatchColumn(t.jurisdiction, e, JurisdictionKey, v.terms.jurisdiction),
                  PatchColumn(t.taxId, e, TaxIdKey, v.terms.taxId)))
  }

  /** Every column an edit may carry besides the name. */
  const AllProjectKeys := {DescriptionKey, StatusKey, ProjectTypeKey, TokenSymbolKey, TargetRaiseKey, AuthorizedSharesKey,
                           SharePriceKey, CompanyValuationKey, FundingRoundKey, LegalEntityKey, JurisdictionKey, TaxIdKey}

  /**
   * An edit that sends every column writes exactly its values, one that sends only the
   * name changes only the name, and applying the same edit twice is applying it once.
   */
  lemma PatchProjectCases(row: Project, e: ProjectEdit)
    ensures e.keys == AllProjectKeys ==> PatchProject(row, e) == e.values
    ensures e.keys == {} ==> PatchProject(row, e) == row.(name := e.values.name)
    ensures PatchProject(PatchProject(row, e), e) == PatchProject(row, e)
  {
  }

  /** How an insert with primary key `id` into table `t` ends. */
  function InsertResult(fail: bool, taken: bool, t: Table): (r: Option<Error>)
    ensures r == None <==> !fail && !taken
  {
    if fail then Some(Fault(Call(Insert, t)))
    else if taken then Some(KeyTaken(t))
    else None
  }

  // ---------------------------------------------------------------------------
  // Writes: each remote delete removes the rows its filter selects.

  function DeleteProjectRow(db: Db, p: Id): Db { db.(projects := db.projects - {p}) }
  function DeleteCapTableRow(db: Db, ct: Id): Db { db.(capTables := db.capTables - {ct}) }
  function DeleteCapTablesOfProject(db: Db, p: Id): Db { db.(capTables := db.capTables - CapTablesOfProject(db, p)) }
  function DeleteMembersOfCapTables(db: Db, cts: set<Id>): Db {
    db.(capTableInvestors := db.capTableInvestors - MembersOfCapTables(db, cts))
  }
  function DeleteMembershipsOfInvestor(db: Db, i: Id): Db {
    db.(capTableInvestors := db.capTableInvestors - MembershipsOfInvestor(db, i))
  }
  function DeleteSubscriptionRow(db: Db, s: Id): Db { db.(subscriptions := db.subscriptions - {s}) }
  function DeleteSubscriptionsOfProject(db: Db, p: Id): Db {
    db.(subscriptions := db.subscriptions - SubscriptionsOfProject(db, p))
  }
  function DeleteSubscriptionsOfInvestor(db: Db, i: Id): Db {
    db.(subscriptions := db.subscriptions - SubscriptionsOfInvestor(db, i))
  }
  function DeleteAllocationsOf(db: Db, subs: set<Id>): Db { db.(allocations := db.allocations - AllocationsOf(db, subs)) }
  function DeleteInvoicesOf(db: Db, subs: set<Id>): Db { db.(invoices := db.invoices - RecordsOf(db.invoices, subs)) }
  function DeleteEventsOf(db: Db, subs: set<Id>): Db { db.(events := db.events - RecordsOf(db.events, subs)) }
  function DeleteApproversOf(db: Db, reds: set<Id>): Db { db.(approvers := db.approvers - ApproversOf(db, reds)) }
  function DeleteRedemptionsOfInvestor(db: Db, i: Id): Db {
    db.(redemptions := db.redemptions - RedemptionsOfInvestor(db, i))
  }
  function DeleteGroupLinksOfInvestor(db: Db, i: Id): Db {
    db.(groupMembers := db.groupMembers - GroupLinksOfInvestor(db, i))
  }
  function DeleteInvestorRow(db: Db, i: Id): Db { db.(investors := db.investors - {i}) }

  // ---------------------------------------------------------------------------
  // Referential integrity: every foreign key names an existing row.

  predicate CapTablesLinked(db: Db) {
    forall k :: k in db.capTables ==> db.capTables[k].projectId in db.projects
  }
  predicate MembersLinked(db: Db) {
    forall k :: k in db.capTableInvestors ==>
      db.capTableInvestors[k].capTableId in db.capTables && db.capTableInvestors[k].investorId in db.investors
  }
  predicate SubscriptionsLinked(db: Db) {
    forall k :: k in db.subscriptions ==>
      db.subscriptions[k].projectId in db.projects && db.subscriptions[k].investorId in db.investors
  }
  predicate AllocationsLinked(db: Db) {
    forall k :: k in db.allocations ==> db.allocations[k].subscriptionId in db.subscriptions
  }
  predicate InvoicesLinked(db: Db) {
    forall k :: k in db.invoices ==> db.invoices[k].subscriptionId in db.subscriptions
  }
  predicate EventsLinked(db: Db) {
    forall k :: k in db.events ==> db.events[k].subscriptionId in db.subscriptions
  }
  predicate RedemptionsLinked(db: Db) {
    forall k :: k in db.redemptions ==> db.redemptions[k].investorId in db.investors
  }
  predicate ApproversLinked(db: Db) {
    forall k :: k in db.approvers ==> db.approvers[k].redemptionId in db.redemptions
  }
  predicate GroupLinksLinked(db: Db) {
    forall k :: k in db.groupMembers ==> db.groupMembers[k].investorId in db.investors
  }

  /** No orphan rows anywhere: the foreign keys of the schema all resolve. */
  predicate Integrity(db: Db) {
    CapTablesLinked(db) && MembersLinked(db) && SubscriptionsLinked(db) && AllocationsLinked(db)
    && InvoicesLinked(db) && EventsLinked(db) && RedemptionsLinked(db) && ApproversLinked(db)
    && GroupLinksLinked(db)
  }

  /** The store with no rows at all. */
  const EmptyDb := Db(map[], map[], map[], map[], map[], map[], map[], map[], map[], map[], map[])

  // ---------------------------------------------------------------------------
  // Steps of a handler: each fatal step either runs or aborts everything after it.

  datatype Stage = Stage(db: Db, outcome: Outcome)

  /** A fatal write: skipped once aborted; a fault aborts with the store as it was; otherwise `next`. */
  function Then(s: Stage, c: Call, faults: set<Call>, next: Db): (r: Stage)
    requires !s.outcome.Skipped?
    ensures s.outcome.Aborted? ==> r == s
    ensures s.outcome.Completed? && c in faults ==> r == Stage(s.db, Aborted(Fault(c)))
    ensures s.outcome.Completed? && c !in faults ==> r == Stage(next, Completed)
  {
    if s.outcome.Aborted? then s
    else if c in faults then Stage(s.db, Aborted(Fault(c)))
    else Stage(next, Completed)
  }

  /** A non-blocking write: a fault is logged and the handler carries on with the store unchanged. */
  function Try(s: Stage, c: Call, faults: set<Call>, next: Db): (r: Stage)
    requires !s.outcome.Skipped?
    ensures s.outcome.Aborted? || c in faults ==> r == s
    ensures s.outcome.Completed? && c !in faults ==> r == Stage(next, Completed)
  {
    if s.outcome.Aborted? || c in faults then s else Stage(next, Completed)
  }

  // ---------------------------------------------------------------------------

  /** The store, one mutable field per table. */
  class Backend {
    var projects: map<Id, Project>
    var capTables: map<Id, CapTable>
    var capTableInvestors: map<Id, CapTableInvestor>
    var investors: map<Id, Investor>
    var subscriptions: map<Id, Subscription>
    var allocations: map<Id, TokenAllocation>
    var invoices: map<Id, SubscriptionRecord>
    var events: map<Id, SubscriptionRecord>
    var redemptions: map<Id, Redemption>
    var approvers: map<Id, Approver>
    var groupMembers: map<Id, GroupMember>

    /** The tables as one value. */
    ghost function State(): Db
      reads this
    {
      Db(projects, capTables, capTableInvestors, investors, subscriptions, allocations,
         invoices, events, redemptions, approvers, groupMembers)
    }

    constructor (db: Db)
      ensures State() == db
    {
      projects, capTables, capTableInvestors, investors := db.projects, db.capTables, db.capTableInvestors, db.investors;
      subscriptions, allocations, invoices, events := db.subscriptions, db.allocations, db.invoices, db.events;
      redemptions, approvers, groupMembers := db.redemptions, db.approvers, db.groupMembers;
    }

    // ----- reads: they change nothing

    /** `select id from cap_tables where project_id = p`. */
    method SelectCapTablesOfProject(p: Id, fail: bool) returns (r: Result<set<Id>>)
      ensures r == if fail then Err(Fault(Call(Select, CapTables))) else Ok(CapTablesOfProject(State(), p))
    {
      if fail { return Err(Fault(Call(Select, CapTables))); }
      r := Ok(set k | k in capTables && capTables[k].projectId == p);
    }

    /** `select id, name from cap_tables where project_id = p`, with `maybeSingle()`. */
    method MaybeSingleCapTableOfProject(p: Id, fail: bool) returns (r: Result<Option<Id>>, name: string)
      ensures r == if fail then Err(Fault(Call(Select, CapTables))) else MaybeSingle(CapTablesOfProject(State(), p), CapTables)
      ensures r.Ok? && r.value.Some? ==> r.value.value in capTables && name == capTables[r.value.value].name
    {
      name := "";
      if fail { return Err(Fault(Call(Select, CapTables))), name; }
      var ids := set k | k in capTables && capTables[k].projectId == p;
      assert ids == CapTablesOfProject(State(), p);
      if |ids| == 0 {
        r := Ok(None);
      } else if |ids| > 1 {
        r := Err(MultipleRows(CapTables));
      } else {
        var x :| x in ids;
        assert MaybeSingle(ids, CapTables) == Ok(Some(x));
        r, name := Ok(Some(x)), capTables[x].name;
      }
    }

    /** `select id from projects where name = n [and id <> except]`, with `maybeSingle()`. */
    method MaybeSingleProjectNamed(name: string, except: Option<Id>, fail: bool) returns (r: Result<Option<Id>>)
      ensures r == if fail then Err(Fault(Call(Select, Projects))) else MaybeSingle(ProjectsNamed(State(), name, except), Projects)
    {
      if fail { return Err(Fault(Call(Select, Projects))); }
      var ids := set k | k in projects && projects[k].name == name && except != Some(k);
      assert ids == ProjectsNamed(State(), name, except);
      if |ids| == 0 {
        r := Ok(None);
      } else if |ids| > 1 {
        r := Err(MultipleRows(Projects));
      } else {
        var x :| x in ids;
        assert MaybeSingle(ids, Projects) == Ok(Some(x));
        r := Ok(Some(x));
      }
    }

    /** `select id from subscriptions where project_id = p`. */
    method SelectSubscriptionsOfProject(p: Id, fail: bool) returns (r: Result<set<Id>>)
      ensures r == if fail then Err(Fault(Call(Select, Subscriptions))) else Ok(SubscriptionsOfProject(State(), p))
    {
      if fail { return Err(Fault(Call(Select, Subscriptions))); }
      r := Ok(set k | k in subscriptions && subscriptions[k].projectId == p);
    }

    /** `select id from subscriptions where investor_id = i`. */
    method SelectSubscriptionsOfInvestor(i: Id, fail: bool) returns (r: Result<set<Id>>)
      ensures r == if fail then Err(Fault(Call(Select, Subscriptions))) else Ok(SubscriptionsOfInvestor(State(), i))
    {
      if fail { return Err(Fault(Call(Select, Subscriptions))); }
      r := Ok(set k | k in subscriptions && subscriptions[k].investorId == i);
    }

    /** `select id from redemption_requests where investor_id = i`. */
    method SelectRedemptionsOfInvestor(i: Id, fail: bool) returns (r: Result<set<Id>>)
      ensures r == if fail then Err(Fault(Call(Select, Redemptions))) else Ok(RedemptionsOfInvestor(State(), i))
    {
      if fail { return Err(Fault(Call(Select, Redemptions))); }
      r := Ok(set k | k in redemptions && redemptions[k].investorId == i);
    }

    /** `select id from cap_tables where project_id = p`, with `single()`. */
    method SingleCapTableOfProject(p: Id, fail: bool) returns (r: Result<Id>)
      ensures r == if fail then Err(Fault(Call(Select, CapTables))) else Single(CapTablesOfProject(State(), p), CapTables)
    {
      if fail { return Err(Fault(Call(Select, CapTables))); }
      var ids := set k | k in capTables && capTables[k].projectId == p;
      assert ids == CapTablesOfProject(State(), p);
      if |ids| != 1 {
        r := Err(NoSingleRow(CapTables));
      } else {
        var x :| x in ids;
        assert Single(ids, CapTables) == Ok(x);
        r := Ok(x);
      }
    }

    /** `select id, {count: "exact"} from cap_table_investors where cap_table_id = ct`: the count. */
    method CountCapTableInvestors(ct: Id, fail: bool) returns (r: Result<nat>)
      ensures r == if fail then Err(Fault(Call(Count, CapTableInvestors))) else Ok(|MembersOfCapTables(State(), {ct})|)
    {
      if fail { return Err(Fault(Call(Count, CapTableInvestors))); }
      var ids := set k | k in capTableInvestors && capTableInvestors[k].capTableId in {ct};
      assert ids == MembersOfCapTables(State(), {ct});
      r := Ok(|ids|);
    }

    /**
     * `select investor_id, investors(subscription_amount) from cap_table_investors where cap_table_id = ct`:
     * each selected row with the amount it joins to.
     */
    method SelectCapTableInvestorAmounts(ct: Id, fail: bool) returns (r: Result<map<Id, Option<int>>>)
      ensures fail ==> r == Err(Fault(Call(Select, CapTableInvestors)))
      ensures !fail ==> r.Ok? && r.value.Keys == MembersOfCapTables(State(), {ct})
      ensures !fail ==> forall k :: k in r.value ==> r.value[k] == JoinedAmount(State(), k)
    {
      if fail { return Err(Fault(Call(Select, CapTableInvestors))); }
      var ids := set k | k in capTableInvestors && capTableInvestors[k].capTableId in {ct};
      r := Ok(map k | k in ids :: var inv := capTableInvestors[k].investorId;
                                  if inv in investors then investors[inv].subscriptionAmount else None);
    }

    // ----- inserts: a fault or a primary key already in use leaves the table as it was

    method InsertProject(id: Id, row: Project, fail: bool) returns (e: Option<Error>)
      modifies this`projects
      ensures e == InsertResult(fail, id in old(projects), Projects)
      ensures State() == if e.Some? then old(State()) else old(State()).(projects := old(projects)[id := row])
    {
      e := InsertResult(fail, id in projects, Projects);
      if e.None? { projects := projects[id := row]; }
    }

    method InsertCapTable(id: Id, row: CapTable, fail: bool) returns (e: Option<Error>)
      modifies this`capTables
      ensures e == InsertResult(fail, id in old(capTables), CapTables)
      ensures State() == if e.Some? then old(State()) else old(State()).(capTables := old(capTables)[id := row])
    {
      e := InsertResult(fail, id in capTables, CapTables);
      if e.None? { capTables := capTables[id := row]; }
    }

    method InsertCapTableInvestor(id: Id, row: CapTableInvestor, fail: bool) returns (e: Option<Error>)
      modifies this`capTableInvestors
      ensures e == InsertResult(fail, id in old(capTableInvestors), CapTableInvestors)
      ensures State() == if e.Some? then old(State()) else old(State()).(capTableInvestors := old(capTableInvestors)[id := row])
    {
      e := InsertResult(fail, id in capTableInvestors, CapTableInvestors);
      if e.None? { capTableInvestors := capTableInvestors[id := row]; }
    }

    method InsertInvestor(id: Id, row: Investor, fail: bool) returns (e: Option<Error>)
      modifies this`investors
      ensures e == InsertResult(fail, id in old(investors), Investors)
      ensures State() == if e.Some? then old(State()) else old(State()).(investors := old(investors)[id := row])
    {
      e := InsertResult(fail, id in investors, Investors);
      if e.None? { investors := investors[id := row]; }
    }

    method InsertSubscription(id: Id, row: Subscription, fail: bool) returns (e: Option<Error>)
      modifies this`subscriptions
      ensures e == InsertResult(fail, id in old(subscriptions), Subscriptions)
      ensures State() == if e.Some? then old(State()) else old(State()).(subscriptions := old(subscriptions)[id := row])
    {
      e := InsertResult(fail, id in subscriptions, Subscriptions);
      if e.None? { subscriptions := subscriptions[id := row]; }
    }

    method InsertAllocation(id: Id, row: TokenAllocation, fail: bool) returns (e: Option<Error>)
      modifies this`allocations
      ensures e == InsertResult(fail, id in old(allocations), Allocations)
      ensures State() == if e.Some? then old(State()) else old(State()).(allocations := old(allocations)[id := row])
    {
      e := InsertResult(fail, id in allocations, Allocations);
      if e.None? { allocations := allocations[id := row]; }
    }

    // ----- updates

    /** `update projects set … where id = p`, with `select().single()`: a missing row is an error. */
    method UpdateProject(p: Id, edit: ProjectEdit, fail: bool) returns (r: Result<Project>)
      modifies this`projects
      ensures r == if fail then Err(Fault(Call(Update, Projects)))
                   else if p !in old(projects) then Err(NoSingleRow(Projects))
                   else Ok(PatchProject(old(projects)[p], edit))
      ensures State() == if r.Err? then old(State()) else old(State()).(projects := old(projects)[p := r.value])
    {
      if fail {
        r := Err(Fault(Call(Update, Projects)));
      } else if p !in projects {
        r := Err(NoSingleRow(Projects));
      } else {
        r := Ok(PatchProject(projects[p], edit));
        projects := projects[p := r.value];
      }
    }

    /** `update investors set … where id = i`, with `select().single()`: a missing row is an error. */
    method UpdateInvestor(i: Id, rec: map<Column, Cell>, fail: bool) returns (r: Result<Investor>)
      modifies this`investors
      ensures r == if fail then Err(Fault(Call(Update, Investors)))
                   else if i !in old(investors) then Err(NoSingleRow(Investors))
                   else Ok(PatchInvestor(old(investors)[i], rec))
      ensures State() == if r.Err? then old(State()) else old(State()).(investors := old(investors)[i := r.value])
    {
      if fail {
        r := Err(Fault(Call(Update, Investors)));
      } else if i !in investors {
        r := Err(NoSingleRow(Investors));
      } else {
        r := Ok(PatchInvestor(investors[i], rec));
        investors := investors[i := r.value];
      }
    }

    /** `update cap_tables set name = n where id = ct`: no row to update is not an error. */
    method RenameCapTable(ct: Id, name: string, fail: bool) returns (ok: bool)
      modifies this`capTables
      ensures ok == !fail
      ensures State() == if fail || ct !in old(capTables) then old(State())
                         else old(State()).(capTables := old(capTables)[ct := old(capTables)[ct].(name := name)])
    {
      ok := !fail;
      if ok && ct in capTables {
        capTables := capTables[ct := capTables[ct].(name := name)];
      }
    }

    // ----- deletes: each removes exactly the rows its filter selects

    method DeleteProject(p: Id, fail: bool) returns (ok: bool)
      modifies this`projects
      ensures ok == !fail
      ensures State() == if fail then old(State()) else DeleteProjectRow(old(State()), p)
    {
      ok := !fail;
      if ok { projects := projects - {p}; }
    }

    method DeleteCapTable(ct: Id, fail: bool) returns (ok: bool)
      modifies this`capTables
      ensures ok == !fail
      ensures State() == if fail then old(State()) else DeleteCapTableRow(old(State()), ct)
    {
      ok := !fail;
      if ok { capTables := capTables - {ct}; }
    }

    method DeleteCapTablesWhereProject(p: Id, fail: bool) returns (ok: bool)
      modifies this`capTables
      ensures ok == !fail
      ensures State() == if fail then old(State()) else DeleteCapTablesOfProject(old(State()), p)
    {
      ok := !fail;
      if ok { capTables := capTables - (set k | k in capTables && capTables[k].projectId == p); }
    }

    method DeleteCapTableInvestorsIn(cts: set<Id>, fail: bool) returns (ok: bool)
      modifies this`capTableInvestors
      ensures ok == !fail
      ensures State() == if fail then old(State()) else DeleteMembersOfCapTables(old(State()), cts)
    {
      ok := !fail;
      if ok {
        capTableInvestors := capTableInvestors - (set k | k in capTableInvestors && capTableInvestors[k].capTableId in cts);
      }
    }

    method DeleteCapTableInvestorsWhereInvestor(i: Id, fail: bool) returns (ok: bool)
      modifies this`capTableInvestors
      ensures ok == !fail
      ensures State() == if fail then old(State()) else DeleteMembershipsOfInvestor(old(State()), i)
    {
      ok := !fail;
      if ok {
        capTableInvestors := capTableInvestors - (set k | k in capTableInvestors && capTableInvestors[k].investorId == i);
      }
    }

    method DeleteSubscription(s: Id, fail: bool) returns (ok: bool)
      modifies this`subscriptions
      ensures ok == !fail
      ensures State() == if fail then old(State()) else DeleteSubscriptionRow(old(State()), s)
    {
      ok := !fail;
      if ok { subscriptions := subscriptions - {s}; }
    }

    method DeleteSubscriptionsWhereProject(p: Id, fail: bool) returns (ok: bool)
      modifies this`subscriptions
      ensures ok == !fail
      ensures State() == if fail then old(State()) else DeleteSubscriptionsOfProject(old(State()), p)
    {
      ok := !fail;
      if ok { subscriptions := subscriptions - (set k | k in subscriptions && subscriptions[k].projectId == p); }
    }

    method DeleteSubscriptionsWhereInvestor(i: Id, fail: bool) returns (ok: bool)
      modifies this`subscriptions
      ensures ok == !fail
      ensures State() == if fail then old(State()) else DeleteSubscriptionsOfInvestor(old(State()), i)
    {
      ok := !fail;
      if ok { subscriptions := subscriptions - (set k | k in subscriptions && subscriptions[k].investorId == i); }
    }

    method DeleteAllocationsIn(subs: set<Id>, fail: bool) returns (ok: bool)
      modifies this`allocations
      ensures ok == !fail
      ensures State() == if fail then old(State()) else DeleteAllocationsOf(old(State()), subs)
    {
      ok := !fail;
      if ok { allocations := allocations - (set k | k in allocations && allocations[k].subscriptionId in subs); }
    }

    method DeleteInvoicesIn(subs: set<Id>, fail: bool) returns (ok: bool)
      modifies this`invoices
      ensures ok == !fail
      ensures State() == if fail then old(State()) else DeleteInvoicesOf(old(State()), subs)
    {
      ok := !fail;
      if ok { invoices := invoices - (set k | k in invoices && invoices[k].subscriptionId in subs); }
    }

    method DeleteEventsIn(subs: set<Id>, fail: bool) returns (ok: bool)
      modifies this`events
      ensures ok == !fail
      ensures State() == if fail then old(State()) else DeleteEventsOf(old(State()), subs)
    {
      ok := !fail;
      if ok { events := events - (set k | k in events && events[k].subscriptionId in subs); }
    }

    method DeleteApproversIn(reds: set<Id>, fail: bool) returns (ok: bool)
      modifies this`approvers
      ensures ok == !fail
      ensures State() == if fail then old(State()) else DeleteApproversOf(old(State()), reds)
    {
      ok := !fail;
      if ok { approvers := approvers - (set k | k in approvers && approvers[k].redemptionId in reds); }
    }

    method DeleteRedemptionsWhereInvestor(i: Id, fail: bool) returns (ok: bool)
      modifies this`redemptions
      ensures ok == !fail
      ensures State() == if fail then old(State()) else DeleteRedemptionsOfInvestor(old(State()), i)
    {
      ok := !fail;
      if ok { redemptions := redemptions - (set k | k in redemptions && redemptions[k].investorId == i); }
    }

    method DeleteGroupLinksWhereInvestor(i: Id, fail: bool) returns (ok: bool)
      modifies this`groupMembers
      ensures ok == !fail
      ensures State() == if fail then old(State()) else DeleteGroupLinksOfInvestor(old(State()), i)
    {
      ok := !fail;
      if ok { groupMembers := groupMembers - (set k | k in groupMembers && groupMembers[k].investorId == i); }
    }

    method DeleteInvestor(i: Id, fail: bool) returns (ok: bool)
      modifies this`investors
      ensures ok == !fail
      ensures State() == if fail then old(State()) else DeleteInvestorRow(old(State()), i)
    {
      ok := !fail;
      if ok { investors := investors - {i}; }
    }
  }
}
