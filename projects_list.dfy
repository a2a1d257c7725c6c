/**
 * The projects screen: its client-side filter, and the add, edit and delete
 * handlers that write to the store and then update the local project list and
 * the per-project statistics.
 */
module ProjectsList {
  import opened Common
  import opened Text
  import opened Store

  /** A project as listed on the screen. */
  datatype Listed = Listed(id: Id, row: Project)

  /** The statistics shown on a project card. */
  datatype Stats = Stats(totalInvestors: int, totalRaised: int)

  // ---------------------------------------------------------------------------
  // The filter

  /** The name or, when present and non-empty, the description contains the query, both lower-cased. */
  predicate MatchesSearch(p: Project, query: string) {
    Contains(Lower(p.name), Lower(query))
    || (Truthy(p.description) && Contains(Lower(p.description.value), Lower(query)))
  }

  /** A select filter that is unset, empty or "all" lets everything through; otherwise it must equal the field. */
  predicate MatchesSelect(filter: Option<string>, field: string) {
    Truthy(filter) && filter.value != "all" ==> field == filter.value
  }

  predicate Matches(p: Project, query: string, status: Option<string>, kind: Option<string>) {
    MatchesSearch(p, query) && MatchesSelect(status, p.status) && MatchesSelect(kind, p.projectType)
  }

  /** `filteredProjects`: the listed projects that match, in list order. */
  function FilterProjects(ps: seq<Listed>, query: string, status: Option<string>, kind: Option<string>): (r: seq<Listed>)
    ensures |r| <= |ps|
    ensures forall x :: x in r <==> x in ps && Matches(x.row, query, status, kind)
  {
    if ps == [] then []
    else
      var rest := FilterProjects(ps[1..], query, status, kind);
      if Matches(ps[0].row, query, status, kind) then [ps[0]] + rest else rest
  }

  /** With no query and no select filters the whole list is shown, in order. */
  lemma {:induction false} FilterNothing(ps: seq<Listed>)
    ensures FilterProjects(ps, "", None, None) == ps
  {
    if ps != [] {
      ContainsEmpty(Lower(ps[0].row.name));
      FilterNothing(ps[1..]);
      assert ps == [ps[0]] + ps[1..];
    }
  }

  /** Filtering keeps the list order: the result is the list with the non-matching projects dropped. */
  lemma {:induction false} FilterKeepsOrder(ps: seq<Listed>, query: string, status: Option<string>, kind: Option<string>, y: Listed)
    requires Matches(y.row, query, status, kind)
    ensures FilterProjects(ps + [y], query, status, kind) == FilterProjects(ps, query, status, kind) + [y]
  {
    if ps != [] {
      assert (ps + [y])[1..] == ps[1..] + [y];
      FilterKeepsOrder(ps[1..], query, status, kind, y);
    } else {
      assert FilterProjects([], query, status, kind) == [];
      assert [y][1..] == [];
    }
  }

  // ---------------------------------------------------------------------------
  // Local list updates

  /** `prev.map(p => p.id === id ? row : p)`. */
  function ReplaceById(ps: seq<Listed>, id: Id, row: Project): (r: seq<Listed>)
    ensures |r| == |ps|
    ensures forall i :: 0 <= i < |ps| ==> r[i] == (if ps[i].id == id then Listed(id, row) else ps[i])
  {
    seq(|ps|, i requires 0 <= i < |ps| => if ps[i].id == id then Listed(id, row) else ps[i])
  }

  /** `prev.filter(p => p.id !== id)`. */
  function RemoveById(ps: seq<Listed>, id: Id): (r: seq<Listed>)
    ensures |r| <= |ps|
    ensures forall x :: x in r <==> x in ps && x.id != id
  {
    if ps == [] then []
    else if ps[0].id == id then RemoveById(ps[1..], id)
    else [ps[0]] + RemoveById(ps[1..], id)
  }

  // ---------------------------------------------------------------------------
  // Adding a project

  /** What the add dialog submits; absent fields are None. */
  datatype ProjectForm = ProjectForm(name: string, projectTypeColumn: Option<string>, projectType: Option<string>,
                                     description: Option<string>, status: Option<string>, terms: Terms)

  /**
   * The inserted row: type, description and status fall back to "equity", "" and "draft";
   * each optional column is kept when truthy and stored as null otherwise.
   */
  function NewProjectRow(f: ProjectForm): (r: Project)
    ensures r.name == f.name
    ensures r.projectType == (if Truthy(f.projectTypeColumn) then f.projectTypeColumn.value
                              else if Truthy(f.projectType) then f.projectType.value else "equity")
    ensures r.description == Some(OrElse(f.description, ""))
    ensures r.status == OrElse(f.status, "draft")
    ensures r.terms == Terms(OrNull(f.terms.tokenSymbol), OrNull(f.terms.targetRaise), OrNull(f.terms.authorizedShares),
                             OrNull(f.terms.sharePrice), OrNull(f.terms.companyValuation), OrNull(f.terms.fundingRound),
                             OrNull(f.terms.legalEntity), OrNull(f.terms.jurisdiction), OrNull(f.terms.taxId))
  {
    var t := f.terms;
    Project(f.name, Some(OrElse(f.description, "")), OrElse(f.status, "draft"),
            OrElse(f.projectTypeColumn, OrElse(f.projectType, "equity")),
            Terms(OrNull(t.tokenSymbol), OrNull(t.targetRaise), OrNull(t.authorizedShares), OrNull(t.sharePrice),
                  OrNull(t.companyValuation), OrNull(t.fundingRound), OrNull(t.legalEntity), OrNull(t.jurisdiction),
                  OrNull(t.taxId)))
  }

  /** The conventional name of a project's cap table. */
  function CapTableName(projectName: string): string {
    "Cap Table - " + projectName
  }

  /**
   * The store after `handleAddProject` and how it ends: duplicate-name check, project
   * insert, cap-table insert; a failed cap-table insert issues a compensating delete of
   * the new project, whose own failure is only logged.
   */
  ghost function AddProjectSpec(db: Db, f: ProjectForm, newId: Id, ctId: Id, faults: set<Call>): Stage {
    var check := if Call(Select, Projects) in faults then Err(Fault(Call(Select, Projects)))
                 else MaybeSingle(ProjectsNamed(db, f.name, None), Projects);
    if check.Err? then Stage(db, Aborted(check.error))
    else if check.value.Some? then Stage(db, Aborted(DuplicateName(f.name)))
    else
      var inserted := InsertResult(Call(Insert, Projects) in faults, newId in db.projects, Projects);
      if inserted.Some? then Stage(db, Aborted(inserted.value))
      else
        var db1 := db.(projects := db.projects[newId := NewProjectRow(f)]);
        var bootstrapped := InsertResult(Call(Insert, CapTables) in faults, ctId in db1.capTables, CapTables);
        if bootstrapped.Some? then
          Stage(if Call(Delete, Projects) in faults then db1 else DeleteProjectRow(db1, newId), Aborted(bootstrapped.value))
        else
          Stage(db1.(capTables := db1.capTables[ctId := CapTable(newId, CapTableName(f.name))]), Completed)
  }

  /** A name already taken aborts the add before any insert: the store is unchanged. */
  lemma AddDuplicateChangesNothing(db: Db, f: ProjectForm, newId: Id, ctId: Id, faults: set<Call>)
    requires ProjectsNamed(db, f.name, None) != {}
    ensures AddProjectSpec(db, f, newId, ctId, faults).db == db
    ensures AddProjectSpec(db, f, newId, ctId, faults).outcome.Aborted?
  {
    assert |ProjectsNamed(db, f.name, None)| > 0;
  }

  /**
   * The add completes exactly when the name is free, no call faults and both keys are
   * unused; it then adds the project and exactly one cap table for it named after it,
   * keeps referential integrity and touches no other table.
   */
  lemma AddProjectCompletes(db: Db, f: ProjectForm, newId: Id, ctId: Id, faults: set<Call>)
    requires Integrity(db)
    ensures var s := AddProjectSpec(db, f, newId, ctId, faults);
      s.outcome == Completed <==>
        ProjectsNamed(db, f.name, None) == {} && newId !in db.projects && ctId !in db.capTables
        && Call(Select, Projects) !in faults && Call(Insert, Projects) !in faults && Call(Insert, CapTables) !in faults
    ensures var s := AddProjectSpec(db, f, newId, ctId, faults);
      s.outcome == Completed ==>
        s.db == db.(projects := db.projects[newId := NewProjectRow(f)],
                    capTables := db.capTables[ctId := CapTable(newId, CapTableName(f.name))])
        && CapTablesOfProject(s.db, newId) == {ctId}
        && Integrity(s.db)
  {
    var s := AddProjectSpec(db, f, newId, ctId, faults);
    if s.outcome == Completed {
      assert |ProjectsNamed(db, f.name, None)| == 0;
    }
  }

  /**
   * A failed cap-table insert leaves the new project removed again unless the
   * compensating delete faults, and reports the cap-table error either way.
   */
  lemma AddCompensates(db: Db, f: ProjectForm, newId: Id, ctId: Id, faults: set<Call>)
    requires Call(Select, Projects) !in faults && Call(Insert, Projects) !in faults
    requires ProjectsNamed(db, f.name, None) == {} && newId !in db.projects
    requires Call(Insert, CapTables) in faults || ctId in db.capTables
    ensures var s := AddProjectSpec(db, f, newId, ctId, faults);
      s.outcome == Aborted(if Call(Insert, CapTables) in faults then Fault(Call(Insert, CapTables)) else KeyTaken(CapTables))
      && s.db.capTables == db.capTables
      && (Call(Delete, Projects) !in faults ==> s.db == db)
      && (Call(Delete, Projects) in faults ==> s.db.projects == db.projects[newId := NewProjectRow(f)])
  {
    assert |ProjectsNamed(db, f.name, None)| == 0;
    var db1 := db.(projects := db.projects[newId := NewProjectRow(f)]);
    assert DeleteProjectRow(db1, newId).projects == db.projects;
  }

  // ---------------------------------------------------------------------------
  // Editing a project

  /**
   * The store after `handleEditProject` of listed project `cur` with the submitted object
   * (its name, and values for the columns it carries, patched onto the stored row):
   * the duplicate check (other projects only) and the cap-table rename run only when the
   * name changes; the rename needs the cap table to still carry the old conventional name,
   * and its failure is not fatal.
   */
  ghost function EditProjectSpec(db: Db, cur: Listed, edit: ProjectEdit, faults: set<Call>): Stage {
    var name := edit.values.name;
    var renamed := name != cur.row.name;
    var check := if !renamed then Ok(None)
                 else if Call(Select, Projects) in faults then Err(Fault(Call(Select, Projects)))
                 else MaybeSingle(ProjectsNamed(db, name, Some(cur.id)), Projects);
    if check.Err? then Stage(db, Aborted(check.error))
    else if check.value.Some? then Stage(db, Aborted(DuplicateName(name)))
    else if Call(Update, Projects) in faults then Stage(db, Aborted(Fault(Call(Update, Projects))))
    else if cur.id !in db.projects then Stage(db, Aborted(NoSingleRow(Projects)))
    else
      var db1 := Edited(db, cur.id, edit);
      var ct := MaybeSingle(CapTablesOfProject(db1, cur.id), CapTables);
      if renamed && Call(Select, CapTables) !in faults && ct.Ok? && ct.value.Some?
         && db1.capTables[ct.value.value].name == CapTableName(cur.row.name)
      then
        var c := ct.value.value;
        Try(Stage(db1, Completed), Call(Update, CapTables), faults,
            db1.(capTables := db1.capTables[c := db1.capTables[c].(name := CapTableName(name))]))
      else Stage(db1, Completed)
  }

  /** The store with project `p` patched by the edit. */
  function Edited(db: Db, p: Id, edit: ProjectEdit): (r: Db)
    requires p in db.projects
    ensures r.projects.Keys == db.projects.Keys && r.projects[p] == PatchProject(db.projects[p], edit)
    ensures r == db.(projects := r.projects) && forall q :: q in db.projects && q != p ==> r.projects[q] == db.projects[q]
  {
    db.(projects := db.projects[p := PatchProject(db.projects[p], edit)])
  }

  /** An edit that keeps the name never reads for duplicates and never touches the cap tables. */
  lemma EditKeepingNameSkipsChecks(db: Db, cur: Listed, edit: ProjectEdit, faults: set<Call>)
    requires edit.values.name == cur.row.name
    ensures EditProjectSpec(db, cur, edit, faults) == EditProjectSpec(db, cur, edit, faults - {Call(Select, Projects), Call(Select, CapTables), Call(Update, CapTables)})
    ensures EditProjectSpec(db, cur, edit, faults).db.capTables == db.capTables
  {
  }

  /**
   * An edit completes exactly when the update call does not fault, the row exists and,
   * when the name changes, the duplicate check does not fault and finds no other project
   * with the new name.
   */
  lemma EditProjectCompletes(db: Db, cur: Listed, edit: ProjectEdit, faults: set<Call>)
    ensures EditProjectSpec(db, cur, edit, faults).outcome == Completed <==>
        (edit.values.name != cur.row.name ==> Call(Select, Projects) !in faults && ProjectsNamed(db, edit.values.name, Some(cur.id)) == {})
        && Call(Update, Projects) !in faults && cur.id in db.projects
  {
    if edit.values.name != cur.row.name && Call(Select, Projects) !in faults {
      var named := ProjectsNamed(db, edit.values.name, Some(cur.id));
      if named != {} {
        assert |named| > 0;
      }
    }
  }

  /** The cap table `k` gets renamed by a completed edit. */
  predicate RenameApplies(db: Db, cur: Listed, edit: ProjectEdit, faults: set<Call>, k: Id) {
    edit.values.name != cur.row.name && Call(Select, CapTables) !in faults && Call(Update, CapTables) !in faults
    && CapTablesOfProject(db, cur.id) == {k} && db.capTables[k].name == CapTableName(cur.row.name)
  }

  /**
   * When the name changed, the project has exactly one cap table, that table still
   * carries the old conventional name and neither cap-table call faults, a completed edit
   * patches the row and renames that cap table after the new name, and nothing else.
   */
  lemma EditRenamesCapTable(db: Db, cur: Listed, edit: ProjectEdit, faults: set<Call>, k: Id)
    requires EditProjectSpec(db, cur, edit, faults).outcome == Completed
    requires RenameApplies(db, cur, edit, faults, k)
    ensures cur.id in db.projects
    ensures EditProjectSpec(db, cur, edit, faults).db ==
      Edited(db, cur.id, edit).(capTables := db.capTables[k := db.capTables[k].(name := CapTableName(edit.values.name))])
  {
    var db1 := Edited(db, cur.id, edit);
    assert CapTablesOfProject(db1, cur.id) == CapTablesOfProject(db, cur.id);
  }

  /** When no cap table qualifies for the rename, a completed edit patches the project row and nothing else. */
  lemma EditKeepsCapTables(db: Db, cur: Listed, edit: ProjectEdit, faults: set<Call>)
    requires EditProjectSpec(db, cur, edit, faults).outcome == Completed
    requires forall k :: !RenameApplies(db, cur, edit, faults, k)
    ensures cur.id in db.projects
    ensures EditProjectSpec(db, cur, edit, faults).db == Edited(db, cur.id, edit)
  {
    var db1 := Edited(db, cur.id, edit);
    assert CapTablesOfProject(db1, cur.id) == CapTablesOfProject(db, cur.id);
    var ct := MaybeSingle(CapTablesOfProject(db1, cur.id), CapTables);
    if ct.Ok? && ct.value.Some? {
      assert !RenameApplies(db, cur, edit, faults, ct.value.value);
    }
  }

  /** When the edit aborts the store is exactly as before. */
  lemma EditAbortChangesNothing(db: Db, cur: Listed, edit: ProjectEdit, faults: set<Call>)
    requires EditProjectSpec(db, cur, edit, faults).outcome.Aborted?
    ensures EditProjectSpec(db, cur, edit, faults).db == db
  {
  }

  // ---------------------------------------------------------------------------
  // Deleting a project

  /**
   * `handleDeleteProject` of project `p` up to its last step: both reads first, then
   * token allocations of its subscriptions and the subscriptions (only when there are
   * some), then the members of its cap table and the cap table (only when there is one).
   * The first failing step aborts the rest; nothing is rolled back.
   */
  ghost function DeleteDependantsSpec(db: Db, p: Id, faults: set<Call>): (s: Stage)
    ensures !s.outcome.Skipped?
  {
    var ct := if Call(Select, CapTables) in faults then Err(Fault(Call(Select, CapTables)))
              else MaybeSingle(CapTablesOfProject(db, p), CapTables);
    if ct.Err? then Stage(db, Aborted(ct.error))
    else if Call(Select, Subscriptions) in faults then Stage(db, Aborted(Fault(Call(Select, Subscriptions))))
    else SweepCapTable(SweepSubscriptions(Stage(db, Completed), p, SubscriptionsOfProject(db, p), faults), ct.value, faults)
  }

  /** Token allocations of the subscriptions, then the project's subscriptions; nothing when there are none. */
  ghost function SweepSubscriptions(s: Stage, p: Id, subs: set<Id>, faults: set<Call>): (r: Stage)
    requires !s.outcome.Skipped?
    ensures !r.outcome.Skipped?
    ensures r.outcome == Completed <==>
      s.outcome == Completed && (subs != {} ==> Call(Delete, Allocations) !in faults && Call(Delete, Subscriptions) !in faults)
  {
    if subs == {} then s
    else
      var s1 := Then(s, Call(Delete, Allocations), faults, DeleteAllocationsOf(s.db, subs));
      Then(s1, Call(Delete, Subscriptions), faults, DeleteSubscriptionsOfProject(s1.db, p))
  }

  /** The members of the cap table, then the cap table; nothing when there is none. */
  ghost function SweepCapTable(s: Stage, ct: Option<Id>, faults: set<Call>): (r: Stage)
    requires !s.outcome.Skipped?
    ensures !r.outcome.Skipped?
    ensures r.outcome == Completed <==>
      s.outcome == Completed && (ct.Some? ==> Call(Delete, CapTableInvestors) !in faults && Call(Delete, CapTables) !in faults)
  {
    if ct.None? then s
    else
      var s1 := Then(s, Call(Delete, CapTableInvestors), faults, DeleteMembersOfCapTables(s.db, {ct.value}));
      Then(s1, Call(Delete, CapTables), faults, DeleteCapTableRow(s1.db, ct.value))
  }

  /** The whole `handleDeleteProject`: the dependants, then the project row itself. */
  ghost function DeleteProjectSpec(db: Db, p: Id, faults: set<Call>): Stage {
    var s := DeleteDependantsSpec(db, p, faults);
    Then(s, Call(Delete, Projects), faults, DeleteProjectRow(s.db, p))
  }

  /** The store once every dependant of `p` this screen knows about is gone. */
  ghost function DependantsCleared(db: Db, p: Id): Db {
    var subs := SubscriptionsOfProject(db, p);
    var cts := CapTablesOfProject(db, p);
    db.(subscriptions := db.subscriptions - subs, allocations := db.allocations - AllocationsOf(db, subs),
        capTables := db.capTables - cts, capTableInvestors := db.capTableInvestors - MembersOfCapTables(db, cts))
  }

  /** The calls the delete issues for the store `db`, in order. */
  ghost function DeleteProjectCalls(db: Db, p: Id): seq<Call> {
    var subs := SubscriptionsOfProject(db, p);
    var hasCapTable := CapTablesOfProject(db, p) != {};
    [Call(Select, CapTables), Call(Select, Subscriptions)]
    + (if subs == {} then [] else [Call(Delete, Allocations), Call(Delete, Subscriptions)])
    + (if hasCapTable then [Call(Delete, CapTableInvestors), Call(Delete, CapTables)] else [])
    + [Call(Delete, Projects)]
  }

  /** A failed read deletes nothing. */
  lemma DeleteReadFailureChangesNothing(db: Db, p: Id, faults: set<Call>)
    requires Call(Select, CapTables) in faults || Call(Select, Subscriptions) in faults
    ensures DeleteProjectSpec(db, p, faults).db == db
    ensures DeleteProjectSpec(db, p, faults).outcome.Aborted?
  {
  }

  /** The delete completes exactly when the project has at most one cap table and none of its calls faults. */
  lemma DeleteProjectCompletes(db: Db, p: Id, faults: set<Call>)
    ensures DeleteProjectSpec(db, p, faults).outcome == Completed <==>
      |CapTablesOfProject(db, p)| <= 1 && forall c :: c in DeleteProjectCalls(db, p) ==> c !in faults
  {
    DeleteProjectCallsFree(db, p, faults);
    var cts := CapTablesOfProject(db, p);
    if |cts| > 1 {
      assert MaybeSingle(cts, CapTables).Err?;
    }
  }

  /** None of the delete's calls faults exactly when each step that runs is fault-free. */
  lemma DeleteProjectCallsFree(db: Db, p: Id, faults: set<Call>)
    ensures (forall c :: c in DeleteProjectCalls(db, p) ==> c !in faults) <==>
      Call(Select, CapTables) !in faults && Call(Select, Subscriptions) !in faults && Call(Delete, Projects) !in faults
      && (SubscriptionsOfProject(db, p) != {} ==> Call(Delete, Allocations) !in faults && Call(Delete, Subscriptions) !in faults)
      && (CapTablesOfProject(db, p) != {} ==> Call(Delete, CapTableInvestors) !in faults && Call(Delete, CapTables) !in faults)
  {
    var a := if SubscriptionsOfProject(db, p) == {} then [] else [Call(Delete, Allocations), Call(Delete, Subscriptions)];
    var b := if CapTablesOfProject(db, p) != {} then [Call(Delete, CapTableInvestors), Call(Delete, CapTables)] else [];
    var calls := DeleteProjectCalls(db, p);
    assert calls == [Call(Select, CapTables), Call(Select, Subscriptions)] + a + b + [Call(Delete, Projects)];
    assert calls[0] == Call(Select, CapTables) && calls[1] == Call(Select, Subscriptions);
    assert calls[|calls| - 1] == Call(Delete, Projects);
    if a != [] {
      assert calls[2] == a[0] && calls[3] == a[1];
    }
    if b != [] {
      assert calls[2 + |a|] == b[0] && calls[3 + |a|] == b[1];
    }
  }

  /** Without faults the subscription sweep removes the project's subscriptions and their allocations. */
  lemma SweepSubscriptionsClears(db: Db, p: Id, faults: set<Call>)
    requires SubscriptionsOfProject(db, p) != {} ==> Call(Delete, Allocations) !in faults && Call(Delete, Subscriptions) !in faults
    ensures var subs := SubscriptionsOfProject(db, p);
      SweepSubscriptions(Stage(db, Completed), p, subs, faults)
        == Stage(db.(subscriptions := db.subscriptions - subs, allocations := db.allocations - AllocationsOf(db, subs)), Completed)
  {
    var subs := SubscriptionsOfProject(db, p);
    if subs != {} {
      var db1 := DeleteAllocationsOf(db, subs);
      assert SubscriptionsOfProject(db1, p) == subs;
    } else {
      assert AllocationsOf(db, subs) == {};
    }
  }

  /** Without faults the cap-table sweep removes the project's cap tables (at most one) and their members. */
  lemma SweepCapTableClears(db: Db, db2: Db, p: Id, faults: set<Call>)
    requires |CapTablesOfProject(db, p)| <= 1
    requires CapTablesOfProject(db, p) != {} ==> Call(Delete, CapTableInvestors) !in faults && Call(Delete, CapTables) !in faults
    requires db2.capTables == db.capTables && db2.capTableInvestors == db.capTableInvestors
    ensures var cts := CapTablesOfProject(db, p);
      SweepCapTable(Stage(db2, Completed), MaybeSingle(cts, CapTables).value, faults)
        == Stage(db2.(capTables := db.capTables - cts, capTableInvestors := db.capTableInvestors - MembersOfCapTables(db, cts)), Completed)
  {
    var cts := CapTablesOfProject(db, p);
    if cts != {} {
      var ct := MaybeSingle(cts, CapTables).value.value;
      assert cts == {ct};
      assert MembersOfCapTables(db2, {ct}) == MembersOfCapTables(db, cts);
    } else {
      assert MembersOfCapTables(db, cts) == {};
    }
  }

  /** Which calls the delete issues. */
  lemma DeleteProjectCallsListed(db: Db, p: Id)
    ensures var calls := DeleteProjectCalls(db, p);
      Call(Select, CapTables) in calls && Call(Select, Subscriptions) in calls && Call(Delete, Projects) in calls
      && (SubscriptionsOfProject(db, p) != {} ==> Call(Delete, Allocations) in calls && Call(Delete, Subscriptions) in calls)
      && (CapTablesOfProject(db, p) != {} ==> Call(Delete, CapTableInvestors) in calls && Call(Delete, CapTables) in calls)
  {
    var calls := DeleteProjectCalls(db, p);
    assert calls[0] == Call(Select, CapTables) && calls[1] == Call(Select, Subscriptions);
    assert calls[|calls| - 1] == Call(Delete, Projects);
    if SubscriptionsOfProject(db, p) != {} {
      assert calls[2] == Call(Delete, Allocations) && calls[3] == Call(Delete, Subscriptions);
    }
    if CapTablesOfProject(db, p) != {} {
      assert calls[|calls| - 3] == Call(Delete, CapTableInvestors) && calls[|calls| - 2] == Call(Delete, CapTables);
    }
  }

  /** When no call before the last faults and there is at most one cap table, the dependants are cleared. */
  lemma DependantsStep(db: Db, p: Id, faults: set<Call>)
    requires |CapTablesOfProject(db, p)| <= 1
    requires forall c :: c in DeleteProjectCalls(db, p) && c != Call(Delete, Projects) ==> c !in faults
    ensures DeleteDependantsSpec(db, p, faults) == Stage(DependantsCleared(db, p), Completed)
  {
    DeleteProjectCallsListed(db, p);
    var subs := SubscriptionsOfProject(db, p);
    var cts := CapTablesOfProject(db, p);
    SweepSubscriptionsClears(db, p, faults);
    var db2 := db.(subscriptions := db.subscriptions - subs, allocations := db.allocations - AllocationsOf(db, subs));
    SweepCapTableClears(db, db2, p, faults);
    var s2 := SweepSubscriptions(Stage(db, Completed), p, subs, faults);
    assert s2 == Stage(db2, Completed);
    var ct := MaybeSingle(cts, CapTables);
    assert ct.Ok?;
    assert DeleteDependantsSpec(db, p, faults) == SweepCapTable(s2, ct.value, faults);
  }

  /**
   * A completed delete removes the project, its subscriptions, their token allocations,
   * its cap table and that cap table's members, and leaves no orphan in those tables;
   * investors, redemptions, approvers, group links, invoices and events are never touched.
   */
  lemma DeleteProjectNoOrphans(db: Db, p: Id, faults: set<Call>)
    requires Integrity(db)
    requires DeleteProjectSpec(db, p, faults).outcome == Completed
    ensures var r := DeleteProjectSpec(db, p, faults).db;
      p !in r.projects && CapTablesOfProject(r, p) == {} && SubscriptionsOfProject(r, p) == {}
      && CapTablesLinked(r) && MembersLinked(r) && SubscriptionsLinked(r) && AllocationsLinked(r)
      && RedemptionsLinked(r) && ApproversLinked(r) && GroupLinksLinked(r)
      && r.projects == db.projects - {p}
      && r.investors == db.investors && r.redemptions == db.redemptions && r.approvers == db.approvers
      && r.groupMembers == db.groupMembers && r.invoices == db.invoices && r.events == db.events
  {
    DeleteProjectCompletes(db, p, faults);
    DependantsStep(db, p, faults);
    var r := DeleteProjectRow(DependantsCleared(db, p), p);
    assert DeleteProjectSpec(db, p, faults).db == r;
    ClearedIsLinked(db, p);
  }

  /** Removing a project with its dependants keeps every foreign key but those of invoices and events resolving. */
  lemma ClearedIsLinked(db: Db, p: Id)
    requires Integrity(db)
    ensures var r := DeleteProjectRow(DependantsCleared(db, p), p);
      CapTablesLinked(r) && MembersLinked(r) && SubscriptionsLinked(r) && AllocationsLinked(r)
      && RedemptionsLinked(r) && ApproversLinked(r) && GroupLinksLinked(r)
  {
    var r := DeleteProjectRow(DependantsCleared(db, p), p);
    var subs := SubscriptionsOfProject(db, p);
    var cts := CapTablesOfProject(db, p);
    assert AllocationsLinked(r) by {
      forall k | k in r.allocations ensures r.allocations[k].subscriptionId in r.subscriptions {
        assert k !in AllocationsOf(db, subs);
      }
    }
    assert MembersLinked(r) by {
      forall k | k in r.capTableInvestors ensures r.capTableInvestors[k].capTableId in r.capTables {
        assert k !in MembersOfCapTables(db, cts);
      }
    }
  }

  /** The delete never removes subscription invoices or events, so they can be left pointing at deleted subscriptions. */
  lemma DeleteProjectOrphansInvoices()
    ensures var db := EmptyDb.(projects := map[1 := Project("p", None, "draft", "equity", NoTerms)],
                               investors := map[2 := Investor("i", "i@x", "individual", None, "not_started", None, None, None)],
                               subscriptions := map[3 := Subscription(2, 1, false, false, false, None)],
                               invoices := map[4 := SubscriptionRecord(3)]);
      Integrity(db) && DeleteProjectSpec(db, 1, {}).outcome == Completed
      && !InvoicesLinked(DeleteProjectSpec(db, 1, {}).db)
  {
    var db := EmptyDb.(projects := map[1 := Project("p", None, "draft", "equity", NoTerms)],
                       investors := map[2 := Investor("i", "i@x", "individual", None, "not_started", None, None, None)],
                       subscriptions := map[3 := Subscription(2, 1, false, false, false, None)],
                       invoices := map[4 := SubscriptionRecord(3)]);
    assert SubscriptionsOfProject(db, 1) == {3};
    assert CapTablesOfProject(db, 1) == {};
    var r := DeleteProjectSpec(db, 1, {}).db;
    assert 3 !in r.subscriptions;
    assert 4 in r.invoices;
  }

  /**
   * A failure part-way keeps everything done before it: when the project delete itself
   * faults, all dependants are gone but the project row remains.
   */
  lemma DeleteProjectLastStepFails(db: Db, p: Id, faults: set<Call>)
    requires Call(Delete, Projects) in faults
    requires forall c :: c in DeleteProjectCalls(db, p) && c != Call(Delete, Projects) ==> c !in faults
    requires |CapTablesOfProject(db, p)| <= 1
    ensures var s := DeleteProjectSpec(db, p, faults);
      s == Stage(DependantsCleared(db, p), Aborted(Fault(Call(Delete, Projects))))
      && s.db.projects == db.projects && SubscriptionsOfProject(s.db, p) == {} && CapTablesOfProject(s.db, p) == {}
  {
    DependantsStep(db, p, faults);
  }

  // ---------------------------------------------------------------------------
  // The screen

  /** The reads and dependant deletes of `handleDeleteProject`, against the store. */
  method RemoveDependants(db: Backend, p: Id, faults: set<Call>) returns (outcome: Outcome)
    modifies db
    ensures Stage(db.State(), outcome) == DeleteDependantsSpec(old(db.State()), p, faults)
  {
    var capTable, _ := db.MaybeSingleCapTableOfProject(p, Call(Select, CapTables) in faults);
    if capTable.Err? { return Aborted(capTable.error); }
    var subs := db.SelectSubscriptionsOfProject(p, Call(Select, Subscriptions) in faults);
    if subs.Err? { return Aborted(subs.error); }
    var ok: bool;
    if subs.value != {} {
      ok := db.DeleteAllocationsIn(subs.value, Call(Delete, Allocations) in faults);
      if !ok { return Aborted(Fault(Call(Delete, Allocations))); }
      ok := db.DeleteSubscriptionsWhereProject(p, Call(Delete, Subscriptions) in faults);
      if !ok { return Aborted(Fault(Call(Delete, Subscriptions))); }
    }
    if capTable.value.Some? {
      ok := db.DeleteCapTableInvestorsIn({capTable.value.value}, Call(Delete, CapTableInvestors) in faults);
      if !ok { return Aborted(Fault(Call(Delete, CapTableInvestors))); }
      ok := db.DeleteCapTable(capTable.value.value, Call(Delete, CapTables) in faults);
      if !ok { return Aborted(Fault(Call(Delete, CapTables))); }
    }
    outcome := Completed;
  }

  class Screen {
    var projects: seq<Listed>
    var stats: map<Id, Stats>
    var searchQuery: string
    var statusFilter: Option<string>
    var typeFilter: Option<string>
    var current: Option<Listed>

    /** What the screen shows: the filtered list. */
    function Shown(): seq<Listed>
      reads this
    {
      FilterProjects(projects, searchQuery, statusFilter, typeFilter)
    }

    /** `resetFilters`: clears both select filters and the search query. */
    method ResetFilters()
      modifies this`statusFilter, this`typeFilter, this`searchQuery
      ensures statusFilter == None && typeFilter == None && searchQuery == ""
      ensures Shown() == projects
    {
      statusFilter, typeFilter, searchQuery := None, None, "";
      FilterNothing(projects);
    }

    /** `handleAddProject`: on success the new project heads the list with zero statistics. */
    method AddProject(db: Backend, f: ProjectForm, newId: Id, ctId: Id, faults: set<Call>) returns (outcome: Outcome)
      modifies db, this`projects, this`stats
      ensures Stage(db.State(), outcome) == AddProjectSpec(old(db.State()), f, newId, ctId, faults)
      ensures outcome == Completed ==> projects == [Listed(newId, NewProjectRow(f))] + old(projects)
                                       && stats == old(stats)[newId := Stats(0, 0)]
      ensures outcome != Completed ==> projects == old(projects) && stats == old(stats)
    {
      var row := NewProjectRow(f);
      var existing := db.MaybeSingleProjectNamed(f.name, None, Call(Select, Projects) in faults);
      if existing.Err? { return Aborted(existing.error); }
      if existing.value.Some? { return Aborted(DuplicateName(f.name)); }
      var e := db.InsertProject(newId, row, Call(Insert, Projects) in faults);
      if e.Some? { return Aborted(e.value); }
      e := db.InsertCapTable(ctId, CapTable(newId, CapTableName(row.name)), Call(Insert, CapTables) in faults);
      if e.Some? {
        var cleaned := db.DeleteProject(newId, Call(Delete, Projects) in faults);
        return Aborted(e.value);
      }
      projects := [Listed(newId, row)] + projects;
      stats := stats[newId := Stats(0, 0)];
      outcome := Completed;
    }

    /**
     * `handleEditProject` on the project being edited; on success its list entry is
     * replaced in place by the updated row the store returns.
     */
    method EditProject(db: Backend, edit: ProjectEdit, faults: set<Call>) returns (outcome: Outcome)
      modifies db, this`projects, this`current
      ensures old(current).None? ==> outcome == Skipped && db.State() == old(db.State()) && projects == old(projects)
      ensures old(current).Some? ==> Stage(db.State(), outcome) == EditProjectSpec(old(db.State()), old(current).value, edit, faults)
      ensures old(current).Some? && outcome == Completed ==>
                old(current).value.id in old(db.projects)
                && projects == ReplaceById(old(projects), old(current).value.id, PatchProject(old(db.projects)[old(current).value.id], edit))
                && current == None
      ensures outcome != Completed ==> projects == old(projects) && current == old(current)
    {
      if current.None? { return Skipped; }
      var cur := current.value;
      var newName := edit.values.name;
      var renamed := newName != cur.row.name;
      if renamed {
        var existing := db.MaybeSingleProjectNamed(newName, Some(cur.id), Call(Select, Projects) in faults);
        if existing.Err? { return Aborted(existing.error); }
        if existing.value.Some? { return Aborted(DuplicateName(newName)); }
      }
      var updated := db.UpdateProject(cur.id, edit, Call(Update, Projects) in faults);
      if updated.Err? { return Aborted(updated.error); }
      if renamed {
        var capTable, name := db.MaybeSingleCapTableOfProject(cur.id, Call(Select, CapTables) in faults);
        if capTable.Ok? && capTable.value.Some? && name == CapTableName(cur.row.name) {
          var renamedOk := db.RenameCapTable(capTable.value.value, CapTableName(newName), Call(Update, CapTables) in faults);
        }
      }
      projects := ReplaceById(projects, cur.id, updated.value);
      current := None;
      outcome := Completed;
    }

    /** `handleDeleteProject` on the project being deleted; on success it leaves the list and the statistics. */
    method DeleteProject(db: Backend, faults: set<Call>) returns (outcome: Outcome)
      modifies db, this`projects, this`stats, this`current
      ensures old(current).None? ==> outcome == Skipped && db.State() == old(db.State()) && projects == old(projects)
      ensures old(current).Some? ==> Stage(db.State(), outcome) == DeleteProjectSpec(old(db.State()), old(current).value.id, faults)
      ensures old(current).Some? && outcome == Completed ==>
                projects == RemoveById(old(projects), old(current).value.id)
                && stats == old(stats) - {old(current).value.id} && current == None
      ensures outcome != Completed ==> projects == old(projects) && stats == old(stats) && current == old(current)
    {
      if current.None? { return Skipped; }
      var p := current.value.id;
      outcome := RemoveDependants(db, p, faults);
      if outcome.Aborted? { return; }
      var ok := db.DeleteProject(p, Call(Delete, Projects) in faults);
      if !ok { return Aborted(Fault(Call(Delete, Projects))); }
      projects := RemoveById(projects, p);
      stats := stats - {p};
      current := None;
      outcome := Completed;
    }
  }
}
