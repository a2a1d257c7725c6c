/**
 * The activity monitor screen: one page of 20 audit rows fetched with the chosen
 * filters, searched on the client, with the option lists, the page count guess,
 * the five-link page window and the status badges derived from it.
 */
module ActivityMonitor {
  import opened Common
  import opened Text
  import opened AuditLogs

  const ItemsPerPage := 20

  // ---------------------------------------------------------------------------
  // Paging

  /** The rows page `page` asks for: from `(page - 1) * 20` through 19 rows further, inclusive. */
  function PageRange(page: int): (r: (int, int))
    ensures r.1 - r.0 + 1 == ItemsPerPage
    ensures r.0 == (page - 1) * ItemsPerPage
  {
    var offset := (page - 1) * ItemsPerPage;
    (offset, offset + ItemsPerPage - 1)
  }

  /** Every row index lies on exactly one page: row `k` is on page `k / 20 + 1`. */
  lemma RowOnOnePage(page: int, k: nat)
    requires page >= 1
    ensures PageRange(page).0 <= k <= PageRange(page).1 <==> k / ItemsPerPage + 1 == page
  {
    var lo := (page - 1) * ItemsPerPage;
    if lo <= k <= lo + ItemsPerPage - 1 {
      assert k - lo < ItemsPerPage;
      assert k == lo + (k - lo);
    }
  }

  /** The page-count guess: one more page when the page came back full, never below 1. */
  function TotalPages(shown: nat, page: int): (r: int)
    ensures r >= 1 && r >= page
    ensures page >= 1 ==> (r == page + 1 <==> shown == ItemsPerPage)
    ensures page >= 1 && shown != ItemsPerPage ==> r == page
  {
    if shown == ItemsPerPage then Max(1, page + 1) else Max(1, page)
  }

  function Max(a: int, b: int): int {
    if a < b then b else a
  }

  function Min(a: int, b: int): int {
    if a < b then a else b
  }

  /** Previous page: one back, never before page 1. */
  function PreviousPage(page: int): (r: int)
    ensures r >= 1
    ensures page > 1 ==> r == page - 1
    ensures page <= 1 ==> r == 1
  {
    Max(1, page - 1)
  }

  /** Next page: one on, never past the last page. */
  function NextPage(page: int, totalPages: int): (r: int)
    ensures r <= totalPages
    ensures page < totalPages ==> r == page + 1
    ensures page + 1 >= totalPages ==> r == totalPages
  {
    Min(totalPages, page + 1)
  }

  /** Link `i` of the page window. */
  function WindowPage(page: int, totalPages: int, i: int): int {
    if totalPages <= 5 then i + 1
    else if page <= 3 then i + 1
    else if page >= totalPages - 2 then totalPages - 4 + i
    else page - 2 + i
  }

  /** The page numbers of the window: `min(5, totalPages)` links (none for a count below 1). */
  function PageWindow(page: int, totalPages: int): seq<int> {
    var n := Max(0, Min(5, totalPages));
    seq(n, i requires 0 <= i < n => WindowPage(page, totalPages, i))
  }

  /**
   * The window shows `min(5, totalPages)` consecutive pages, all between 1 and
   * `totalPages`, and it shows the current page whenever that is in range.
   */
  lemma PageWindowShape(page: int, totalPages: int)
    requires totalPages >= 1
    ensures var w := PageWindow(page, totalPages);
      |w| == Min(5, totalPages)
      && (forall i :: 0 <= i < |w| - 1 ==> w[i + 1] == w[i] + 1)
      && (forall i :: 0 <= i < |w| ==> 1 <= w[i] <= totalPages)
      && (1 <= page <= totalPages ==> page in w)
  {
    var w := PageWindow(page, totalPages);
    if 1 <= page <= totalPages {
      var first := WindowPage(page, totalPages, 0);
      assert 0 <= page - first < |w|;
      assert w[page - first] == page;
    }
  }

  // ---------------------------------------------------------------------------
  // Client-side search

  /** A present, non-empty field whose lower-cased text includes `query`. */
  predicate FieldMatches(field: Option<string>, query: string) {
    Truthy(field) && Contains(Lower(field.value), query)
  }

  /** The five searched columns; `query` is already lower-cased. */
  predicate MatchesSearch(log: AuditLog, query: string) {
    FieldMatches(log.userEmail, query) || FieldMatches(Some(log.action), query)
    || FieldMatches(log.entityType, query) || FieldMatches(log.entityId, query)
    || FieldMatches(log.details, query)
  }

  /** The search box: an empty query keeps every row; otherwise the rows matching it, case-blind. */
  function Search(logs: seq<AuditLog>, searchQuery: string): (r: seq<AuditLog>)
    ensures forall x :: x in r <==> x in logs && (searchQuery == "" || MatchesSearch(x, Lower(searchQuery)))
    ensures searchQuery == "" ==> r == logs
  {
    if searchQuery == "" then logs
    else
      var query := Lower(searchQuery);
      Filter(logs, log => MatchesSearch(log, query))
  }

  /** A row with no searchable text is never found by a non-empty query. */
  lemma NullFieldsNeverMatch(logs: seq<AuditLog>, log: AuditLog, searchQuery: string)
    requires searchQuery != ""
    requires log.userEmail == None && log.entityType == None && log.entityId == None && log.details == None && log.action == ""
    ensures log !in Search(logs, searchQuery)
  {
  }

  lemma {:induction false} LowerTwice(s: string)
    ensures Lower(Lower(s)) == Lower(s)
  {
  }

  /** The query's case does not matter: searching for it and for its lower-cased form agree. */
  lemma SearchIgnoresQueryCase(logs: seq<AuditLog>, searchQuery: string)
    ensures Search(logs, searchQuery) == Search(logs, Lower(searchQuery))
  {
    if searchQuery != "" {
      LowerTwice(searchQuery);
      FilterAgrees(logs, log => MatchesSearch(log, Lower(searchQuery)), log => MatchesSearch(log, Lower(Lower(searchQuery))));
    }
  }

  /**
   * The search keeps the fetched order: searching two runs of rows one after the other
   * gives the two searches one after the other, so a kept row never overtakes another.
   */
  lemma SearchKeepsOrder(earlier: seq<AuditLog>, later: seq<AuditLog>, searchQuery: string)
    ensures Search(earlier + later, searchQuery) == Search(earlier, searchQuery) + Search(later, searchQuery)
  {
    if searchQuery != "" {
      FilterConcat(earlier, later, log => MatchesSearch(log, Lower(searchQuery)));
    }
  }

  // ---------------------------------------------------------------------------
  // Option lists

  predicate NoDuplicates(xs: seq<string>) {
    forall i, j :: 0 <= i < j < |xs| ==> xs[i] != xs[j]
  }

  /** `Array.from(new Set(values.filter(Boolean)))`. */
  function DistinctNonEmpty(values: seq<Option<string>>): (r: seq<string>)
    ensures forall s :: s in r <==> Some(s) in values && s != ""
    ensures NoDuplicates(r)
    decreases |values|
  {
    if values == [] then []
    else
      var init := values[..|values| - 1];
      var last := values[|values| - 1];
      var r := DistinctNonEmpty(init);
      assert forall v :: v in values <==> v in init || v == last;
      if Truthy(last) && last.value !in r then r + [last.value] else r
  }

  /** Each listed value occurs in `values` before any occurrence of the values listed after it. */
  predicate FirstOccurrenceOrder(values: seq<Option<string>>, r: seq<string>) {
    forall i, j :: 0 <= i < j < |r| ==>
      exists k :: 0 <= k < |values| && values[k] == Some(r[i]) && Some(r[j]) !in values[..k]
  }

  lemma {:induction false} DistinctInFirstOccurrenceOrder(values: seq<Option<string>>)
    ensures FirstOccurrenceOrder(values, DistinctNonEmpty(values))
    decreases |values|
  {
    if values != [] {
      var init := values[..|values| - 1];
      var last := values[|values| - 1];
      var r0 := DistinctNonEmpty(init);
      DistinctInFirstOccurrenceOrder(init);
      var r := DistinctNonEmpty(values);
      forall i, j | 0 <= i < j < |r|
        ensures exists k :: 0 <= k < |values| && values[k] == Some(r[i]) && Some(r[j]) !in values[..k]
      {
        if j < |r0| {
          assert r[i] == r0[i] && r[j] == r0[j];
          var k :| 0 <= k < |init| && init[k] == Some(r0[i]) && Some(r0[j]) !in init[..k];
          assert values[..k] == init[..k];
          assert values[k] == Some(r[i]);
        } else {
          assert r[i] == r0[i] && r[j] == last.value && last.value !in r0;
          var k :| 0 <= k < |init| && init[k] == Some(r[i]);
          assert Some(r[j]) !in init;
          assert values[..k] == init[..k];
          assert values[k] == Some(r[i]);
        }
      }
    }
  }

  /** The action options of a fetched page. */
  function ActionOptions(data: seq<AuditLog>): (r: seq<string>)
    ensures forall s :: s in r <==> s != "" && exists x :: x in data && x.action == s
    ensures NoDuplicates(r)
  {
    var values := seq(|data|, i requires 0 <= i < |data| => Some(data[i].action));
    assert forall s :: Some(s) in values <==> exists x :: x in data && x.action == s by {
      forall s | exists x :: x in data && x.action == s
        ensures Some(s) in values
      {
        var x :| x in data && x.action == s;
        var i :| 0 <= i < |data| && data[i] == x;
        assert values[i] == Some(s);
      }
    }
    DistinctNonEmpty(values)
  }

  /** The entity-type options of a fetched page. */
  function EntityOptions(data: seq<AuditLog>): (r: seq<string>)
    ensures forall s :: s in r <==> s != "" && exists x :: x in data && x.entityType == Some(s)
    ensures NoDuplicates(r)
  {
    var values := seq(|data|, i requires 0 <= i < |data| => data[i].entityType);
    assert forall s :: Some(s) in values <==> exists x :: x in data && x.entityType == Some(s) by {
      forall s | exists x :: x in data && x.entityType == Some(s)
        ensures Some(s) in values
      {
        var x :| x in data && x.entityType == Some(s);
        var i :| 0 <= i < |data| && data[i] == x;
        assert values[i] == Some(s);
      }
    }
    DistinctNonEmpty(values)
  }

  // ---------------------------------------------------------------------------
  // Status badges

  datatype Badge = UnknownBadge | SuccessBadge | FailedBadge | PendingBadge | PlainBadge(text: string)

  /** `getStatusBadge`: the known statuses in any letter case, anything else shown as written. */
  function StatusBadge(status: Option<string>): (r: Badge)
    ensures r == UnknownBadge <==> !Truthy(status)
    ensures r == SuccessBadge <==> Truthy(status) && Lower(status.value) == "success"
    ensures r == FailedBadge <==> Truthy(status) && (Lower(status.value) == "failure" || Lower(status.value) == "failed")
    ensures r == PendingBadge <==> Truthy(status) && Lower(status.value) == "pending"
    ensures r.PlainBadge? ==> Truthy(status) && r.text == status.value
  {
    if !Truthy(status) then UnknownBadge
    else
      match Lower(status.value)
      case "success" => SuccessBadge
      case "failure" => FailedBadge
      case "failed" => FailedBadge
      case "pending" => PendingBadge
      case _ => PlainBadge(status.value)
  }

  /** Statuses that differ only in letter case get the same badge, unless shown as written. */
  lemma BadgeIgnoresCase(a: string, b: string)
    requires a != "" && b != "" && Lower(a) == Lower(b)
    ensures StatusBadge(Some(a)).PlainBadge? <==> StatusBadge(Some(b)).PlainBadge?
    ensures !StatusBadge(Some(a)).PlainBadge? ==> StatusBadge(Some(a)) == StatusBadge(Some(b))
  {
  }

  // ---------------------------------------------------------------------------
  // The screen

  /** The five filter fields of the screen. */
  datatype FilterKey = ActionTypeKey | EntityTypeKey | StatusKey | StartDateKey | EndDateKey

  datatype Filters = Filters(actionType: string, entityType: string, status: string, startDate: string, endDate: string) {
    function Get(key: FilterKey): string {
      match key
      case ActionTypeKey => actionType
      case EntityTypeKey => entityType
      case StatusKey => status
      case StartDateKey => startDate
      case EndDateKey => endDate
    }

    function With(key: FilterKey, value: string): (r: Filters)
      ensures r.Get(key) == value
      ensures forall k :: k != key ==> r.Get(k) == Get(k)
    {
      match key
      case ActionTypeKey => this.(actionType := value)
      case EntityTypeKey => this.(entityType := value)
      case StatusKey => this.(status := value)
      case StartDateKey => this.(startDate := value)
      case EndDateKey => this.(endDate := value)
    }
  }

  const NoFilters := Filters("", "", "", "", "")

  /**
   * A refinement of the page query for one filter: equality on `action`,
   * `entity_type` or `status`, or a lower or upper bound on `timestamp`.
   */
  datatype Refinement = Refinement(key: FilterKey, value: string)

  /** The tab-specific action patterns (evaluated by the store, not modelled). */
  datatype TabPattern = AnyAction | AuthActions | DataActions | AdminActions

  function TabPatternOf(tab: string): TabPattern {
    if tab == "auth" then AuthActions
    else if tab == "data" then DataActions
    else if tab == "admin" then AdminActions
    else AnyAction
  }

  /** The page query: newest first by `timestamp`, a row range, filter refinements and the tab pattern. */
  datatype PageQuery = PageQuery(range: (int, int), refinements: seq<Refinement>, tab: TabPattern)

  /** What the backend answers: an error, or rows (possibly `null`). */
  datatype Response = Failed | Rows(data: Option<seq<AuditLog>>)

  /** The position of a filter field in the form, the order the query applies them in. */
  function Rank(key: FilterKey): nat {
    match key
    case ActionTypeKey => 0
    case EntityTypeKey => 1
    case StatusKey => 2
    case StartDateKey => 3
    case EndDateKey => 4
  }

  /**
   * `refinements` holds exactly one refinement, with its value, for each non-empty
   * filter among the first `n` fields, in field order.
   */
  ghost predicate Covers(refinements: seq<Refinement>, filters: Filters, n: nat) {
    (forall k, v :: Refinement(k, v) in refinements <==> Rank(k) < n && v == filters.Get(k) && v != "")
    && (forall i, j :: 0 <= i < j < |refinements| ==> Rank(refinements[i].key) < Rank(refinements[j].key))
    && (forall i :: 0 <= i < |refinements| ==> Rank(refinements[i].key) < n)
  }

  lemma Refine(refinements: seq<Refinement>, filters: Filters, key: FilterKey)
    requires Covers(refinements, filters, Rank(key)) && filters.Get(key) != ""
    ensures Covers(refinements + [Refinement(key, filters.Get(key))], filters, Rank(key) + 1)
  {
    var r := refinements + [Refinement(key, filters.Get(key))];
    forall k, v
      ensures Refinement(k, v) in r <==> Rank(k) < Rank(key) + 1 && v == filters.Get(k) && v != ""
    {
      if Rank(k) == Rank(key) {
        assert k == key;
      }
    }
  }

  lemma Unrefined(refinements: seq<Refinement>, filters: Filters, key: FilterKey)
    requires Covers(refinements, filters, Rank(key)) && filters.Get(key) == ""
    ensures Covers(refinements, filters, Rank(key) + 1)
  {
    forall k, v
      ensures Refinement(k, v) in refinements <==> Rank(k) < Rank(key) + 1 && v == filters.Get(k) && v != ""
    {
      if Rank(k) == Rank(key) {
        assert k == key;
      }
    }
  }

  /** The query for `page` under `filters`: one refinement per non-empty filter, in field order. */
  ghost predicate QueryFor(q: PageQuery, page: int, filters: Filters, tab: string) {
    q.range == PageRange(page) && q.tab == TabPatternOf(tab) && Covers(q.refinements, filters, 5)
  }

  /** The refinement for one field: none when the field is empty. */
  function Piece(f: Filters, key: FilterKey): seq<Refinement> {
    if f.Get(key) != "" then [Refinement(key, f.Get(key))] else []
  }

  /** The refinements of the first fields, up to and including `key`. */
  function PiecesThrough(f: Filters, key: FilterKey): seq<Refinement>
    decreases Rank(key)
  {
    match key
    case ActionTypeKey => Piece(f, ActionTypeKey)
    case EntityTypeKey => PiecesThrough(f, ActionTypeKey) + Piece(f, EntityTypeKey)
    case StatusKey => PiecesThrough(f, EntityTypeKey) + Piece(f, StatusKey)
    case StartDateKey => PiecesThrough(f, StatusKey) + Piece(f, StartDateKey)
    case EndDateKey => PiecesThrough(f, StartDateKey) + Piece(f, EndDateKey)
  }

  lemma Step(f: Filters, before: seq<Refinement>, key: FilterKey)
    requires Covers(before, f, Rank(key))
    ensures Covers(before + Piece(f, key), f, Rank(key) + 1)
  {
    if f.Get(key) != "" {
      Refine(before, f, key);
    } else {
      Unrefined(before, f, key);
      assert before + Piece(f, key) == before;
    }
  }

  /** All five fields' refinements cover the filters. */
  lemma PiecesCover(f: Filters)
    ensures Covers(PiecesThrough(f, EndDateKey), f, 5)
  {
    assert Covers([], f, 0);
    Step(f, [], ActionTypeKey);
    assert [] + Piece(f, ActionTypeKey) == PiecesThrough(f, ActionTypeKey);
    Step(f, PiecesThrough(f, ActionTypeKey), EntityTypeKey);
    Step(f, PiecesThrough(f, EntityTypeKey), StatusKey);
    Step(f, PiecesThrough(f, StatusKey), StartDateKey);
    Step(f, PiecesThrough(f, StartDateKey), EndDateKey);
  }

  /** The filter refinements of `loadLogs`, one `if` per field. */
  method RefinementsOf(f: Filters) returns (refinements: seq<Refinement>)
    ensures Covers(refinements, f, 5)
  {
    refinements := [];
    if f.actionType != "" {
      refinements := refinements + [Refinement(ActionTypeKey, f.actionType)];
    }
    assert refinements == PiecesThrough(f, ActionTypeKey);
    if f.entityType != "" {
      refinements := refinements + [Refinement(EntityTypeKey, f.entityType)];
    }
    assert refinements == PiecesThrough(f, EntityTypeKey);
    if f.status != "" {
      refinements := refinements + [Refinement(StatusKey, f.status)];
    }
    assert refinements == PiecesThrough(f, StatusKey);
    if f.startDate != "" {
      refinements := refinements + [Refinement(StartDateKey, f.startDate)];
    }
    assert refinements == PiecesThrough(f, StartDateKey);
    if f.endDate != "" {
      refinements := refinements + [Refinement(EndDateKey, f.endDate)];
    }
    assert refinements == PiecesThrough(f, EndDateKey);
    PiecesCover(f);
  }

  class Screen {
    var logs: seq<AuditLog>
    var page: int
    var totalPages: int
    var searchQuery: string
    var filters: Filters
    var activeTab: string
    var actionTypes: seq<string>
    var entityTypes: seq<string>

    /** The page shown is always one of the pages the pager offers. */
    predicate Valid()
      reads this
    {
      1 <= page <= totalPages
    }

    constructor ()
      ensures Valid()
      ensures logs == [] && page == 1 && totalPages == 1 && searchQuery == "" && filters == NoFilters
      ensures activeTab == "all" && actionTypes == [] && entityTypes == []
    {
      logs := [];
      page := 1;
      totalPages := 1;
      searchQuery := "";
      filters := NoFilters;
      activeTab := "all";
      actionTypes := [];
      entityTypes := [];
    }

    /** The query of `loadLogs`, refined one non-empty filter at a time. */
    method BuildQuery() returns (q: PageQuery)
      ensures QueryFor(q, page, filters, activeTab)
    {
      var refinements := RefinementsOf(filters);
      q := PageQuery(PageRange(page), refinements, TabPatternOf(activeTab));
    }

    /**
     * `loadLogs`: sends the page query and takes the backend's answer. An error
     * empties the list and leaves the rest; rows are searched on the client, the
     * option lists come from the unsearched rows, and the page count is guessed.
     */
    method LoadLogs(answer: PageQuery -> Response) returns (q: PageQuery)
      requires Valid()
      modifies this`logs, this`totalPages, this`actionTypes, this`entityTypes
      ensures Valid()
      ensures QueryFor(q, page, filters, activeTab)
      ensures answer(q).Failed? ==>
        logs == [] && totalPages == old(totalPages) && actionTypes == old(actionTypes) && entityTypes == old(entityTypes)
      ensures answer(q).Rows? ==>
        var data := answer(q).data;
        logs == Search(data.GetOr([]), searchQuery)
        && totalPages == TotalPages(|logs|, page)
        && (data.Some? ==> actionTypes == ActionOptions(data.value) && entityTypes == EntityOptions(data.value))
        && (data.None? ==> actionTypes == old(actionTypes) && entityTypes == old(entityTypes))
    {
      q := BuildQuery();
      var response := answer(q);
      if response.Failed? {
        logs := [];
        return;
      }
      var data := response.data;
      logs := Search(data.GetOr([]), searchQuery);
      if data.Some? {
        actionTypes := ActionOptions(data.value);
        entityTypes := EntityOptions(data.value);
      }
      totalPages := TotalPages(|logs|, page);
    }

    /** `handleFilterChange`: one filter set, back to page 1. */
    method HandleFilterChange(key: FilterKey, value: string)
      requires Valid()
      modifies this`filters, this`page
      ensures Valid()
      ensures filters == old(filters).With(key, value) && page == 1
    {
      filters := filters.With(key, value);
      page := 1;
    }

    /** `resetFilters`: every filter and the search cleared, back to page 1. */
    method ResetFilters()
      requires Valid()
      modifies this`filters, this`searchQuery, this`page
      ensures Valid()
      ensures filters == NoFilters && searchQuery == "" && page == 1
      ensures forall k :: filters.Get(k) == ""
    {
      filters := NoFilters;
      searchQuery := "";
      page := 1;
    }

    /** The Previous link. */
    method GoPrevious()
      requires Valid()
      modifies this`page
      ensures Valid()
      ensures page == PreviousPage(old(page))
    {
      page := PreviousPage(page);
    }

    /** The Next link. */
    method GoNext()
      requires Valid()
      modifies this`page
      ensures Valid()
      ensures page == NextPage(old(page), totalPages)
    {
      page := NextPage(page, totalPages);
    }

    /** A numbered link of the page window. */
    method GoToPage(n: int)
      requires Valid() && n in PageWindow(page, totalPages)
      modifies this`page
      ensures Valid()
      ensures page == n
    {
      PageWindowShape(page, totalPages);
      page := n;
    }
  }
}
