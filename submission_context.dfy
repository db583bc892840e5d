/**
 * The submissions store of the frontend: its reducer, and the filtered and sorted list the
 * submissions page shows.
 */
module SubmissionContext {
  import opened Wrappers
  import opened Seqs
  import opened Text
  import opened SubmissionTypes

  datatype Pagination = Pagination(page: int, limit: int, total: int, totalPages: int)

  /** A `Partial` pagination: the keys it carries override the current ones. */
  datatype PaginationPatch = PaginationPatch(page: Option<int>, limit: Option<int>, total: Option<int>, totalPages: Option<int>)

  datatype State = State(
    submissions: seq<Submission>,
    currentSubmission: Option<Submission>,
    isLoading: bool,
    error: Option<string>,
    filters: FilterOptions,
    sortOption: SortOption,
    searchQuery: string,
    selectedSubmissions: seq<string>,
    pagination: Pagination)

  const INITIAL_STATE: State := State(
    [], None, false, None, NO_FILTERS, SortOption("submissionDate", Desc, "Newest First"), "", [],
    Pagination(1, 25, 0, 0))

  datatype Action =
    | SetLoading(loading: bool)
    | SetError(message: Option<string>)
    | SetSubmissions(list: seq<Submission>)
    | SetCurrentSubmission(current: Option<Submission>)
    | UpdateSubmission(updated: Submission)
    | AddSubmission(added: Submission)
    | RemoveSubmission(removedId: string)
    | SetFilters(newFilters: FilterOptions)
    | SetSort(newSort: SortOption)
    | SetSearch(query: string)
    | SetSelected(ids: seq<string>)
    | ToggleSelected(toggled: string)
    | SetPagination(patch: PaginationPatch)
    | ClearFilters

  /** `map(sub => sub.id === p.id ? p : sub)`. */
  function ReplaceById(s: seq<Submission>, p: Submission): (r: seq<Submission>)
    ensures |r| == |s|
    ensures forall i | 0 <= i < |s| :: r[i] == (if s[i].id == p.id then p else s[i])
  {
    if s == [] then [] else [if s[0].id == p.id then p else s[0]] + ReplaceById(s[1..], p)
  }

  function WithoutId(s: seq<Submission>, id: string): (r: seq<Submission>)
    ensures forall x | x in r :: x.id != id
    ensures forall x | x in s && x.id != id :: x in r
    ensures IsSubsequence(r, s)
  {
    Filter(s, (x: Submission) => x.id != id)
  }

  function Patch(p: Pagination, patch: PaginationPatch): Pagination {
    Pagination(patch.page.GetOr(p.page), patch.limit.GetOr(p.limit), patch.total.GetOr(p.total),
               patch.totalPages.GetOr(p.totalPages))
  }

  /** `submissionReducer`. */
  function Reduce(state: State, action: Action): State {
    match action
    case SetLoading(b) => state.(isLoading := b)
    case SetError(e) => state.(error := e, isLoading := false)
    case SetSubmissions(list) => state.(submissions := list, isLoading := false)
    case SetCurrentSubmission(c) => state.(currentSubmission := c)
    case UpdateSubmission(p) =>
      state.(submissions := ReplaceById(state.submissions, p),
             currentSubmission :=
               if state.currentSubmission.Some? && state.currentSubmission.value.id == p.id then Some(p)
               else state.currentSubmission)
    case AddSubmission(p) => state.(submissions := [p] + state.submissions)
    case RemoveSubmission(id) =>
      state.(submissions := WithoutId(state.submissions, id),
             currentSubmission :=
               if state.currentSubmission.Some? && state.currentSubmission.value.id == id then None
               else state.currentSubmission)
    case SetFilters(f) => state.(filters := f)
    case SetSort(o) => state.(sortOption := o)
    case SetSearch(q) => state.(searchQuery := q)
    case SetSelected(ids) => state.(selectedSubmissions := ids)
    case ToggleSelected(id) => state.(selectedSubmissions := Toggle(state.selectedSubmissions, id))
    case SetPagination(patch) => state.(pagination := Patch(state.pagination, patch))
    case ClearFilters => state.(filters := NO_FILTERS, searchQuery := "")
  }

  /**
   * UPDATE_SUBMISSION replaces exactly the entries with the payload's id, keeps the
   * length, replaces the current submission only on an id match, and changes nothing else.
   */
  lemma UpdateReplacesMatching(state: State, p: Submission)
    ensures var next := Reduce(state, UpdateSubmission(p));
      && |next.submissions| == |state.submissions|
      && (forall i | 0 <= i < |state.submissions| && state.submissions[i].id == p.id :: next.submissions[i] == p)
      && (forall i | 0 <= i < |state.submissions| && state.submissions[i].id != p.id ::
            next.submissions[i] == state.submissions[i])
      && (state.currentSubmission.Some? && state.currentSubmission.value.id == p.id ==> next.currentSubmission == Some(p))
      && (state.currentSubmission.None? || state.currentSubmission.value.id != p.id ==>
            next.currentSubmission == state.currentSubmission)
      && next == state.(submissions := next.submissions, currentSubmission := next.currentSubmission)
  {
  }

  /** ADD_SUBMISSION puts the payload in front of the unchanged list. */
  lemma AddPrepends(state: State, p: Submission)
    ensures var next := Reduce(state, AddSubmission(p));
      |next.submissions| == |state.submissions| + 1 && next.submissions[0] == p
      && next.submissions[1..] == state.submissions
  {
  }

  /**
   * REMOVE_SUBMISSION removes every entry with the id, keeps all others in order, and
   * clears the current submission exactly when it has that id.
   */
  lemma RemoveDropsId(state: State, id: string)
    ensures var next := Reduce(state, RemoveSubmission(id));
      && (forall x | x in next.submissions :: x.id != id)
      && (forall x | x in state.submissions && x.id != id :: x in next.submissions)
      && IsSubsequence(next.submissions, state.submissions)
      && (next.currentSubmission.None? <==> state.currentSubmission.None? || state.currentSubmission.value.id == id)
  {
  }

  /** CLEAR_FILTERS empties filters and search and keeps everything else. */
  lemma ClearFiltersKeepsRest(state: State)
    ensures Reduce(state, ClearFilters) == state.(filters := NO_FILTERS, searchQuery := "")
    ensures Reduce(state, ClearFilters).sortOption == state.sortOption
    ensures Reduce(state, ClearFilters).selectedSubmissions == state.selectedSubmissions
    ensures Reduce(state, ClearFilters).submissions == state.submissions
  {
  }

  /** SET_ERROR and SET_SUBMISSIONS end loading. */
  lemma LoadingEnds(state: State, e: Option<string>, list: seq<Submission>)
    ensures !Reduce(state, SetError(e)).isLoading && Reduce(state, SetError(e)).error == e
    ensures !Reduce(state, SetSubmissions(list)).isLoading && Reduce(state, SetSubmissions(list)).submissions == list
  {
  }

  /**
   * TOGGLE_SELECTED removes every occurrence of a selected id and appends an unselected
   * one; dispatching it twice for an unselected id restores the whole state.
   */
  lemma ToggleSelectedEffect(state: State, id: string)
    ensures var next := Reduce(state, ToggleSelected(id));
      && next == state.(selectedSubmissions := next.selectedSubmissions)
      && (id in state.selectedSubmissions ==>
            id !in next.selectedSubmissions
            && multiset(next.selectedSubmissions) == multiset(state.selectedSubmissions)[id := 0])
      && (id !in state.selectedSubmissions ==> next.selectedSubmissions == state.selectedSubmissions + [id])
    ensures id !in state.selectedSubmissions ==> Reduce(Reduce(state, ToggleSelected(id)), ToggleSelected(id)) == state
  {
    if id !in state.selectedSubmissions {
      RemoveAllAppendAbsent(state.selectedSubmissions, id);
    }
  }

  /** Every action except SET_SELECTED keeps the selection duplicate-free. */
  lemma SelectionStaysDuplicateFree(state: State, action: Action)
    requires NoDuplicates(state.selectedSubmissions) && !action.SetSelected?
    ensures NoDuplicates(Reduce(state, action).selectedSubmissions)
  {
    if action.ToggleSelected? {
      ToggleTwice(state.selectedSubmissions, action.toggled);
    }
  }

  // ---------------------------------------------------------------------------
  // Filtering

  predicate MatchesSearch(sub: Submission, query: string) {
    query == "" ||
    var q := ToLower(query);
    Contains(ToLower(sub.reference), q) || Contains(ToLower(sub.insured.name), q) || Contains(ToLower(sub.cedant.name), q)
  }

  /** `list?.length` is truthy: a present, non-empty array. */
  predicate ActiveList<T>(slot: Slot<seq<T>>) {
    slot.Val? && |slot.v| > 0
  }

  /** `date >= bound`: a missing bound compares false, `null` compares as 0. */
  predicate AtOrAfter(date: int, bound: Slot<int>) {
    match bound
    case Val(b) => date >= b
    case Null => date >= 0
    case _ => false
  }

  predicate AtOrBefore(date: int, bound: Slot<int>) {
    match bound
    case Val(b) => date <= b
    case Null => date <= 0
    case _ => false
  }

  predicate MatchesDates(sub: Submission, range: Slot<DateRange>) {
    !range.Val? || (AtOrAfter(sub.submissionDate, range.v.from) && AtOrBefore(sub.submissionDate, range.v.to))
  }

  /** Whether the page shows `sub`. The cedant, assignee and amount filters are never applied. */
  predicate Matches(state: State, sub: Submission) {
    && MatchesSearch(sub, state.searchQuery)
    && (!ActiveList(state.filters.status) || sub.status in state.filters.status.v)
    && (!ActiveList(state.filters.priority) || sub.priority in state.filters.priority.v)
    && (!ActiveList(state.filters.classOfBusiness) || sub.riskDetails.classOfBusiness in state.filters.classOfBusiness.v)
    && MatchesDates(sub, state.filters.dateRange)
  }

  /** The first `k` of the five checks `Matches` makes, in the order the page applies them. */
  ghost predicate PassesFirst(state: State, sub: Submission, k: nat) {
    && (k < 1 || MatchesSearch(sub, state.searchQuery))
    && (k < 2 || !ActiveList(state.filters.status) || sub.status in state.filters.status.v)
    && (k < 3 || !ActiveList(state.filters.priority) || sub.priority in state.filters.priority.v)
    && (k < 4 || !ActiveList(state.filters.classOfBusiness) || sub.riskDetails.classOfBusiness in state.filters.classOfBusiness.v)
    && (k < 5 || MatchesDates(sub, state.filters.dateRange))
  }

  /** The test made by the first `k` checks. */
  ghost function PassesFirstK(state: State, k: nat): Submission -> bool {
    (x: Submission) => PassesFirst(state, x, k)
  }

  /**
   * `s` is the list filtered by the first `k` checks: exactly the submissions passing them,
   * each as often as in the list and in the list's order.
   */
  ghost predicate Staged(state: State, s: seq<Submission>, k: nat) {
    s == Filter(state.submissions, PassesFirstK(state, k))
  }

  lemma Staged0(state: State)
    ensures Staged(state, state.submissions, 0)
  {
    FilterKeepsAll(state.submissions, PassesFirstK(state, 0));
  }

  /** Filtering by check `k` after the first `k - 1` passes the first `k`. */
  lemma NarrowStep(state: State, prev: seq<Submission>, k: nat, p: Submission -> bool)
    requires 1 <= k && Staged(state, prev, k - 1)
    requires forall x :: PassesFirst(state, x, k) == (PassesFirst(state, x, k - 1) && p(x))
    ensures Staged(state, Filter(prev, p), k)
  {
    FilterTwice(state.submissions, PassesFirstK(state, k - 1), p, PassesFirstK(state, k));
  }

  /** An inactive check `k` keeps the list staged for the first `k`. */
  lemma SkipStep(state: State, s: seq<Submission>, k: nat)
    requires 1 <= k && Staged(state, s, k - 1)
    requires forall x :: PassesFirst(state, x, k) == PassesFirst(state, x, k - 1)
    ensures Staged(state, s, k)
  {
    FilterSameTest(state.submissions, PassesFirstK(state, k - 1), PassesFirstK(state, k));
  }

  /** The date filter is inclusive at both ends, and a range with a missing bound shows nothing. */
  lemma DateRangeInclusive(sub: Submission, from: int, to: int, bound: Slot<int>)
    ensures MatchesDates(sub, Val(DateRange(Val(from), Val(to)))) <==> from <= sub.submissionDate <= to
    ensures bound.Absent? || bound.Undefined? ==>
      !MatchesDates(sub, Val(DateRange(bound, Val(to)))) && !MatchesDates(sub, Val(DateRange(Val(from), bound)))
  {
  }

  // ---------------------------------------------------------------------------
  // Sorting

  datatype SortKey = NumKey(n: real) | StrKey(s: string)

  function PriorityRank(p: Priority): int {
    match p
    case Urgent => 4
    case High => 3
    case Medium => 2
    case Low => 1
  }

  function KeyOf(field: string, sub: Submission): SortKey {
    if field == "submissionDate" then NumKey(sub.submissionDate as real)
    else if field == "dueDate" then NumKey(sub.dueDate as real)
    else if field == "sumInsured" then NumKey(sub.riskDetails.sumInsured)
    else if field == "priority" then NumKey(PriorityRank(sub.priority) as real)
    else StrKey(sub.reference)
  }

  predicate KeyLe(a: SortKey, b: SortKey) {
    match (a, b)
    case (NumKey(x), NumKey(y)) => x <= y
    case (StrKey(x), StrKey(y)) => StrLe(x, y)
    case (NumKey(_), StrKey(_)) => true
    case (StrKey(_), NumKey(_)) => false
  }

  /** `a` may precede `b` under the sort option. */
  predicate InOrder(option: SortOption, a: Submission, b: Submission) {
    if option.direction == Asc then KeyLe(KeyOf(option.field, a), KeyOf(option.field, b))
    else KeyLe(KeyOf(option.field, b), KeyOf(option.field, a))
  }

  lemma InOrderTotal(option: SortOption, a: Submission, b: Submission)
    ensures InOrder(option, a, b) || InOrder(option, b, a)
  {
    var ka, kb := KeyOf(option.field, a), KeyOf(option.field, b);
    if ka.StrKey? && kb.StrKey? {
      StrLeTotal(ka.s, kb.s);
    }
  }

  lemma InOrderTransitive(option: SortOption, a: Submission, b: Submission, c: Submission)
    requires InOrder(option, a, b) && InOrder(option, b, c)
    ensures InOrder(option, a, c)
  {
    var ka, kb, kc := KeyOf(option.field, a), KeyOf(option.field, b), KeyOf(option.field, c);
    if ka.StrKey? && kb.StrKey? && kc.StrKey? {
      if option.direction == Asc {
        StrLeTransitive(ka.s, kb.s, kc.s);
      } else {
        StrLeTransitive(kc.s, kb.s, ka.s);
      }
    }
  }

  predicate SortedBy(s: seq<Submission>, option: SortOption) {
    forall i, j | 0 <= i < j < |s| :: InOrder(option, s[i], s[j])
  }

  function InsertInOrder(x: Submission, s: seq<Submission>, option: SortOption): (r: seq<Submission>)
    ensures multiset(r) == multiset(s) + multiset{x}
  {
    if s == [] || !InOrder(option, s[0], x) then [x] + s
    else
      assert s == [s[0]] + s[1..];
      [s[0]] + InsertInOrder(x, s[1..], option)
  }

  lemma {:induction false} InsertInOrderSorted(x: Submission, s: seq<Submission>, option: SortOption)
    requires SortedBy(s, option)
    ensures SortedBy(InsertInOrder(x, s, option), option)
  {
    var r := InsertInOrder(x, s, option);
    if s == [] {
    } else if !InOrder(option, s[0], x) {
      InOrderTotal(option, s[0], x);
      forall k | 1 <= k < |r| ensures InOrder(option, x, r[k]) {
        assert r[k] == s[k - 1];
        if k > 1 {
          InOrderTransitive(option, x, s[0], s[k - 1]);
        }
      }
    } else {
      InsertInOrderSorted(x, s[1..], option);
      var rest := InsertInOrder(x, s[1..], option);
      forall k | 0 <= k < |rest| ensures InOrder(option, s[0], rest[k]) {
        assert rest[k] in multiset(rest);
        if rest[k] != x {
          assert rest[k] in multiset(s[1..]);
          var m :| 0 <= m < |s[1..]| && s[1..][m] == rest[k];
          assert s[m + 1] == rest[k];
        }
      }
    }
  }

  /** The list sorted under the sort option. Ties are left in an unspecified order. */
  function SortSubmissions(s: seq<Submission>, option: SortOption): (r: seq<Submission>)
    ensures multiset(r) == multiset(s)
    ensures SortedBy(r, option)
  {
    if s == [] then []
    else
      assert s == [s[0]] + s[1..];
      InsertInOrderSorted(s[0], SortSubmissions(s[1..], option), option);
      InsertInOrder(s[0], SortSubmissions(s[1..], option), option)
  }

  /** The filtering half of `filteredAndSortedSubmissions`: the search, then each active filter. */
  method ApplyFilters(state: State) returns (filtered: seq<Submission>)
    ensures filtered == Filter(state.submissions, (x: Submission) => Matches(state, x))
  {
    Staged0(state);
    filtered := SearchStage(state, state.submissions);
    filtered := StatusStage(state, filtered);
    filtered := PriorityStage(state, filtered);
    filtered := ClassStage(state, filtered);
    filtered := DateStage(state, filtered);
    FilterSameTest(state.submissions, PassesFirstK(state, 5), (x: Submission) => Matches(state, x));
  }

  /** The search step: kept when the query is empty, otherwise narrowed to the matches. */
  method SearchStage(state: State, prev: seq<Submission>) returns (next: seq<Submission>)
    requires Staged(state, prev, 0)
    ensures Staged(state, next, 1)
  {
    var q := state.searchQuery;
    if q != "" {
      var matching := (sub: Submission) => MatchesSearch(sub, q);
      NarrowStep(state, prev, 1, matching);
      next := Filter(prev, matching);
    } else {
      SkipStep(state, prev, 1);
      next := prev;
    }
  }

  /** The status filter, applied when it lists at least one status. */
  method StatusStage(state: State, prev: seq<Submission>) returns (next: seq<Submission>)
    requires Staged(state, prev, 1)
    ensures Staged(state, next, 2)
  {
    var f := state.filters;
    if ActiveList(f.status) {
      var matching := (sub: Submission) => sub.status in f.status.v;
      NarrowStep(state, prev, 2, matching);
      next := Filter(prev, matching);
    } else {
      SkipStep(state, prev, 2);
      next := prev;
    }
  }

  /** The priority filter, applied when it lists at least one priority. */
  method PriorityStage(state: State, prev: seq<Submission>) returns (next: seq<Submission>)
    requires Staged(state, prev, 2)
    ensures Staged(state, next, 3)
  {
    var f := state.filters;
    if ActiveList(f.priority) {
      var matching := (sub: Submission) => sub.priority in f.priority.v;
      NarrowStep(state, prev, 3, matching);
      next := Filter(prev, matching);
    } else {
      SkipStep(state, prev, 3);
      next := prev;
    }
  }

  /** The class-of-business filter, applied when it lists at least one class. */
  method ClassStage(state: State, prev: seq<Submission>) returns (next: seq<Submission>)
    requires Staged(state, prev, 3)
    ensures Staged(state, next, 4)
  {
    var f := state.filters;
    if ActiveList(f.classOfBusiness) {
      var matching := (sub: Submission) => sub.riskDetails.classOfBusiness in f.classOfBusiness.v;
      NarrowStep(state, prev, 4, matching);
      next := Filter(prev, matching);
    } else {
      SkipStep(state, prev, 4);
      next := prev;
    }
  }

  /** The date filter, applied when a range is set. */
  method DateStage(state: State, prev: seq<Submission>) returns (next: seq<Submission>)
    requires Staged(state, prev, 4)
    ensures Staged(state, next, 5)
  {
    var f := state.filters;
    if f.dateRange.Val? {
      var matching := (sub: Submission) => MatchesDates(sub, f.dateRange);
      NarrowStep(state, prev, 5, matching);
      next := Filter(prev, matching);
    } else {
      SkipStep(state, prev, 5);
      next := prev;
    }
  }

  /**
   * `filteredAndSortedSubmissions`: apply the search and the active filters one after the
   * other, then sort. The result holds exactly the matching submissions, each as often as
   * in the list, ordered by the chosen key and direction.
   */
  method FilteredAndSorted(state: State) returns (result: seq<Submission>)
    ensures multiset(result) == multiset(Filter(state.submissions, (x: Submission) => Matches(state, x)))
    ensures forall x | x in result :: x in state.submissions && Matches(state, x)
    ensures forall x | x in state.submissions && Matches(state, x) :: x in result
    ensures SortedBy(result, state.sortOption)
  {
    var filtered := ApplyFilters(state);
    FilterMembership(state.submissions, (x: Submission) => Matches(state, x));
    result := SortSubmissions(filtered, state.sortOption);
    assert forall x :: x in result <==> x in filtered by {
      forall x ensures x in result <==> x in filtered {
        assert x in result <==> x in multiset(result);
        assert x in filtered <==> x in multiset(filtered);
      }
    }
  }
}
