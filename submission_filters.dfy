/**
 * The submissions filter panel: how many filters it shows as active, the editors that
 * build a new filter object from a checkbox, date or amount change, and the mapping from
 * the sort selector's value back to a sort option.
 */
module SubmissionFilters {
  import opened Wrappers
  import opened Seqs
  import opened Text
  import opened SubmissionTypes

  // ---------------------------------------------------------------------------
  // Counting active filters

  /** What the active-filter count sees of one present key's value. */
  datatype FilterValue = ListValue(len: nat) | ObjectValue(keys: nat) | NullValue | UndefinedValue

  function ListValueOf<T>(slot: Slot<seq<T>>): seq<FilterValue> {
    match slot
    case Absent => []
    case Undefined => [UndefinedValue]
    case Null => [NullValue]
    case Val(l) => [ListValue(|l|)]
  }

  function KeysOf<T>(a: Slot<T>, b: Slot<T>): nat {
    (if a.Absent? then 0 else 1) + (if b.Absent? then 0 else 1)
  }

  function DateValueOf(slot: Slot<DateRange>): seq<FilterValue> {
    match slot
    case Absent => []
    case Undefined => [UndefinedValue]
    case Null => [NullValue]
    case Val(r) => [ObjectValue(KeysOf(r.from, r.to))]
  }

  function AmountValueOf(slot: Slot<AmountRange>): seq<FilterValue> {
    match slot
    case Absent => []
    case Undefined => [UndefinedValue]
    case Null => [NullValue]
    case Val(r) => [ObjectValue(KeysOf(r.min, r.max))]
  }

  /** `Object.values(filters)`: the values of the keys present, in declaration order. */
  function Values(f: FilterOptions): (vs: seq<FilterValue>)
    ensures |vs| <= 7
  {
    ListValueOf(f.status) + LaterValues(f)
  }

  /** The values of the keys declared after `status`, in declaration order. */
  function LaterValues(f: FilterOptions): seq<FilterValue> {
    ListValueOf(f.priority) + ListValueOf(f.classOfBusiness) + ListValueOf(f.cedant)
    + ListValueOf(f.assignedTo) + DateValueOf(f.dateRange) + AmountValueOf(f.amountRange)
  }

  /**
   * A value the submissions panel counts: a non-empty array or an object with a key.
   * `null` and `undefined` are not counted.
   */
  predicate CountedActive(v: FilterValue) {
    match v
    case ListValue(n) => n > 0
    case ObjectValue(k) => k > 0
    case NullValue => false
    case UndefinedValue => false
  }

  /** `activeFiltersCount` of the submissions panel. */
  function ActiveFiltersCount(f: FilterOptions): nat {
    CountWhere(Values(f), CountedActive)
  }

  /** A list key is active exactly when it holds a non-empty array. */
  predicate ListActive<T>(slot: Slot<seq<T>>) {
    slot.Val? && |slot.v| > 0
  }

  lemma ListValueCount<T>(slot: Slot<seq<T>>)
    ensures CountWhere(ListValueOf(slot), CountedActive) == if ListActive(slot) then 1 else 0
  {
  }

  /** At most the seven keys count, and the empty filter object counts none. */
  lemma ActiveCountBounds(f: FilterOptions)
    ensures ActiveFiltersCount(f) <= 7
    ensures ActiveFiltersCount(NO_FILTERS) == 0
  {
    assert Values(NO_FILTERS) == [];
  }

  // ---------------------------------------------------------------------------
  // Checkbox editors

  /** `filters.key || []` for a list key. */
  function Current<T>(slot: Slot<seq<T>>): seq<T> {
    if slot.Val? then slot.v else []
  }

  /** The new list after a checkbox change: append when checked, drop every occurrence when not. */
  function EditList<T(==)>(slot: Slot<seq<T>>, x: T, checked: bool): (r: seq<T>)
    ensures checked ==> r == Current(slot) + [x]
    ensures !checked ==> x !in r && IsSubsequence(r, Current(slot)) && multiset(r) == multiset(Current(slot))[x := 0]
  {
    if checked then Current(slot) + [x] else RemoveAll(Current(slot), x)
  }

  function EditStatus(f: FilterOptions, s: SubmissionStatus, checked: bool): FilterOptions {
    f.(status := Val(EditList(f.status, s, checked)))
  }

  function EditPriority(f: FilterOptions, p: Priority, checked: bool): FilterOptions {
    f.(priority := Val(EditList(f.priority, p, checked)))
  }

  function EditClass(f: FilterOptions, c: string, checked: bool): FilterOptions {
    f.(classOfBusiness := Val(EditList(f.classOfBusiness, c, checked)))
  }

  /**
   * Checking a status counts the status key as active; the other keys, and so their
   * contribution to the count, are untouched.
   */
  lemma CheckingActivatesKey(f: FilterOptions, s: SubmissionStatus)
    ensures EditStatus(f, s, true).status == Val(Current(f.status) + [s])
    ensures ActiveFiltersCount(EditStatus(f, s, true)) ==
      ActiveFiltersCount(f) + (if ListActive(f.status) then 0 else 1)
  {
    var g := EditStatus(f, s, true);
    assert LaterValues(g) == LaterValues(f);
    CountWhereAppend(ListValueOf(f.status), LaterValues(f), CountedActive);
    CountWhereAppend(ListValueOf(g.status), LaterValues(f), CountedActive);
    ListValueCount(f.status);
    ListValueCount(g.status);
  }

  // ---------------------------------------------------------------------------
  // Date and amount editors

  datatype Bound = From | To

  /** A Date is an object and so always truthy; `null` and `undefined` are not. */
  predicate DateSet(s: Slot<int>) {
    s.Val?
  }

  /**
   * The `dateRange` key after one bound changes (`Absent`: the key is removed).
   * The date picker passes a date or `undefined`.
   */
  function WithBound(range: Slot<DateRange>, field: Bound, date: Option<int>): Slot<DateRange> {
    var current := if range.Val? then range.v else DateRange(Absent, Absent);
    var d := if date.Some? then Val(date.value) else Undefined;
    var next := if field == From then current.(from := d) else current.(to := d);
    if !DateSet(next.from) && !DateSet(next.to) then Absent else Val(next)
  }

  function EditDateRange(f: FilterOptions, field: Bound, date: Option<int>): FilterOptions {
    f.(dateRange := WithBound(f.dateRange, field, date))
  }

  /**
   * Clearing a bound while the other is unset removes the key; otherwise only the named
   * bound changes, the other is kept, and no other key changes.
   */
  lemma DateEditorEffect(range: Slot<DateRange>, field: Bound, date: Option<int>)
    ensures var current := if range.Val? then range.v else DateRange(Absent, Absent);
      var other := if field == From then current.to else current.from;
      var r := WithBound(range, field, date);
      && (r.Absent? <==> date.None? && !DateSet(other))
      && (r.Val? ==> (if field == From then r.v.to else r.v.from) == other)
      && (r.Val? ==> (if field == From then r.v.from else r.v.to) == (if date.Some? then Val(date.value) else Undefined))
  {
  }

  /** JavaScript truthiness of an amount bound: missing, `undefined`, `null` and 0 are falsy. */
  predicate AmountSet(s: Slot<real>) {
    s.Val? && s.v != 0.0
  }

  /** `e.target.value ? Number(e.target.value) : undefined` as a slot value. */
  function AmountSlot(value: Option<real>): Slot<real> {
    if value.Some? then Val(value.value) else Undefined
  }

  function CurrentAmount(range: Slot<AmountRange>): AmountRange {
    if range.Val? then range.v else AmountRange(Absent, Absent)
  }

  /** The minimum-amount input's change handler. */
  function EditAmountMin(f: FilterOptions, value: Option<real>): FilterOptions {
    var current := CurrentAmount(f.amountRange);
    if value.None? && !AmountSet(current.max) then f.(amountRange := Absent)
    else f.(amountRange := Val(current.(min := AmountSlot(value))))
  }

  /** The maximum-amount input's change handler. */
  function EditAmountMax(f: FilterOptions, value: Option<real>): FilterOptions {
    var current := CurrentAmount(f.amountRange);
    if value.None? && !AmountSet(current.min) then f.(amountRange := Absent)
    else f.(amountRange := Val(current.(max := AmountSlot(value))))
  }

  /**
   * Emptying one amount input removes the whole range exactly when the other bound is
   * missing or 0; a maximum of 0 is thrown away with it. Otherwise only the edited bound
   * changes. No other key changes.
   */
  lemma AmountEditorsEffect(f: FilterOptions, value: Option<real>)
    ensures var current := CurrentAmount(f.amountRange);
      && EditAmountMin(f, value) == f.(amountRange := EditAmountMin(f, value).amountRange)
      && (EditAmountMin(f, value).amountRange.Absent? <==> value.None? && !AmountSet(current.max))
      && (EditAmountMin(f, value).amountRange.Val? ==>
            EditAmountMin(f, value).amountRange.v == AmountRange(AmountSlot(value), current.max))
      && EditAmountMax(f, value) == f.(amountRange := EditAmountMax(f, value).amountRange)
      && (EditAmountMax(f, value).amountRange.Absent? <==> value.None? && !AmountSet(current.min))
      && (EditAmountMax(f, value).amountRange.Val? ==>
            EditAmountMax(f, value).amountRange.v == AmountRange(current.min, AmountSlot(value)))
    ensures var f0 := f.(amountRange := Val(AmountRange(Absent, Val(0.0))));
      EditAmountMin(f0, None).amountRange.Absent?
  {
  }

  // ---------------------------------------------------------------------------
  // Sort selector

  const SORT_OPTIONS: seq<SortOption> := [
    SortOption("submissionDate", Desc, "Newest First"),
    SortOption("submissionDate", Asc, "Oldest First"),
    SortOption("dueDate", Asc, "Due Date (Earliest)"),
    SortOption("dueDate", Desc, "Due Date (Latest)"),
    SortOption("sumInsured", Desc, "Sum Insured (Highest)"),
    SortOption("sumInsured", Asc, "Sum Insured (Lowest)"),
    SortOption("priority", Desc, "Priority (Highest)"),
    SortOption("reference", Asc, "Reference (A-Z)")
  ]

  /** The selector value of an option: `${field}-${direction}`. */
  function SelectValue(o: SortOption): string {
    o.field + "-" + DirectionText(o.direction)
  }

  predicate SortMatches(o: SortOption, field: string, direction: Option<string>) {
    o.field == field && direction == Some(DirectionText(o.direction))
  }

  /** `sortOptions.find(opt => opt.field === field && opt.direction === direction)`. */
  function FindSort(opts: seq<SortOption>, field: string, direction: Option<string>): (r: Option<SortOption>)
    ensures r.None? <==> forall i | 0 <= i < |opts| :: !SortMatches(opts[i], field, direction)
    ensures r.Some? ==> exists i | 0 <= i < |opts| :: opts[i] == r.value && SortMatches(opts[i], field, direction)
  {
    if opts == [] then None
    else if SortMatches(opts[0], field, direction) then Some(opts[0])
    else
      var r := FindSort(opts[1..], field, direction);
      assert forall i | 1 <= i < |opts| :: opts[i] == opts[1..][i - 1];
      r
  }

  /** The option a selector value maps back to, if any. */
  function ParseSort(value: string): (r: Option<SortOption>)
    ensures r.Some? ==> r.value in SORT_OPTIONS
  {
    var parts := Split(value, '-');
    FindSort(SORT_OPTIONS, parts[0], if |parts| > 1 then Some(parts[1]) else None)
  }

  /** `onValueChange` of the sort selector: an unmatched value keeps the current option. */
  function OnSortChange(current: SortOption, value: string): (r: SortOption)
    ensures ParseSort(value).None? ==> r == current
    ensures r == current || r in SORT_OPTIONS
  {
    match ParseSort(value)
    case Some(o) => o
    case None => current
  }

  lemma SplitPair(a: string, b: string)
    requires '-' !in a && '-' !in b
    ensures Split(a + "-" + b, '-') == [a, b]
  {
    var s := a + "-" + b;
    var k := IndexOf(s, '-');
    assert s[..|a| + 1][|a|] == '-';
    assert k == |a|;
    assert s[k + 1..] == b;
    assert s[..k] == a;
    assert Split(b, '-') == [b];
  }

  /** The eight options have distinct selector values. */
  lemma SortOptionsDistinct()
    ensures forall i, j | 0 <= i < j < |SORT_OPTIONS| ::
      SORT_OPTIONS[i].field != SORT_OPTIONS[j].field || SORT_OPTIONS[i].direction != SORT_OPTIONS[j].direction
  {
  }

  lemma NoDashInFields()
    ensures forall i | 0 <= i < |SORT_OPTIONS| :: '-' !in SORT_OPTIONS[i].field
  {
    assert '-' !in "submissionDate" && '-' !in "dueDate" && '-' !in "sumInsured";
    assert '-' !in "priority" && '-' !in "reference";
  }

  /** Every offered option's selector value maps back to that option. */
  lemma SortRoundTrip(o: SortOption)
    requires o in SORT_OPTIONS
    ensures ParseSort(SelectValue(o)) == Some(o)
  {
    var i :| 0 <= i < |SORT_OPTIONS| && SORT_OPTIONS[i] == o;
    var d := DirectionText(o.direction);
    assert '-' !in d;
    NoDashInFields();
    SplitPair(o.field, d);
    assert SelectValue(o) == o.field + "-" + d;
    var r := FindSort(SORT_OPTIONS, o.field, Some(d));
    assert SortMatches(SORT_OPTIONS[i], o.field, Some(d));
    var j :| 0 <= j < |SORT_OPTIONS| && SORT_OPTIONS[j] == r.value && SortMatches(SORT_OPTIONS[j], o.field, Some(d));
    assert SORT_OPTIONS[j].direction == o.direction;
    SortOptionsDistinct();
    assert i == j;
  }
}
