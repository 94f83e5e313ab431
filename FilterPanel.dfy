/** The filter panel's change handlers. Each handler computes the patch it
    passes to `setFilters`: a new date range with one bound replaced, or a new
    department or system id list in which the clicked id is toggled. */
module FilterPanel {
  import opened Seqs

  /** The two keys of `filters.dateRange` the date inputs write. */
  datatype DateField = From | To

  /** `filters.dateRange`: the values of the two date inputs. */
  datatype DateRange = DateRange(from: string, to: string)

  /** The argument of `setFilters`: the one filter entry a handler replaces. */
  datatype Patch =
    | DateRangePatch(dateRange: DateRange)
    | DepartmentsPatch(departments: seq<string>)
    | SystemsPatch(systems: seq<string>)

  /** `dateRange[field]`. */
  function Bound(range: DateRange, field: DateField): string
  {
    match field
    case From => range.from
    case To => range.to
  }

  /** `{...dateRange, [field]: value}`. */
  function SetBound(range: DateRange, field: DateField, value: string): (r: DateRange)
    ensures Bound(r, field) == value
    ensures forall other :: other != field ==> Bound(r, other) == Bound(range, other)
  {
    match field
    case From => DateRange(value, range.to)
    case To => DateRange(range.from, value)
  }

  /** `handleDateChange(field, value)`. */
  function HandleDateChange(filters: DateRange, field: DateField, value: string): (p: Patch)
    ensures p.DateRangePatch?
    ensures Bound(p.dateRange, field) == value
    ensures forall other :: other != field ==> Bound(p.dateRange, other) == Bound(filters, other)
  {
    DateRangePatch(SetBound(filters, field, value))
  }

  /** A range is determined by its two bounds. */
  lemma BoundsDetermineRange(a: DateRange, b: DateRange)
    requires forall field :: Bound(a, field) == Bound(b, field)
    ensures a == b
  {
    assert Bound(a, From) == Bound(b, From);
    assert Bound(a, To) == Bound(b, To);
  }

  /** Writing a bound twice keeps only the second value. */
  lemma SetBoundTwice(range: DateRange, field: DateField, v: string, w: string)
    ensures SetBound(SetBound(range, field, v), field, w) == SetBound(range, field, w)
  {
    var a := SetBound(SetBound(range, field, v), field, w);
    var b := SetBound(range, field, w);
    forall f ensures Bound(a, f) == Bound(b, f) {
    }
    BoundsDetermineRange(a, b);
  }

  /** Changing the two different bounds, in either order, gives the same range. */
  lemma SetBoundsCommute(range: DateRange, f: DateField, g: DateField, v: string, w: string)
    requires f != g
    ensures SetBound(SetBound(range, f, v), g, w) == SetBound(SetBound(range, g, w), f, v)
  {
    var a := SetBound(SetBound(range, f, v), g, w);
    var b := SetBound(SetBound(range, g, w), f, v);
    forall h ensures Bound(a, h) == Bound(b, h) {
    }
    BoundsDetermineRange(a, b);
  }

  /** Writing back the value a bound already has leaves the range as it is. */
  lemma SetBoundSame(range: DateRange, field: DateField)
    ensures SetBound(range, field, Bound(range, field)) == range
  {
    var a := SetBound(range, field, Bound(range, field));
    forall h ensures Bound(a, h) == Bound(range, h) {
    }
    BoundsDetermineRange(a, range);
  }

  /** The list toggle shared by both id handlers: remove every occurrence of
      `id` when the list includes it, append it otherwise. */
  function Toggle(ids: seq<string>, id: string): seq<string>
  {
    if id in ids then Filter(x => x != id, ids) else ids + [id]
  }

  /** `handleDepartmentChange(deptId)`. */
  function HandleDepartmentChange(departments: seq<string>, deptId: string): (p: Patch)
    ensures p.DepartmentsPatch?
    ensures (deptId in p.departments) <==> deptId !in departments
    ensures forall x :: x != deptId ==> (x in p.departments <==> x in departments)
  {
    ToggleFlips(departments, deptId);
    DepartmentsPatch(Toggle(departments, deptId))
  }

  /** `handleSystemChange(systemId)`. */
  function HandleSystemChange(systems: seq<string>, systemId: string): (p: Patch)
    ensures p.SystemsPatch?
    ensures (systemId in p.systems) <==> systemId !in systems
    ensures forall x :: x != systemId ==> (x in p.systems <==> x in systems)
  {
    ToggleFlips(systems, systemId);
    SystemsPatch(Toggle(systems, systemId))
  }

  /** A toggle flips the membership of `id` and of no other id. */
  lemma ToggleFlips(ids: seq<string>, id: string)
    ensures (id in Toggle(ids, id)) <==> id !in ids
    ensures forall x :: x != id ==> (x in Toggle(ids, id) <==> x in ids)
  {
  }

  /** Removing an id drops all its occurrences and nothing else. */
  lemma {:induction false} RemoveAllMultiset(ids: seq<string>, id: string)
    ensures multiset(Filter(x => x != id, ids)) == multiset(ids)[id := 0]
  {
    if ids != [] {
      var rest := ids[1..];
      assert ids == [ids[0]] + rest;
      RemoveAllMultiset(rest, id);
      if ids[0] == id {
        assert multiset(ids)[id := 0] == multiset(rest)[id := 0];
      } else {
        assert multiset(ids)[id := 0] == multiset{ids[0]} + multiset(rest)[id := 0];
      }
    }
  }

  /** When the list includes `id`, the toggle removes every occurrence of it
      and keeps the other ids, in their order and with their multiplicities. */
  lemma ToggleRemoves(ids: seq<string>, id: string)
    requires id in ids
    ensures id !in Toggle(ids, id)
    ensures IsSubseq(Toggle(ids, id), ids)
    ensures multiset(Toggle(ids, id)) == multiset(ids)[id := 0]
    ensures |Toggle(ids, id)| == |ids| - multiset(ids)[id]
  {
    FilterIsSubseq(x => x != id, ids);
    RemoveAllMultiset(ids, id);
    var r := Toggle(ids, id);
    assert |multiset(ids)| == |multiset(ids)[id := 0]| + multiset(ids)[id];
  }

  /** When the list does not include `id`, the toggle appends it at the end. */
  lemma ToggleAppends(ids: seq<string>, id: string)
    requires id !in ids
    ensures |Toggle(ids, id)| == |ids| + 1
    ensures Toggle(ids, id)[..|ids|] == ids && Toggle(ids, id)[|ids|] == id
  {
  }

  /** Toggling an absent id twice restores the list. */
  lemma ToggleTwiceAbsent(ids: seq<string>, id: string)
    requires id !in ids
    ensures Toggle(Toggle(ids, id), id) == ids
  {
    var once := ids + [id];
    assert id in once;
    FilterAppend(x => x != id, ids, [id]);
    FilterAll(x => x != id, ids);
    assert Filter(x => x != id, [id]) == [];
  }

  /** Toggling a present id twice moves it, once, to the end of the list. */
  lemma ToggleTwicePresent(ids: seq<string>, id: string)
    requires id in ids
    ensures Toggle(Toggle(ids, id), id) == Filter(x => x != id, ids) + [id]
  {
    ToggleRemoves(ids, id);
  }

  /** A list with no repeated id keeps that property through a toggle. */
  lemma ToggleKeepsNoDuplicates(ids: seq<string>, id: string)
    requires NoDuplicates(ids)
    ensures NoDuplicates(Toggle(ids, id))
  {
    if id in ids {
      ToggleRemoves(ids, id);
      SubseqNoDuplicates(Toggle(ids, id), ids);
    }
  }
}
