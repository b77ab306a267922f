/**
 * The list screen (MainActivity.kt): the category filter over the catalog, the four
 * filter chips, and the click that navigates to a detail route carrying the component id.
 */
module ComponentList {
  import opened Primitives
  import opened Decimal
  import opened Catalog

  /** The predicate of the `filter` call: `ALL` keeps everything, every other selector one runtime class. */
  function Matches(selected: ComponentType, c: PCComponent): (b: bool)
    ensures b <==> selected == ALL || selected == Category(c)
  {
    match selected
    case ALL => true
    case RAM => c.RAM?
    case STORAGE => c.Storage?
    case GRAPHICS_CARD => c.GraphicsCard?
  }

  /** `cs.filter { when (selectedType) ... }`. */
  function FilterByType(cs: seq<PCComponent>, selected: ComponentType): (r: seq<PCComponent>)
    ensures |r| <= |cs|
    ensures forall k :: 0 <= k < |r| ==> Matches(selected, r[k])
  {
    if cs == [] then []
    else if Matches(selected, cs[0]) then [cs[0]] + FilterByType(cs[1..], selected)
    else FilterByType(cs[1..], selected)
  }

  /** What the list shows for a selector: the seed catalog, filtered. */
  function VisibleComponents(selected: ComponentType): (r: seq<PCComponent>)
    ensures |r| <= |Components|
    ensures forall k :: 0 <= k < |r| ==> r[k] in Components && Matches(selected, r[k])
    ensures selected == ALL ==> r == Components
  {
    FilterAllIsIdentity(Components);
    FilterKeepsMatchingInOrder(Components, selected);
    FilterByType(Components, selected)
  }

  /** Positions listed in ascending order, each once. */
  predicate StrictlyIncreasing(p: seq<nat>) {
    forall k, l :: 0 <= k < l < |p| ==> p[k] < p[l]
  }

  /**
   * `r` is `cs` at the strictly increasing positions `idx`, and those positions are
   * exactly the ones whose entry the selector keeps.
   */
  ghost predicate KeepsExactly(cs: seq<PCComponent>, selected: ComponentType, r: seq<PCComponent>, idx: seq<nat>) {
    && |idx| == |r|
    && (forall k :: 0 <= k < |idx| ==> idx[k] < |cs| && r[k] == cs[idx[k]])
    && StrictlyIncreasing(idx)
    && (forall i :: 0 <= i < |cs| ==> (Matches(selected, cs[i]) <==> i in idx))
  }

  /** Positions moved one place to the right. */
  function Shift(positions: seq<nat>): (r: seq<nat>)
    ensures |r| == |positions|
    ensures forall k :: 0 <= k < |r| ==> r[k] == positions[k] + 1
  {
    seq(|positions|, k requires 0 <= k < |positions| => positions[k] + 1)
  }

  /** The positions of the entries the selector keeps, in ascending order. */
  function KeptPositions(cs: seq<PCComponent>, selected: ComponentType): seq<nat> {
    if cs == [] then []
    else if Matches(selected, cs[0]) then [0] + Shift(KeptPositions(cs[1..], selected))
    else Shift(KeptPositions(cs[1..], selected))
  }

  /**
   * The filter result is the order-preserving subsequence of every matching entry,
   * each taken once: its kept positions witness it.
   */
  lemma FilterKeepsMatchingInOrder(cs: seq<PCComponent>, selected: ComponentType)
    ensures KeepsExactly(cs, selected, FilterByType(cs, selected), KeptPositions(cs, selected))
  {
    KeptPositionsLocate(cs, selected);
    KeptPositionsIncrease(cs, selected);
    KeptPositionsMembership(cs, selected);
  }

  lemma {:induction false} KeptPositionsLocate(cs: seq<PCComponent>, selected: ComponentType)
    ensures var p, r := KeptPositions(cs, selected), FilterByType(cs, selected);
      |p| == |r| && forall k :: 0 <= k < |p| ==> p[k] < |cs| && r[k] == cs[p[k]]
  {
    if cs != [] {
      KeptPositionsLocate(cs[1..], selected);
      var p, r := KeptPositions(cs, selected), FilterByType(cs, selected);
      var p', r' := KeptPositions(cs[1..], selected), FilterByType(cs[1..], selected);
      if Matches(selected, cs[0]) {
        assert p == [0] + Shift(p') && r == [cs[0]] + r';
        forall k | 0 < k < |p|
          ensures p[k] < |cs| && r[k] == cs[p[k]]
        {
          assert p[k] == p'[k - 1] + 1 && r[k] == r'[k - 1];
          assert r'[k - 1] == cs[1..][p'[k - 1]];
        }
      } else {
        assert p == Shift(p') && r == r';
        forall k | 0 <= k < |p|
          ensures p[k] < |cs| && r[k] == cs[p[k]]
        {
          assert r'[k] == cs[1..][p'[k]];
        }
      }
    }
  }

  lemma {:induction false} KeptPositionsIncrease(cs: seq<PCComponent>, selected: ComponentType)
    ensures StrictlyIncreasing(KeptPositions(cs, selected))
  {
    if cs != [] {
      KeptPositionsIncrease(cs[1..], selected);
      var p, p' := KeptPositions(cs, selected), KeptPositions(cs[1..], selected);
      forall k, l | 0 <= k < l < |p|
        ensures p[k] < p[l]
      {
        if Matches(selected, cs[0]) {
          assert p == [0] + Shift(p');
          assert p[l] == p'[l - 1] + 1;
          if k > 0 {
            assert p[k] == p'[k - 1] + 1;
            assert p'[k - 1] < p'[l - 1];
          }
        } else {
          assert p == Shift(p');
          assert p'[k] < p'[l];
        }
      }
    }
  }

  lemma {:induction false} KeptPositionsMembership(cs: seq<PCComponent>, selected: ComponentType)
    ensures forall i :: 0 <= i < |cs| ==> (Matches(selected, cs[i]) <==> i in KeptPositions(cs, selected))
  {
    if cs != [] {
      KeptPositionsMembership(cs[1..], selected);
      var p, p' := KeptPositions(cs, selected), KeptPositions(cs[1..], selected);
      forall i | 0 <= i < |cs|
        ensures Matches(selected, cs[i]) <==> i in p
      {
        ShiftMembership(p', i);
        if i > 0 {
          assert cs[i] == cs[1..][i - 1];
        }
        if Matches(selected, cs[0]) {
          assert i in p <==> i == 0 || i in Shift(p');
        } else {
          assert p == Shift(p');
        }
      }
    }
  }

  lemma ShiftMembership(positions: seq<nat>, i: nat)
    ensures i in Shift(positions) <==> i > 0 && i - 1 in positions
  {
    var r := Shift(positions);
    if i in r {
      var k :| 0 <= k < |r| && r[k] == i;
      assert positions[k] == i - 1;
    }
    if i > 0 && i - 1 in positions {
      var k :| 0 <= k < |positions| && positions[k] == i - 1;
      assert r[k] == i;
    }
  }

  /** Selecting `ALL` shows the whole catalog unchanged. */
  lemma {:induction false} FilterAllIsIdentity(cs: seq<PCComponent>)
    ensures FilterByType(cs, ALL) == cs
  {
    if cs != [] {
      FilterAllIsIdentity(cs[1..]);
    }
  }

  /** Filtering an already filtered list with the same selector changes nothing. */
  lemma {:induction false} FilterIdempotent(cs: seq<PCComponent>, selected: ComponentType)
    ensures FilterByType(FilterByType(cs, selected), selected) == FilterByType(cs, selected)
  {
    if cs != [] {
      FilterIdempotent(cs[1..], selected);
    }
  }

  /** The three category filters split the catalog: their sizes add up to its size. */
  lemma {:induction false} CategoryFiltersPartition(cs: seq<PCComponent>)
    ensures |FilterByType(cs, ComponentType.RAM)| + |FilterByType(cs, STORAGE)|
            + |FilterByType(cs, GRAPHICS_CARD)| == |cs|
  {
    if cs != [] {
      CategoryFiltersPartition(cs[1..]);
    }
  }

  /**
   * The category filter as the `componentType` field describes it: `ALL` keeps
   * everything, any other selector the entries tagged with it.
   */
  function FilterByTag(cs: seq<PCComponent>, selected: ComponentType): seq<PCComponent> {
    if cs == [] then []
    else if selected == ALL || cs[0].componentType == selected then [cs[0]] + FilterByTag(cs[1..], selected)
    else FilterByTag(cs[1..], selected)
  }

  /** On a catalog whose tags agree with the variants, testing the class and testing the tag agree. */
  lemma {:induction false} FilterByClassAgreesWithTag(cs: seq<PCComponent>, selected: ComponentType)
    requires forall c :: c in cs ==> TagConsistent(c)
    ensures FilterByType(cs, selected) == FilterByTag(cs, selected)
  {
    if cs != [] {
      assert TagConsistent(cs[0]);
      FilterByClassAgreesWithTag(cs[1..], selected);
    }
  }

  /** The filter tests the class, not the tag: a `RAM` entry tagged `STORAGE` is still listed under `RAM`. */
  lemma FilterIgnoresTag()
    ensures var c := PCComponent.RAM(1, "RAM", 1, 8, "Maker", DDR4, 3200, "CL16", componentType := STORAGE);
      FilterByType([c], ComponentType.RAM) == [c] && FilterByTag([c], ComponentType.RAM) == []
  {
  }

  function Ids(cs: seq<PCComponent>): seq<Int32> {
    seq(|cs|, i requires 0 <= i < |cs| => cs[i].id)
  }

  /** On the seed catalog the `RAM` chip lists entries 1, 2, 6 and 7, in that order. */
  lemma SeedRamFilter()
    ensures Ids(VisibleComponents(ComponentType.RAM)) == [1, 2, 6, 7]
  {
    var cs := Components;
    assert |cs| == 10;
    assert cs[0].RAM? && cs[1].RAM? && cs[5].RAM? && cs[6].RAM?;
    assert !cs[2].RAM? && !cs[3].RAM? && !cs[4].RAM? && !cs[7].RAM? && !cs[8].RAM? && !cs[9].RAM?;
    RamFilterOfSeedShape(cs);
    assert cs[0].id == 1 && cs[1].id == 2 && cs[5].id == 6 && cs[6].id == 7;
  }

  /** The `RAM` filter over any ten entries laid out by variant as the seed catalog is. */
  lemma RamFilterOfSeedShape(cs: seq<PCComponent>)
    requires |cs| == 10
    requires cs[0].RAM? && cs[1].RAM? && cs[5].RAM? && cs[6].RAM?
    requires !cs[2].RAM? && !cs[3].RAM? && !cs[4].RAM? && !cs[7].RAM? && !cs[8].RAM? && !cs[9].RAM?
    ensures Ids(FilterByType(cs, ComponentType.RAM)) == [cs[0].id, cs[1].id, cs[5].id, cs[6].id]
  {
    var ram := ComponentType.RAM;
    assert cs[10..] == [];
    FilterFrom(cs, ram, 9);
    assert FilterByType(cs[9..], ram) == [];
    FilterFrom(cs, ram, 8);
    assert FilterByType(cs[8..], ram) == [];
    FilterFrom(cs, ram, 7);
    assert FilterByType(cs[7..], ram) == [];
    FilterFrom(cs, ram, 6);
    assert FilterByType(cs[6..], ram) == [cs[6]];
    FilterFrom(cs, ram, 5);
    assert FilterByType(cs[5..], ram) == [cs[5], cs[6]];
    FilterFrom(cs, ram, 4);
    assert FilterByType(cs[4..], ram) == [cs[5], cs[6]];
    FilterFrom(cs, ram, 3);
    assert FilterByType(cs[3..], ram) == [cs[5], cs[6]];
    FilterFrom(cs, ram, 2);
    assert FilterByType(cs[2..], ram) == [cs[5], cs[6]];
    FilterFrom(cs, ram, 1);
    assert FilterByType(cs[1..], ram) == [cs[1], cs[5], cs[6]];
    FilterFrom(cs, ram, 0);
    assert cs[0..] == cs;
  }

  /** Filtering the suffix from position `k` on: the entry at `k`, if kept, then the rest filtered. */
  lemma FilterFrom(cs: seq<PCComponent>, selected: ComponentType, k: nat)
    requires k < |cs|
    ensures FilterByType(cs[k..], selected)
      == (if Matches(selected, cs[k]) then [cs[k]] else []) + FilterByType(cs[k + 1..], selected)
  {
    assert cs[k..][1..] == cs[k + 1..];
  }

  /** A `FilterChip`: its text, the selector its click sets, and whether it shows as selected. */
  datatype Chip = Chip(text: string, selects: ComponentType, selected: bool)

  /** The chip row of `FilterChips`, in display order. */
  function FilterChips(selectedType: ComponentType): (chips: seq<Chip>)
    ensures |chips| == 4
  {
    [ Chip("Wszystkie", ALL, selectedType == ALL),
      Chip("RAM", ComponentType.RAM, selectedType == ComponentType.RAM),
      Chip("Dyski", STORAGE, selectedType == STORAGE),
      Chip("Karty graficzne", GRAPHICS_CARD, selectedType == GRAPHICS_CARD) ]
  }

  function SelectedCount(chips: seq<Chip>): nat {
    if chips == [] then 0 else (if chips[0].selected then 1 else 0) + SelectedCount(chips[1..])
  }

  /**
   * Whatever the selector, exactly one chip shows as selected, and it is the chip
   * whose click sets that selector; every selector has its chip.
   */
  lemma ExactlyOneChipSelected(selectedType: ComponentType)
    ensures SelectedCount(FilterChips(selectedType)) == 1
    ensures forall i :: 0 <= i < 4 ==>
      (FilterChips(selectedType)[i].selected <==> FilterChips(selectedType)[i].selects == selectedType)
    ensures exists i :: 0 <= i < 4 && FilterChips(selectedType)[i].selects == selectedType
  {
    var chips := FilterChips(selectedType);
    assert SelectedCount(chips[4..]) == 0;
    assert SelectedCount(chips[3..]) == (if chips[3].selected then 1 else 0);
    assert SelectedCount(chips[2..]) == (if chips[2].selected then 1 else 0) + SelectedCount(chips[3..]);
    assert SelectedCount(chips[1..]) == (if chips[1].selected then 1 else 0) + SelectedCount(chips[2..]);
    assert selectedType == chips[0].selects || selectedType == chips[1].selects
        || selectedType == chips[2].selects || selectedType == chips[3].selects;
  }

  /** Clicking a chip (`onTypeSelected`) makes that chip, and no other, the selected one. */
  lemma ClickingChipSelectsIt(selectedType: ComponentType, i: nat)
    requires i < 4
    ensures var t := FilterChips(selectedType)[i].selects;
      forall j :: 0 <= j < 4 ==> (FilterChips(t)[j].selected <==> j == i)
  {
  }

  const DETAIL_ROUTE_PREFIX: string := "detail/"

  /** The route `navigate("detail/${component.id}")` opens when a card is clicked. */
  function DetailRoute(c: PCComponent): string {
    DETAIL_ROUTE_PREFIX + IntToString(c.id as int)
  }

  /** The `componentId` argument of a `detail/{componentId}` route, read as an `Int`. */
  function RouteComponentId(route: string): (r: Option<Int32>)
    ensures r.Some? ==> |route| > |DETAIL_ROUTE_PREFIX| && route[..|DETAIL_ROUTE_PREFIX|] == DETAIL_ROUTE_PREFIX
  {
    if |route| >= |DETAIL_ROUTE_PREFIX| && route[..|DETAIL_ROUTE_PREFIX|] == DETAIL_ROUTE_PREFIX
    then ParseInt(route[|DETAIL_ROUTE_PREFIX|..])
    else None
  }

  /**
   * What the detail destination does with a route: without an arguments bundle it
   * shows nothing (`?: return@composable`), an unknown id makes the lookup throw, and
   * otherwise it shows the component found. A route whose argument is not an `Int`
   * is treated like a missing bundle.
   */
  datatype DetailDestination = NoArgument | NotFound | Detail(component: PCComponent)

  /** The detail destination over a catalog; the app passes the seed catalog. */
  function OpenDetail(catalog: seq<PCComponent>, route: string): (d: DetailDestination)
    ensures d.Detail? ==> d.component in catalog && Some(d.component.id) == RouteComponentId(route)
    ensures d.NoArgument? <==> RouteComponentId(route).None?
    ensures d.NotFound? <==>
      RouteComponentId(route).Some? && forall c :: c in catalog ==> c.id != RouteComponentId(route).value
    ensures d.Detail? ==> exists i :: 0 <= i < |catalog| && catalog[i] == d.component &&
                                      (forall j :: 0 <= j < i ==> catalog[j].id != catalog[i].id)
  {
    match RouteComponentId(route)
    case None => NoArgument
    case Some(id) =>
      match FirstWithId(catalog, id)
      case None => NotFound
      case Some(c) => Detail(c)
  }

  /** The route carries the clicked component's id unchanged. */
  lemma RouteRoundTrip(c: PCComponent)
    ensures RouteComponentId(DetailRoute(c)) == Some(c.id)
  {
    var route := DetailRoute(c);
    assert route[|DETAIL_ROUTE_PREFIX|..] == IntToString(c.id as int);
    ParseIntOfIntToString(c.id);
  }

  /** With unique ids, clicking a component opens the detail screen of that same component. */
  lemma ClickOpensClickedComponent(catalog: seq<PCComponent>, c: PCComponent)
    requires UniqueIds(catalog) && c in catalog
    ensures OpenDetail(catalog, DetailRoute(c)) == Detail(c)
  {
    RouteRoundTrip(c);
    LookupOwnId(catalog, c);
  }

  /** In the app, every card of the seed list opens its own detail screen. */
  lemma SeedClickRoundTrip(c: PCComponent)
    requires c in Components
    ensures OpenDetail(Components, DetailRoute(c)) == Detail(c)
  {
    SeedIds();
    ClickOpensClickedComponent(Components, c);
  }
}
