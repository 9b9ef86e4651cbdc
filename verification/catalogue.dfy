/** The vehicle catalogue: search, filters and ordering of the vehicle
    list page, its reset button, and the previous/next links computed by
    the vehicle service. */
module Catalogue {
  import opened Wrappers
  import opened Domain
  import opened Sorting

  // ---------------------------------------------------------------------
  // Case-insensitive search

  /** `toLowerCase` on the ASCII letters; other characters are unchanged. */
  function LowerChar(c: char): char {
    if 'A' <= c <= 'Z' then (c as int + 32) as char else c
  }

  function Lower(s: string): (r: string)
    ensures |r| == |s| && forall i :: 0 <= i < |s| ==> r[i] == LowerChar(s[i])
  {
    seq(|s|, i requires 0 <= i < |s| => LowerChar(s[i]))
  }

  /** Lower-casing twice changes nothing more. */
  lemma LowerIdempotent(s: string)
    ensures Lower(Lower(s)) == Lower(s)
  {
  }

  predicate OccursAt(hay: string, needle: string, i: int) {
    0 <= i <= |hay| - |needle| && hay[i..i + |needle|] == needle
  }

  /** `hay.includes(needle)`. */
  function Includes(hay: string, needle: string): (b: bool)
    ensures b <==> exists i :: OccursAt(hay, needle, i)
    decreases |hay|
  {
    if |needle| > |hay| then false
    else if needle <= hay then
      assert OccursAt(hay, needle, 0);
      true
    else
      var b := Includes(hay[1..], needle);
      if b then
        var j :| OccursAt(hay[1..], needle, j);
        assert hay[1..][j..j + |needle|] == hay[j + 1..j + 1 + |needle|];
        assert OccursAt(hay, needle, j + 1);
        b
      else
        assert forall i :: 1 <= i ==> !OccursAt(hay, needle, i) by {
          forall i | 1 <= i ensures !OccursAt(hay, needle, i) {
            if 1 <= i <= |hay| - |needle| {
              var n := |needle|;
              var w := hay[1..][i - 1..i - 1 + n];
              assert forall k :: 0 <= k < n ==> w[k] == hay[i..i + n][k];
              assert hay[i..i + n] == w;
              assert !OccursAt(hay[1..], needle, i - 1);
            }
          }
        }
        b
  }

  /** The search term of the page: brand or model contains it, ignoring
      case. */
  predicate MatchesSearch(v: Vehicle, term: string) {
    Includes(Lower(v.brand), Lower(term)) || Includes(Lower(v.model), Lower(term))
  }

  /** An empty term matches every vehicle, and the case of the term never
      matters. */
  lemma SearchProperties(v: Vehicle, term: string)
    ensures MatchesSearch(v, "")
    ensures MatchesSearch(v, term) <==> MatchesSearch(v, Lower(term))
  {
    assert OccursAt(Lower(v.brand), Lower(""), 0);
    LowerIdempotent(term);
  }

  // ---------------------------------------------------------------------
  // Filters and ordering

  datatype Filters = Filters(searchTerm: string, typeFilter: string, sortBy: string, onlyAvailable: bool)

  predicate MatchesType(v: Vehicle, typeFilter: string) {
    typeFilter == "ALL" || OfferCode(v.typeOffer) == typeFilter
  }

  predicate MatchesAvailability(v: Vehicle, onlyAvailable: bool) {
    !onlyAvailable || v.state == Available
  }

  predicate Matches(v: Vehicle, f: Filters) {
    MatchesSearch(v, f.searchTerm) && MatchesType(v, f.typeFilter) && MatchesAvailability(v, f.onlyAvailable)
  }

  /** The `.filter(...)` step, keeping the input order. */
  function FilterVehicles(vs: seq<Vehicle>, f: Filters): (r: seq<Vehicle>)
    ensures forall v :: v in r <==> v in vs && Matches(v, f)
  {
    if vs == [] then []
    else
      assert vs == [vs[0]] + vs[1..];
      (if Matches(vs[0], f) then [vs[0]] else []) + FilterVehicles(vs[1..], f)
  }

  /** `.filter` keeps every copy of a matching vehicle and drops every
      copy of the others. */
  lemma {:induction false} FilterVehiclesCount(vs: seq<Vehicle>, f: Filters, v: Vehicle)
    ensures multiset(FilterVehicles(vs, f))[v] == if Matches(v, f) then multiset(vs)[v] else 0
    decreases |vs|
  {
    if vs != [] {
      assert vs == [vs[0]] + vs[1..];
      FilterVehiclesCount(vs[1..], f, v);
    }
  }

  /** One step of the filter: the head is kept iff it matches. */
  lemma FilterVehiclesCons(x: Vehicle, rest: seq<Vehicle>, f: Filters)
    ensures FilterVehicles([x] + rest, f) == (if Matches(x, f) then [x] else []) + FilterVehicles(rest, f)
  {
    assert ([x] + rest)[1..] == rest;
  }

  /** `.filter` keeps the relative order of the list: filtering a
      concatenation concatenates the filtered parts. */
  lemma {:induction false} FilterVehiclesAppend(a: seq<Vehicle>, b: seq<Vehicle>, f: Filters)
    ensures FilterVehicles(a + b, f) == FilterVehicles(a, f) + FilterVehicles(b, f)
    decreases |a|
  {
    if a == [] {
      assert a + b == b;
    } else {
      var head := if Matches(a[0], f) then [a[0]] else [];
      calc {
        FilterVehicles(a + b, f);
        { assert a + b == [a[0]] + (a[1..] + b); }
        FilterVehicles([a[0]] + (a[1..] + b), f);
        { FilterVehiclesCons(a[0], a[1..] + b, f); }
        head + FilterVehicles(a[1..] + b, f);
        { FilterVehiclesAppend(a[1..], b, f); }
        head + (FilterVehicles(a[1..], f) + FilterVehicles(b, f));
        (head + FilterVehicles(a[1..], f)) + FilterVehicles(b, f);
        { FilterVehiclesCons(a[0], a[1..], f); assert a == [a[0]] + a[1..]; }
        FilterVehicles(a, f) + FilterVehicles(b, f);
      }
    }
  }

  /** The price compared by the price sorts: the sale price of a SALE
      offer, the rental price otherwise; JavaScript reads null as 0. */
  function EffectivePrice(v: Vehicle): int {
    if v.typeOffer == Sale then v.salePrice.GetOr(0) else v.rentalPrice.GetOr(0)
  }

  function Year(v: Vehicle): int { v.year }

  /** The vehicle's offer has no price: a SALE without a sale price, or a
      RENTAL without a rental price. */
  predicate NullOfferPrice(v: Vehicle) {
    if v.typeOffer == Sale then v.salePrice.None? else v.rentalPrice.None?
  }

  /** The `.sort(...)` step: price_asc, price_desc and year_asc as named;
      year_desc and every unknown key by year, newest first. */
  function SortVehicles(vs: seq<Vehicle>, sortBy: string): (r: seq<Vehicle>)
    ensures multiset(r) == multiset(vs) && |r| == |vs|
    ensures sortBy == "price_asc" ==> forall i, j :: 0 <= i < j < |r| ==> EffectivePrice(r[i]) <= EffectivePrice(r[j])
    ensures sortBy == "price_desc" ==> forall i, j :: 0 <= i < j < |r| ==> EffectivePrice(r[i]) >= EffectivePrice(r[j])
    ensures sortBy == "year_asc" ==> forall i, j :: 0 <= i < j < |r| ==> r[i].year <= r[j].year
    ensures sortBy !in ["price_asc", "price_desc", "year_asc"] ==>
      forall i, j :: 0 <= i < j < |r| ==> r[i].year >= r[j].year
  {
    if sortBy == "price_asc" then
      var r := SortBy(vs, EffectivePrice, false);
      assert |r| == |multiset(r)| == |multiset(vs)| == |vs|;
      r
    else if sortBy == "price_desc" then
      var r := SortBy(vs, EffectivePrice, true);
      assert |r| == |multiset(r)| == |multiset(vs)| == |vs|;
      r
    else if sortBy == "year_asc" then
      var r := SortBy(vs, Year, false);
      assert forall i, j :: 0 <= i < j < |r| ==> InOrder(Year(r[i]), Year(r[j]), false);
      r
    else
      var r := SortBy(vs, Year, true);
      assert forall i, j :: 0 <= i < j < |r| ==> InOrder(Year(r[i]), Year(r[j]), true);
      r
  }

  /** A vehicle whose offer price is null sorts as a price of 0 in both
      price orders: in ascending order only vehicles priced at most 0 come
      before it and only vehicles priced at least 0 after it, and the
      reverse in descending order. */
  lemma {:induction false} NullPriceSortsAsZero(vs: seq<Vehicle>, sortBy: string, i: int, j: int)
    requires sortBy == "price_asc" || sortBy == "price_desc"
    requires 0 <= i < |vs| && 0 <= j < |vs| && i != j
    requires NullOfferPrice(SortVehicles(vs, sortBy)[j])
    ensures var r := SortVehicles(vs, sortBy);
      (sortBy == "price_asc" ==> (if i < j then EffectivePrice(r[i]) <= 0 else EffectivePrice(r[i]) >= 0))
      && (sortBy == "price_desc" ==> (if i < j then EffectivePrice(r[i]) >= 0 else EffectivePrice(r[i]) <= 0))
  {
    var r := SortVehicles(vs, sortBy);
    assert EffectivePrice(r[j]) == 0;
    if i < j {
      assert 0 <= i < j < |r|;
    } else {
      assert 0 <= j < i < |r|;
    }
  }

  /** The order a sort key asks for: price up or down (null as 0), year
      up, or year down for every other key. */
  predicate OrderedFor(r: seq<Vehicle>, sortBy: string) {
    && (sortBy == "price_asc" ==> forall i, j :: 0 <= i < j < |r| ==> EffectivePrice(r[i]) <= EffectivePrice(r[j]))
    && (sortBy == "price_desc" ==> forall i, j :: 0 <= i < j < |r| ==> EffectivePrice(r[i]) >= EffectivePrice(r[j]))
    && (sortBy == "year_asc" ==> forall i, j :: 0 <= i < j < |r| ==> r[i].year <= r[j].year)
    && (sortBy !in ["price_asc", "price_desc", "year_asc"] ==>
          forall i, j :: 0 <= i < j < |r| ==> r[i].year >= r[j].year)
  }

  /** `filteredVehicles`: exactly the matching vehicles, ordered. */
  function FilteredVehicles(vs: seq<Vehicle>, f: Filters): (r: seq<Vehicle>)
    ensures forall v :: v in r <==> v in vs && Matches(v, f)
    ensures multiset(r) == multiset(FilterVehicles(vs, f))
    ensures f.typeFilter != "ALL" ==> forall v :: v in r ==> OfferCode(v.typeOffer) == f.typeFilter
    ensures f.onlyAvailable ==> forall v :: v in r ==> v.state == Available
    ensures r == SortVehicles(FilterVehicles(vs, f), f.sortBy)
  {
    var kept := FilterVehicles(vs, f);
    var r := SortVehicles(kept, f.sortBy);
    assert forall v :: v in r <==> v in kept by {
      forall v ensures v in r <==> v in kept { PermutationKeepsMembers(r, kept, v); }
    }
    r
  }

  /** The page lists the vehicles in the order the sort key asks for. */
  lemma FilteredVehiclesOrdered(vs: seq<Vehicle>, f: Filters)
    ensures OrderedFor(FilteredVehicles(vs, f), f.sortBy)
  {
  }

  /** The page lists every copy of a matching vehicle and no copy of any
      other. */
  lemma FilteredVehiclesCount(vs: seq<Vehicle>, f: Filters, v: Vehicle)
    ensures multiset(FilteredVehicles(vs, f))[v] == if Matches(v, f) then multiset(vs)[v] else 0
  {
    FilterVehiclesCount(vs, f, v);
  }

  /** The `useState` initial values of the filters. */
  const InitialFilters := Filters("", "ALL", "year_desc", false)

  /** `handleResetFilters`. */
  function ResetFilters(f: Filters): (r: Filters)
    ensures r == InitialFilters
  {
    Filters("", "ALL", "year_desc", false)
  }

  /** After a reset the page lists every vehicle, newest first. */
  lemma {:induction false} ResetShowsEverything(vs: seq<Vehicle>, f: Filters)
    ensures FilteredVehicles(vs, ResetFilters(f)) == SortVehicles(vs, "year_desc")
  {
    var g := ResetFilters(f);
    forall v | v in vs ensures Matches(v, g) {
      SearchProperties(v, "");
    }
    FilterKeepsAll(vs, g);
  }

  lemma {:induction false} FilterKeepsAll(vs: seq<Vehicle>, f: Filters)
    requires forall v :: v in vs ==> Matches(v, f)
    ensures FilterVehicles(vs, f) == vs
    decreases |vs|
  {
    if vs != [] {
      assert vs == [vs[0]] + vs[1..];
      FilterKeepsAll(vs[1..], f);
    }
  }

  // ---------------------------------------------------------------------
  // Previous / next vehicle

  /** `findIndex(v => v.id === parseInt(currentId))`; `id` is the parsed
      value, `None` standing for NaN, which equals no id. */
  function FindIndex(vs: seq<Vehicle>, id: Option<int>): (i: int)
    ensures -1 <= i < |vs|
    ensures i >= 0 ==> id == Some(vs[i].id) && forall j :: 0 <= j < i ==> vs[j].id != id.value
    ensures i == -1 ==> forall j :: 0 <= j < |vs| ==> id != Some(vs[j].id)
  {
    if vs == [] then -1
    else if id == Some(vs[0].id) then 0
    else
      var k := FindIndex(vs[1..], id);
      assert forall j :: 1 <= j < |vs| ==> vs[j] == vs[1..][j - 1];
      if k == -1 then -1 else k + 1
  }

  datatype Adjacent = Adjacent(previous: Option<int>, next: Option<int>)

  /** `getAdjacentVehicles` on an already fetched list. */
  function AdjacentVehicles(vs: seq<Vehicle>, id: Option<int>): (a: Adjacent)
    ensures var i := FindIndex(vs, id);
      && (a.previous.Some? <==> i > 0)
      && (i > 0 ==> a.previous == Some(vs[i - 1].id))
      && (a.next.Some? <==> i < |vs| - 1)
      && (i < |vs| - 1 ==> a.next == Some(vs[i + 1].id))
  {
    var i := FindIndex(vs, id);
    Adjacent(if i > 0 then Some(vs[i - 1].id) else None,
             if i < |vs| - 1 then Some(vs[i + 1].id) else None)
  }

  /** An unknown id on a non-empty list gives no previous and the first
      vehicle as next; an empty list gives neither. */
  lemma AdjacentEdgeCases(vs: seq<Vehicle>, id: Option<int>)
    ensures vs == [] ==> AdjacentVehicles(vs, id) == Adjacent(None, None)
    ensures vs != [] && (forall v :: v in vs ==> id != Some(v.id)) ==>
      AdjacentVehicles(vs, id) == Adjacent(None, Some(vs[0].id))
  {
    if vs != [] && (forall v :: v in vs ==> id != Some(v.id)) {
      assert forall j :: 0 <= j < |vs| ==> vs[j] in vs;
    }
  }

  predicate DistinctIds(vs: seq<Vehicle>) {
    forall i, j :: 0 <= i < j < |vs| ==> vs[i].id != vs[j].id
  }

  /** With distinct ids, following "next" and then "previous" comes back. */
  lemma {:induction false} NextThenPrevious(vs: seq<Vehicle>, id: int)
    requires DistinctIds(vs)
    requires AdjacentVehicles(vs, Some(id)).next.Some?
    requires exists v :: v in vs && v.id == id
    ensures AdjacentVehicles(vs, AdjacentVehicles(vs, Some(id)).next).previous == Some(id)
  {
    var i := FindIndex(vs, Some(id));
    assert vs[i].id == id;
    var n := vs[i + 1].id;
    var k := FindIndex(vs, Some(n));
    assert k == i + 1;
  }
}
