/** The ride-list helpers of frontend/src/FareResults.js: classifying and
    labelling a (service, class) pair, flattening the fare table into rides,
    filtering by category, ordering by price and flagging the cheapest. */
module Rides {
  import opened Wrappers
  import opened Text
  import opened Fares
  import opened Labels

  /** The category chips, "All" first. */
  const CATEGORIES: seq<string> := ["All", "Auto", "Cab Economy", "Cab Premium", "Cab XL"]

  // ---------------------------------------------------------------
  // Classification and labels
  // ---------------------------------------------------------------

  /** `categoryFor`: decided by the lower-cased class name alone; "auto" wins
      over "xl"/"suv", which win over "prime"/"premier". */
  function CategoryFor(service: string, vehicle: string): (c: string)
    ensures c in CATEGORIES[1..]
    ensures c == "Auto" <==> Contains(Lower(vehicle), "auto")
  {
    var t := Lower(vehicle);
    if Contains(t, "auto") then "Auto"
    else if Contains(t, "xl") || Contains(t, "suv") then "Cab XL"
    else if Contains(t, "prime") || Contains(t, "premier") then "Cab Premium"
    else "Cab Economy"
  }

  /** The order of the tests decides between categories whose keywords overlap. */
  lemma CategoryPriority(service: string, vehicle: string)
    ensures var t := Lower(vehicle);
      && (CategoryFor(service, vehicle) == "Cab XL" <==>
            !Contains(t, "auto") && (Contains(t, "xl") || Contains(t, "suv")))
      && (CategoryFor(service, vehicle) == "Cab Premium" <==>
            !Contains(t, "auto") && !Contains(t, "xl") && !Contains(t, "suv")
            && (Contains(t, "prime") || Contains(t, "premier")))
      && (CategoryFor(service, vehicle) == "Cab Economy" <==>
            !Contains(t, "auto") && !Contains(t, "xl") && !Contains(t, "suv")
            && !Contains(t, "prime") && !Contains(t, "premier"))
  {
  }

  /** Matching ignores case: a class name and its lower-cased form fall in the same category. */
  lemma CategoryIgnoresCase(service: string, vehicle: string)
    ensures CategoryFor(service, vehicle) == CategoryFor(service, Lower(vehicle))
  {
    LowerIdempotent(vehicle);
  }

  /** The categories of the classes the backend prices. */
  lemma RateCardCategories()
    ensures CategoryFor("ola", "primeSUV") == "Cab XL"
    ensures CategoryFor("ola", "primeSedan") == "Cab Premium"
    ensures CategoryFor("uber", "uberXL") == "Cab XL"
    ensures CategoryFor("uber", "auto") == "Auto"
    ensures CategoryFor("redTaxi", "micro") == "Cab Economy"
  {
    PrimeSuvCategory();
    PrimeSedanCategory();
    UberXlCategory();
    AutoCategory();
    MicroCategory();
  }

  lemma PrimeSuvCategory()
    ensures CategoryFor("ola", "primeSUV") == "Cab XL"
  {
    LowersToSound("primeSUV", "primesuv");
    assert MatchesAt("primesuv", "suv", 5, 0);
  }

  lemma PrimeSedanCategory()
    ensures CategoryFor("ola", "primeSedan") == "Cab Premium"
  {
    LowersToSound("primeSedan", "primesedan");
    assert MatchesAt("primesedan", "prime", 0, 0);
  }

  lemma UberXlCategory()
    ensures CategoryFor("uber", "uberXL") == "Cab XL"
  {
    LowersToSound("uberXL", "uberxl");
    assert MatchesAt("uberxl", "xl", 4, 0);
  }

  lemma AutoCategory()
    ensures CategoryFor("uber", "auto") == "Auto"
  {
    LowersToSound("auto", "auto");
    assert MatchesAt("auto", "auto", 0, 0);
  }

  lemma MicroCategory()
    ensures CategoryFor("redTaxi", "micro") == "Cab Economy"
  {
    LowersToSound("micro", "micro");
  }

  // ---------------------------------------------------------------
  // Flattening the fare table
  // ---------------------------------------------------------------

  /** One entry of `allRides`. */
  datatype Ride = Ride(service: string, vehicle: string, price: real, category: string, caption: string)

  function MakeRide(service: string, cf: ClassFare): Ride
  {
    Ride(service, cf.vehicle, cf.price, CategoryFor(service, cf.vehicle), LabelFor(service, cf.vehicle))
  }

  function RidesOf(sf: ServiceFares): seq<Ride>
  {
    seq(|sf.classes|, j requires 0 <= j < |sf.classes| => MakeRide(sf.service, sf.classes[j]))
  }

  /** The rides of a fare table, service by service, class by class. */
  function Flatten(fares: seq<ServiceFares>): (rides: seq<Ride>)
    ensures |rides| == PairCount(fares)
  {
    if fares == [] then [] else RidesOf(fares[0]) + Flatten(fares[1..])
  }

  /** The number of (service, class) pairs in a fare table. */
  function PairCount(fares: seq<ServiceFares>): nat
  {
    if fares == [] then 0 else |fares[0].classes| + PairCount(fares[1..])
  }

  lemma {:induction false} FlattenAppend(a: seq<ServiceFares>, b: seq<ServiceFares>)
    ensures Flatten(a + b) == Flatten(a) + Flatten(b)
  {
    if a == [] {
      assert a + b == b;
    } else {
      assert (a + b)[1..] == a[1..] + b;
      FlattenAppend(a[1..], b);
    }
  }

  /** `allRides`: one ride per (service, class) pair, built with nested loops;
      no fares, no rides. */
  method AllRides(fares: Option<seq<ServiceFares>>) returns (rides: seq<Ride>)
    ensures rides == if fares.Some? then Flatten(fares.value) else []
  {
    rides := [];
    if fares.Some? {
      var table := fares.value;
      var i := 0;
      while i < |table|
        invariant 0 <= i <= |table|
        invariant rides == Flatten(table[..i])
      {
        var serviceRides := PushServiceRides(table[i]);
        rides := rides + serviceRides;
        assert table[..i + 1] == table[..i] + [table[i]];
        FlattenAppend(table[..i], [table[i]]);
        assert Flatten([table[i]]) == RidesOf(table[i]) + Flatten([]);
        i := i + 1;
      }
      assert table[..i] == table;
    }
  }

  /** The inner loop of `allRides`: the rides of one service, in class order. */
  method PushServiceRides(sf: ServiceFares) returns (rides: seq<Ride>)
    ensures rides == RidesOf(sf)
  {
    rides := [];
    var j := 0;
    while j < |sf.classes|
      invariant 0 <= j <= |sf.classes|
      invariant rides == RidesOf(sf)[..j]
    {
      rides := rides + [MakeRide(sf.service, sf.classes[j])];
      assert RidesOf(sf)[..j + 1] == RidesOf(sf)[..j] + [RidesOf(sf)[j]];
      j := j + 1;
    }
  }

  /** Exactly one ride per (service, class) pair: the count matches, every pair
      has its ride with its price, and every ride comes from a pair. */
  lemma FlattenOnePerPair(fares: seq<ServiceFares>)
    ensures |Flatten(fares)| == PairCount(fares)
    ensures forall i, j :: 0 <= i < |fares| && 0 <= j < |fares[i].classes| ==>
              MakeRide(fares[i].service, fares[i].classes[j]) in Flatten(fares)
    ensures forall r :: r in Flatten(fares) ==>
              exists i, j :: 0 <= i < |fares| && 0 <= j < |fares[i].classes| && r == MakeRide(fares[i].service, fares[i].classes[j])
  {
    FlattenHasEveryPair(fares);
    FlattenOnlyPairs(fares);
  }

  lemma {:induction false} FlattenHasEveryPair(fares: seq<ServiceFares>)
    ensures forall i, j :: 0 <= i < |fares| && 0 <= j < |fares[i].classes| ==>
              MakeRide(fares[i].service, fares[i].classes[j]) in Flatten(fares)
  {
    if fares != [] {
      FlattenHasEveryPair(fares[1..]);
      var head := RidesOf(fares[0]);
      forall i, j | 0 <= i < |fares| && 0 <= j < |fares[i].classes|
        ensures MakeRide(fares[i].service, fares[i].classes[j]) in Flatten(fares)
      {
        if i == 0 {
          assert head[j] == MakeRide(fares[i].service, fares[i].classes[j]);
        } else {
          assert fares[1..][i - 1] == fares[i];
        }
      }
    }
  }

  lemma {:induction false} FlattenOnlyPairs(fares: seq<ServiceFares>)
    ensures forall r :: r in Flatten(fares) ==>
              exists i, j :: 0 <= i < |fares| && 0 <= j < |fares[i].classes| && r == MakeRide(fares[i].service, fares[i].classes[j])
  {
    if fares != [] {
      FlattenOnlyPairs(fares[1..]);
      var head := RidesOf(fares[0]);
      var tail := Flatten(fares[1..]);
      assert Flatten(fares) == head + tail;
      forall r | r in Flatten(fares)
        ensures exists i, j :: 0 <= i < |fares| && 0 <= j < |fares[i].classes| && r == MakeRide(fares[i].service, fares[i].classes[j])
      {
        if r in head {
          var j :| 0 <= j < |head| && head[j] == r;
          assert r == MakeRide(fares[0].service, fares[0].classes[j]);
        } else {
          assert r in tail;
          var i, j :| 0 <= i < |fares[1..]| && 0 <= j < |fares[1..][i].classes| && r == MakeRide(fares[1..][i].service, fares[1..][i].classes[j]);
          assert fares[1..][i] == fares[i + 1];
          assert r == MakeRide(fares[i + 1].service, fares[i + 1].classes[j]);
        }
      }
    }
  }

  /** The backend's table flattens to eleven rides. */
  lemma ElevenRides(distanceKm: real, durationMin: real, surge: real)
    ensures |Flatten(FareTable(distanceKm, durationMin, surge))| == 11
  {
    var t := FareTable(distanceKm, durationMin, surge);
    FareTableShape(distanceKm, durationMin, surge);
    FlattenOnePerPair(t);
    assert PairCount(t[1..][1..][1..]) == 0;
    assert PairCount(t[1..][1..]) == 4;
    assert PairCount(t[1..]) == 8;
  }

  // ---------------------------------------------------------------
  // Filtering, ordering, cheapest
  // ---------------------------------------------------------------

  predicate Selected(r: Ride, selectedCategory: string)
  {
    selectedCategory == "All" || r.category == selectedCategory
  }

  /** `allRides.filter(...)`, order kept: each selected ride as often as it
      occurs, every other ride not at all. */
  function Select(rides: seq<Ride>, selectedCategory: string): (s: seq<Ride>)
    ensures forall r :: r in s <==> r in rides && Selected(r, selectedCategory)
    ensures forall r :: multiset(s)[r] == if Selected(r, selectedCategory) then multiset(rides)[r] else 0
  {
    if rides == [] then []
    else
      assert rides == [rides[0]] + rides[1..];
      if Selected(rides[0], selectedCategory) then [rides[0]] + Select(rides[1..], selectedCategory)
    else Select(rides[1..], selectedCategory)
  }

  predicate SortedByPrice(s: seq<Ride>)
  {
    forall i, j :: 0 <= i < j < |s| ==> s[i].price <= s[j].price
  }

  /** Places `r` before the first ride that costs at least as much. */
  function InsertByPrice(r: Ride, s: seq<Ride>): (u: seq<Ride>)
    requires SortedByPrice(s)
    ensures SortedByPrice(u) && multiset(u) == multiset(s) + multiset{r}
    ensures u != [] && (u[0] == r || (s != [] && u[0] == s[0]))
  {
    if s == [] || r.price <= s[0].price then [r] + s
    else
      var tail := InsertByPrice(r, s[1..]);
      assert s == [s[0]] + s[1..];
      [s[0]] + tail
  }

  /** `.sort((a, b) => a.price - b.price)`, a stable insertion sort. */
  function SortByPrice(s: seq<Ride>): (u: seq<Ride>)
    ensures SortedByPrice(u) && multiset(u) == multiset(s)
  {
    if s == [] then []
    else
      assert s == [s[0]] + s[1..];
      InsertByPrice(s[0], SortByPrice(s[1..]))
  }

  /** `filtered`: the selected rides, each as often as in `allRides`, in
      non-decreasing price. */
  function Filtered(rides: seq<Ride>, selectedCategory: string): (f: seq<Ride>)
    ensures SortedByPrice(f)
    ensures forall r :: multiset(f)[r] == if Selected(r, selectedCategory) then multiset(rides)[r] else 0
  {
    SortByPrice(Select(rides, selectedCategory))
  }

  /** `filtered` holds exactly the rides of the chosen category (all of them
      for "All"), each as often as in `allRides`, in non-decreasing price. */
  lemma FilteredSpec(rides: seq<Ride>, selectedCategory: string)
    ensures var f := Filtered(rides, selectedCategory);
      && SortedByPrice(f)
      && (forall r :: multiset(f)[r] == if Selected(r, selectedCategory) then multiset(rides)[r] else 0)
      && (forall r :: r in f <==> r in rides && Selected(r, selectedCategory))
      && (selectedCategory == "All" ==> multiset(f) == multiset(rides))
  {
    var f := Filtered(rides, selectedCategory);
    forall r ensures r in f <==> r in Select(rides, selectedCategory) {
      assert r in f <==> r in multiset(f);
    }
    if selectedCategory == "All" {
      AllSelected(rides);
    }
  }

  lemma {:induction false} AllSelected(rides: seq<Ride>)
    ensures Select(rides, "All") == rides
  {
    if rides != [] {
      AllSelected(rides[1..]);
      assert rides == [rides[0]] + rides[1..];
    }
  }

  /** `Math.min(...prices)` of a non-empty list. */
  function MinPrice(s: seq<Ride>): (m: real)
    requires s != []
    ensures exists k :: 0 <= k < |s| && s[k].price == m
    ensures forall k :: 0 <= k < |s| ==> m <= s[k].price
  {
    if |s| == 1 then s[0].price
    else
      var rest := MinPrice(s[1..]);
      assert forall k :: 1 <= k < |s| ==> s[k] == s[1..][k - 1];
      if s[0].price <= rest then s[0].price else rest
  }

  /** `cheapestPrice`: null for an empty list, the minimum price otherwise. */
  function CheapestPrice(filtered: seq<Ride>): (c: Option<real>)
    ensures c.None? <==> filtered == []
    ensures c.Some? ==> c.value == MinPrice(filtered)
  {
    if filtered == [] then None else Some(MinPrice(filtered))
  }

  /** `isCheapest`: flagged exactly when there is a cheapest price and the
      ride costs at most a paisa more. */
  predicate IsCheapest(r: Ride, cheapestPrice: Option<real>): (flagged: bool)
    ensures cheapestPrice.Some? && r.price - cheapestPrice.value <= 0.01 ==> flagged
    ensures flagged ==> cheapestPrice.Some? && r.price - cheapestPrice.value <= 0.01
  {
    cheapestPrice.Some? && r.price <= cheapestPrice.value + 0.01
  }

  /** The first ride shown is always flagged cheapest, and no flagged ride
      costs more than a paisa above any ride in the list. */
  lemma FirstIsCheapest(rides: seq<Ride>, selectedCategory: string)
    ensures var f := Filtered(rides, selectedCategory);
      && (f != [] ==> IsCheapest(f[0], CheapestPrice(f)))
      && (forall r, k :: r in f && IsCheapest(r, CheapestPrice(f)) && 0 <= k < |f| ==> r.price <= f[k].price + 0.01)
  {
    var f := Filtered(rides, selectedCategory);
    if f != [] {
      var k :| 0 <= k < |f| && f[k].price == MinPrice(f);
      assert f[0].price <= f[k].price;
    }
  }
}
