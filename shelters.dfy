/** The shelter locator page (app/shelters/page.tsx): the directory of shelters,
    their ranking by distance from an observer, and the filter by service tag. */
module Shelters {
  import opened Wrappers
  import opened Text
  import opened Sequences

  datatype Coord = Coord(lat: real, lng: real)

  /** One shelter record; `distance` is absent until the list is ranked. */
  datatype Shelter = Shelter(
    id: int,
    name: string,
    address: string,
    phone: string,
    email: string,
    website: Option<string>,
    hours: string,
    services: seq<string>,
    rating: real,
    lat: real,
    lng: real,
    distance: Option<real>)
  {
    function Location(): Coord {
      Coord(lat, lng)
    }
  }

  /** `calculateDistance`, observer first and shelter second; its haversine
      arithmetic is not modelled, so the ranking holds for any such function. */
  type DistanceFn = (Coord, Coord) -> real

  /** The coordinates the ZIP search stands in for every ZIP code (New York City). */
  const ZipLocation := Coord(40.7128, -74.0060)

  /** The six records of the directory, in directory order. */
  function MockShelters(): (r: seq<Shelter>)
    ensures |r| == 6
    ensures forall i :: 0 <= i < |r| ==> r[i].id == i + 1 && r[i].distance == None
  {
    [ Shelter(1, "City Animal Protection Services", "123 Main St, Downtown",
              "(555) 123-4567", "info@cityaps.org", Some("https://cityaps.org"),
              "Mon-Fri: 9AM-6PM, Sat: 10AM-4PM",
              ["Emergency Care", "Adoption", "Spay/Neuter", "Vaccination"],
              4.5, 40.7128, -74.0060, None),
      Shelter(2, "Humane Society Emergency Response", "456 Oak Ave, Midtown",
              "(555) 987-6543", "emergency@humanesociety.org", Some("https://humanesociety.org"),
              "24/7 Emergency Services",
              ["24/7 Emergency", "Rescue", "Rehabilitation", "Foster Care"],
              4.8, 40.7589, -73.9851, None),
      Shelter(3, "Pet Haven Animal Sanctuary", "789 Pine Rd, Uptown",
              "(555) 456-7890", "contact@pethaven.org", None,
              "Mon-Sun: 8AM-8PM",
              ["Boarding", "Grooming", "Training", "Adoption"],
              4.2, 40.7831, -73.9712, None),
      Shelter(4, "Animal Control & Welfare Department", "321 Elm St, Southside",
              "(555) 654-3210", "welfare@animalcontrol.gov", None,
              "Mon-Fri: 8AM-5PM",
              ["Animal Control", "Lost Pet Recovery", "Licensing", "Education"],
              4.0, 40.6892, -74.0445, None),
      Shelter(5, "Companion Animal Hospital", "654 Cedar Blvd, Eastside",
              "(555) 321-9876", "care@companionvet.com", Some("https://companionvet.com"),
              "Mon-Fri: 7AM-9PM, Weekends: 8AM-6PM",
              ["Veterinary Care", "Surgery", "Dental", "Emergency"],
              4.7, 40.7505, -73.9934, None),
      Shelter(6, "Safe Harbor Animal Rescue", "987 Maple Dr, Westside",
              "(555) 789-0123", "rescue@safeharbor.org", None,
              "Tue-Sun: 11AM-7PM",
              ["Rescue", "Adoption", "Volunteer Programs", "Education"],
              4.3, 40.7282, -74.0776, None) ]
  }

  // ---------------------------------------------------------------------------
  // Ranking: `mockShelters.map(...)` followed by the stable `sort`
  // ---------------------------------------------------------------------------

  /** The sort key `(s.distance || 0)`: an absent distance sorts as 0. */
  function Key(s: Shelter): real {
    s.distance.GetOr(0.0)
  }

  /** The `map` step: every record, in order, with its distance from `loc`. */
  function WithDistance(dir: seq<Shelter>, loc: Coord, dist: DistanceFn): (r: seq<Shelter>)
    ensures |r| == |dir|
    ensures forall i :: 0 <= i < |dir| ==>
              r[i] == dir[i].(distance := Some(dist(loc, dir[i].Location())))
  {
    if dir == [] then []
    else [dir[0].(distance := Some(dist(loc, dir[0].Location())))] + WithDistance(dir[1..], loc, dist)
  }

  ghost predicate SortedByKey(s: seq<Shelter>) {
    forall i, j :: 0 <= i < j < |s| ==> Key(s[i]) <= Key(s[j])
  }

  /** The records of `s` whose key is `k`, in their order in `s`. A sort is stable
      exactly when it leaves this list unchanged for every `k`. */
  function KeyFilter(s: seq<Shelter>, k: real): seq<Shelter> {
    if s == [] then []
    else (if Key(s[0]) == k then [s[0]] else []) + KeyFilter(s[1..], k)
  }

  /** Puts `x` in front of the first record whose key is not smaller than its own. */
  function Insert(x: Shelter, t: seq<Shelter>): seq<Shelter> {
    if t == [] || Key(x) <= Key(t[0]) then [x] + t
    else [t[0]] + Insert(x, t[1..])
  }

  /** A stable sort ascending by `Key`, as `Array.prototype.sort` is. */
  function SortByDistance(s: seq<Shelter>): seq<Shelter> {
    if s == [] then [] else Insert(s[0], SortByDistance(s[1..]))
  }

  lemma {:induction false} InsertMultiset(x: Shelter, t: seq<Shelter>)
    ensures multiset(Insert(x, t)) == multiset(t) + multiset{x}
  {
    if t != [] && Key(t[0]) < Key(x) {
      InsertMultiset(x, t[1..]);
      assert t == [t[0]] + t[1..];
    }
  }

  /** Sorting keeps every record exactly as often as it occurs. */
  lemma {:induction false} SortMultiset(s: seq<Shelter>)
    ensures multiset(SortByDistance(s)) == multiset(s)
  {
    if s != [] {
      SortMultiset(s[1..]);
      InsertMultiset(s[0], SortByDistance(s[1..]));
      assert s == [s[0]] + s[1..];
    }
  }

  lemma {:induction false} InsertSorted(x: Shelter, t: seq<Shelter>)
    requires SortedByKey(t)
    ensures SortedByKey(Insert(x, t))
  {
    if t == [] || Key(x) <= Key(t[0]) {
      PrependSorted(x, t);
    } else {
      var u := Insert(x, t[1..]);
      InsertSorted(x, t[1..]);
      InsertMultiset(x, t[1..]);
      forall j | 0 <= j < |u|
        ensures Key(t[0]) <= Key(u[j])
      {
        assert u[j] in multiset(u);
        if u[j] != x {
          assert u[j] in multiset(t[1..]);
          var m :| 0 <= m < |t[1..]| && t[1..][m] == u[j];
          assert u[j] == t[m + 1];
        }
      }
      PrependSorted(t[0], u);
    }
  }

  /** A record whose key is at most every key of a sorted list can go in front of it. */
  lemma PrependSorted(x: Shelter, t: seq<Shelter>)
    requires SortedByKey(t)
    requires forall j :: 0 <= j < |t| ==> Key(x) <= Key(t[j])
    ensures SortedByKey([x] + t)
  {
    var r := [x] + t;
    forall i, j | 0 <= i < j < |r|
      ensures Key(r[i]) <= Key(r[j])
    {
      assert r[j] == t[j - 1];
      if i > 0 {
        assert r[i] == t[i - 1];
      }
    }
  }

  /** The sorted list is non-decreasing by distance. */
  lemma {:induction false} SortSorted(s: seq<Shelter>)
    ensures SortedByKey(SortByDistance(s))
  {
    if s != [] {
      SortSorted(s[1..]);
      InsertSorted(s[0], SortByDistance(s[1..]));
    }
  }

  lemma {:induction false} InsertKeyFilter(x: Shelter, t: seq<Shelter>, k: real)
    ensures KeyFilter(Insert(x, t), k) == (if Key(x) == k then [x] else []) + KeyFilter(t, k)
  {
    var fx := if Key(x) == k then [x] else [];
    if t == [] || Key(x) <= Key(t[0]) {
      var r := [x] + t;
      assert r[0] == x && r[1..] == t;
      assert KeyFilter(r, k) == fx + KeyFilter(t, k);
    } else {
      var u := Insert(x, t[1..]);
      var r := [t[0]] + u;
      var ft := if Key(t[0]) == k then [t[0]] else [];
      assert r[0] == t[0] && r[1..] == u;
      assert KeyFilter(r, k) == ft + KeyFilter(u, k);
      InsertKeyFilter(x, t[1..], k);
      assert KeyFilter(u, k) == fx + KeyFilter(t[1..], k);
      assert KeyFilter(t, k) == ft + KeyFilter(t[1..], k);
      assert Key(x) == k ==> ft == [];
    }
  }

  /** Stability: records with equal distance keep their directory order. */
  lemma {:induction false} SortStable(s: seq<Shelter>, k: real)
    ensures KeyFilter(SortByDistance(s), k) == KeyFilter(s, k)
  {
    if s != [] {
      SortStable(s[1..], k);
      InsertKeyFilter(s[0], SortByDistance(s[1..]), k);
    }
  }

  /** `updateSheltersWithDistance`'s list: the directory annotated with distances
      from `loc` and sorted by them, stably. */
  function Rank(dir: seq<Shelter>, loc: Coord, dist: DistanceFn): (r: seq<Shelter>)
    ensures multiset(r) == multiset(WithDistance(dir, loc, dist))
    ensures SortedByKey(r)
    ensures forall k :: KeyFilter(r, k) == KeyFilter(WithDistance(dir, loc, dist), k)
    ensures forall i :: 0 <= i < |r| ==> r[i].distance == Some(dist(loc, r[i].Location()))
  {
    var w := WithDistance(dir, loc, dist);
    var r := SortByDistance(w);
    SortMultiset(w);
    SortSorted(w);
    forall k ensures KeyFilter(r, k) == KeyFilter(w, k) {
      SortStable(w, k);
    }
    forall i | 0 <= i < |r| ensures r[i].distance == Some(dist(loc, r[i].Location())) {
      assert r[i] in multiset(w);
      var j :| 0 <= j < |w| && w[j] == r[i];
    }
    r
  }

  /** When the first record of `s` has the smallest key, it stays first. */
  lemma SortKeepsEarliestMinimumFirst(s: seq<Shelter>)
    requires s != []
    requires forall j :: 0 <= j < |s| ==> Key(s[0]) <= Key(s[j])
    ensures SortByDistance(s)[0] == s[0]
  {
    var t := SortByDistance(s[1..]);
    if t != [] {
      SortMultiset(s[1..]);
      assert t[0] in multiset(s[1..]);
      var m :| 0 <= m < |s[1..]| && s[1..][m] == t[0];
      assert t[0] == s[m + 1];
    }
  }

  /** For a distance that is non-negative and zero from a point to itself, the ZIP
      search (whose stand-in location is that of shelter 1) ranks shelter 1 first,
      at distance 0. */
  lemma ZipSearchRanksShelterOneFirst(dist: DistanceFn)
    requires forall a: Coord :: dist(a, a) == 0.0
    requires forall a: Coord, b: Coord :: dist(a, b) >= 0.0
    ensures Rank(MockShelters(), ZipLocation, dist)[0].id == 1
    ensures Rank(MockShelters(), ZipLocation, dist)[0].distance == Some(0.0)
  {
    var w := WithDistance(MockShelters(), ZipLocation, dist);
    assert MockShelters()[0].Location() == ZipLocation;
    assert Key(w[0]) == 0.0;
    SortKeepsEarliestMinimumFirst(w);
  }

  /** Any two lists that are sorted by key and agree on the order of each key's
      records are equal: every stable sort by distance yields `SortByDistance`. */
  lemma {:induction false} StableSortUnique(a: seq<Shelter>, b: seq<Shelter>)
    requires SortedByKey(a) && SortedByKey(b)
    requires forall k :: KeyFilter(a, k) == KeyFilter(b, k)
    ensures a == b
    decreases |a| + |b|
  {
    if a == [] || b == [] {
      if a != [] {
        KeyFilterHead(a);
      } else if b != [] {
        KeyFilterHead(b);
      }
    } else {
      var ka, kb := Key(a[0]), Key(b[0]);
      KeyFilterHead(a);
      KeyFilterHead(b);
      KeyFilterMember(b, ka);
      KeyFilterMember(a, kb);
      assert ka == kb;
      assert a[0] == KeyFilter(a, ka)[0] == KeyFilter(b, ka)[0] == b[0];
      forall k ensures KeyFilter(a[1..], k) == KeyFilter(b[1..], k) {
        var p := if ka == k then [a[0]] else [];
        assert KeyFilter(a, k) == p + KeyFilter(a[1..], k);
        assert KeyFilter(b, k) == p + KeyFilter(b[1..], k);
        assert KeyFilter(a[1..], k) == KeyFilter(a, k)[|p|..];
      }
      StableSortUnique(a[1..], b[1..]);
    }
  }

  lemma KeyFilterHead(s: seq<Shelter>)
    requires s != []
    ensures KeyFilter(s, Key(s[0])) != [] && KeyFilter(s, Key(s[0]))[0] == s[0]
  {
  }

  /** A key has records in a sorted list only if it is not below the head's key. */
  lemma {:induction false} KeyFilterMember(s: seq<Shelter>, k: real)
    requires s != [] && SortedByKey(s)
    requires KeyFilter(s, k) != []
    ensures Key(s[0]) <= k
  {
    if Key(s[0]) != k {
      KeyFilterMemberTail(s[1..], k);
      var j :| 0 <= j < |s[1..]| && Key(s[1..][j]) == k;
      assert Key(s[0]) <= Key(s[j + 1]);
    }
  }

  lemma {:induction false} KeyFilterMemberTail(s: seq<Shelter>, k: real)
    requires KeyFilter(s, k) != []
    ensures exists j :: 0 <= j < |s| && Key(s[j]) == k
  {
    if Key(s[0]) != k {
      KeyFilterMemberTail(s[1..], k);
      var j :| 0 <= j < |s[1..]| && Key(s[1..][j]) == k;
      assert Key(s[j + 1]) == k;
    }
  }

  // ---------------------------------------------------------------------------
  // The service filter
  // ---------------------------------------------------------------------------

  /** `shelter.services.some(s => s.toLowerCase().includes(tag.toLowerCase()))` */
  predicate OffersService(shelter: Shelter, tag: string) {
    exists i :: 0 <= i < |shelter.services| && Includes(Lower(shelter.services[i]), Lower(tag))
  }

  /** The list `filterSheltersByService(tag)` shows, computed from `shelters`. */
  function FilterByService(shelters: seq<Shelter>, tag: string): (r: seq<Shelter>)
    ensures tag == "all" ==> r == shelters
    ensures IsSubsequence(r, shelters)
    ensures tag != "all" ==> forall x :: multiset(r)[x] == if OffersService(x, tag) then multiset(shelters)[x] else 0
    ensures tag != "all" ==> forall i :: 0 <= i < |r| ==> OffersService(r[i], tag)
  {
    if tag == "all" then
      SubsequenceReflexive(shelters);
      shelters
    else
      Filter(shelters, x => OffersService(x, tag))
  }

  /** Filtering the filtered list again by the same tag changes nothing. */
  lemma FilterByServiceIdempotent(shelters: seq<Shelter>, tag: string)
    ensures FilterByService(FilterByService(shelters, tag), tag) == FilterByService(shelters, tag)
  {
    if tag != "all" {
      FilterIdempotent(shelters, x => OffersService(x, tag));
    }
  }

  /** The filter never shows more shelters than there are. */
  lemma FilterByServiceShrinks(shelters: seq<Shelter>, tag: string)
    ensures |FilterByService(shelters, tag)| <= |shelters|
  {
    var r := FilterByService(shelters, tag);
    SubsequenceMultiset(r, shelters);
    assert |multiset(r)| <= |multiset(shelters)| by {
      var extra := multiset(shelters) - multiset(r);
      assert multiset(shelters) == multiset(r) + extra;
    }
  }

  /** The case-insensitive substring match: "emergency" selects "24/7 Emergency". */
  lemma EmergencyMatchesTwentyFourSeven()
    ensures Includes(Lower("24/7 Emergency"), Lower("emergency"))
  {
    assert Lower("24/7 Emergency") == "24/7 emergency";
    assert Lower("emergency") == "emergency";
    assert OccursAt("24/7 emergency", "emergency", 5);
  }

  // ---------------------------------------------------------------------------
  // The service chips of one card
  // ---------------------------------------------------------------------------

  /** What a card shows: the first services as chips, and the count on the
      "+n more" chip when there is one. */
  datatype ChipView = ChipView(shown: seq<string>, more: Option<nat>)

  const MaxChips: nat := 3

  function ServiceChips(services: seq<string>): (v: ChipView)
    ensures |v.shown| <= MaxChips && v.shown <= services
    ensures |v.shown| == MaxChips || v.shown == services
    ensures v.more.Some? <==> |services| > MaxChips
    ensures v.more.Some? ==> |v.shown| + v.more.value == |services|
  {
    ChipView(Take(services, MaxChips),
             if |services| > MaxChips then Some(|services| - MaxChips) else None)
  }

  // ---------------------------------------------------------------------------
  // The page state
  // ---------------------------------------------------------------------------

  class SheltersPage {
    var shelters: seq<Shelter>
    var filteredShelters: seq<Shelter>
    var userLocation: Option<Coord>
    var zipCode: string
    var isLoading: bool
    var locationError: string
    var selectedShelter: Option<Shelter>
    var filterServices: string
    /** The directory and `calculateDistance`, fixed for the life of the page. */
    const mockShelters: seq<Shelter>
    const dist: DistanceFn

    /** The shown list is always an order-preserving part of the full one. */
    ghost predicate Valid()
      reads this
    {
      IsSubsequence(filteredShelters, shelters)
    }

    /** The state once the mount effect has run (before any location arrives). */
    constructor (dist: DistanceFn)
      ensures Valid()
      ensures shelters == MockShelters() && filteredShelters == MockShelters()
      ensures userLocation == None && zipCode == "" && !isLoading && locationError == ""
      ensures selectedShelter == None && filterServices == "all"
      ensures mockShelters == MockShelters() && this.dist == dist
    {
      mockShelters := MockShelters();
      shelters := mockShelters;
      filteredShelters := mockShelters;
      userLocation := None;
      zipCode := "";
      isLoading := false;
      locationError := "";
      selectedShelter := None;
      filterServices := "all";
      this.dist := dist;
      new;
      SubsequenceReflexive(mockShelters);
    }

    /** Both lists become the ranking from `location`; any earlier filter is dropped
        from the shown list, while `filterServices` keeps the last tag. */
    method UpdateSheltersWithDistance(location: Coord)
      modifies this
      ensures Valid()
      ensures shelters == Rank(mockShelters, location, dist)
      ensures filteredShelters == shelters
      ensures userLocation == old(userLocation) && zipCode == old(zipCode)
      ensures isLoading == old(isLoading) && locationError == old(locationError)
      ensures selectedShelter == old(selectedShelter) && filterServices == old(filterServices)
    {
      var ranked := Rank(mockShelters, location, dist);
      shelters := ranked;
      filteredShelters := ranked;
      SubsequenceReflexive(ranked);
    }

    method SetZipCode(value: string)
      modifies this
      ensures zipCode == value
      ensures shelters == old(shelters) && filteredShelters == old(filteredShelters)
      ensures userLocation == old(userLocation) && isLoading == old(isLoading)
      ensures locationError == old(locationError) && selectedShelter == old(selectedShelter)
      ensures filterServices == old(filterServices)
      ensures Valid() == old(Valid())
    {
      zipCode := value;
    }

    /** A blank ZIP code changes nothing; otherwise, once the simulated lookup has
        finished, the location is the stand-in coordinate and the lists its ranking. */
    method SearchByZipCode()
      requires Valid()
      modifies this
      ensures Valid()
      ensures IsBlank(old(zipCode)) ==>
        && shelters == old(shelters) && filteredShelters == old(filteredShelters)
        && userLocation == old(userLocation) && isLoading == old(isLoading)
      ensures !IsBlank(old(zipCode)) ==>
        && userLocation == Some(ZipLocation)
        && shelters == Rank(mockShelters, ZipLocation, dist)
        && filteredShelters == shelters
        && !isLoading
      ensures zipCode == old(zipCode) && locationError == old(locationError)
      ensures selectedShelter == old(selectedShelter) && filterServices == old(filterServices)
    {
      if !IsBlank(zipCode) {
        // Only the state after the simulated lookup is modelled, so `isLoading`
        // is false again here.
        userLocation := Some(ZipLocation);
        UpdateSheltersWithDistance(ZipLocation);
        isLoading := false;
      }
    }

    /** The shown list becomes `shelters` filtered by `service`, whatever was shown
        before; the tag is remembered. */
    method FilterSheltersByService(service: string)
      modifies this
      ensures Valid()
      ensures filterServices == service
      ensures filteredShelters == FilterByService(shelters, service)
      ensures shelters == old(shelters) && userLocation == old(userLocation)
      ensures zipCode == old(zipCode) && isLoading == old(isLoading)
      ensures locationError == old(locationError) && selectedShelter == old(selectedShelter)
    {
      filterServices := service;
      filteredShelters := FilterByService(shelters, service);
    }

    method FocusOnShelter(shelter: Shelter)
      modifies this
      ensures selectedShelter == Some(shelter)
      ensures shelters == old(shelters) && filteredShelters == old(filteredShelters)
      ensures userLocation == old(userLocation) && zipCode == old(zipCode)
      ensures isLoading == old(isLoading) && locationError == old(locationError)
      ensures filterServices == old(filterServices)
      ensures Valid() == old(Valid())
    {
      selectedShelter := Some(shelter);
    }
  }

  /** Only the last filter counts: filtering by `a` and then by `b` shows what
      filtering by `b` alone shows. */
  method FilterTwiceShowsLast(page: SheltersPage, a: string, b: string)
    modifies page
    ensures page.filteredShelters == FilterByService(old(page.shelters), b)
    ensures page.filterServices == b
  {
    page.FilterSheltersByService(a);
    page.FilterSheltersByService(b);
  }
}
