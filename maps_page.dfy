/**
 * The campus map page: the OR filter over campus locations, the ordering
 * that puts the selected location first, the image gallery's wrap-around
 * index, and the selection toggled by map markers and list cards.
 */
module MapsPage {

  import opened Common

  /** A campus_locations row, as far as the page reads it. */
  datatype Location = Location(id: string, name: string, kind: string, images: seq<string>)

  /** The type select's "all" entry. */
  const AllTypes := "all"

  /** `campusSearchQuery.trim() !== ""` */
  predicate SearchActive(query: string) {
    Trim(query) != ""
  }

  /** `campusSelectedType !== "all"` */
  predicate TypeActive(selectedType: string) {
    selectedType != AllTypes
  }

  predicate HasActiveFilters(query: string, selectedType: string) {
    SearchActive(query) || TypeActive(selectedType)
  }

  /** The name matches when its lower-cased form contains the lower-cased,
      untrimmed query. */
  predicate NameMatches(query: string, loc: Location) {
    Includes(ToLower(loc.name), ToLower(query))
  }

  /** The filter callback: everything passes without filters; with filters a
      location passes when it meets any active one. */
  predicate Keep(query: string, selectedType: string, loc: Location) {
    if !SearchActive(query) && !TypeActive(selectedType) then true
    else (SearchActive(query) && NameMatches(query, loc)) || (TypeActive(selectedType) && loc.kind == selectedType)
  }

  function KeepFn(query: string, selectedType: string): Location -> bool {
    (loc: Location) => Keep(query, selectedType, loc)
  }

  /** filteredLocations. */
  function FilteredLocations(locations: seq<Location>, query: string, selectedType: string): (r: seq<Location>)
    ensures !HasActiveFilters(query, selectedType) ==> r == locations
    ensures HasActiveFilters(query, selectedType) ==>
              forall loc :: loc in r <==>
                loc in locations &&
                ((SearchActive(query) && NameMatches(query, loc)) || (TypeActive(selectedType) && loc.kind == selectedType))
    ensures Subsequence(r, locations)
  {
    FilterIsSubsequence(locations, KeepFn(query, selectedType));
    if !HasActiveFilters(query, selectedType) then
      FilterAll(locations, KeepFn(query, selectedType));
      Filter(locations, KeepFn(query, selectedType))
    else Filter(locations, KeepFn(query, selectedType))
  }

  /** A query of blanks does not count as a search: with the type filter off
      every location is shown. */
  lemma BlankQueryShowsAll(locations: seq<Location>, query: string)
    requires IsBlank(query)
    ensures FilteredLocations(locations, query, AllTypes) == locations
  {
    TrimEmptyIffBlank(query);
  }

  /** The query is trimmed to decide whether it is active, but matched
      untrimmed: a padded query longer than a name never finds that name,
      even when the trimmed query would. */
  lemma PaddedQueryMissesShortNames(locations: seq<Location>, query: string, loc: Location)
    requires SearchActive(query) && |query| > |loc.name|
    ensures loc !in FilteredLocations(locations, query, AllTypes)
  {
    IncludesNoLonger(ToLower(loc.name), ToLower(query));
    assert !NameMatches(query, loc);
    assert HasActiveFilters(query, AllTypes);
  }

  // ---------------------------------------------------------------------
  // Selected location first
  // ---------------------------------------------------------------------

  /** `find(loc => loc.id === id)` */
  function FindById(locations: seq<Location>, id: string): (r: Option<Location>)
    ensures r.Some? ==> r.value in locations && r.value.id == id
    ensures r.None? ==> forall loc :: loc in locations ==> loc.id != id
  {
    if locations == [] then None
    else if locations[0].id == id then Some(locations[0])
    else FindById(locations[1..], id)
  }

  function OtherId(id: string): Location -> bool {
    (loc: Location) => loc.id != id
  }

  /** orderedLocations: the selected location first, then the others in
      order; the list unchanged when nothing (or nothing shown) is selected. */
  function OrderedLocations(filtered: seq<Location>, selected: Option<string>): (r: seq<Location>)
    ensures selected.None? || selected.value == "" ==> r == filtered
    ensures selected.Some? && FindById(filtered, selected.value).None? ==> r == filtered
    ensures selected.Some? && selected.value != "" && FindById(filtered, selected.value).Some? ==>
              r != [] && r[0].id == selected.value && r[1..] == Filter(filtered, OtherId(selected.value))
  {
    if selected.None? || selected.value == "" then filtered
    else
      match FindById(filtered, selected.value)
      case None => filtered
      case Some(sel) => [sel] + Filter(filtered, OtherId(selected.value))
  }

  predicate UniqueIds(s: seq<Location>) {
    forall i, j :: 0 <= i < j < |s| ==> s[i].id != s[j].id
  }

  /** With unique ids the ordering is a permutation of the filtered list. */
  lemma OrderedIsPermutation(filtered: seq<Location>, selected: Option<string>)
    requires UniqueIds(filtered)
    ensures multiset(OrderedLocations(filtered, selected)) == multiset(filtered)
  {
    if selected.Some? && selected.value != "" && FindById(filtered, selected.value).Some? {
      PullOut(filtered, selected.value);
    }
  }

  /** Taking the only location with `id` out and putting it in front keeps
      the same elements. */
  lemma {:induction false} PullOut(s: seq<Location>, id: string)
    requires UniqueIds(s) && FindById(s, id).Some?
    ensures multiset([FindById(s, id).value] + Filter(s, OtherId(id))) == multiset(s)
  {
    assert s == [s[0]] + s[1..];
    if s[0].id == id {
      forall i | 0 <= i < |s[1..]| ensures OtherId(id)(s[1..][i]) {
        assert s[1..][i] == s[i + 1];
      }
      FilterAllIdx(s[1..], OtherId(id));
      assert Filter(s, OtherId(id)) == s[1..];
    } else {
      var tail := s[1..];
      forall i, j | 0 <= i < j < |tail| ensures tail[i].id != tail[j].id {
        assert tail[i] == s[i + 1] && tail[j] == s[j + 1];
      }
      var found := FindById(s, id).value;
      assert FindById(tail, id) == Some(found);
      assert Filter(s, OtherId(id)) == [s[0]] + Filter(tail, OtherId(id));
      PullOut(tail, id);
      calc {
        multiset([found] + Filter(s, OtherId(id)));
        multiset([found] + Filter(tail, OtherId(id))) + multiset{s[0]};
        multiset(tail) + multiset{s[0]};
        multiset(s);
      }
    }
  }

  lemma {:induction false} FilterAllIdx<T(!new)>(s: seq<T>, p: T -> bool)
    requires forall i :: 0 <= i < |s| ==> p(s[i])
    ensures Filter(s, p) == s
  {
    if s != [] {
      FilterAllIdx(s[1..], p);
    }
  }

  // ---------------------------------------------------------------------
  // Gallery index
  // ---------------------------------------------------------------------

  /** `(prev + 1) % length` on an index already in range. */
  function NextIndex(i: int, n: int): (r: int)
    requires 0 <= i < n
    ensures 0 <= r < n
    ensures i < n - 1 ==> r == i + 1
    ensures i == n - 1 ==> r == 0
  {
    (i + 1) % n
  }

  /** `(prev - 1 + length) % length` on an index already in range. */
  function PrevIndex(i: int, n: int): (r: int)
    requires 0 <= i < n
    ensures 0 <= r < n
    ensures i > 0 ==> r == i - 1
    ensures i == 0 ==> r == n - 1
  {
    (i - 1 + n) % n
  }

  /** Previous undoes next and next undoes previous. */
  lemma PrevNextInverse(i: int, n: int)
    requires 0 <= i < n
    ensures PrevIndex(NextIndex(i, n), n) == i
    ensures NextIndex(PrevIndex(i, n), n) == i
  {
  }

  // ---------------------------------------------------------------------
  // Page state
  // ---------------------------------------------------------------------

  class MapsPageState {
    var selectedLocation: Option<string>
    var campusSearchQuery: string
    var campusSelectedType: string
    var showFilters: bool
    var galleryOpen: bool
    var galleryImages: seq<string>
    var currentImageIndex: int

    /** The gallery index stays within a non-empty gallery. */
    predicate Valid()
      reads this
    {
      galleryImages != [] ==> 0 <= currentImageIndex < |galleryImages|
    }

    constructor ()
      ensures Valid()
      ensures selectedLocation.None? && campusSearchQuery == "" && campusSelectedType == AllTypes
      ensures !showFilters && !galleryOpen && galleryImages == [] && currentImageIndex == 0
    {
      selectedLocation := None;
      campusSearchQuery := "";
      campusSelectedType := AllTypes;
      showFilters := false;
      galleryOpen := false;
      galleryImages := [];
      currentImageIndex := 0;
    }

    /** clearCampusFilters: afterwards no filter is active. */
    method ClearCampusFilters()
      modifies this
      ensures campusSearchQuery == "" && campusSelectedType == AllTypes
      ensures !HasActiveFilters(campusSearchQuery, campusSelectedType)
      ensures selectedLocation == old(selectedLocation) && showFilters == old(showFilters)
      ensures galleryOpen == old(galleryOpen) && galleryImages == old(galleryImages)
      ensures currentImageIndex == old(currentImageIndex)
    {
      campusSearchQuery := "";
      campusSelectedType := AllTypes;
    }

    /** A click on a location's map marker: the selected one deselects; any
        other is selected and the filter panel closes. */
    method ClickMarker(id: string)
      modifies this
      ensures old(selectedLocation) == Some(id) ==> selectedLocation.None? && showFilters == old(showFilters)
      ensures old(selectedLocation) != Some(id) ==> selectedLocation == Some(id) && !showFilters
      ensures campusSearchQuery == old(campusSearchQuery) && campusSelectedType == old(campusSelectedType)
      ensures galleryOpen == old(galleryOpen) && galleryImages == old(galleryImages)
      ensures currentImageIndex == old(currentImageIndex)
    {
      var isSelected := selectedLocation == Some(id);
      if !isSelected {
        showFilters := false;
      }
      selectedLocation := if isSelected then None else Some(id);
    }

    /** A click on a location's list card toggles its selection the same way,
        leaving the filter panel as it is. */
    method ClickListCard(id: string)
      modifies this
      ensures old(selectedLocation) == Some(id) ==> selectedLocation.None?
      ensures old(selectedLocation) != Some(id) ==> selectedLocation == Some(id)
      ensures showFilters == old(showFilters)
      ensures campusSearchQuery == old(campusSearchQuery) && campusSelectedType == old(campusSelectedType)
      ensures galleryOpen == old(galleryOpen) && galleryImages == old(galleryImages)
      ensures currentImageIndex == old(currentImageIndex)
    {
      var isSelected := selectedLocation == Some(id);
      selectedLocation := if isSelected then None else Some(id);
    }

    /** openGallery from a thumbnail of a location's images. */
    method OpenGallery(images: seq<string>, startIndex: int)
      requires 0 <= startIndex < |images|
      modifies this
      ensures Valid()
      ensures galleryImages == images && currentImageIndex == startIndex && galleryOpen
      ensures selectedLocation == old(selectedLocation)
    {
      galleryImages := images;
      currentImageIndex := startIndex;
      galleryOpen := true;
    }

    method NextImage()
      requires Valid() && galleryImages != []
      modifies this
      ensures Valid()
      ensures currentImageIndex == NextIndex(old(currentImageIndex), |old(galleryImages)|)
      ensures galleryImages == old(galleryImages) && galleryOpen == old(galleryOpen)
      ensures selectedLocation == old(selectedLocation)
    {
      currentImageIndex := (currentImageIndex + 1) % |galleryImages|;
    }

    method PrevImage()
      requires Valid() && galleryImages != []
      modifies this
      ensures Valid()
      ensures currentImageIndex == PrevIndex(old(currentImageIndex), |old(galleryImages)|)
      ensures galleryImages == old(galleryImages) && galleryOpen == old(galleryOpen)
      ensures selectedLocation == old(selectedLocation)
    {
      currentImageIndex := (currentImageIndex - 1 + |galleryImages|) % |galleryImages|;
    }

    /** A thumbnail click in the gallery jumps to that image. */
    method ShowImage(idx: int)
      requires 0 <= idx < |galleryImages|
      modifies this
      ensures Valid()
      ensures currentImageIndex == idx && galleryImages == old(galleryImages) && galleryOpen == old(galleryOpen)
      ensures selectedLocation == old(selectedLocation)
    {
      currentImageIndex := idx;
    }
  }
}
