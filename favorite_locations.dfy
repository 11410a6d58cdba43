/**
 * The favourite campus locations dialog: the same OR filter as the campus
 * map, and the set of favourite ids a toggle updates from the server's answer.
 */
module FavoriteLocations {

  import opened Common
  import opened MapsPage
  import opened FavoritesContext

  /** What loadData fetches: the locations and the user's favourite ids. */
  datatype Loaded = Loaded(locations: seq<Location>, favoriteIds: seq<string>)

  class FavoriteLocationsModal {
    var locations: seq<Location>
    var favoriteIds: set<string>
    var searchQuery: string
    var selectedType: string
    var loading: bool
    var togglingId: Option<string>

    constructor ()
      ensures locations == [] && favoriteIds == {} && searchQuery == "" && selectedType == AllTypes
      ensures !loading && togglingId.None?
    {
      locations := [];
      favoriteIds := {};
      searchQuery := "";
      selectedType := AllTypes;
      loading := false;
      togglingId := None;
    }

    /** The locations the dialog lists. */
    function Shown(): seq<Location>
      reads this
    {
      FilteredLocations(locations, searchQuery, selectedType)
    }

    /** loadData, with `answer` standing for the three fetches together: nothing
        happens signed out; on success the lists are replaced, on failure they
        are kept; loading is off at the end. */
    method LoadData(signedIn: bool, answer: Result<Loaded, Thrown>)
      modifies this
      ensures !signedIn ==> locations == old(locations) && favoriteIds == old(favoriteIds) && loading == old(loading)
      ensures signedIn && answer.Ok? ==>
                locations == answer.value.locations && !loading &&
                forall id :: id in favoriteIds <==> id in answer.value.favoriteIds
      ensures signedIn && answer.Err? ==> locations == old(locations) && favoriteIds == old(favoriteIds) && !loading
      ensures searchQuery == old(searchQuery) && selectedType == old(selectedType) && togglingId == old(togglingId)
    {
      if !signedIn {
        return;
      }
      loading := true;
      match answer {
        case Ok(data) =>
          locations := data.locations;
          favoriteIds := set id | id in data.favoriteIds;
        case Err(_) =>
      }
      loading := false;
    }

    /** handleToggleFavorite, with `answer` standing for the server's reply
        (the new favourite state, or what it threw). Returns whether the
        parent was told the favourites changed. Signed out nothing happens;
        otherwise the id ends up in the set exactly when the server said so,
        no other id moves, a failure keeps the set, and togglingId is cleared
        either way. */
    method HandleToggleFavorite(locationId: string, signedIn: bool, answer: Result<bool, Thrown>)
      returns (notified: bool)
      modifies this
      ensures !signedIn ==> favoriteIds == old(favoriteIds) && togglingId == old(togglingId) && !notified
      ensures signedIn && answer.Ok? ==>
                favoriteIds == ToggleSet(old(favoriteIds), locationId, answer.value) && notified
      ensures signedIn && answer.Err? ==> favoriteIds == old(favoriteIds) && !notified
      ensures signedIn ==> togglingId.None?
      ensures locations == old(locations) && searchQuery == old(searchQuery) && selectedType == old(selectedType)
      ensures loading == old(loading)
    {
      notified := false;
      if !signedIn {
        return;
      }
      togglingId := Some(locationId);
      match answer {
        case Ok(isFavorite) =>
          var newSet := favoriteIds;
          if isFavorite {
            newSet := newSet + {locationId};
          } else {
            newSet := newSet - {locationId};
          }
          favoriteIds := newSet;
          notified := true;
        case Err(_) =>
      }
      togglingId := None;
    }

    /** clearFilters: afterwards no filter is active and every location shows. */
    method ClearFilters()
      modifies this
      ensures searchQuery == "" && selectedType == AllTypes
      ensures !HasActiveFilters(searchQuery, selectedType) && Shown() == locations
      ensures locations == old(locations) && favoriteIds == old(favoriteIds)
      ensures loading == old(loading) && togglingId == old(togglingId)
    {
      searchQuery := "";
      selectedType := AllTypes;
    }
  }
}
