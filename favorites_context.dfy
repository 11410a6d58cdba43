/**
 * The favourites context: the set of product ids the signed-in user has
 * marked as favourite, and a per-product favourite counter shown on product
 * cards, seeded from loaded products and moved by each toggle.
 */
module FavoritesContext {

  import opened Common

  /** A loaded product as setInitialCounts reads it. */
  datatype ProductCount = ProductCount(id: string, favoritesCount: Option<int>)

  /** `favorites_count ?? 0` */
  function CountOrZero(p: ProductCount): int {
    if p.favoritesCount.Some? then p.favoritesCount.value else 0
  }

  /** The ids of the listed products. */
  function Ids(products: seq<ProductCount>): (r: set<string>)
    ensures forall i :: 0 <= i < |products| ==> products[i].id in r
    ensures forall k :: k in r ==> exists i :: 0 <= i < |products| && products[i].id == k
  {
    if products == [] then {}
    else
      var r := {products[0].id} + Ids(products[1..]);
      assert forall i :: 1 <= i < |products| ==> products[i] == products[1..][i - 1];
      r
  }

  /** The counters after seeding from `products`: a product without a counter
      gets its loaded count; an existing counter is never overwritten. */
  function SeedCounts(counts: map<string, int>, products: seq<ProductCount>): (r: map<string, int>)
    ensures forall k :: k in counts ==> k in r && r[k] == counts[k]
    ensures r.Keys == counts.Keys + Ids(products)
    decreases |products|
  {
    if products == [] then counts
    else
      var p := products[0];
      var next := if p.id in counts then counts else counts[p.id := CountOrZero(p)];
      SeedCounts(next, products[1..])
  }

  /** A new counter takes the count of the first product listed with that id. */
  lemma {:induction false} SeedTakesFirst(counts: map<string, int>, products: seq<ProductCount>, i: nat)
    requires i < |products| && products[i].id !in counts
    requires forall j :: 0 <= j < i ==> products[j].id != products[i].id
    ensures SeedCounts(counts, products)[products[i].id] == CountOrZero(products[i])
    decreases i
  {
    var p := products[0];
    var next := if p.id in counts then counts else counts[p.id := CountOrZero(p)];
    if i > 0 {
      assert products[1..][i - 1] == products[i];
      SeedTakesFirst(next, products[1..], i - 1);
    }
  }

  /** Seeding twice from the same products changes nothing the second time. */
  lemma SeedIdempotent(counts: map<string, int>, products: seq<ProductCount>)
    ensures SeedCounts(SeedCounts(counts, products), products) == SeedCounts(counts, products)
  {
    var once := SeedCounts(counts, products);
    var twice := SeedCounts(once, products);
    forall k | k in twice ensures k in once {
    }
    assert twice.Keys == once.Keys;
  }

  /** The favourite set after the server answered `isFavorite`. */
  function ToggleSet(ids: set<string>, productId: string, isFavorite: bool): (r: set<string>)
    ensures productId in r <==> isFavorite
    ensures forall x :: x != productId ==> (x in r <==> x in ids)
  {
    if isFavorite then ids + {productId} else ids - {productId}
  }

  /** `Math.max(0, (counts.get(id) ?? 0) + (isFavorite ? 1 : -1))` */
  function ToggleCount(counts: map<string, int>, productId: string, isFavorite: bool): (r: map<string, int>)
    ensures productId in r && r[productId] >= 0
    ensures var current := if productId in counts then counts[productId] else 0;
            && (isFavorite && current >= 0 ==> r[productId] == current + 1)
            && (!isFavorite && current >= 1 ==> r[productId] == current - 1)
            && (!isFavorite && current <= 1 ==> r[productId] == 0)
    ensures forall k :: k != productId ==> (k in r <==> k in counts) && (k in counts ==> r[k] == counts[k])
  {
    var current := if productId in counts then counts[productId] else 0;
    var moved := current + (if isFavorite then 1 else -1);
    counts[productId := if moved > 0 then moved else 0]
  }

  /** Adding and then removing a favourite restores a non-negative counter. */
  lemma AddThenRemove(counts: map<string, int>, productId: string)
    requires productId in counts ==> counts[productId] >= 0
    ensures var back := ToggleCount(ToggleCount(counts, productId, true), productId, false);
            back[productId] == (if productId in counts then counts[productId] else 0)
  {
  }

  /** NotSignedIn is the "Debes iniciar sesión para guardar favoritos" error;
      a server error is rethrown as it came. */
  datatype ToggleError = NotSignedIn | ServerFailed(thrown: Thrown)

  class FavoritesState {
    var userFavoriteIds: set<string>
    var productFavoritesCount: map<string, int>
    var isLoading: bool

    constructor ()
      ensures userFavoriteIds == {} && productFavoritesCount == map[] && !isLoading
    {
      userFavoriteIds := {};
      productFavoritesCount := map[];
      isLoading := false;
    }

    function IsUserFavorite(productId: string): bool
      reads this
    {
      productId in userFavoriteIds
    }

    /** favoritesCount */
    function FavoritesCount(): nat
      reads this
    {
      |userFavoriteIds|
    }

    /** getProductFavoritesCount: the counter, or the fallback when the product has none. */
    function GetProductFavoritesCount(productId: string, fallback: int): (n: int)
      reads this
      ensures productId in productFavoritesCount ==> n == productFavoritesCount[productId]
      ensures productId !in productFavoritesCount ==> n == fallback
    {
      if productId in productFavoritesCount then productFavoritesCount[productId] else fallback
    }

    /** loadFavorites, with `fetched` the product ids of the user's favourite
        rows (None for a null id) or the error the query threw. */
    method LoadFavorites(signedIn: bool, fetched: Result<seq<Option<string>>, Thrown>)
      modifies this
      ensures !signedIn || fetched.Err? ==> userFavoriteIds == {}
      ensures signedIn && fetched.Ok? ==>
                forall id :: id in userFavoriteIds <==> Some(id) in fetched.value
      ensures productFavoritesCount == old(productFavoritesCount)
      ensures !isLoading || (!signedIn && isLoading == old(isLoading))
    {
      if !signedIn {
        userFavoriteIds := {};
        return;
      }
      isLoading := true;
      match fetched {
        case Ok(rows) =>
          userFavoriteIds := set i | 0 <= i < |rows| && rows[i].Some? :: rows[i].value;
          forall id ensures id in userFavoriteIds <==> Some(id) in rows {
            if Some(id) in rows {
              var i :| 0 <= i < |rows| && rows[i] == Some(id);
              assert rows[i].value == id;
            }
          }
        case Err(_) =>
          userFavoriteIds := {};
      }
      isLoading := false;
    }

    /** setInitialCounts, one product after the other. */
    method SetInitialCounts(products: seq<ProductCount>)
      modifies this
      ensures productFavoritesCount == SeedCounts(old(productFavoritesCount), products)
      ensures userFavoriteIds == old(userFavoriteIds) && isLoading == old(isLoading)
    {
      var newMap := productFavoritesCount;
      var i := 0;
      while i < |products|
        invariant 0 <= i <= |products|
        invariant SeedCounts(newMap, products[i..]) == SeedCounts(productFavoritesCount, products)
      {
        var p := products[i];
        assert products[i..][0] == p && products[i..][1..] == products[i + 1..];
        if p.id !in newMap {
          newMap := newMap[p.id := CountOrZero(p)];
        }
        i := i + 1;
      }
      productFavoritesCount := newMap;
    }

    /** toggleFavorite, with `answer` standing for the server's new favourite
        flag or the error it threw. Without a user, or on an error, nothing changes. */
    method ToggleFavorite(productId: string, signedIn: bool, answer: Result<bool, Thrown>)
      returns (r: Result<bool, ToggleError>)
      modifies this
      ensures !signedIn ==> r == Err(NotSignedIn)
      ensures signedIn && answer.Err? ==> r == Err(ServerFailed(answer.error))
      ensures r.Err? ==> userFavoriteIds == old(userFavoriteIds) && productFavoritesCount == old(productFavoritesCount)
      ensures r.Ok? ==>
                && signedIn && answer.Ok? && r.value == answer.value
                && userFavoriteIds == ToggleSet(old(userFavoriteIds), productId, answer.value)
                && productFavoritesCount == ToggleCount(old(productFavoritesCount), productId, answer.value)
                && IsUserFavorite(productId) == answer.value
      ensures isLoading == old(isLoading)
    {
      if !signedIn {
        return Err(NotSignedIn);
      }
      match answer {
        case Err(e) =>
          return Err(ServerFailed(e));
        case Ok(newIsFavorite) =>
          var newSet := userFavoriteIds;
          if newIsFavorite {
            newSet := newSet + {productId};
          } else {
            newSet := newSet - {productId};
          }
          userFavoriteIds := newSet;
          var currentCount := if productId in productFavoritesCount then productFavoritesCount[productId] else 0;
          var moved := currentCount + (if newIsFavorite then 1 else -1);
          productFavoritesCount := productFavoritesCount[productId := if moved > 0 then moved else 0];
          return Ok(newIsFavorite);
      }
    }
  }
}
