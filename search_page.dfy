/**
 * The search page: the query and category mirrored into the URL, the product
 * query filters, the product cards, and the favourite ids with their
 * optimistic toggle.
 */
module SearchPage {
  import opened Backend
  import opened Catalog
  import Favorites

  /** The URL's query parameters, in order. */
  type Params = seq<(string, string)>

  /** `searchParams.get(key)`: the first value stored under `key`. */
  function Get(ps: Params, key: string): (r: Option<string>)
    ensures r.Some? ==> (key, r.value) in ps
    ensures r.None? ==> forall i :: 0 <= i < |ps| ==> ps[i].0 != key
  {
    if ps == [] then None else if ps[0].0 == key then Some(ps[0].1) else Get(ps[1..], key)
  }

  /** `searchParams.get(key) || ''`. */
  function GetOrEmpty(ps: Params, key: string): string {
    if Get(ps, key).Some? then Get(ps, key).value else ""
  }

  /** The parameter object of the URL-sync effect: `q` only for a non-empty query,
      `category` only for a non-empty category. */
  function ParamsFor(query: string, category: string): (r: Params)
    ensures |r| <= 2
    ensures forall i :: 0 <= i < |r| ==> r[i].0 in {"q", "category"} && r[i].1 != ""
    ensures ("q", query) in r <==> query != ""
    ensures ("category", category) in r <==> category != ""
    ensures forall i :: 0 <= i < |r| && r[i].0 == "q" ==> r[i].1 == query
    ensures forall i :: 0 <= i < |r| && r[i].0 == "category" ==> r[i].1 == category
  {
    (if query != "" then [("q", query)] else []) + (if category != "" then [("category", category)] else [])
  }

  /** Reading the URL written by the sync effect gives back the query and category the
      page started from. */
  lemma {:induction false} ParamsRoundTrip(query: string, category: string)
    ensures GetOrEmpty(ParamsFor(query, category), "q") == query
    ensures GetOrEmpty(ParamsFor(query, category), "category") == category
  {
    var ps := ParamsFor(query, category);
    if query != "" {
      assert ps[0] == ("q", query);
    }
    if category != "" {
      var i := if query != "" then 1 else 0;
      assert ps[i] == ("category", category);
      assert ps[..i] == if query != "" then [("q", query)] else [];
      GetSkips(ps, i, "category");
    }
  }

  lemma {:induction false} GetSkips(ps: Params, i: nat, key: string)
    requires i < |ps| && ps[i].0 == key
    requires forall j :: 0 <= j < i ==> ps[j].0 != key
    ensures Get(ps, key) == Some(ps[i].1)
  {
    if i > 0 {
      GetSkips(ps[1..], i - 1, key);
    }
  }

  /** The filters fetchProducts adds to the query: an `ilike` on the name for a non-empty
      query and an equality on the category for a non-empty category. */
  datatype ProductFilter = ProductFilter(nameLike: Option<string>, category: Option<string>)

  function FiltersFor(query: string, category: string): (r: ProductFilter)
    ensures r.nameLike.Some? <==> query != ""
    ensures r.nameLike.Some? ==> r.nameLike.value == "%" + query + "%"
    ensures r.category.Some? <==> category != ""
    ensures r.category.Some? ==> r.category.value == category
  {
    ProductFilter(if query != "" then Some("%" + query + "%") else None,
                  if category != "" then Some(category) else None)
  }

  class SearchView {
    const user: Option<Id>
    var searchQuery: string
    var selectedCategory: string
    var params: Params
    var products: seq<Card>
    var loading: bool
    var favorites: seq<Id>

    /** The initial state, read from the URL the page was opened with. */
    constructor (user: Option<Id>, url: Params)
      ensures this.user == user && params == url
      ensures searchQuery == GetOrEmpty(url, "q") && selectedCategory == GetOrEmpty(url, "category")
      ensures products == [] && loading && favorites == []
    {
      this.user := user;
      params := url;
      searchQuery := GetOrEmpty(url, "q");
      selectedCategory := GetOrEmpty(url, "category");
      products, loading, favorites := [], true, [];
    }

    /** The effect that mirrors the query and category into the URL. */
    method SyncParams()
      modifies this`params
      ensures params == ParamsFor(searchQuery, selectedCategory)
      ensures GetOrEmpty(params, "q") == searchQuery && GetOrEmpty(params, "category") == selectedCategory
    {
      params := ParamsFor(searchQuery, selectedCategory);
      ParamsRoundTrip(searchQuery, selectedCategory);
    }

    /** fetchProducts with the answer of the query it sends; returns that query's filters. An
        error answer, or a row without a vendor, ends in the `catch`, which keeps the list. */
    method FetchProducts(reply: Reply<seq<ProductRow>>) returns (filter: ProductFilter)
      modifies this`products, this`loading
      ensures filter == FiltersFor(searchQuery, selectedCategory)
      ensures products == if reply.Ok? && HasVendors(reply.value) then SearchCards(reply.value).value else old(products)
      ensures !loading
    {
      loading := true;
      filter := FiltersFor(searchQuery, selectedCategory);
      if reply.Ok? {
        var cards := SearchCards(reply.value);
        if cards.Some? {
          products := cards.value;
        }
      }
      loading := false;
    }

    /** fetchUserFavorites with the product ids of the user's `favorites` rows. */
    method FetchUserFavorites(reply: Reply<seq<Id>>)
      modifies this`favorites
      ensures favorites == if user.None? then [] else if reply.Ok? then reply.value else old(favorites)
    {
      if user.None? {
        favorites := [];
        return;
      }
      if reply.Ok? {
        favorites := reply.value;
      }
    }

    /** toggleFavorite with the answer of the delete or insert; without a user it only
        asks for the auth modal. */
    method ToggleFavorite(productId: Id, reply: Outcome) returns (openAuth: bool)
      modifies this`favorites
      ensures openAuth <==> user.None?
      ensures favorites == if user.None? then old(favorites) else Favorites.Settled(old(favorites), productId, reply == Done)
      ensures user.Some? ==> (productId in favorites <==> (productId in old(favorites)) != (reply == Done))
    {
      if user.None? {
        return true;
      }
      openAuth := false;
      var wasFavorite := productId in favorites;
      favorites := Favorites.Optimistic(favorites, productId);
      if reply == Error {
        if wasFavorite {
          favorites := favorites + [productId];
        } else {
          favorites := Favorites.Drop(favorites, productId);
        }
      }
      Favorites.SettledMembership(old(favorites), productId, reply == Done);
    }
  }
}
