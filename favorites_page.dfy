/**
 * The favourites page: the favourite product cards, removed optimistically
 * one at a time or all at once, with the whole previous list restored when
 * the store call fails.
 */
module FavoritesPage {
  import opened Backend
  import opened Catalog
  import Seqs

  class FavoritesView {
    const user: Option<Id>
    var favoriteProducts: seq<Card>
    var loading: bool

    constructor (user: Option<Id>)
      ensures this.user == user && favoriteProducts == [] && loading
    {
      this.user := user;
      favoriteProducts, loading := [], true;
    }

    /** fetchFavorites with the user's favourite product ids and the answer of the product
        query over them (not sent when there are no ids). An error answer, or a product row
        without a vendor, ends in the `catch`, which keeps the list. */
    method FetchFavorites(favoritesReply: Reply<seq<Id>>, productsReply: Reply<seq<ProductRow>>)
      returns (productsQueried: bool)
      modifies this`favoriteProducts, this`loading
      ensures productsQueried <==> user.Some? && favoritesReply.Ok? && favoritesReply.value != []
      ensures favoriteProducts ==
                if user.Some? && favoritesReply.Ok? && favoritesReply.value == [] then []
                else if productsQueried && productsReply.Ok? && HasVendors(productsReply.value)
                then FavoriteCards(productsReply.value).value
                else old(favoriteProducts)
      ensures !loading
    {
      productsQueried := false;
      if user.None? {
        loading := false;
        return;
      }
      loading := true;
      if favoritesReply.Ok? {
        if |favoritesReply.value| == 0 {
          favoriteProducts := [];
        } else {
          productsQueried := true;
          if productsReply.Ok? {
            var cards := FavoriteCards(productsReply.value);
            if cards.Some? {
              favoriteProducts := cards.value;
            }
          }
        }
      }
      loading := false;
    }

    /** removeFavorite: the card goes at once; a failed delete restores the snapshot taken
        before, order included. */
    method RemoveFavorite(productId: Id, reply: Outcome)
      modifies this`favoriteProducts
      ensures favoriteProducts ==
                if user.Some? && reply == Done then Seqs.Without(old(favoriteProducts), CardId, productId)
                else old(favoriteProducts)
    {
      if user.None? {
        return;
      }
      var previous := favoriteProducts;
      favoriteProducts := Seqs.Without(favoriteProducts, CardId, productId);
      if reply == Error {
        favoriteProducts := previous;
      }
    }

    /** clearAllFavorites: the list is emptied at once and restored from the snapshot when
        the delete fails. */
    method ClearAllFavorites(reply: Outcome)
      modifies this`favoriteProducts
      ensures favoriteProducts == if user.Some? && reply == Done then [] else old(favoriteProducts)
    {
      if user.None? {
        return;
      }
      var previous := favoriteProducts;
      favoriteProducts := [];
      if reply == Error {
        favoriteProducts := previous;
      }
    }
  }
}
