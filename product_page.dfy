/**
 * A product's page: loading the product, the `(isFavorite, favoriteId)` pair
 * kept in step with the user's `favorites` row, the contact numbers, and
 * starting a chat with the vendor over the canonical sorted participant pair.
 */
module ProductPage {
  import opened Backend
  import opened Text
  import VendorPage

  /** The embedded vendor of the product query (the columns the page reads). */
  datatype ProductVendor = ProductVendor(id: Id, userId: Option<Id>, name: string, phone: Option<string>)

  /** The product with its vendor (`vendors` may be null). */
  datatype Product = Product(id: Id, name: string, imageUrls: Option<seq<string>>, vendor: Option<ProductVendor>)

  /** `[a, b].sort()`: the two ids in code-point order. */
  function SortedPair(a: Id, b: Id): (r: seq<Id>)
    ensures |r| == 2 && multiset(r) == multiset{a, b}
    ensures !LexLess(r[1], r[0])
  {
    if LexLess(b, a) then LexLessAsymmetric(a, b); [b, a] else [a, b]
  }

  /** The pair does not depend on who starts the chat: the customer and the vendor reach
      the same participant list, so the lookup finds the same conversation. */
  lemma {:induction false} SortedPairSymmetric(a: Id, b: Id)
    ensures SortedPair(a, b) == SortedPair(b, a)
  {
    LexLessTotal(a, b);
    LexLessAsymmetric(a, b);
  }

  /** The answer of the lookup for an existing conversation (`maybeSingle`). */
  datatype Lookup = Found(conversationId: Id) | NotFound | Failed(code: Option<string>)

  /** The error code of `maybeSingle` for "no rows", which the page treats as not found. */
  const NO_ROWS := "PGRST116"

  /** How handleStartChat ends. */
  datatype ChatStart =
    | AskLogin        // the auth modal is opened with a continuation that calls handleStartChat again
    | NoVendor        // the vendor has no user account: nothing happens
    | LookupAborted   // the lookup failed with another code
    | OpenChat(conversationId: Id)
    | CreateFailed

  /** The outcome of handleStartChat, given the signed-in user, the vendor's user id, the
      lookup's answer and the insert's answer (only consulted when nothing was found). */
  function StartChat(user: Option<Id>, vendorUser: Option<Id>, lookup: Lookup, create: Reply<Id>): (r: ChatStart)
    ensures user.None? <==> r == AskLogin
    ensures user.Some? ==> (r == NoVendor <==> !Truthy(vendorUser))
    ensures r == LookupAborted <==> user.Some? && Truthy(vendorUser) && lookup.Failed? && lookup.code != Some(NO_ROWS)
    ensures user.Some? && Truthy(vendorUser) && lookup.Found? ==> r == OpenChat(lookup.conversationId)
    ensures r == CreateFailed ==> create.Err? && !lookup.Found?
    ensures r.OpenChat? && !lookup.Found? ==> create == Ok(r.conversationId)
  {
    if user.None? then AskLogin
    else if !Truthy(vendorUser) then NoVendor
    else match lookup {
      case Failed(code) =>
        if code != Some(NO_ROWS) then LookupAborted
        else if create.Ok? then OpenChat(create.value) else CreateFailed
      case Found(id) => OpenChat(id)
      case NotFound => if create.Ok? then OpenChat(create.value) else CreateFailed
    }
  }

  /** The `(isFavorite, favoriteId)` state pair. */
  datatype FavoritePair = FavoritePair(isFavorite: bool, favoriteId: Option<Id>)

  ghost predicate Consistent(p: FavoritePair) {
    p.isFavorite <==> p.favoriteId.Some?
  }

  /** checkFavorite: the user's `favorites` row for the product, if the lookup found one. */
  function Checked(reply: Reply<Option<Id>>): (r: FavoritePair)
    ensures Consistent(r)
    ensures r.isFavorite <==> reply.Ok? && reply.value.Some?
    ensures r.isFavorite ==> r.favoriteId == reply.value
  {
    if reply.Ok? && reply.value.Some? then FavoritePair(true, reply.value) else FavoritePair(false, None)
  }

  /** toggleFavorite, not optimistic: a favourite is deleted by its row id, otherwise a row is
      inserted; the pair only changes once the store call has succeeded. */
  function Toggled(p: FavoritePair, delete: Outcome, insert: Reply<Option<Id>>): (r: FavoritePair)
    ensures Consistent(p) ==> Consistent(r)
    ensures p.isFavorite ==> r == if delete == Done then FavoritePair(false, None) else p
    ensures !p.isFavorite ==> r == if insert.Ok? && insert.value.Some? then FavoritePair(true, insert.value) else p
  {
    if p.isFavorite then
      if delete == Done then FavoritePair(false, None) else p
    else
      if insert.Ok? && insert.value.Some? then FavoritePair(true, insert.value) else p
  }

  /** From a consistent pair, two successful toggles end on a favourite again exactly when
      the page started on one. */
  lemma {:induction false} ToggleTwice(p: FavoritePair, newId: Id)
    requires Consistent(p)
    ensures Toggled(Toggled(p, Done, Ok(Some(newId))), Done, Ok(Some(newId))).isFavorite == p.isFavorite
  {
    var q := Toggled(p, Done, Ok(Some(newId)));
    assert q.isFavorite == !p.isFavorite;
  }

  /** What handleContact dials or opens in WhatsApp: the vendor's phone as stored, or the
      phone reduced to its digits. */
  datatype ContactKind = PhoneCall | WhatsApp
  datatype Contact = Dial(number: string) | WhatsAppChat(number: string)

  function ContactFor(product: Option<Product>, kind: ContactKind): (r: Option<Contact>)
    ensures r.None? <==> product.None? || product.value.vendor.None? || (kind == WhatsApp && product.value.vendor.value.phone.None?)
    ensures r.Some? && kind == PhoneCall ==>
              r.value == Dial(if product.value.vendor.value.phone.Some? then product.value.vendor.value.phone.value else "null")
    ensures r.Some? && kind == WhatsApp ==> r.value == WhatsAppChat(DigitsOnly(product.value.vendor.value.phone.value))
    ensures r.Some? && kind == WhatsApp ==> forall i :: 0 <= i < |r.value.number| ==> IsDigit(r.value.number[i])
  {
    if product.None? || product.value.vendor.None? then None
    else
      var phone := product.value.vendor.value.phone;
      match kind {
        case PhoneCall => Some(Dial(if phone.Some? then phone.value else "null"))
        case WhatsApp => if phone.Some? then Some(WhatsAppChat(DigitsOnly(phone.value))) else None
      }
  }

  /** The product page opens WhatsApp on the same number as the vendor's own page, for a
      vendor with a phone number. */
  lemma SameWhatsAppNumberAsVendorPage(product: Product, v: VendorPage.Vendor)
    requires product.vendor.Some? && product.vendor.value.phone == v.phone && Truthy(v.phone)
    ensures ContactFor(Some(product), WhatsApp).Some?
    ensures VendorPage.ContactLink(Some(v), VendorPage.WhatsApp)
            == Some(VendorPage.WHATSAPP_BASE + ContactFor(Some(product), WhatsApp).value.number + VendorPage.WHATSAPP_TEXT)
  {
  }

  class ProductView {
    const user: Option<Id>
    var product: Option<Product>
    var loading: bool
    var isFavorite: bool
    var favoriteId: Option<Id>
    var startingChat: bool
    var selectedImage: int

    function Pair(): FavoritePair
      reads this`isFavorite, this`favoriteId
    {
      FavoritePair(isFavorite, favoriteId)
    }

    ghost predicate Valid()
      reads this`isFavorite, this`favoriteId
    {
      Consistent(Pair())
    }

    constructor (user: Option<Id>)
      ensures this.user == user && product == None && loading && Pair() == FavoritePair(false, None)
      ensures !startingChat && selectedImage == 0 && Valid()
    {
      this.user := user;
      product, loading, isFavorite, favoriteId := None, true, false, None;
      startingChat, selectedImage := false, 0;
    }

    /** fetchProduct: the previous product and image selection are dropped before the query;
        returns whether the page went back home. */
    method LoadProduct(reply: Reply<Option<Product>>) returns (navigatedHome: bool)
      modifies this`product, this`selectedImage, this`loading
      ensures navigatedHome <==> reply.Err? || reply.value.None?
      ensures product == if navigatedHome then None else reply.value
      ensures selectedImage == 0 && !loading
    {
      loading := true;
      product := None;
      selectedImage := 0;
      navigatedHome := reply.Err? || reply.value.None?;
      if !navigatedHome {
        product := reply.value;
      }
      loading := false;
    }

    /** checkFavorite, which does nothing without a user or a product. */
    method CheckFavorite(reply: Reply<Option<Id>>)
      requires Valid()
      modifies this`isFavorite, this`favoriteId
      ensures Valid()
      ensures Pair() == if user.None? || product.None? then old(Pair()) else Checked(reply)
    {
      if user.None? || product.None? {
        return;
      }
      var p := Checked(reply);
      isFavorite, favoriteId := p.isFavorite, p.favoriteId;
    }

    /** toggleFavorite with the answer of the delete or of the insert; without a user it only
        asks for the auth modal. */
    method ToggleFavorite(delete: Outcome, insert: Reply<Option<Id>>) returns (openAuth: bool)
      requires Valid()
      modifies this`isFavorite, this`favoriteId
      ensures Valid()
      ensures openAuth <==> user.None?
      ensures Pair() == if user.None? then old(Pair()) else Toggled(old(Pair()), delete, insert)
    {
      if user.None? {
        return true;
      }
      openAuth := false;
      if isFavorite {
        if delete == Done {
          isFavorite, favoriteId := false, None;
        }
      } else if insert.Ok? && insert.value.Some? {
        isFavorite, favoriteId := true, insert.value;
      }
    }

    /** handleStartChat with the lookup's and the insert's answers. Returns the outcome and
        the participant list the lookup and the insert use. */
    method HandleStartChat(lookup: Lookup, create: Reply<Id>) returns (r: ChatStart, participants: seq<Id>)
      modifies this`startingChat
      ensures var vendorUser := if product.Some? && product.value.vendor.Some? then product.value.vendor.value.userId else None;
              && r == StartChat(user, vendorUser, lookup, create)
              && (r.AskLogin? || r.NoVendor? ==> startingChat == old(startingChat) && participants == [])
              && (!(r.AskLogin? || r.NoVendor?) ==> !startingChat && participants == SortedPair(user.value, vendorUser.value))
    {
      participants := [];
      if user.None? {
        return AskLogin, participants;
      }
      var vendorUser := if product.Some? && product.value.vendor.Some? then product.value.vendor.value.userId else None;
      if !Truthy(vendorUser) {
        return NoVendor, participants;
      }
      startingChat := true;
      participants := SortedPair(user.value, vendorUser.value);
      if lookup.Failed? && lookup.code != Some(NO_ROWS) {
        startingChat := false;
        return LookupAborted, participants;
      }
      if lookup.Found? {
        r := OpenChat(lookup.conversationId);
      } else if create.Ok? {
        r := OpenChat(create.value);
      } else {
        r := CreateFailed;
      }
      startingChat := false;
    }
  }
}
