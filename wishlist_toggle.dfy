/** The wishlist heart shown on product cards: the home page
    (src/components/HomePageComponent.tsx), the search page
    (src/components/SearchPage.tsx) and the product page
    (src/components/ProductDetailPageComponent.tsx) each carry the same
    membership test and the same remove-else-add toggle over the wishlist
    store. */
module WishlistToggle {
  import opened Wrappers
  import opened Js
  import W = WishlistContext

  /** `items.find((i) => i.productId === productId)` finds something. */
  function HasProduct(items: seq<W.WishlistItemDto>, productId: int): bool {
    if items == [] then false
    else items[0].productId == productId || HasProduct(items[1..], productId)
  }

  lemma {:induction false} HasProductIff(items: seq<W.WishlistItemDto>, productId: int)
    ensures HasProduct(items, productId) <==> exists k :: 0 <= k < |items| && items[k].productId == productId
  {
    if items != [] {
      HasProductIff(items[1..], productId);
      if HasProduct(items[1..], productId) {
        var k :| 0 <= k < |items[1..]| && items[1..][k].productId == productId;
        assert items[k + 1].productId == productId;
      }
      forall k | 1 <= k < |items| && items[k].productId == productId
        ensures HasProduct(items[1..], productId)
      {
        assert items[1..][k - 1] == items[k];
      }
    }
  }

  /** `isInWishlist(productId)`: false while the wishlist is null. */
  predicate IsInWishlist(wishlist: Option<W.WishlistDto>, productId: int) {
    wishlist.Some? && HasProduct(wishlist.value.items, productId)
  }

  lemma IsInWishlistIff(wishlist: Option<W.WishlistDto>, productId: int)
    ensures IsInWishlist(wishlist, productId) <==>
            wishlist.Some? && exists k :: 0 <= k < |wishlist.value.items| && wishlist.value.items[k].productId == productId
  {
    if wishlist.Some? {
      HasProductIff(wishlist.value.items, productId);
    }
  }

  /** The store operation `toggleWishlist(productId)` calls: none without a
      user; removal of a product already in the wishlist; addition otherwise. */
  function ToggleOp(userId: Option<JsInt>, wishlist: Option<W.WishlistDto>, productId: int): (op: Option<W.WishlistOp>)
    ensures op.None? <==> !TruthyId(userId)
    ensures op.Some? && IsInWishlist(wishlist, productId) ==> op.value == W.WishlistOp.RemoveFromWishlist(productId)
    ensures op.Some? && !IsInWishlist(wishlist, productId) ==> op.value == W.WishlistOp.AddToWishlist(productId)
  {
    if !TruthyId(userId) then None
    else if IsInWishlist(wishlist, productId) then Some(W.WishlistOp.RemoveFromWishlist(productId))
    else Some(W.WishlistOp.AddToWishlist(productId))
  }

  /** When the server answers a toggle with a wishlist that reflects it,
      the next toggle of the same product does the opposite. */
  lemma ToggleAlternates(s: W.RT.State<W.WishlistDto>, userId: Option<JsInt>, productId: int, answer: W.WishlistDto)
    requires TruthyId(userId)
    requires ToggleOp(userId, s.data, productId).value.AddToWishlist? <==> HasProduct(answer.items, productId)
    ensures var op := ToggleOp(userId, s.data, productId).value;
            var next := ToggleOp(userId, W.Step(s, userId, op, Ok(answer)).data, productId).value;
            (op.AddToWishlist? <==> next.RemoveFromWishlist?) && next.productId == productId
  {
  }

  /** `toggleWishlist(productId)` against the store. */
  method ToggleWishlist(store: W.WishlistStore, userId: Option<JsInt>, productId: int, res: Response<W.WishlistDto>)
    modifies store
    ensures var op := ToggleOp(userId, old(store.wishlist), productId);
            op.None? ==> store.State() == old(store.State()) && store.sent == old(store.sent)
    ensures var op := ToggleOp(userId, old(store.wishlist), productId);
            op.Some? ==> store.State() == W.Step(old(store.State()), userId, op.value, res)
                         && store.sent == old(store.sent) + W.Issued(userId, op.value)
  {
    if !TruthyId(userId) { return; }
    if IsInWishlist(store.wishlist, productId) {
      store.RemoveFromWishlist(userId, productId, res);
    } else {
      store.AddToWishlist(userId, productId, res);
    }
  }

  /** The effect `if (userId) viewWishlist()` that each of the three pages
      runs on mount and whenever the user id changes. Unlike the provider's
      own effect it does not look at the token. Once a loaded wishlist is
      in, the heart shows exactly its products. */
  method LoadForUser(store: W.WishlistStore, userId: Option<JsInt>, res: Response<W.WishlistDto>)
    modifies store
    ensures !TruthyId(userId) ==> store.State() == old(store.State()) && store.sent == old(store.sent)
    ensures TruthyId(userId) ==>
              store.State() == W.Step(old(store.State()), userId, W.WishlistOp.ViewWishlist, res)
              && store.sent == old(store.sent) + [W.GetWishlist(userId.value.value)]
    ensures TruthyId(userId) && res.Ok? ==>
              forall p :: IsInWishlist(store.wishlist, p) <==> HasProduct(res.payload.items, p)
  {
    if TruthyId(userId) {
      store.ViewWishlist(userId, res);
    }
  }
}
