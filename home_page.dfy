/** The home page (src/components/HomePageComponent.tsx): three sections of
    at most eight products each, drawn from a shuffled copy of the loaded
    products, with wishlist hearts and add-to-cart buttons. */
module HomePage {
  import opened Wrappers
  import opened Js
  import opened Catalog
  import CartContext

  const SectionSize: nat := 8

  /** `shuffle(products).slice(0, 8)`, given the shuffled copy. */
  function Section(shuffled: seq<Product>): (r: seq<Product>)
    ensures |r| == if |shuffled| < SectionSize then |shuffled| else SectionSize
    ensures r == shuffled[..|r|]
  {
    if |shuffled| <= SectionSize then shuffled else shuffled[..SectionSize]
  }

  /** Whatever order `Math.random` produced, a section holds at most eight
      products, all of them loaded, as many as there are up to eight, and
      none twice unless it was loaded twice. */
  lemma SectionDrawnFromProducts(products: seq<Product>, shuffled: seq<Product>)
    requires multiset(shuffled) == multiset(products)
    ensures |Section(shuffled)| <= SectionSize
    ensures |Section(shuffled)| == if |products| < SectionSize then |products| else SectionSize
    ensures multiset(Section(shuffled)) <= multiset(products)
    ensures forall p :: p in Section(shuffled) ==> p in products
  {
    var r := Section(shuffled);
    assert |shuffled| == |products| by {
      assert |multiset(shuffled)| == |shuffled| && |multiset(products)| == |products|;
    }
    assert shuffled == r + shuffled[|r|..];
    assert multiset(shuffled) == multiset(r) + multiset(shuffled[|r|..]);
    forall p | p in r ensures p in products {
      assert p in multiset(r);
      assert p in multiset(products);
    }
  }

  /** The card button `addToCart(p.id, 1)`. */
  method AddToCartButton(cart: CartContext.CartStore, userId: Option<JsInt>, p: Product, res: Response<CartContext.CartDto>)
    modifies cart
    ensures cart.State() == CartContext.Step(old(cart.State()), userId, CartContext.CartOp.AddToCart(p.id, Some(1)), res)
    ensures cart.sent == old(cart.sent) + (if TruthyId(userId) then [CartContext.PostItem(userId.value.value, p.id, 1)] else [])
  {
    cart.AddToCart(userId, p.id, Some(1), res);
  }
}
