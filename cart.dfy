/** The cart store (src/context/CartContext.tsx) as a class: fields `cart`,
    `loading`, `error`, and `sent`, the requests issued so far. Each method
    takes the backend's answer to the request it would issue. */
module CartContext {
  import opened Wrappers
  import opened Js
  import RT = ReadThrough

  /** src/type/CartDto.ts. Prices are JavaScript numbers; the store only
      copies them, so they are kept as reals. */
  datatype CartItemDto = CartItemDto(productId: int, productName: string, price: real, quantity: int, imageUrls: Option<string>)
  datatype CartDto = CartDto(userId: int, items: seq<CartItemDto>, totalPrice: real)

  datatype CartOp =
    | ViewCart
    | AddToCart(productId: int, amount: Option<int>)   // None: the quantity argument was omitted
    | UpdateItemQuantity(productId: int, quantity: int)
    | RemoveItem(productId: int)
    | ClearCart

  /** The requests the store can issue, with the user id of the session. */
  datatype CartRequest =
    | GetCart(userId: int)                                   // GET    /users/{id}/cart
    | PostItem(userId: int, productId: int, quantity: int)   // POST   /users/{id}/cart
    | PatchItem(userId: int, productId: int, quantity: int)  // PATCH  /users/{id}/cart/{p}?quantity=q
    | DeleteItem(userId: int, productId: int)                // DELETE /users/{id}/cart/{p}
    | DeleteCart(userId: int)                                // DELETE /users/{id}/cart

  function OpName(op: CartOp): string {
    match op
    case ViewCart => "viewCart"
    case AddToCart(_, _) => "addToCart"
    case UpdateItemQuantity(_, _) => "updateItemQuantity"
    case RemoveItem(_) => "removeItem"
    case ClearCart => "clearCart"
  }

  /** The request an operation issues for user `uid`; `addToCart` sends
      quantity 1 when none is given. */
  function RequestFor(op: CartOp, uid: int): (r: CartRequest)
    ensures r.userId == uid
    ensures op.AddToCart? && op.amount.None? ==> r == PostItem(uid, op.productId, 1)
    ensures op.AddToCart? && op.amount.Some? ==> r == PostItem(uid, op.productId, op.amount.value)
  {
    match op
    case ViewCart => GetCart(uid)
    case AddToCart(p, q) => PostItem(uid, p, if q.Some? then q.value else 1)
    case UpdateItemQuantity(p, q) => PatchItem(uid, p, q)
    case RemoveItem(p) => DeleteItem(uid, p)
    case ClearCart => DeleteCart(uid)
  }

  /** What one call sends: nothing when the user id is falsy. */
  function Issued(userId: Option<JsInt>, op: CartOp): (r: seq<CartRequest>)
    ensures |r| <= 1
    ensures r == [] <==> !TruthyId(userId)
  {
    if TruthyId(userId) then [RequestFor(op, userId.value.value)] else []
  }

  function AsCall(userId: Option<JsInt>, op: CartOp, res: Response<CartDto>): RT.Call<CartDto> {
    RT.Call(TruthyId(userId), res, "Errore " + OpName(op) + ": ", op.ClearCart?)
  }

  /** The store state after one operation. */
  function Step(s: RT.State<CartDto>, userId: Option<JsInt>, op: CartOp, res: Response<CartDto>): (r: RT.State<CartDto>)
    ensures !TruthyId(userId) ==> r == s
    ensures TruthyId(userId) ==> !r.loading
    ensures TruthyId(userId) && res.Ok? ==> r.error == s.error
    ensures TruthyId(userId) && res.Ok? && !op.ClearCart? ==> r.data == Some(res.payload)
    ensures TruthyId(userId) && res.Ok? && op.ClearCart? ==> r.data == None
    ensures TruthyId(userId) && res.Fail? ==> r.data == s.data && r.error == Some("Errore " + OpName(op) + ": " + NumberToString(res.status))
    ensures TruthyId(userId) && res.Rejected? ==> r.data == s.data && r.error == Some(res.message)
  {
    RT.Apply(s, AsCall(userId, op, res))
  }

  /** The snapshot after a successful call is the server's answer, whatever
      the cart held before: the client computes no quantities itself. */
  lemma SnapshotIsServerAnswer(s1: RT.State<CartDto>, s2: RT.State<CartDto>, userId: Option<JsInt>, op: CartOp, answer: CartDto)
    requires TruthyId(userId) && !op.ClearCart?
    ensures Step(s1, userId, op, Ok(answer)).data == Step(s2, userId, op, Ok(answer)).data == Some(answer)
  {
  }

  /** Two `viewCart` calls answered alike leave the same snapshot as one. */
  lemma ViewCartTwice(s: RT.State<CartDto>, userId: Option<JsInt>, res: Response<CartDto>)
    ensures Step(Step(s, userId, ViewCart, res), userId, ViewCart, res).data == Step(s, userId, ViewCart, res).data
  {
  }

  /** The effect `if (token && userId) viewCart()`. */
  predicate AutoLoads(token: Option<string>, userId: Option<JsInt>) {
    TruthyText(token) && TruthyId(userId)
  }

  /** A whole session of calls: the error is null at the end exactly when no
      call that ran failed, starting from a fresh provider. */
  lemma {:induction false} CartErrorNullIff(ops: seq<(Option<JsInt>, CartOp, Response<CartDto>)>)
    ensures RunOps(RT.Initial(), ops).error.None? <==>
            forall k :: 0 <= k < |ops| && TruthyId(ops[k].0) ==> ops[k].2.Ok?
  {
    var calls := CallsOf(ops);
    RunOpsIsRun(RT.Initial(), ops);
    RT.ErrorNullIff(RT.Initial(), calls);
    if RT.SomeRanAndFailed(calls) {
      var k :| 0 <= k < |calls| && calls[k].ran && !calls[k].res.Ok?;
      assert TruthyId(ops[k].0) && !ops[k].2.Ok?;
    }
    if !forall k :: 0 <= k < |ops| && TruthyId(ops[k].0) ==> ops[k].2.Ok? {
      var k :| 0 <= k < |ops| && TruthyId(ops[k].0) && !ops[k].2.Ok?;
      assert calls[k].ran && !calls[k].res.Ok?;
    }
  }

  function RunOps(s: RT.State<CartDto>, ops: seq<(Option<JsInt>, CartOp, Response<CartDto>)>): RT.State<CartDto>
    decreases |ops|
  {
    if ops == [] then s else RunOps(Step(s, ops[0].0, ops[0].1, ops[0].2), ops[1..])
  }

  function CallsOf(ops: seq<(Option<JsInt>, CartOp, Response<CartDto>)>): (calls: seq<RT.Call<CartDto>>)
    ensures |calls| == |ops|
    ensures forall k :: 0 <= k < |ops| ==> calls[k] == AsCall(ops[k].0, ops[k].1, ops[k].2)
  {
    seq(|ops|, k requires 0 <= k < |ops| => AsCall(ops[k].0, ops[k].1, ops[k].2))
  }

  lemma {:induction false} RunOpsIsRun(s: RT.State<CartDto>, ops: seq<(Option<JsInt>, CartOp, Response<CartDto>)>)
    ensures RunOps(s, ops) == RT.Run(s, CallsOf(ops))
    decreases |ops|
  {
    if ops != [] {
      RunOpsIsRun(Step(s, ops[0].0, ops[0].1, ops[0].2), ops[1..]);
      assert CallsOf(ops)[1..] == CallsOf(ops[1..]);
    }
  }

  class CartStore {
    var cart: Option<CartDto>
    var loading: bool
    var error: Option<string>
    var sent: seq<CartRequest>

    function State(): RT.State<CartDto>
      reads this
    {
      RT.State(cart, loading, error)
    }

    /** The provider mounts with no cart, not loading, no error. */
    constructor ()
      ensures State() == RT.Initial() && sent == []
    {
      cart, loading, error, sent := None, false, None, [];
    }

    method ViewCart(userId: Option<JsInt>, res: Response<CartDto>)
      modifies this
      ensures State() == Step(old(State()), userId, CartOp.ViewCart, res)
      ensures sent == old(sent) + Issued(userId, CartOp.ViewCart)
    {
      if !TruthyId(userId) { return; }
      loading := true;
      sent := sent + [GetCart(userId.value.value)];
      match res {
        case Ok(data) => cart := Some(data);
        case Fail(status) =>
          error := Some("Errore " + OpName(CartOp.ViewCart) + ": " + NumberToString(status));
        case Rejected(message) => error := Some(message);
      }
      loading := false;
    }

    /** `addToCart(productId, quantity = 1)`. */
    method AddToCart(userId: Option<JsInt>, productId: int, quantity: Option<int>, res: Response<CartDto>)
      modifies this
      ensures State() == Step(old(State()), userId, CartOp.AddToCart(productId, quantity), res)
      ensures sent == old(sent) + Issued(userId, CartOp.AddToCart(productId, quantity))
    {
      if !TruthyId(userId) { return; }
      var q := if quantity.Some? then quantity.value else 1;
      loading := true;
      sent := sent + [PostItem(userId.value.value, productId, q)];
      match res {
        case Ok(data) => cart := Some(data);
        case Fail(status) =>
          error := Some("Errore " + OpName(CartOp.AddToCart(productId, quantity)) + ": " + NumberToString(status));
        case Rejected(message) => error := Some(message);
      }
      loading := false;
    }

    method UpdateItemQuantity(userId: Option<JsInt>, productId: int, quantity: int, res: Response<CartDto>)
      modifies this
      ensures State() == Step(old(State()), userId, CartOp.UpdateItemQuantity(productId, quantity), res)
      ensures sent == old(sent) + Issued(userId, CartOp.UpdateItemQuantity(productId, quantity))
    {
      if !TruthyId(userId) { return; }
      loading := true;
      sent := sent + [PatchItem(userId.value.value, productId, quantity)];
      match res {
        case Ok(data) => cart := Some(data);
        case Fail(status) =>
          error := Some("Errore " + OpName(CartOp.UpdateItemQuantity(productId, quantity)) + ": " + NumberToString(status));
        case Rejected(message) => error := Some(message);
      }
      loading := false;
    }

    method RemoveItem(userId: Option<JsInt>, productId: int, res: Response<CartDto>)
      modifies this
      ensures State() == Step(old(State()), userId, CartOp.RemoveItem(productId), res)
      ensures sent == old(sent) + Issued(userId, CartOp.RemoveItem(productId))
    {
      if !TruthyId(userId) { return; }
      loading := true;
      sent := sent + [DeleteItem(userId.value.value, productId)];
      match res {
        case Ok(data) => cart := Some(data);
        case Fail(status) =>
          error := Some("Errore " + OpName(CartOp.RemoveItem(productId)) + ": " + NumberToString(status));
        case Rejected(message) => error := Some(message);
      }
      loading := false;
    }

    /** `clearCart()`: the body of a successful answer is not read. */
    method ClearCart(userId: Option<JsInt>, res: Response<CartDto>)
      modifies this
      ensures State() == Step(old(State()), userId, CartOp.ClearCart, res)
      ensures sent == old(sent) + Issued(userId, CartOp.ClearCart)
    {
      if !TruthyId(userId) { return; }
      loading := true;
      sent := sent + [DeleteCart(userId.value.value)];
      match res {
        case Ok(_) => cart := None;
        case Fail(status) =>
          error := Some("Errore " + OpName(CartOp.ClearCart) + ": " + NumberToString(status));
        case Rejected(message) => error := Some(message);
      }
      loading := false;
    }

    /** The effect run whenever `token` or `userId` changes. */
    method AutoLoad(token: Option<string>, userId: Option<JsInt>, res: Response<CartDto>)
      modifies this
      ensures State() == if AutoLoads(token, userId) then Step(old(State()), userId, CartOp.ViewCart, res) else old(State())
      ensures sent == old(sent) + (if AutoLoads(token, userId) then [GetCart(userId.value.value)] else [])
    {
      if TruthyText(token) && TruthyId(userId) {
        ViewCart(userId, res);
      }
    }
  }

  /** A client: with user 42 logged in, an add answered by the server and
      a remove answered with an empty cart leave exactly that empty cart. */
  method AddThenRemove(answerAfterAdd: CartDto, emptyCart: CartDto)
  {
    var store := new CartStore();
    var uid := Some(Num(42));
    store.AddToCart(uid, 7, Some(2), Ok(answerAfterAdd));
    assert store.cart == Some(answerAfterAdd) && store.sent == [PostItem(42, 7, 2)];
    store.RemoveItem(uid, 7, Ok(emptyCart));
    assert store.cart == Some(emptyCart) && !store.loading && store.error == None;
    store.ViewCart(None, Fail(500));
    assert store.cart == Some(emptyCart) && |store.sent| == 2;
  }
}
