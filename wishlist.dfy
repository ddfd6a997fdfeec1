/** The wishlist store (src/context/WishlistContext.tsx): the same
    read-through pattern as the cart, with one error prefix for every
    operation. */
module WishlistContext {
  import opened Wrappers
  import opened Js
  import RT = ReadThrough

  /** src/type/WishlistDto.ts. */
  datatype WishlistItemDto = WishlistItemDto(productId: int, productName: string, imageUrls: Option<seq<string>>, price: real)
  datatype WishlistDto = WishlistDto(wishlistId: int, items: seq<WishlistItemDto>)

  datatype WishlistOp =
    | ViewWishlist
    | AddToWishlist(productId: int)
    | RemoveFromWishlist(productId: int)
    | ClearWishlist

  datatype WishlistRequest =
    | GetWishlist(userId: int)                       // GET    /users/{id}/wishlist
    | PostProduct(userId: int, productId: int)       // POST   /users/{id}/wishlist  {productId}
    | DeleteProduct(userId: int, productId: int)     // DELETE /users/{id}/wishlist/{p}
    | DeleteWishlist(userId: int)                    // DELETE /users/{id}/wishlist

  const ErrorPrefix := "Errore: "

  function RequestFor(op: WishlistOp, uid: int): (r: WishlistRequest)
    ensures r.userId == uid
    ensures op.AddToWishlist? <==> r.PostProduct?
    ensures op.RemoveFromWishlist? <==> r.DeleteProduct?
    ensures (op.AddToWishlist? || op.RemoveFromWishlist?) ==> r.productId == op.productId
  {
    match op
    case ViewWishlist => GetWishlist(uid)
    case AddToWishlist(p) => PostProduct(uid, p)
    case RemoveFromWishlist(p) => DeleteProduct(uid, p)
    case ClearWishlist => DeleteWishlist(uid)
  }

  /** What one call sends: nothing when the user id is falsy. */
  function Issued(userId: Option<JsInt>, op: WishlistOp): (r: seq<WishlistRequest>)
    ensures |r| <= 1
    ensures r == [] <==> !TruthyId(userId)
  {
    if TruthyId(userId) then [RequestFor(op, userId.value.value)] else []
  }

  function AsCall(userId: Option<JsInt>, op: WishlistOp, res: Response<WishlistDto>): RT.Call<WishlistDto> {
    RT.Call(TruthyId(userId), res, ErrorPrefix, op.ClearWishlist?)
  }

  /** The store state after one operation. */
  function Step(s: RT.State<WishlistDto>, userId: Option<JsInt>, op: WishlistOp, res: Response<WishlistDto>): (r: RT.State<WishlistDto>)
    ensures !TruthyId(userId) ==> r == s
    ensures TruthyId(userId) ==> !r.loading
    ensures TruthyId(userId) && res.Ok? ==> r.error == s.error
    ensures TruthyId(userId) && res.Ok? && !op.ClearWishlist? ==> r.data == Some(res.payload)
    ensures TruthyId(userId) && res.Ok? && op.ClearWishlist? ==> r.data == None
    ensures TruthyId(userId) && res.Fail? ==> r.data == s.data && r.error == Some("Errore: " + NumberToString(res.status))
    ensures TruthyId(userId) && res.Rejected? ==> r.data == s.data && r.error == Some(res.message)
  {
    RT.Apply(s, AsCall(userId, op, res))
  }

  function RunOps(s: RT.State<WishlistDto>, ops: seq<(Option<JsInt>, WishlistOp, Response<WishlistDto>)>): RT.State<WishlistDto>
    decreases |ops|
  {
    if ops == [] then s else RunOps(Step(s, ops[0].0, ops[0].1, ops[0].2), ops[1..])
  }

  function CallsOf(ops: seq<(Option<JsInt>, WishlistOp, Response<WishlistDto>)>): (calls: seq<RT.Call<WishlistDto>>)
    ensures |calls| == |ops|
    ensures forall k :: 0 <= k < |ops| ==> calls[k] == AsCall(ops[k].0, ops[k].1, ops[k].2)
  {
    seq(|ops|, k requires 0 <= k < |ops| => AsCall(ops[k].0, ops[k].1, ops[k].2))
  }

  lemma {:induction false} RunOpsIsRun(s: RT.State<WishlistDto>, ops: seq<(Option<JsInt>, WishlistOp, Response<WishlistDto>)>)
    ensures RunOps(s, ops) == RT.Run(s, CallsOf(ops))
    decreases |ops|
  {
    if ops != [] {
      RunOpsIsRun(Step(s, ops[0].0, ops[0].1, ops[0].2), ops[1..]);
      assert CallsOf(ops)[1..] == CallsOf(ops[1..]);
    }
  }

  /** Once set, the error stays set through any later calls, successful or not. */
  lemma WishlistErrorSticky(s: RT.State<WishlistDto>, ops: seq<(Option<JsInt>, WishlistOp, Response<WishlistDto>)>)
    requires s.error.Some?
    ensures RunOps(s, ops).error.Some?
  {
    RunOpsIsRun(s, ops);
    RT.ErrorNullIff(s, CallsOf(ops));
  }

  /** The effect `if (token && userId) viewWishlist()`. */
  predicate AutoLoads(token: Option<string>, userId: Option<JsInt>) {
    TruthyText(token) && TruthyId(userId)
  }

  class WishlistStore {
    var wishlist: Option<WishlistDto>
    var loading: bool
    var error: Option<string>
    var sent: seq<WishlistRequest>

    function State(): RT.State<WishlistDto>
      reads this
    {
      RT.State(wishlist, loading, error)
    }

    constructor ()
      ensures State() == RT.Initial() && sent == []
    {
      wishlist, loading, error, sent := None, false, None, [];
    }

    method ViewWishlist(userId: Option<JsInt>, res: Response<WishlistDto>)
      modifies this
      ensures State() == Step(old(State()), userId, WishlistOp.ViewWishlist, res)
      ensures sent == old(sent) + Issued(userId, WishlistOp.ViewWishlist)
    {
      if !TruthyId(userId) { return; }
      loading := true;
      sent := sent + [GetWishlist(userId.value.value)];
      match res {
        case Ok(data) => wishlist := Some(data);
        case Fail(status) => error := Some("Errore: " + NumberToString(status));
        case Rejected(message) => error := Some(message);
      }
      loading := false;
    }

    method AddToWishlist(userId: Option<JsInt>, productId: int, res: Response<WishlistDto>)
      modifies this
      ensures State() == Step(old(State()), userId, WishlistOp.AddToWishlist(productId), res)
      ensures sent == old(sent) + Issued(userId, WishlistOp.AddToWishlist(productId))
    {
      if !TruthyId(userId) { return; }
      loading := true;
      sent := sent + [PostProduct(userId.value.value, productId)];
      match res {
        case Ok(data) => wishlist := Some(data);
        case Fail(status) => error := Some("Errore: " + NumberToString(status));
        case Rejected(message) => error := Some(message);
      }
      loading := false;
    }

    method RemoveFromWishlist(userId: Option<JsInt>, productId: int, res: Response<WishlistDto>)
      modifies this
      ensures State() == Step(old(State()), userId, WishlistOp.RemoveFromWishlist(productId), res)
      ensures sent == old(sent) + Issued(userId, WishlistOp.RemoveFromWishlist(productId))
    {
      if !TruthyId(userId) { return; }
      loading := true;
      sent := sent + [DeleteProduct(userId.value.value, productId)];
      match res {
        case Ok(data) => wishlist := Some(data);
        case Fail(status) => error := Some("Errore: " + NumberToString(status));
        case Rejected(message) => error := Some(message);
      }
      loading := false;
    }

    /** `clearWishlist()`: the body of a successful answer is not read. */
    method ClearWishlist(userId: Option<JsInt>, res: Response<WishlistDto>)
      modifies this
      ensures State() == Step(old(State()), userId, WishlistOp.ClearWishlist, res)
      ensures sent == old(sent) + Issued(userId, WishlistOp.ClearWishlist)
    {
      if !TruthyId(userId) { return; }
      loading := true;
      sent := sent + [DeleteWishlist(userId.value.value)];
      match res {
        case Ok(_) => wishlist := None;
        case Fail(status) => error := Some("Errore: " + NumberToString(status));
        case Rejected(message) => error := Some(message);
      }
      loading := false;
    }

    /** The effect run whenever `token` or `userId` changes. */
    method AutoLoad(token: Option<string>, userId: Option<JsInt>, res: Response<WishlistDto>)
      modifies this
      ensures State() == if AutoLoads(token, userId) then Step(old(State()), userId, WishlistOp.ViewWishlist, res) else old(State())
      ensures sent == old(sent) + (if AutoLoads(token, userId) then [GetWishlist(userId.value.value)] else [])
    {
      if TruthyText(token) && TruthyId(userId) {
        ViewWishlist(userId, res);
      }
    }
  }
}
