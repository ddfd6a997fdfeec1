/** The order page (src/components/OrderDetailPage.tsx): one GET of
    `/users/<uid>/orders/<orderId>`, guarded by the presence of the user
    id, the order id and the token; 403 sends the user to the login page. */
module OrderDetail {
  import opened Wrappers
  import opened Js

  /** The JSON value of `totalAmmount`: a number, or anything else
      (missing, null, a string). */
  datatype Amount = Number(value: real) | NotNumber

  datatype OrderItem = OrderItem(productId: int, productName: string, price: Option<real>, quantity: int)

  datatype OrderDetailDto = OrderDetailDto(orderId: int, orderDate: string, orderStatus: string,
                                           totalAmmount: Amount, items: seq<OrderItem>)

  datatype OrderRequest = OrderRequest(uid: string, orderId: string, token: string)

  /** `paramUid ?? userId?.toString()`. */
  function EffectiveUid(paramUid: Option<string>, userId: Option<JsInt>): (uid: Option<string>)
    ensures paramUid.Some? ==> uid == paramUid
    ensures paramUid.None? && userId.Some? ==> uid == Some(JsIntToString(userId.value))
    ensures paramUid.None? && userId.None? ==> uid == None
  {
    if paramUid.Some? then paramUid
    else if userId.Some? then Some(JsIntToString(userId.value))
    else None
  }

  /** A user id taken from the session is never the empty string, so
      without a route parameter only the order id and the token decide. */
  lemma SessionUidIsTruthy(userId: Option<JsInt>)
    requires userId.Some?
    ensures TruthyText(EffectiveUid(None, userId))
  {
    var n := userId.value;
    if n.Num? {
      assert |NumberToString(n.value)| > 0;
    }
  }

  /** The guard `if (!uid || !orderId || !token) return`. */
  function ShouldFetch(uid: Option<string>, orderId: Option<string>, token: Option<string>): (r: bool)
    ensures r <==> (uid.Some? && uid.value != "") && (orderId.Some? && orderId.value != "")
                   && (token.Some? && token.value != "")
  {
    TruthyText(uid) && TruthyText(orderId) && TruthyText(token)
  }

  /** The message thrown for a non-ok status. */
  function StatusError(status: int): (m: string)
    ensures status == 403 <==> m == "Non autorizzato"
    ensures status != 403 ==> |m| > 7 && m[..7] == "Errore "
  {
    if status == 403 then "Non autorizzato"
    else
      var m := "Errore " + NumberToString(status);
      assert m[0] != "Non autorizzato"[0];
      m
  }

  /** The status can be read back from its message. */
  lemma StatusErrorShowsStatus(status: nat)
    requires status != 403
    ensures ParseInt(StatusError(status)[7..]) == Num(status)
  {
    assert StatusError(status)[7..] == NumberToString(status) + "";
    ParseIntOfNumberThen(status, "");
  }

  /** `typeof order.totalAmmount === "number" ? order.totalAmmount : 0`. */
  function Total(a: Amount): (t: real)
    ensures a.Number? ==> t == a.value
    ensures a.NotNumber? ==> t == 0.0
  {
    if a.Number? then a.value else 0.0
  }

  /** The caught message sends the user to the login page exactly when it
      is "Non autorizzato". */
  function RedirectFor(message: string): (r: Option<string>)
    ensures r.Some? <==> message == "Non autorizzato"
    ensures r.Some? ==> r.value == "/auth/login"
  {
    if message == "Non autorizzato" then Some("/auth/login") else None
  }

  /** Among the statuses, only 403 redirects. */
  lemma OnlyForbiddenRedirects(status: int)
    ensures RedirectFor(StatusError(status)).Some? <==> status == 403
  {
  }

  class OrderDetailPage {
    var order: Option<OrderDetailDto>
    var loading: bool
    var error: Option<string>
    var location: Option<string>
    var sent: seq<OrderRequest>

    constructor ()
      ensures order == None && !loading && error == None && location == None && sent == []
    {
      order, loading, error, location, sent := None, false, None, None, [];
    }

    /** The effect on `[uid, orderId, token]`. */
    method Load(paramUid: Option<string>, userId: Option<JsInt>, orderId: Option<string>, token: Option<string>,
                res: Response<OrderDetailDto>)
      modifies this
      ensures var uid := EffectiveUid(paramUid, userId);
              !ShouldFetch(uid, orderId, token) ==>
                order == old(order) && loading == old(loading) && error == old(error)
                && location == old(location) && sent == old(sent)
      ensures var uid := EffectiveUid(paramUid, userId);
              ShouldFetch(uid, orderId, token) ==>
                !loading && sent == old(sent) + [OrderRequest(uid.value, orderId.value, token.value)]
      ensures var uid := EffectiveUid(paramUid, userId);
              ShouldFetch(uid, orderId, token) && res.Ok? ==>
                order == Some(res.payload) && error == old(error) && location == old(location)
      ensures var uid := EffectiveUid(paramUid, userId);
              ShouldFetch(uid, orderId, token) && res.Fail? ==>
                order == old(order) && error == Some(StatusError(res.status))
                && (res.status == 403 ==> location == Some("/auth/login"))
                && (res.status != 403 ==> location == old(location))
      ensures var uid := EffectiveUid(paramUid, userId);
              ShouldFetch(uid, orderId, token) && res.Rejected? ==>
                order == old(order) && error == Some(res.message)
                && location == (if res.message == "Non autorizzato" then Some("/auth/login") else old(location))
    {
      var uid := EffectiveUid(paramUid, userId);
      if !ShouldFetch(uid, orderId, token) { return; }
      loading := true;
      sent := sent + [OrderRequest(uid.value, orderId.value, token.value)];
      var failure: Option<string> := None;
      match res {
        case Ok(dto) => order := Some(dto);
        case Fail(status) => failure := Some(StatusError(status));
        case Rejected(message) => failure := Some(message);
      }
      if failure.Some? {
        error := failure;
        var target := RedirectFor(failure.value);
        if target.Some? {
          location := target;
        }
      }
      loading := false;
    }
  }

  /** A client: a signed-in user's own order page, answered with 403. */
  method ForbiddenOrder(userId: int, orderId: string, token: string)
    requires orderId != "" && token != ""
  {
    var page := new OrderDetailPage();
    SessionUidIsTruthy(Some(Num(userId)));
    page.Load(None, Some(Num(userId)), Some(orderId), Some(token), Fail(403));
    assert page.location == Some("/auth/login") && page.error == Some("Non autorizzato");
    assert page.order == None && !page.loading;
  }
}
