/** The backoffice dashboard
    (src/components/backoffice/BackofficeHomeComponent.tsx): an access rule,
    the redirect it drives, and three navigation cards. The page reads
    `userRole` from the session, but the session value holds only the token,
    the user id, `login` and `logout`, and `login` drops the role the login
    page passes it. So the role is always `undefined` and every visitor is
    sent away (`RedirectAsWritten`). The intended rule takes the role the
    login page fetched as an input (`Redirect`). */
module BackofficeHome {
  import opened Wrappers
  import opened Js

  /** `token && (userRole === "ADMIN" || userRole === "STAFF")`. */
  function IsBackofficeUser(token: Option<string>, userRole: Option<string>): (r: bool)
    ensures r <==> token.Some? && token.value != "" && userRole.Some?
                   && (userRole.value == "ADMIN" || userRole.value == "STAFF")
  {
    TruthyText(token) && (userRole == Some("ADMIN") || userRole == Some("STAFF"))
  }

  /** The effect: where the dashboard sends its visitor, if anywhere. */
  function Redirect(token: Option<string>, userRole: Option<string>): (r: Option<string>)
    ensures r.Some? ==> r.value == "/unauthorized"
    ensures r.None? <==> IsBackofficeUser(token, userRole)
  {
    if !IsBackofficeUser(token, userRole) then Some("/unauthorized") else None
  }

  /** A customer, or a visitor without a token, is sent away; staff and
      administrators with a token never are. */
  lemma RedirectCases(token: Option<string>, userRole: Option<string>)
    ensures userRole == Some("USER") ==> Redirect(token, userRole) == Some("/unauthorized")
    ensures token.None? || token == Some("") ==> Redirect(token, userRole) == Some("/unauthorized")
    ensures token.Some? && token.value != "" && userRole in {Some("ADMIN"), Some("STAFF")} ==> Redirect(token, userRole).None?
  {
  }

  /** The effect as the program runs it: the session never supplies a role,
      so staff and administrators are sent away too. */
  function RedirectAsWritten(token: Option<string>): (r: Option<string>)
    ensures r == Some("/unauthorized")
  {
    Redirect(token, None)
  }

  /** The discrepancy: a signed-in staff member is admitted by the intended
      rule and sent away by the program as written. */
  lemma StaffLockedOut(token: Option<string>)
    requires TruthyText(token)
    ensures Redirect(token, Some("STAFF")).None?
    ensures RedirectAsWritten(token) != Redirect(token, Some("STAFF"))
  {
    assert IsBackofficeUser(token, Some("STAFF"));
  }

  datatype Card = ProductsCard | UsersCard | StockCard

  /** The route each card's `onClick` navigates to. */
  function CardTarget(c: Card): (path: string)
    ensures |path| > |"/backoffice/"| && path[..|"/backoffice/"|] == "/backoffice/"
  {
    match c
    case ProductsCard => "/backoffice/products"
    case UsersCard => "/backoffice/users"
    case StockCard => "/backoffice/stock"
  }

  /** Every card leads somewhere else. */
  lemma CardTargetsDistinct(a: Card, b: Card)
    ensures CardTarget(a) == CardTarget(b) ==> a == b
  {
    if a != b {
      assert CardTarget(a)[12] != CardTarget(b)[12];
    }
  }
}
