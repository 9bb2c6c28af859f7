/** The client's API state: the endpoint path builder `url`, the store holding the
    current user and the store holding the server description. */
module ApiState {
  import opened Wrappers
  import opened Strings

  /** The members of the `ApiPaths` enumeration. */
  datatype ApiPath =
    | UserMe | UserToken | UserSimpleLogin | UserReset | UserResetSet
    | PoDetail | ApprovalDetail | ApprovalDetailType | ApprovalStart | ApprovalDecision
    | Barcode | PartDetail | SupplierPartDetail | StockItemDetail | StockLocationDetail
    | PurchaseOrderDetail | SalesOrderDetail | BuildOrderDetail
    | FrontendUser | FrontendProject | FrontendPo

  /** The string value each member carries at run time. */
  function PathValue(p: ApiPath): string {
    match p
    case UserMe => "api-user-me"
    case UserToken => "api-user-token"
    case UserSimpleLogin => "api-user-simple-login"
    case UserReset => "api-user-reset"
    case UserResetSet => "api-user-reset-set"
    case PoDetail => "api-po-detail"
    case ApprovalDetail => "api-approval-detail"
    case ApprovalDetailType => "api-approval-detail-type"
    case ApprovalStart => "api-approval-start"
    case ApprovalDecision => "api-approval-decision"
    case Barcode => "api-barcode"
    case PartDetail => "api-part-detail"
    case SupplierPartDetail => "api-supplier-part-detail"
    case StockItemDetail => "api-stock-item-detail"
    case StockLocationDetail => "api-stock-location-detail"
    case PurchaseOrderDetail => "api-purchase-order-detail"
    case SalesOrderDetail => "api-sales-order-detail"
    case BuildOrderDetail => "api-build-order-detail"
    case FrontendUser => "frontend-user"
    case FrontendProject => "frontend-project"
    case FrontendPo => "frontend-po"
  }

  /** The `switch` on the path string: the member whose value it is, if any. */
  function PathOf(s: string): Option<ApiPath> {
    if s == "api-user-me" then Some(UserMe)
    else if s == "api-user-token" then Some(UserToken)
    else if s == "api-user-simple-login" then Some(UserSimpleLogin)
    else if s == "api-user-reset" then Some(UserReset)
    else if s == "api-user-reset-set" then Some(UserResetSet)
    else if s == "api-po-detail" then Some(PoDetail)
    else if s == "api-approval-detail" then Some(ApprovalDetail)
    else if s == "api-approval-detail-type" then Some(ApprovalDetailType)
    else if s == "api-approval-start" then Some(ApprovalStart)
    else if s == "api-approval-decision" then Some(ApprovalDecision)
    else if s == "api-barcode" then Some(Barcode)
    else if s == "api-part-detail" then Some(PartDetail)
    else if s == "api-supplier-part-detail" then Some(SupplierPartDetail)
    else if s == "api-stock-item-detail" then Some(StockItemDetail)
    else if s == "api-stock-location-detail" then Some(StockLocationDetail)
    else if s == "api-purchase-order-detail" then Some(PurchaseOrderDetail)
    else if s == "api-sales-order-detail" then Some(SalesOrderDetail)
    else if s == "api-build-order-detail" then Some(BuildOrderDetail)
    else if s == "frontend-user" then Some(FrontendUser)
    else if s == "frontend-project" then Some(FrontendProject)
    else if s == "frontend-po" then Some(FrontendPo)
    else None
  }

  /** The switch recognises the values of UserMe to UserResetSet. */
  lemma SwitchRecognisesUserMembers(p: ApiPath)
    requires (p.UserMe? || p.UserToken? || p.UserSimpleLogin? || p.UserReset? ||
              p.UserResetSet?)
    ensures PathOf(PathValue(p)) == Some(p)
  {
  }

  /** The switch recognises the values of PoDetail to Barcode. */
  lemma SwitchRecognisesApprovalMembers(p: ApiPath)
    requires (p.PoDetail? || p.ApprovalDetail? || p.ApprovalDetailType? ||
              p.ApprovalStart? || p.ApprovalDecision? || p.Barcode?)
    ensures PathOf(PathValue(p)) == Some(p)
  {
  }

  /** The switch recognises the values of PartDetail to StockLocationDetail. */
  lemma SwitchRecognisesPartAndStockMembers(p: ApiPath)
    requires (p.PartDetail? || p.SupplierPartDetail? || p.StockItemDetail? ||
              p.StockLocationDetail?)
    ensures PathOf(PathValue(p)) == Some(p)
  {
  }

  /** The switch recognises the values of PurchaseOrderDetail to BuildOrderDetail. */
  lemma SwitchRecognisesOrderMembers(p: ApiPath)
    requires (p.PurchaseOrderDetail? || p.SalesOrderDetail? || p.BuildOrderDetail?)
    ensures PathOf(PathValue(p)) == Some(p)
  {
  }

  /** The switch recognises the value of FrontendUser. */
  lemma SwitchRecognisesFrontendUser(p: ApiPath)
    requires p.FrontendUser?
    ensures PathOf(PathValue(p)) == Some(p)
  {
  }

  /** The switch recognises the value of FrontendProject. */
  lemma SwitchRecognisesFrontendProject(p: ApiPath)
    requires p.FrontendProject?
    ensures PathOf(PathValue(p)) == Some(p)
  {
  }

  /** The switch recognises the value of FrontendPo. */
  lemma SwitchRecognisesFrontendPo(p: ApiPath)
    requires p.FrontendPo?
    ensures PathOf(PathValue(p)) == Some(p)
  {
  }

  /** Every member has its own case: the switch recognises each member's value as that
      member, so no two members share a value. */
  lemma {:induction false} OneCasePerMember(p: ApiPath)
    ensures PathOf(PathValue(p)) == Some(p)
  {
    if (p.UserMe? || p.UserToken? || p.UserSimpleLogin? || p.UserReset? ||
         p.UserResetSet?) {
      SwitchRecognisesUserMembers(p);
    } else if (p.PoDetail? || p.ApprovalDetail? || p.ApprovalDetailType? ||
                p.ApprovalStart? || p.ApprovalDecision? || p.Barcode?) {
      SwitchRecognisesApprovalMembers(p);
    } else if (p.PartDetail? || p.SupplierPartDetail? || p.StockItemDetail? ||
                p.StockLocationDetail?) {
      SwitchRecognisesPartAndStockMembers(p);
    } else if (p.PurchaseOrderDetail? || p.SalesOrderDetail? || p.BuildOrderDetail?) {
      SwitchRecognisesOrderMembers(p);
    } else if p.FrontendUser? {
      SwitchRecognisesFrontendUser(p);
    } else if p.FrontendProject? {
      SwitchRecognisesFrontendProject(p);
    } else {
      SwitchRecognisesFrontendPo(p);
    }
  }

  /** The `kwargs` argument: absent (undefined), or an object of string entries. */
  datatype Kwargs = NoKwargs | KwargsObject(entries: map<string, string>)

  /** Reading a property of undefined. */
  datatype JsError = TypeError

  /** `kwargs['type']` interpolated into a template string: a missing entry reads as
      'undefined'. */
  function KwargType(entries: map<string, string>): string {
    if "type" in entries then entries["type"] else "undefined"
  }

  /** `url(path, pk, kwargs)` for a member. `pk` is the text the template literal
      produces for the argument ('undefined' when it is omitted). */
  function UrlFor(p: ApiPath, pk: string, kwargs: Kwargs, urlBase: string): (r: Result<string, JsError>)
    ensures r.Err? <==> p == ApprovalDetailType && kwargs.NoKwargs?
  {
    match p
    case UserMe => Ok("user/me/")
    case UserToken => Ok("user/token/")
    case UserSimpleLogin => Ok("email/generate/")
    case UserReset => Ok("/auth/password/reset/")
    case UserResetSet => Ok("/auth/password/reset/confirm/")
    case PoDetail => Ok("/order/po/" + pk + "/")
    case ApprovalDetail => Ok("/approval/" + pk)
    case ApprovalDetailType =>
      if kwargs.NoKwargs? then Err(TypeError)
      else Ok("/approval/" + KwargType(kwargs.entries) + ":" + pk + "/")
    case ApprovalStart => Ok("/approval/")
    case ApprovalDecision => Ok("/approval/" + pk + "/decision/")
    case Barcode => Ok("barcode/")
    case PartDetail => Ok("part/" + pk + "/")
    case SupplierPartDetail => Ok("company/part/" + pk + "/")
    case StockItemDetail => Ok("stock/" + pk + "/")
    case StockLocationDetail => Ok("stock/location/" + pk + "/")
    case PurchaseOrderDetail => Ok("order/po/" + pk + "/")
    case SalesOrderDetail => Ok("order/so/" + pk + "/")
    case BuildOrderDetail => Ok("build/" + pk + "/")
    case FrontendUser => Ok("/" + urlBase + "/user/" + pk)
    case FrontendProject => Ok("/" + urlBase + "/project/" + pk)
    case FrontendPo => Ok("/" + urlBase + "/order/purchase-order/" + pk)
  }

  /** `url` on the path string: the member's path, or '' for any other string. */
  function Url(path: string, pk: string, kwargs: Kwargs, urlBase: string): (r: Result<string, JsError>)
    ensures PathOf(path).None? ==> r == Ok("")
    ensures PathOf(path).Some? ==> r == UrlFor(PathOf(path).value, pk, kwargs, urlBase)
  {
    match PathOf(path)
    case None => Ok("")
    case Some(p) => UrlFor(p, pk, kwargs, urlBase)
  }

  /** The members whose path uses neither pk nor kwargs. */
  predicate IsFixedPath(p: ApiPath) {
    p in {UserMe, UserToken, UserSimpleLogin, UserReset, UserResetSet, ApprovalStart, Barcode}
  }

  /** The detail members: a fixed prefix, the pk, and a trailing '/'. */
  predicate IsDetailPath(p: ApiPath) {
    p in {PoDetail, PartDetail, SupplierPartDetail, StockItemDetail, StockLocationDetail,
          PurchaseOrderDetail, SalesOrderDetail, BuildOrderDetail}
  }

  /** The members whose path does not end with a fixed '/'. */
  predicate IsOpenEnded(p: ApiPath) {
    p in {ApprovalDetail, FrontendUser, FrontendProject, FrontendPo}
  }

  lemma FixedPathsIgnoreArguments(p: ApiPath, pk1: string, pk2: string, k1: Kwargs, k2: Kwargs, b1: string, b2: string)
    requires IsFixedPath(p)
    ensures UrlFor(p, pk1, k1, b1) == UrlFor(p, pk2, k2, b2)
  {
  }

  /** Dropping the final '/' of the pk-less path and inserting pk there gives the path
      for that pk. */
  lemma DropFinalSlash(prefix: string, pk: string)
    ensures var fixed := prefix + "" + "/"; |fixed| > 0 && fixed[..|fixed| - 1] + pk + "/" == prefix + pk + "/"
  {
    var fixed := prefix + "" + "/";
    assert fixed[..|fixed| - 1] == prefix;
  }

  /** A detail path puts pk verbatim between a prefix that does not depend on pk and a
      trailing '/'. */
  lemma {:induction false} DetailPathShape(p: ApiPath, pk: string, kwargs: Kwargs, urlBase: string)
    ensures IsDetailPath(p) ==> var fixed := UrlFor(p, "", NoKwargs, "").value;
      |fixed| > 0 && UrlFor(p, pk, kwargs, urlBase) == Ok(fixed[..|fixed| - 1] + pk + "/")
  {
    match p {
      case PoDetail => DropFinalSlash("/order/po/", pk);
      case PartDetail => DropFinalSlash("part/", pk);
      case SupplierPartDetail => DropFinalSlash("company/part/", pk);
      case StockItemDetail => DropFinalSlash("stock/", pk);
      case StockLocationDetail => DropFinalSlash("stock/location/", pk);
      case PurchaseOrderDetail => DropFinalSlash("order/po/", pk);
      case SalesOrderDetail => DropFinalSlash("order/so/", pk);
      case BuildOrderDetail => DropFinalSlash("build/", pk);
      case _ =>
    }
  }

  lemma PoDetailHasLeadingSlash(pk: string, kwargs: Kwargs, urlBase: string)
    ensures UrlFor(PoDetail, pk, kwargs, urlBase).value == "/" + UrlFor(PurchaseOrderDetail, pk, kwargs, urlBase).value
  {
  }

  lemma ApprovalDetailTypeShape(pk: string, entries: map<string, string>, urlBase: string)
    ensures "type" in entries ==>
      UrlFor(ApprovalDetailType, pk, KwargsObject(entries), urlBase) == Ok("/approval/" + entries["type"] + ":" + pk + "/")
    ensures "type" !in entries ==>
      UrlFor(ApprovalDetailType, pk, KwargsObject(entries), urlBase) == Ok("/approval/undefined:" + pk + "/")
  {
    assert "/approval/" + "undefined" + ":" + pk + "/" == "/approval/undefined:" + pk + "/";
  }

  /** The path ends with the character '/'. */
  predicate EndsWithSlash(s: string) {
    |s| > 0 && s[|s| - 1] == '/'
  }

  /** Every path except the open-ended ones ends with '/'. */
  lemma {:induction false} ClosedPathsEndWithSlash(p: ApiPath, pk: string, kwargs: Kwargs, urlBase: string)
    ensures UrlFor(p, pk, kwargs, urlBase).Ok? && !IsOpenEnded(p) ==> EndsWithSlash(UrlFor(p, pk, kwargs, urlBase).value)
  {
    var s := UrlFor(p, pk, kwargs, urlBase);
    if s.Ok? && !IsOpenEnded(p) {
      assert s.value[|s.value| - 1] == '/';
    }
  }

  lemma EndsWithPk(prefix: string, pk: string)
    ensures EndsWith(prefix + pk, pk)
  {
    assert (prefix + pk)[|prefix|..] == pk;
  }

  lemma StartsWithBase(urlBase: string, rest: string, pk: string)
    requires |rest| > 0 && rest[0] == '/'
    ensures StartsWith("/" + urlBase + rest + pk, "/" + urlBase + "/")
  {
    var s := "/" + urlBase + rest + pk;
    assert s[..|urlBase| + 2] == "/" + urlBase + "/";
  }

  /** The open-ended paths end with pk itself, and the frontend ones start with
      '/' + urlBase + '/'. */
  lemma {:induction false} OpenEndedPaths(p: ApiPath, pk: string, kwargs: Kwargs, urlBase: string)
    ensures IsOpenEnded(p) ==> EndsWith(UrlFor(p, pk, kwargs, urlBase).value, pk)
    ensures IsOpenEnded(p) && p != ApprovalDetail ==> StartsWith(UrlFor(p, pk, kwargs, urlBase).value, "/" + urlBase + "/")
  {
    match p {
      case ApprovalDetail => EndsWithPk("/approval/", pk);
      case FrontendUser =>
        EndsWithPk("/" + urlBase + "/user/", pk);
        StartsWithBase(urlBase, "/user/", pk);
      case FrontendProject =>
        EndsWithPk("/" + urlBase + "/project/", pk);
        StartsWithBase(urlBase, "/project/", pk);
      case FrontendPo =>
        EndsWithPk("/" + urlBase + "/order/purchase-order/", pk);
        StartsWithBase(urlBase, "/order/purchase-order/", pk);
      case _ =>
    }
  }

  /** The `user/me/` response fields the store reads. */
  datatype UserResponse = UserResponse(pk: int, firstName: string, lastName: string, email: string, username: string)

  /** The user record kept in the store. */
  datatype UserProps = UserProps(id: int, name: string, email: string, username: string)

  /** The record `fetchApiState` builds from the response. */
  function UserOf(response: UserResponse): (u: UserProps)
    ensures u.id == response.pk && u.email == response.email && u.username == response.username
    ensures |u.name| == |response.firstName| + 1 + |response.lastName|
    ensures u.name[..|response.firstName|] == response.firstName
    ensures u.name[|response.firstName|] == ' '
    ensures u.name[|response.firstName| + 1..] == response.lastName
  {
    UserProps(response.pk, response.firstName + " " + response.lastName, response.email, response.username)
  }

  /** When neither name part holds a space, the display name splits back into them. */
  lemma UserNameSplits(response: UserResponse)
    requires ' ' !in response.firstName && ' ' !in response.lastName
    ensures Split(UserOf(response).name, ' ') == [response.firstName, response.lastName]
  {
    var items := [response.firstName, response.lastName];
    assert Join(items, " ") == response.firstName + " " + response.lastName by {
      assert Join(items[1..], " ") == response.lastName;
    }
    SplitJoin(items, ' ');
  }

  /** The store holding the signed-in user. */
  class ApiStore {
    var user: Option<UserProps>

    constructor ()
      ensures user.None?
    {
      user := None;
    }

    /** `setUser`. */
    method SetUser(newUser: UserProps)
      modifies this
      ensures user == Some(newUser)
    {
      user := Some(newUser);
    }

    /** `fetchApiState`: a response replaces the user. A failed request changes
        nothing, and since there is no `.catch`, the promise the call returns is
        rejected (`rejected`). */
    method FetchApiState(response: Option<UserResponse>) returns (rejected: bool)
      modifies this
      ensures rejected <==> response.None?
      ensures response.Some? ==> user == Some(UserOf(response.value))
      ensures response.None? ==> user == old(user)
    {
      rejected := response.None?;
      if response.Some? {
        user := Some(UserOf(response.value));
      }
    }
  }

  /** The server description: the fields of the API root response. */
  datatype ServerInfo = ServerInfo(fields: map<string, string>)

  /** The store holding the server description; it starts from the empty description. */
  class ServerApiStore {
    var server: ServerInfo

    constructor (emptyServer: ServerInfo)
      ensures server == emptyServer
    {
      server := emptyServer;
    }

    /** `setServer`. */
    method SetServer(newServer: ServerInfo)
      modifies this
      ensures server == newServer
    {
      server := newServer;
    }

    /** `fetchServerApiState`: the response data replaces the description. A failed
        request changes nothing, and since there is no `.catch`, the promise the call
        returns is rejected (`rejected`). */
    method FetchServerApiState(response: Option<ServerInfo>) returns (rejected: bool)
      modifies this
      ensures rejected <==> response.None?
      ensures response.Some? ==> server == response.value
      ensures response.None? ==> server == old(server)
    {
      rejected := response.None?;
      if response.Some? {
        server := response.value;
      }
    }
  }
}
