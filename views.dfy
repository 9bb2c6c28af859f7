/** The server-side view rules: the role and permission check shared by the views, the
    permission class inferred from a view's type, the JSON response of the AJAX views
    and the password change view. The user's roles, the rule sets, the table permission
    check and the password validators are given as parameters. */
module Views {
  import opened Wrappers
  import opened Strings

  /** The `role_required` attribute: a string, a list or tuple of strings, or anything
      else (None included). */
  datatype RoleRequired = RoleString(s: string) | RoleSequence(items: seq<string>) | RoleOther

  /** The roles to check, in order. */
  function RolesRequired(r: RoleRequired): (roles: seq<string>)
    ensures r.RoleString? ==> roles == [r.s]
    ensures r.RoleSequence? ==> roles == r.items
    ensures r.RoleOther? ==> roles == []
  {
    match r
    case RoleString(s) => [s]
    case RoleSequence(items) => items
    case RoleOther => []
  }

  /** What the permission check needs to know about the request's user and the rule
      sets. Both checks are `check_user_role` and `RuleSet.check_table_permission`
      with that user already supplied: one takes a role and a permission, the other
      a table and a permission. */
  datatype Authority = Authority(
    isSuperuser: bool,
    rulesetNames: set<string>,
    rulesetPermissions: set<string>,
    checkUserRole: (string, string) -> bool,
    checkTablePermission: (string, string) -> bool)

  datatype ViewError = ValueError(message: string) | AttributeError(message: string)

  /** The view classes the permission map names; `OtherView` stands for any other. */
  datatype ViewClass = AjaxView | ListView | DetailView | UpdateView | DeleteView
                     | AjaxUpdateView | AjaxCreateView | OtherView

  /** `app_label` and `model_name` of a model's options. */
  datatype ModelMeta = ModelMeta(appLabel: string, modelName: string)

  /** The attributes of a view the checks read. `ancestors` holds every class the view's
      type is a subclass of; `queryset` is the model of the view's queryset, if it has
      one. */
  datatype View = View(
    name: string,
    roleRequired: RoleRequired,
    permissionRequired: Option<string>,
    permissionClass: Option<string>,
    model: Option<ModelMeta>,
    queryset: Option<ModelMeta>,
    ancestors: set<ViewClass>)

  /** The map from view class to permission class, in its order. */
  const PermissionMap: seq<(ViewClass, string)> := [
    (AjaxView, "view"), (ListView, "view"), (DetailView, "view"), (UpdateView, "change"),
    (DeleteView, "delete"), (AjaxUpdateView, "change"), (AjaxCreateView, "add")]

  /** The entry of the first class in `entries` that the view is an instance of. */
  function FirstEntry(entries: seq<(ViewClass, string)>, ancestors: set<ViewClass>): (r: Option<string>)
    ensures r.None? <==> forall i :: 0 <= i < |entries| ==> entries[i].0 !in ancestors
    ensures r.Some? ==> exists i :: (0 <= i < |entries| && entries[i].0 in ancestors && entries[i].1 == r.value &&
      forall j :: 0 <= j < i ==> entries[j].0 !in ancestors)
    decreases |entries|
  {
    if entries == [] then None
    else if entries[0].0 in ancestors then Some(entries[0].1)
    else
      var rest := FirstEntry(entries[1..], ancestors);
      assert forall i :: 0 < i < |entries| ==> entries[i] == entries[1..][i - 1];
      if rest.Some? then
        assert exists i :: (0 <= i < |entries| && entries[i].0 in ancestors && entries[i].1 == rest.value &&
          forall j :: 0 <= j < i ==> entries[j].0 !in ancestors) by {
          var k :| 0 <= k < |entries[1..]| && entries[1..][k].0 in ancestors && entries[1..][k].1 == rest.value &&
            forall j :: 0 <= j < k ==> entries[1..][j].0 !in ancestors;
          assert entries[k + 1] == entries[1..][k];
          forall j | 0 <= j < k + 1 ensures entries[j].0 !in ancestors {
            if j > 0 {
              assert entries[j] == entries[1..][j - 1];
            }
          }
        }
        rest
      else rest
  }

  /** Python truthiness of an optional string. */
  predicate Truthy(s: Option<string>) {
    s.Some? && s.value != ""
  }

  /** `get_permission_class`: an explicit permission class, else the map's entry for
      the first class the view is an instance of, else none. */
  function GetPermissionClass(view: View): (r: Option<string>)
    ensures Truthy(view.permissionClass) ==> r == view.permissionClass
    ensures !Truthy(view.permissionClass) ==> r == FirstEntry(PermissionMap, view.ancestors)
  {
    if Truthy(view.permissionClass) then view.permissionClass
    else FirstEntry(PermissionMap, view.ancestors)
  }

  /** A requirement that splits as 'role.permission' into a known role and a known
      permission. */
  predicate RoleValid(required: string, auth: Authority) {
    var parts := Split(required, '.');
    |parts| == 2 && parts[0] in auth.rulesetNames && parts[1] in auth.rulesetPermissions
  }

  /** The user holds the role's permission. */
  predicate RoleHeld(required: string, auth: Authority)
    requires RoleValid(required, auth)
  {
    var parts := Split(required, '.');
    auth.checkUserRole(parts[0], parts[1])
  }

  /** The loop over the required roles: the first malformed or unknown requirement
      raises ValueError, the first role the user lacks gives False, and True when every
      role passes. */
  function CheckRoles(roles: seq<string>, auth: Authority): (r: Result<bool, ViewError>)
    ensures r == Ok(true) <==> forall i :: 0 <= i < |roles| ==> RoleValid(roles[i], auth) && RoleHeld(roles[i], auth)
    ensures r.Err? ==> r.error.ValueError? && exists i :: 0 <= i < |roles| && !RoleValid(roles[i], auth)
    decreases |roles|
  {
    if roles == [] then Ok(true)
    else
      var parts := Split(roles[0], '.');
      if |parts| != 2 then Err(ValueError("not enough or too many values to unpack"))
      else if parts[0] !in auth.rulesetNames then Err(ValueError("Role '" + parts[0] + "' is not a valid role"))
      else if parts[1] !in auth.rulesetPermissions then Err(ValueError("Permission '" + parts[1] + "' is not a valid permission"))
      else if !auth.checkUserRole(parts[0], parts[1]) then Ok(false)
      else
        var rest := CheckRoles(roles[1..], auth);
        assert forall i :: 0 < i < |roles| ==> roles[i] == roles[1..][i - 1];
        rest
  }

  /** The model the view introspects: its `model`, else its queryset's model. */
  function ModelOf(view: View): Option<ModelMeta> {
    if view.model.Some? then view.model else view.queryset
  }

  /** `has_permission`. `baseCheck` is the result of the default permission check that
      `permission_required` defers to. */
  function HasPermission(view: View, auth: Authority, baseCheck: bool): (r: Result<bool, ViewError>)
    ensures auth.isSuperuser ==> r == Ok(true)
    ensures !auth.isSuperuser && CheckRoles(RolesRequired(view.roleRequired), auth) != Ok(true) ==>
      r == CheckRoles(RolesRequired(view.roleRequired), auth)
    ensures !auth.isSuperuser && r == Ok(true) ==>
      forall i :: 0 <= i < |RolesRequired(view.roleRequired)| ==>
        RoleValid(RolesRequired(view.roleRequired)[i], auth) && RoleHeld(RolesRequired(view.roleRequired)[i], auth)
    ensures r.Err? && r.error.AttributeError? ==> ModelOf(view).Some? && GetPermissionClass(view).None?
  {
    if auth.isSuperuser then Ok(true)
    else
      var roles := CheckRoles(RolesRequired(view.roleRequired), auth);
      if roles != Ok(true) then roles
      else if Truthy(view.permissionRequired) then Ok(baseCheck)
      else match ModelOf(view)
        case None => Ok(true)
        case Some(m) =>
          var table := m.appLabel + "_" + m.modelName;
          match GetPermissionClass(view)
          case None => Err(AttributeError("permission_class not defined for " + view.name))
          case Some(permission) => Ok(auth.checkTablePermission(table, permission))
  }

  /** After the roles pass, the first applicable branch decides. */
  lemma AfterRolesPass(view: View, auth: Authority, baseCheck: bool)
    requires !auth.isSuperuser && CheckRoles(RolesRequired(view.roleRequired), auth) == Ok(true)
    ensures Truthy(view.permissionRequired) ==> HasPermission(view, auth, baseCheck) == Ok(baseCheck)
    ensures !Truthy(view.permissionRequired) && ModelOf(view).None? ==> HasPermission(view, auth, baseCheck) == Ok(true)
    ensures !Truthy(view.permissionRequired) && ModelOf(view).Some? && GetPermissionClass(view).Some? ==>
      HasPermission(view, auth, baseCheck) ==
        Ok(auth.checkTablePermission(ModelOf(view).value.appLabel + "_" + ModelOf(view).value.modelName,
                                GetPermissionClass(view).value))
    ensures !Truthy(view.permissionRequired) && ModelOf(view).Some? && GetPermissionClass(view).None? ==>
      HasPermission(view, auth, baseCheck).Err? && HasPermission(view, auth, baseCheck).error.AttributeError?
  {
  }

  /** The superuser passes before any requirement is parsed: even a malformed one. */
  lemma SuperuserSkipsParsing(view: View, auth: Authority, baseCheck: bool)
    requires auth.isSuperuser
    requires exists i :: 0 <= i < |RolesRequired(view.roleRequired)| && !RoleValid(RolesRequired(view.roleRequired)[i], auth)
    ensures HasPermission(view, auth, baseCheck) == Ok(true)
    ensures CheckRoles(RolesRequired(view.roleRequired), auth) != Ok(true)
  {
  }

  /** A role missing before any malformed requirement gives False, not an error. */
  lemma {:induction false} FirstFailingRoleDecides(roles: seq<string>, auth: Authority, k: nat)
    requires k < |roles|
    requires forall j :: 0 <= j < k ==> RoleValid(roles[j], auth) && RoleHeld(roles[j], auth)
    requires RoleValid(roles[k], auth) && !RoleHeld(roles[k], auth)
    ensures CheckRoles(roles, auth) == Ok(false)
    decreases k
  {
    if k > 0 {
      assert forall j :: 0 <= j < k - 1 ==> roles[1..][j] == roles[j + 1];
      FirstFailingRoleDecides(roles[1..], auth, k - 1);
    }
  }

  /** The permission class of the views defined alongside these rules. */
  lemma InferredPermissionClasses(view: View)
    requires !Truthy(view.permissionClass)
    ensures view.ancestors == {AjaxUpdateView, UpdateView} ==> GetPermissionClass(view) == Some("change")
    ensures view.ancestors == {AjaxCreateView} ==> GetPermissionClass(view) == Some("add")
    ensures view.ancestors == {AjaxView} ==> GetPermissionClass(view) == Some("view")
  {
    if view.ancestors == {AjaxUpdateView, UpdateView} {
      // the three "view" classes come first and are not ancestors; UpdateView is next
      assert FirstEntry(PermissionMap[3..], view.ancestors) == Some("change");
      FirstEntrySkips(PermissionMap, 3, view.ancestors);
    } else if view.ancestors == {AjaxCreateView} {
      assert FirstEntry(PermissionMap[6..], view.ancestors) == Some("add");
      FirstEntrySkips(PermissionMap, 6, view.ancestors);
    }
  }

  /** Entries before `k` whose classes the view does not derive from are passed over. */
  lemma {:induction false} FirstEntrySkips(entries: seq<(ViewClass, string)>, k: nat,
                                           ancestors: set<ViewClass>)
    requires k <= |entries|
    requires forall j :: 0 <= j < k ==> entries[j].0 !in ancestors
    ensures FirstEntry(entries, ancestors) == FirstEntry(entries[k..], ancestors)
    decreases k
  {
    if k > 0 {
      FirstEntrySkips(entries[1..], k - 1, ancestors);
      assert entries[1..][k - 1..] == entries[k..];
    }
  }

  /** A view that derives from none of the mapped classes gets no permission class. */
  lemma {:induction false} UnmappedViewHasNoClass(view: View)
    requires !Truthy(view.permissionClass)
    requires forall c :: c in view.ancestors ==> c == OtherView
    ensures GetPermissionClass(view).None?
  {
    forall i | 0 <= i < |PermissionMap| ensures PermissionMap[i].0 != OtherView {
      assert i in {0, 1, 2, 3, 4, 5, 6};
    }
  }

  /** A JSON value of a response. */
  datatype Json = JBool(b: bool) | JString(s: string) | JInt(i: int)

  datatype Response = Redirect(location: string) | JsonResponse(data: map<string, Json>)

  /** `renderJsonResponse`: a request that is not AJAX is redirected to '/'; otherwise
      the data (empty when none is given) gains 'title' and 'html_form', and the
      entries of `get_data()` overwrite keys of the same name. */
  function RenderJsonResponse(isAjax: bool, data: Option<map<string, Json>>, title: string,
                              htmlForm: string, extra: map<string, Json>): (r: Response)
    ensures !isAjax <==> r == Redirect("/")
    ensures isAjax ==> r.JsonResponse?
    ensures isAjax ==> forall k :: k in extra ==> k in r.data && r.data[k] == extra[k]
    ensures isAjax && "title" !in extra ==> "title" in r.data && r.data["title"] == JString(title)
    ensures isAjax && "html_form" !in extra ==> "html_form" in r.data && r.data["html_form"] == JString(htmlForm)
    ensures isAjax && data.Some? ==> forall k :: k in data.value && k !in extra && k != "title" && k != "html_form" ==>
      k in r.data && r.data[k] == data.value[k]
    ensures isAjax ==> forall k :: k in r.data ==> k in extra || k == "title" || k == "html_form" || (data.Some? && k in data.value)
  {
    if !isAjax then Redirect("/")
    else
      var base := if data.Some? then data.value else map[];
      JsonResponse(base["title" := JString(title)]["html_form" := JString(htmlForm)] + extra)
  }

  /** The error messages the password view adds. */
  const MismatchMessage: string := "Password fields must match"
  const WrongPasswordMessage: string := "Wrong password provided"

  /** The state the password view changes: the errors added to its form, in order, and
      the user's password. */
  class SetPasswordView {
    var formErrors: seq<(string, string)>
    var password: string
    var saved: bool

    constructor (password: string)
      ensures formErrors == [] && this.password == password && !saved
    {
      formErrors := [];
      this.password := password;
      saved := false;
    }

    /** `post`: form validity, matching passwords, the old password and the password
        validators are checked in that order, each only when all before it passed; the
        password is set and saved only when all pass, and the response carries the
        final flag as 'form_valid'. `validatePassword` gives the validation error's
        text, or none. */
    method Post(formValid: bool, post: map<string, string>, checkPassword: string -> bool,
                validatePassword: string -> Option<string>, isAjax: bool, htmlForm: string)
      returns (response: Response, valid: bool)
      modifies this
      ensures var p1 := if "enter_password" in post then post["enter_password"] else "";
        var p2 := if "confirm_password" in post then post["confirm_password"] else "";
        var old_ := if "old_password" in post then post["old_password"] else "";
        && (valid <==> formValid && p1 == p2 && checkPassword(old_) && validatePassword(p1).None?)
        && (valid ==> password == p1 && saved && formErrors == old(formErrors))
        && (!valid ==> password == old(password) && saved == old(saved))
        && (formValid && p1 != p2 ==>
              formErrors == old(formErrors) + [("enter_password", MismatchMessage), ("confirm_password", MismatchMessage)])
        && (formValid && p1 == p2 && !checkPassword(old_) ==>
              formErrors == old(formErrors) + [("old_password", WrongPasswordMessage)])
        && (formValid && p1 == p2 && checkPassword(old_) && validatePassword(p1).Some? ==>
              formErrors == old(formErrors) + [("confirm_password", validatePassword(p1).value)])
        && (!formValid ==> formErrors == old(formErrors))
      ensures response == RenderJsonResponse(isAjax, Some(map["form_valid" := JBool(valid)]), "Set Password", htmlForm, map[])
    {
      valid := formValid;
      var p1 := if "enter_password" in post then post["enter_password"] else "";
      var p2 := if "confirm_password" in post then post["confirm_password"] else "";
      var oldPassword := if "old_password" in post then post["old_password"] else "";
      if valid {
        if p1 != p2 {
          formErrors := formErrors + [("enter_password", MismatchMessage)];
          formErrors := formErrors + [("confirm_password", MismatchMessage)];
          valid := false;
        }
      }
      if valid {
        if !checkPassword(oldPassword) {
          formErrors := formErrors + [("old_password", WrongPasswordMessage)];
          valid := false;
        }
      }
      if valid {
        match validatePassword(p1) {
          case None =>
            password := p1;
            saved := true;
          case Some(error) =>
            formErrors := formErrors + [("confirm_password", error)];
            valid := false;
        }
      }
      response := RenderJsonResponse(isAjax, Some(map["form_valid" := JBool(valid)]), "Set Password", htmlForm, map[]);
    }
  }

  /** The password view's AJAX response reports exactly the flag, the title and the
      rendered form. */
  lemma PasswordResponseKeys(valid: bool, htmlForm: string)
    ensures RenderJsonResponse(true, Some(map["form_valid" := JBool(valid)]), "Set Password", htmlForm, map[]).data ==
      map["form_valid" := JBool(valid), "title" := JString("Set Password"), "html_form" := JString(htmlForm)]
  {
  }
}
