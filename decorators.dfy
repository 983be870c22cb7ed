/** The `obj_permission_required` view decorator of
    djangoerp/core/decorators.py: the wrapped view runs when the user has the
    permission on the object or at class level, and otherwise the user is
    sent to the login page with a "next" path. */
module Decorators {
  import opened Wrappers
  import opened PermFuncs

  /** The decorator's `perm`: a permission name, or a callable computing it
      from the view's arguments `A`. */
  datatype PermSpec<!A> = Fixed(name: string) | Computed(compute: A -> string)

  /** The decorator's `get_obj_func`: absent, or a callable returning the
      primary key of the object, if any, from the view's arguments. */
  type ObjectGetter<!A> = Option<A -> Option<nat>>

  /** What the wrapped view does: call the view, or redirect to the login page
      with `next` as the path to come back to. `loginUrl` is the decorator's
      own argument, passed on unchanged. */
  datatype Response = ViewRan | LoginRedirect(next: string, loginUrl: Option<string>, fieldName: string)

  /** The request as the decorator sees it: the permission answers of
      `request.user.has_perm`, `build_absolute_uri()` and `get_full_path()`. */
  datatype Request = Request(hasPerm: (string, Option<nat>) -> bool, absoluteUri: string, fullPath: string)

  /** `perm_name` */
  function PermName<A>(perm: PermSpec<A>, args: A): string {
    match perm
    case Fixed(name) => name
    case Computed(compute) => compute(args)
  }

  /** `obj` */
  function ObjectOf<A>(getObj: ObjectGetter<A>, args: A): (obj: Option<nat>)
    ensures getObj.None? ==> obj.None?
  {
    if getObj.Some? then getObj.value(args) else None
  }

  /** Python's `login_url or settings.LOGIN_URL`: a missing or empty login
      URL falls back to the setting. */
  function EffectiveLoginUrl(loginUrl: Option<string>, settingsLoginUrl: string): (url: string)
    ensures loginUrl.Some? && loginUrl.value != "" ==> url == loginUrl.value
    ensures loginUrl.None? || loginUrl == Some("") ==> url == settingsLoginUrl
  {
    if loginUrl.Some? && loginUrl.value != "" then loginUrl.value else settingsLoginUrl
  }

  /** The login URL is on the current site: its scheme and its network
      location are each empty or equal to the current ones. `parse` gives
      the first two parts of `urlparse`. */
  predicate SameSite(parse: string -> (string, string), loginUrl: string, path: string) {
    var (loginScheme, loginNetloc) := parse(loginUrl);
    var (currentScheme, currentNetloc) := parse(path);
    (loginScheme == "" || loginScheme == currentScheme) && (loginNetloc == "" || loginNetloc == currentNetloc)
  }

  /** `_wrapped_view(request, *args, **kwargs)` */
  function WrappedView<A>(perm: PermSpec<A>, getObj: ObjectGetter<A>, loginUrl: Option<string>, fieldName: string,
                          settingsLoginUrl: string, parse: string -> (string, string), request: Request, args: A): (r: Response)
    ensures var name := PermName(perm, args);
            r.ViewRan? <==> request.hasPerm(name, ObjectOf(getObj, args)) || request.hasPerm(name, None)
    ensures r.LoginRedirect? ==> r.loginUrl == loginUrl && r.fieldName == fieldName
    ensures r.LoginRedirect? && SameSite(parse, EffectiveLoginUrl(loginUrl, settingsLoginUrl), request.absoluteUri)
            ==> r.next == request.fullPath
    ensures r.LoginRedirect? && !SameSite(parse, EffectiveLoginUrl(loginUrl, settingsLoginUrl), request.absoluteUri)
            ==> r.next == request.absoluteUri
  {
    var name := PermName(perm, args);
    var obj := ObjectOf(getObj, args);
    if request.hasPerm(name, obj) then ViewRan
    else if request.hasPerm(name, None) then ViewRan
    else
      var path := request.absoluteUri;
      var next := if SameSite(parse, EffectiveLoginUrl(loginUrl, settingsLoginUrl), path) then request.fullPath else path;
      LoginRedirect(next, loginUrl, fieldName)
  }

  /** Django's `User.has_perm(perm, obj)` over the installed backends: an
      active superuser always has it; otherwise some backend with `has_perm`
      must say yes to exactly that question. */
  predicate UserHasPermVia(backends: seq<Backend>, isSuperuser: bool, isActive: bool, perm: string, obj: Option<nat>) {
    (isActive && isSuperuser) || exists j :: 0 <= j < |backends| && backends[j].HasPermFn? && backends[j].answer(perm, obj)
  }

  /** For a user who is not a superuser, the decorator lets the view run
      exactly when the `user_has_perm` filter, asked about the same
      permission and object, says yes. */
  lemma {:induction false} DecoratorAgreesWithFilter<A>(perm: PermSpec<A>, getObj: ObjectGetter<A>, loginUrl: Option<string>, fieldName: string,
                                                        settingsLoginUrl: string, parse: string -> (string, string), request: Request, args: A,
                                                        backends: seq<Backend>, isActive: bool)
    requires forall p, o :: request.hasPerm(p, o) == UserHasPermVia(backends, false, isActive, p, o)
    ensures var name := PermName(perm, args);
            WrappedView(perm, getObj, loginUrl, fieldName, settingsLoginUrl, parse, request, args).ViewRan?
            <==> Scan(backends, name, ObjectOf(getObj, args), 0).granted
  {
    var name := PermName(perm, args);
    var obj := ObjectOf(getObj, args);
    ScanGrantsIff(backends, name, obj, 0);
    assert request.hasPerm(name, obj) == UserHasPermVia(backends, false, isActive, name, obj);
    assert request.hasPerm(name, None) == UserHasPermVia(backends, false, isActive, name, None);
    if Scan(backends, name, obj, 0).granted {
      var j :| 0 <= j < |backends| && Grants(backends[j], name, obj);
      if backends[j].answer(name, None) {
        assert request.hasPerm(name, None);
      } else {
        assert request.hasPerm(name, obj);
      }
    }
  }
}
