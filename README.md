# Row-level permissions of django-erp, in Dafny

This project models the object-permission engine of django-erp, a Django 1.5
ERP written in Python 2, together with the small rules the surrounding apps
build on it.

- **Permission identities** (`Models`, `Managers`).
  - A permission is named by its uid "<app_label>.<codename>".
  - An object permission is a permission bound to one object id, named
    "<app_label>.<codename>.<object_id>".
  - The managers decode these uids, and get or create rows in the
    permission tables. The tables are plain maps, held in place by the
    class `Store.Database`.
- **Access backend** (`Backends`). `has_perm` checks superuser, then
  inactive, then a missing object, then membership of
  "<perm uid>.<pk>" in the user's set of object-permission uids. The set
  is cached on a `User` object until the cache is cleared.
- **Permission checks in views and templates** (`PermFuncs`, `Decorators`).
  The `user_has_perm` filter ORs over the backends, asking the class-level
  question and then the object-level one. The `obj_permission_required`
  decorator makes the same decision.
- **The "who is acting" slot and the auto-grant handlers** (`UserCache`,
  `Signals`, `AuthtoolsSignals`, `MenuUtils`).
  - A singleton slot holds the current user.
  - The post-save handlers give the author view, change and delete rights
    over a new object.
  - A saved user gets the same rights over itself and joins the "users"
    group.
  - `create_bookmarks` swaps the slot and restores it.
- **Menus** (`MenuModels`, `MenuTags`): link display, link authorization,
  the `menu` tag, and the best-match URL scorer.
- **Template helpers** (`BaseFuncs`, `TagArgs`, `Breadcrumbs`).
- **Request utilities** (`Referer`, `Dependencies`).
- **List-view request parsing** (`ListViews`): list prefixes, selected
  rows, page counts and filter queries.
- **JSON key/value widget** (`JsonPairWidgets`).
- **Plugget settings form and decorator** (`PluggetForms`,
  `PluggetDecorators`).
- **Notifications** (`NotificationSignals`, `NotificationManagers`,
  `NotificationForms`): observable change tracking, generic-key filters,
  read and unread sets, recipient selection and the subscription form.
- **Account activation** (`Registration`).

Shared pieces are the string library in `Text` (Python's `split`,
`rpartition`, `replace`, `lower`, `capitalize`, `int` and `str` on
decimal digits) and the `Result`/`Option`/`Outcome` types in `Wrappers`.

Each Python exception becomes an error value of a `Result` or `Outcome`.
Database tables are maps. Objects whose attributes the source assigns in
place are classes whose methods are proved equal to a specification
function. The properties are proved about those functions.

## Model

| member | source | states |
|---|---|---|
| Models.ObjectPermissionUid | djangoerp/core/models.py:70-72 | the uid is the app label, codename and decimal object id joined by '.' |
| Models.PermissionUid | djangoerp/core/models.py:52-54 | the uid is the app label, a '.', then the codename |
| Models.LabelEndsWithObjectId | djangoerp/core/models.py:74-75 | splitting the display text at its last " \| " gives back the permission text and the object id |
| Managers.ObjectIdValue | djangoerp/core/managers.py:48 | `int()` accepts a primary key, or a token exactly when it is non-empty decimal digits; otherwise ValueError |
| Managers.PermissionNameOfSimpleCodename | djangoerp/core/managers.py:30-31 | the generated name of "<action>_<model>" is "Can <action> <verbose name>" |
| Managers.PermissionByNaturalKey | djangoerp/core/managers.py:34-36 | the lookup succeeds iff the content type and the row exist, and never creates a row |
| Managers.DecodePermissionUid | djangoerp/core/managers.py:35 | rpartition at the last '.': the app label and a codename without '.' that rejoin to the uid; a uid without '.' is all codename with an empty app label |
| Managers.PermissionByUid | djangoerp/core/managers.py:34-36 | a found permission exists, with its content type, and has the given uid when that has a '.'; failure is DoesNotExist |
| Managers.PermissionGetOrCreate | djangoerp/core/managers.py:32 | get_or_create returns the row; created iff it was absent; the tables are unchanged unless it created; a clashing name is an IntegrityError |
| Managers.PermissionUpsert | djangoerp/core/managers.py:26-32 | returns the row for (app label, lower-cased model, codename), created iff absent; an unknown model is an error; only adds rows |
| Managers.PermissionUpsertByUid | djangoerp/core/managers.py:38-40 | only adds rows; the row returned is in the tables, has the given uid when that has a '.', and is created iff it was absent |
| Managers.PermissionUidRoundTrip | djangoerp/core/managers.py:38-40 | decoding a permission uid at its last '.' recovers the app label and codename when the codename has no '.' |
| Managers.PermissionByUidFindsRow | djangoerp/core/managers.py:34-36 | looking up a permission by its own uid finds it iff it exists |
| Managers.ObjectPermissionByNaturalKeyAsWritten | djangoerp/core/managers.py:46-48 | as written, the lookup always fails: DoesNotExist iff the content type is missing, AttributeError iff it exists |
| Managers.ObjectPermissionByNaturalKey | djangoerp/core/managers.py:46-48 | the intended lookup succeeds iff the permission exists and the object id parses, and returns that object permission |
| Managers.ObjectPermissionLookupDiscrepancy | djangoerp/core/managers.py:47 | for an existing row the intended lookup finds it, and the as-written one raises AttributeError |
| Managers.ObjectPermissionUpsert | djangoerp/core/managers.py:50-52 | returns the row for the permission and the parsed id, created iff absent; a bad id is ValueError; only adds rows |
| Managers.DecodeObjectPermissionUid | djangoerp/core/managers.py:54-60 | fails with IndexError iff the uid has fewer than three '.'-separated fields |
| Managers.ObjectPermissionByUid | djangoerp/core/managers.py:54-56 | the intended lookup: IndexError iff the uid has fewer than three fields; a found row exists, with the app label and codename of the first two fields |
| Managers.ObjectPermissionUpsertByUid | djangoerp/core/managers.py:58-60 | only adds rows; fewer than three fields is IndexError and changes nothing; the row returned is in the tables, has the first two fields as app label and codename, and is created iff it was absent |
| Managers.ObjectPermissionUidRoundTrip | djangoerp/core/managers.py:58-60 | the uid of an object permission whose labels contain no '.' splits back into its three fields, and the id parses back |
| Managers.ObjectPermissionUpsertByOwnUid | djangoerp/core/managers.py:54-60 | get-or-create and get by an object permission's own uid act as the natural-key versions |
| Managers.PermissionUpsertIdempotent | djangoerp/core/managers.py:26-32 | a second call returns the same row, not created, and leaves the tables as they were |
| Managers.ObjectPermissionUpsertIdempotent | djangoerp/core/managers.py:50-52 | a second call returns the same row, not created, and leaves the tables as they were |
| Managers.ObjectPermissionUpsertStable | djangoerp/core/managers.py:50-52 | a call that succeeded once succeeds on any extension of its result, with the same row, creating nothing |
| Managers.ObjectPermissionUpsertThenLookup | djangoerp/core/managers.py:46-52 | after get-or-create succeeds, the lookup finds the row |
| Managers.UpsertByUidExample | djangoerp/core/tests/test_managers.py:34-42 | "auth.view_user.1" yields the view_user permission of auth.user bound to object 1 |
| Managers.AddGrantee | djangoerp/core/signals.py:40-42 | adding a user to a row's users changes that row's users only, and only adds |
| Managers.AddGranteePresent | djangoerp/core/signals.py:40-42 | adding a user who is already a grantee changes nothing |
| Managers.JoinGroup | djangoerp/core/signals.py:72 | joining adds exactly that group to the user's groups; other users are unaffected |
| Managers.UserPermissions | djangoerp/core/managers.py:66 | exactly the object permissions that list the user among their users |
| Managers.GroupPermissions | djangoerp/core/managers.py:62-63 | exactly the object permissions granted to one of the user's groups |
| Managers.AllPermissions | djangoerp/core/managers.py:65-66 | the permissions granted to the user directly, together with the group permissions |
| Managers.ExtendsKeepsGrants | djangoerp/core/managers.py:62-66 | tables that only gained rows and grantees keep every grant |
| Store.Database.GetOrCreatePermission | djangoerp/core/managers.py:26-32 | the new tables and the result are those of PermissionUpsert |
| Store.Database.GetOrCreateObjectPermission | djangoerp/core/managers.py:50-52 | the new tables and the result are those of ObjectPermissionUpsert |
| Store.Database.GetOrCreateObjectPermissionByUid | djangoerp/core/managers.py:58-60 | the new tables and the result are those of the by-uid get-or-create |
| Store.Database.GetOrCreateGroup | djangoerp/core/signals.py:71 | the group exists afterwards; created iff it was absent |
| Store.Database.AddUser | djangoerp/core/signals.py:40-42 | the tables change as AddGrantee says |
| Store.Database.AddMembership | djangoerp/core/signals.py:72 | the tables change as JoinGroup says |
| Backends.User.constructor | djangoerp/core/backends.py:43 | a new user carries neither cache |
| Backends.User.ClearPermCaches | djangoerp/core/backends.py:54 | deleting both cache attributes makes the next call recompute |
| Backends.Uids | djangoerp/core/backends.py:55 | the uid set has one uid for each object permission and no others |
| Backends.AllPermissionUidsAreManagerGrants | djangoerp/core/backends.py:49-57 | the uncached set is the uids of the manager's all-permissions, and contains the group set |
| Backends.FreshGrants | djangoerp/core/backends.py:54-56 | with no cache, the answer is read from the tables |
| Backends.Authenticate | djangoerp/core/backends.py:36-38 | this backend never authenticates |
| Backends.GetGroupPermissions | djangoerp/core/backends.py:40-47 | a cached set is returned unchanged; otherwise the group uids are computed and cached |
| Backends.GetAllPermissions | djangoerp/core/backends.py:49-57 | empty and nothing cached for an anonymous user; a cached set is returned as it is; otherwise the uids are computed and both caches are filled |
| Backends.HasPermDecision | djangoerp/core/backends.py:59-81 | superuser yes; inactive no; no object no; otherwise yes iff "<perm>.<pk>" is in the grants |
| Backends.HasPerm | djangoerp/core/backends.py:59-81 | the answer is HasPermDecision on the user's grants; the cache is filled only on the object path |
| Backends.UidDeterminesRow | djangoerp/core/models.py:70-72 | two object permissions with '.'-free labels and equal uids are the same row |
| Backends.HasPermIffGranted | djangoerp/core/backends.py:71-74 | for an active non-superuser with no cache, has_perm on a permission row and a pk holds iff that object permission is granted to the user or a group of theirs |
| Backends.StaleUntilCleared | djangoerp/core/backends.py:54-57 | a grant made after the set was cached is not seen until the cache is cleared, then it is |
| UserCache.LoggedInUserCache.constructor | djangoerp/core/cache.py:46 | the slot starts empty |
| UserCache.LoggedInUserCache.SetUser | djangoerp/core/cache.py:48-50 | only an authenticated request user is stored; otherwise the slot keeps its value |
| UserCache.LoggedInUserCache.Author | djangoerp/core/cache.py:52-58 | there is an author iff the slot holds a user, and it is that user's pk |
| UserCache.Singleton.Call | djangoerp/core/cache.py:26-29 | the first call creates the instance; later calls return it |
| UserCache.ConstructTwice | djangoerp/core/cache.py:20-29 | two constructions give the same instance, with no user |
| UserCache.SaveAssignRestore | djangoerp/core/cache.py:34-42 | save, assign and restore leaves the slot as it was |
| Signals.AuthorGrantOnlyAdds | djangoerp/core/signals.py:36-42 | the author grant removes no row, grantee or membership |
| Signals.AuthorGrantGrants | djangoerp/core/signals.py:36-42 | after the grant the author is a user of the view, change and delete object permissions of the instance |
| Signals.AuthorGrantConcernsInstanceOnly | djangoerp/core/signals.py:36-42 | object permissions for any other object keep their grantees |
| Signals.AuthorGrantIdempotent | djangoerp/core/signals.py:36-42 | running the grant twice leaves the tables as the first run did |
| Signals.AuthorHandlerNeedsCreation | djangoerp/core/signals.py:35 | with no current user, or on a save that did not create, nothing changes |
| Signals.AuthorCanUseCreatedObject | djangoerp/core/signals.py:27-42 | after the handler, has_perm answers yes for the author on the new object |
| Signals.UpdateAuthorPermissions | djangoerp/core/signals.py:27-42 | the database changes as the handler function says, the author read from the slot |
| Signals.GrantAuthor | djangoerp/core/signals.py:36-42 | the three get-or-creates and users.add calls have the effect of AuthorGrant |
| Signals.UserSaveGrantsSelf | djangoerp/core/signals.py:57-72 | after user_post_save the user has view, change and delete rights over itself and is in "users" |
| Signals.UserSaveIdempotent | djangoerp/core/signals.py:57-72 | saving a user twice leaves the tables as the first save did |
| Signals.UserSaveOnSavedUser | djangoerp/core/signals.py:57-72 | on tables where the grant and the membership are in place, the handler changes nothing |
| Signals.EnrollExtends | djangoerp/core/signals.py:71-72 | enrolling only adds, and makes the user a member of "users" |
| Signals.EnrollStable | djangoerp/core/signals.py:71-72 | enrolling a member again changes nothing |
| Signals.GrantStable | djangoerp/core/signals.py:36-42 | a completed grant rerun on tables that extend its result changes nothing |
| Signals.UserPostSave | djangoerp/core/signals.py:57-72 | the database changes as UserSaveEffect says |
| Signals.ViewPermissionEffect | djangoerp/core/signals.py:74-79 | the "view_<model>" row exists afterwards with name "Can view <name>"; it fails iff a row exists under another name |
| Signals.ViewPermissionIdempotent | djangoerp/core/signals.py:74-79 | saving the content type again finds the row, creates nothing |
| Signals.ViewPermissionAgreesWithManager | djangoerp/core/signals.py:79 | for a lower-case model without '_', the handler gets or creates what the manager would |
| Signals.AddViewPermission | djangoerp/core/signals.py:74-79 | the database changes as ViewPermissionEffect says |
| AuthtoolsSignals.AuthtoolsGrantsEditors | djangoerp/authtools/signals.py:35-44 | a save that did not create still grants the current user, unlike the core handler |
| AuthtoolsSignals.AuthtoolsHandlerOnlyAddsOnce | djangoerp/authtools/signals.py:35-44 | with no current user nothing changes; grantees are only added; a second run changes nothing |
| AuthtoolsSignals.HandlerOnlyAdds | djangoerp/authtools/signals.py:38-44 | the handler removes nothing |
| AuthtoolsSignals.HandlerOnce | djangoerp/authtools/signals.py:38-44 | running the handler again changes nothing |
| AuthtoolsSignals.UpdateAuthorPermissions | djangoerp/authtools/signals.py:27-44 | the database changes as the handler function says |
| PermFuncs.ScanGrantsIff | djangoerp/core/templatetags/permfuncs.py:36-43 | the filter says yes iff some backend with has_perm grants at class level or on the object |
| PermFuncs.ScanStep | djangoerp/core/templatetags/permfuncs.py:37-41 | a backend that refuses adds its two calls, or none without has_perm, and the scan goes on to the next |
| PermFuncs.ScanCallsTargets | djangoerp/core/templatetags/permfuncs.py:36-38 | calls go only to backends with has_perm, in order |
| PermFuncs.ScanCallPairs | djangoerp/core/templatetags/permfuncs.py:38-40 | each object-level call follows the class-level call to the same backend |
| PermFuncs.ScanCallsRefuse | djangoerp/core/templatetags/permfuncs.py:38-43 | every call but the last says no, and the answer is the last call's |
| PermFuncs.ScanCallAnswers | djangoerp/core/templatetags/permfuncs.py:36-43 | combines the three facts about the calls above |
| PermFuncs.UserHasPerm | djangoerp/core/templatetags/permfuncs.py:26-43 | the loop's answer and calls are those of the scan |
| PermFuncs.ScanTwo | djangoerp/core/templatetags/permfuncs.py:36-43 | with two backends the filter is the OR of theirs |
| PermFuncs.FilterWithOneObjectGrant | djangoerp/core/tests/test_templatetags.py:341-357 | with one object grant, the filter answers yes exactly for that permission, or for a class-level one |
| PermFuncs.TemplateTagScenario | djangoerp/core/tests/test_templatetags.py:341-357 | with only "view" granted on the object, view is yes, change and delete are no |
| Decorators.ObjectOf | djangoerp/core/decorators.py:38-43 | the object is None unless a getter is given |
| Decorators.EffectiveLoginUrl | djangoerp/core/decorators.py:51 | a missing or empty login URL falls back to the settings |
| Decorators.WrappedView | djangoerp/core/decorators.py:37-57 | the view runs iff has_perm holds on the object or at class level; the next path is the full path on the same site and the absolute URI otherwise |
| Decorators.DecoratorAgreesWithFilter | djangoerp/core/decorators.py:44-47 | for a non-superuser the decorator lets the view run iff the user_has_perm filter says yes |
| MenuModels.MenuLabel | djangoerp/menus/models.py:35-36 | the description, or the slug when it is missing or empty |
| MenuModels.LinkLabel | djangoerp/menus/models.py:58-59 | "<menu label> \| <title>" |
| MenuModels.AbsoluteUrl | djangoerp/menus/models.py:61-64 | "http://" is prefixed iff the URL starts with "www." |
| MenuModels.AbsoluteUrlIdempotent | djangoerp/menus/models.py:61-64 | applying it twice is applying it once |
| MenuUtils.MenuGetOrCreate | djangoerp/menus/utils.py:35 | the menu exists with that description afterwards, created iff absent; another description under the slug is an IntegrityError |
| MenuUtils.MenuGetOrCreateIdempotent | djangoerp/menus/utils.py:35 | a second identical call finds the menu and changes nothing |
| MenuUtils.UserBookmarksSlug | djangoerp/menus/utils.py:51-55 | the slug get_bookmarks_for looks up is the one create_bookmarks gives a User |
| MenuUtils.MenuStore.GetOrCreate | djangoerp/menus/utils.py:35 | the table changes as MenuGetOrCreate says |
| MenuUtils.CreateBookmarks | djangoerp/menus/utils.py:22-39 | during creation the slot holds the instance if it is a user; on success the slot is restored; on failure it keeps the swapped user |
| MenuUtils.DeleteBookmarks | djangoerp/menus/utils.py:41-49 | the bookmarks menu is gone afterwards, and a missing one raises nothing |
| MenuUtils.BookmarksFor | djangoerp/menus/utils.py:51-55 | succeeds iff the user and the menu exist, with "user_<pk>_bookmarks" |
| MenuUtils.UserOf | djangoerp/menus/utils.py:57-61 | IndexError iff the slug has no '_'; ValueError iff the second field is not a number; otherwise the user with that pk, or DoesNotExist iff there is none |
| MenuUtils.UserOfBookmarksSlug | djangoerp/menus/utils.py:57-61 | for a class name with no '_', get_user_of recovers, from the slug create_bookmarks builds, the pk from the bookmarks slug |
| MenuUtils.UserOfUnderscoredClass | djangoerp/menus/utils.py:57-61 | the bookmarks of a "Sales_Order" cannot be traced back to a user |
| MenuUtils.ModelMenuSlugsDistinct | djangoerp/menus/utils.py:63-88 | the three per-model menu slugs are pairwise different |
| MenuUtils.CreateModelMenu | djangoerp/menus/utils.py:63-88 | the table changes as MenuGetOrCreate says |
| MenuTags.RequiredPerms | djangoerp/menus/templatetags/menus.py:39 | one "<app_label>.<codename>" per required permission, in order |
| MenuTags.AuthorizedCases | djangoerp/menus/templatetags/menus.py:40-51 | staff and superusers see every link; otherwise staff-only and login-only links are hidden, and the rest need every required permission |
| MenuTags.Unquote | djangoerp/menus/templatetags/menus.py:54 | the result has no quote characters and is no longer than the input |
| MenuTags.UnquotePlain | djangoerp/menus/templatetags/menus.py:54 | a template name with no quotes is unchanged |
| MenuTags.RenderMenu | djangoerp/menus/templatetags/menus.py:30-57 | a missing or empty menu renders ""; otherwise each link is authorized by the rule and its texts rendered |
| MenuTags.RenderLink | djangoerp/menus/templatetags/menus.py:39-51 | one link after the loop body: authorized by the rule, title, URL and description rendered |
| MenuTags.ParseMenuTag | djangoerp/menus/templatetags/menus.py:80-93 | an error iff there is no slug; the default template with a slug only; otherwise the third argument |
| MenuTags.ParseMenuTagIgnoresExtra | djangoerp/menus/templatetags/menus.py:84-89 | arguments after the template do not change the node |
| MenuTags.UserBookmarksMenu | djangoerp/menus/templatetags/menus.py:101-104 | a menu is rendered iff the user has a non-zero pk, and it is that user's bookmarks menu |
| MenuTags.Score | djangoerp/menus/templatetags/menus.py:116-118 | a link scores iff its URL is a prefix of the reference URL, with the length of what is left |
| MenuTags.BestMatch | djangoerp/menus/templatetags/menus.py:112-124 | the loop with rebinding computes the recursive best match |
| MenuTags.BestFromImproves | djangoerp/menus/templatetags/menus.py:112-124 | the search never worsens the score, and a better score comes from some link of the menu or its submenus |
| MenuTags.BestFromBeatsEveryLink | djangoerp/menus/templatetags/menus.py:112-124 | the final score is no worse than that of any top-level link that matches |
| MenuTags.MatchScoreBelowRefLength | djangoerp/menus/templatetags/menus.py:112-119 | a match leaves fewer characters than the reference URL, and some link's URL leaves exactly that many |
| MenuTags.NoScoreBelowRefLength | djangoerp/menus/templatetags/menus.py:116-118 | where only empty URLs are prefixes of the reference URL, no link leaves fewer characters than it |
| MenuTags.EmptyUrlsNeverMatch | djangoerp/menus/templatetags/menus.py:112-119 | a link with an empty URL is never the match: if only empty URLs are prefixes, nothing matches |
| MenuTags.FlatMenuFirstBestWins | djangoerp/menus/templatetags/menus.py:119-122 | without submenus, ties go to the earliest link |
| MenuTags.ScoreLink | djangoerp/menus/templatetags/menus.py:106-128 | the CSS class iff the link is the best match, else "" |
| Referer.Strip | djangoerp/core/utils/__init__.py:28 | removing never lengthens the referer |
| Referer.CleanHttpReferer | djangoerp/core/utils/__init__.py:18-28 | no request gives the default; a missing host is KeyError; a missing referer is stripped from the default |
| Referer.StripPlain | djangoerp/core/utils/__init__.py:28 | a referer with no scheme and no host is returned as it is |
| Referer.StripLeadingHttp | djangoerp/core/utils/__init__.py:28 | a leading "http://" is removed |
| Referer.StripLeadingHost | djangoerp/core/utils/__init__.py:28 | a leading host is removed |
| Referer.OtherSiteReferer | djangoerp/core/tests/test_utils.py:84-88 | "http://www.test.com" on host "myhost.com" gives "www.test.com" |
| Referer.HostStrippedReferer | djangoerp/core/tests/test_utils.py:90-96 | "myhost.com/test" gives "/test" |
| Referer.BookmarkReferer | djangoerp/menus/tests.py:25-50 | "http://myhost.com/bookmarks/" gives "/bookmarks/" |
| Referer.SchemeRemovedAnywhere | djangoerp/core/utils/__init__.py:28 | a scheme in the middle is removed too |
| Dependencies.Message | djangoerp/core/utils/dependencies.py:26-27 | the message is the fixed prefix followed by the app name |
| Dependencies.MessageNamesApp | djangoerp/core/utils/dependencies.py:23-27 | two errors with the same message are for the same app |
| Dependencies.CheckDependency | djangoerp/core/utils/dependencies.py:29-33 | passes iff the app is installed, and otherwise names it |
| BaseFuncs.Truthy | djangoerp/core/templatetags/basefuncs.py:31 | keeps every non-empty argument and only those |
| BaseFuncs.JoinTruthy | djangoerp/core/templatetags/basefuncs.py:23-31 | every truthy argument occurs in the joined string |
| BaseFuncs.JoinDropsFalsy | djangoerp/core/tests/test_templatetags.py:29-33 | a falsy argument anywhere leaves the join unchanged, so join("_", "a", "b", "", "d") is that of "a", "b", "d" |
| BaseFuncs.JoinEmptyIff | djangoerp/core/templatetags/basefuncs.py:31 | the join is "" exactly when every argument is falsy |
| BaseFuncs.JoinThenSplit | djangoerp/core/templatetags/basefuncs.py:23-40 | splitting the join at a character no argument contains gives back the truthy arguments |
| BaseFuncs.SplitFilter | djangoerp/core/templatetags/basefuncs.py:35-40 | ValueError iff the separator is empty; the parts join back to the string |
| BaseFuncs.Get | djangoerp/core/templatetags/basefuncs.py:43-62 | dict: value or ""; list with int: the element (Python's negative indices) or IndexError; list with digit text: TypeError; object: attribute, called if callable, or "" |
| TagArgs.Positional | djangoerp/core/templatetags/__init__.py:29-30 | exactly the tokens without '=' |
| TagArgs.SplitKeyword | djangoerp/core/templatetags/__init__.py:27 | key, "=" and value give back the token, and the key has no '=' |
| TagArgs.KeywordsDomain | djangoerp/core/templatetags/__init__.py:25-28 | a key is bound iff some token sets it |
| TagArgs.KeywordsLastWins | djangoerp/core/templatetags/__init__.py:25-28 | the last token setting a key gives its value |
| TagArgs.SplitKeywordPair | djangoerp/core/templatetags/__init__.py:27 | "key=value" splits back into key and value when the key has no '=' |
| TagArgs.FirstEqualsOnly | djangoerp/core/templatetags/__init__.py:27 | "a=b=c" gives key "a" and value "b=c" |
| TagArgs.ParseArgsKwargs | djangoerp/core/templatetags/__init__.py:18-32 | the tag name is the first token; args and kwargs are those of the rest |
| Breadcrumbs.Request.constructor | djangoerp/core/templatetags/breadcrumbs.py:33 | a request starts with no breadcrumbs list |
| Breadcrumbs.Request.AddCrumb | djangoerp/core/templatetags/breadcrumbs.py:24-36 | appends (crumb, href), creating the list if missing; href is reversed only for a non-empty URL not starting with '/'; returns "" |
| Breadcrumbs.Request.RemoveLastCrumb | djangoerp/core/templatetags/breadcrumbs.py:39-46 | removes exactly the last crumb; no list is AttributeError, an empty one IndexError |
| Breadcrumbs.Request.RenderBreadcrumbs | djangoerp/core/templatetags/breadcrumbs.py:48-59 | the stored crumbs, or None exactly when no list was ever set (the AttributeError is caught) |
| Breadcrumbs.DropLast | djangoerp/core/templatetags/breadcrumbs.py:45 | the list less its last element, which appended gives the list back |
| Breadcrumbs.AddThenRemove | djangoerp/core/templatetags/breadcrumbs.py:35-45 | adding then removing restores the list |
| ListViews.ListPrefix | djangoerp/core/views.py:75-80 | "" for no uid, otherwise the uid followed by '_' |
| ListViews.ListPrefixInjective | djangoerp/core/views.py:75-80 | different uids give different prefixes |
| ListViews.PageKwarg | djangoerp/core/views.py:83 | the prefix followed by "page" |
| ListViews.PageKwargInjective | djangoerp/core/views.py:83 | different uids give different page parameters |
| ListViews.ModelListView.constructor | djangoerp/core/views.py:83 | before pagination the page parameter is the default "page" |
| ListViews.ModelListView.PaginateQueryset | djangoerp/core/views.py:82-84 | the page parameter becomes the list's own |
| ListViews.ModelListView.ConfirmDeleteRedirectAsWritten | djangoerp/core/views.py:142-150 | the page check reads the current page_kwarg, as ConfirmDeleteAsWritten says |
| ListViews.PrefixedPageMissed | djangoerp/core/views.py:142 | a list with a uid does not find its own "<uid>_page" parameter under the default "page" |
| ListViews.UidOf | djangoerp/core/views.py:118 | the text after the last '_', which ends the key and has no '_' |
| ListViews.TickedIff | djangoerp/core/views.py:115-118 | a uid is selected iff some ticking POST item's key ends with it |
| ListViews.CheckboxSelectsRow | djangoerp/core/views.py:117-118 | the checkbox "<prefix>select_<pk>" selects exactly pk |
| ListViews.GetSelectedUids | djangoerp/core/views.py:107-120 | the loop gives "*" for select_all, otherwise the ticked uids in order |
| ListViews.PageCount | djangoerp/core/views.py:143-147 | the ceiling of items over page size; TypeError for no page size, ZeroDivisionError for zero |
| ListViews.RequestedPage | djangoerp/core/views.py:142 | page 1 when none is given, otherwise the number the text parses to |
| ListViews.LastPage | djangoerp/core/views.py:145-148 | the page count, or 1 for an empty list |
| ListViews.RedirectAsWritten | djangoerp/core/views.py:142-150 | as written, a page given as text always redirects, and an absent page redirects iff the count is 0 |
| ListViews.RedirectTarget | djangoerp/core/views.py:142-150 | redirects iff the requested page lies past the last page, to the last page |
| ListViews.RedirectTargetStable | djangoerp/core/views.py:142-150 | an existing page is never redirected, and the target is not redirected again |
| ListViews.TextPageAlwaysRedirects | djangoerp/core/views.py:142-148 | as written, page "1" of a two-page list goes to page 2 |
| ListViews.EmptiedListGoesToPageZero | djangoerp/core/views.py:145-150 | as written, emptying a list redirects to page 0 |
| ListViews.ConfirmDeleteAsWritten | djangoerp/core/views.py:142-150 | any page given under the key redirects, to the page count |
| ListViews.ConfirmDeleteRedirect | djangoerp/core/views.py:142-150 | the intended check uses the list's own parameter and redirects iff the page is past the last |
| ListViews.FilterNameOfKey | djangoerp/core/views.py:217 | removing the prefix from "<prefix>filter_by_<name>" gives the name |
| ListViews.FilterQueryFromGetIff | djangoerp/core/views.py:211-219 | a field is filtered iff some item with a non-empty value names it, and the last such value wins |
| ListViews.GetFilterQueryFromGet | djangoerp/core/views.py:211-219 | the loop builds FilterQueryFromGet |
| ListViews.FilterArg | djangoerp/core/views.py:204-207 | the field, with "__<expr>" appended iff a non-empty expression is posted |
| ListViews.FilterQueryFromPostKeepsAll | djangoerp/core/views.py:201-208 | every posted filter is kept, even with an empty value |
| ListViews.GetFilterQueryFromPost | djangoerp/core/views.py:196-209 | the loop builds FilterQueryFromPost |
| ListViews.FilterKwargs | djangoerp/core/views.py:188-192 | every filter appears under "<prefix>filter_by_" with its value, or None on reset, and nothing else |
| ListViews.FilterPost | djangoerp/core/views.py:184-194 | the redirect arguments are FilterKwargs of the posted query |
| ListViews.FilterRoundTrip | djangoerp/core/views.py:184-219 | a filter posted by the form comes back from the redirect's GET |
| ListViews.FilterEntries | djangoerp/core/views.py:181 | empty iff there are no filters |
| ListViews.ListFilterBy | djangoerp/core/views.py:181 | None iff there are no filters |
| ListViews.FilterEntryOfLookup | djangoerp/core/views.py:181 | "<field>__<op>" is shown under the field with its operator; a key without "__" under itself |
| JsonPairWidgets.WithClass | djangoerp/core/forms/widgets.py:41-46 | the class becomes "<marker> <existing>", "" when missing; other attributes are kept |
| JsonPairWidgets.JsonPairWidget.constructor | djangoerp/core/forms/widgets.py:34-47 | the key and value attributes get "json-key" and "json-val" classes |
| JsonPairWidgets.JsonPairWidget.Render | djangoerp/core/forms/widgets.py:50-61 | one row per decoded item in order, then one empty row; undecodable gives only the empty row; a non-dict is AttributeError |
| JsonPairWidgets.PairsDomain | djangoerp/core/forms/widgets.py:79-81 | a key is in the dictionary iff it is non-empty and among the paired keys |
| JsonPairWidgets.PairsLastWins | djangoerp/core/forms/widgets.py:79-81 | a key takes the value of its last occurrence |
| JsonPairWidgets.ValueFromDatadict | djangoerp/core/forms/widgets.py:73-83 | a dictionary iff both lists are posted, else "" |
| JsonPairWidgets.CollectPairs | djangoerp/core/forms/widgets.py:73-83 | the loop builds ValueFromDatadict |
| JsonPairWidgets.RenderThenSubmit | djangoerp/core/forms/widgets.py:50-83 | submitting the rendered rows unchanged gives the dictionary back |
| PluggetForms.SettingField | djangoerp/pluggets/forms.py:44-59 | no field iff the key is outside "context_"; IndexError iff it is "context_"; a ".pk" key gives a choice field for the model its rpartition names, DoesNotExist iff no such model; a choice field is required iff '!' follows the prefix; any other key gives a required char field of length 200 labelled with the capitalised rest |
| PluggetForms.ModelSettingKey | djangoerp/pluggets/forms.py:46-56 | "context_[!]<app>.<model>.pk" gives a choice field for that model |
| PluggetForms.PlainSettingKey | djangoerp/pluggets/forms.py:58-59 | "context_<name>" gives a required char field labelled with the capitalised name |
| PluggetForms.MarkedPlainSettingKey | djangoerp/pluggets/forms.py:47-59 | "context_!<name>" that is not a model key gives the same required char field, its label keeping the '!' |
| PluggetForms.AddedUnderContextKeys | djangoerp/pluggets/forms.py:44-59 | fields are stored under their own "context_" keys, and every such key gets one |
| PluggetForms.KeptAfter | djangoerp/pluggets/forms.py:44-59 | a field present before stays present |
| PluggetForms.SettingsForm.constructor | djangoerp/pluggets/forms.py:40 | the form starts with the required title field of length 100 |
| PluggetForms.SettingsForm.AddFields | djangoerp/pluggets/forms.py:44-59 | the loop's fields and error are those of AddSettingFields |
| PluggetDecorators.WrappedView | djangoerp/pluggets/decorators.py:32-40 | no getter runs the view; a plugget runs it iff its source is registered; another object iff it is falsy; a redirect goes to redirect_to |
| PluggetDecorators.MoreSourcesMoreEditable | djangoerp/pluggets/decorators.py:36-40 | registering more sources never turns a run into a redirect |
| NotificationSignals.ChangedIff | djangoerp/notifications/signals.py:56-59 | a field is reported iff its value changed, with its (old, new) pair |
| NotificationSignals.ChangedMissing | djangoerp/notifications/signals.py:56-59 | a field that was not recorded is not reported |
| NotificationSignals.ResubscribeCallsIff | djangoerp/notifications/signals.py:57-62 | each call is an unfollow of an old or a follow of a new changed subscriber value, and every such pair is made |
| NotificationSignals.ResubscribeCallSource | djangoerp/notifications/signals.py:57-62 | each call comes from a changed subscriber field |
| NotificationSignals.ResubscribeCallMade | djangoerp/notifications/signals.py:57-62 | each changed subscriber field unfollows its old value and follows its new one |
| NotificationSignals.CreationCalls | djangoerp/notifications/signals.py:48-53 | the instance first follows itself |
| NotificationSignals.FieldFollows | djangoerp/notifications/signals.py:50-53 | follows exactly the values of the subscriber fields present |
| NotificationSignals.Observed.NotifyChanges | djangoerp/notifications/signals.py:41-65 | creation follows; an update resubscribes, resets the changes and sends them iff there are any |
| NotificationSignals.Observed.CacheFollowers | djangoerp/notifications/signals.py:32-39 | the cache holds the current followers |
| NotificationManagers.RewriteInstance | djangoerp/notifications/managers.py:28-31 | an instance given under a generic key becomes its pk and content type |
| NotificationManagers.RewriteKeepsOthers | djangoerp/notifications/managers.py:27-33 | other keywords pass through unchanged |
| NotificationManagers.Filter | djangoerp/notifications/managers.py:24-33 | the loop computes Rewrite |
| NotificationManagers.Members | djangoerp/notifications/managers.py:40-47 | read, unread and for_object hold exactly the matching notifications |
| NotificationManagers.ReadUnreadPartition | djangoerp/notifications/managers.py:40-44 | read and unread together are every notification, each once |
| NotificationManagers.ReadForObjectCommutes | djangoerp/notifications/managers.py:46-53 | read_for_object and unread_for_object are for_object narrowed in either order |
| NotificationManagers.NotifiedKeysIff | djangoerp/notifications/managers.py:77-86 | a notification exists for a follower iff it is the source or a subscriber, with the activity's fields |
| NotificationManagers.ActivityStore.NotifyFollowers | djangoerp/notifications/managers.py:69-86 | the signature is added; no source is AttributeError; otherwise the notified followers' notifications are added |
| NotificationForms.Decompress | djangoerp/notifications/forms.py:34-37 | an empty value gives (False, False), otherwise its values |
| NotificationForms.Compress | djangoerp/notifications/forms.py:57-60 | the first two items iff there are at least two |
| NotificationForms.CompressDecompress | djangoerp/notifications/forms.py:34-60 | compress after decompress gives the value's two flags, or (False, False) for none |
| NotificationForms.FieldInitials | djangoerp/notifications/forms.py:47-54 | the default initial is (False, False) |
| NotificationForms.SaveStep | djangoerp/notifications/forms.py:82-91 | an unknown signature is DoesNotExist |
| NotificationForms.SaveAllFrame | djangoerp/notifications/forms.py:79-91 | rows of other subscribers or other signatures are untouched |
| NotificationForms.SaveEffect | djangoerp/notifications/forms.py:79-91 | subscribing sets the row with the email flag and address; not subscribing deletes it and resets the initial if it existed, and otherwise leaves the initial as it was |
| NotificationForms.SubscriptionsForm.Save | djangoerp/notifications/forms.py:79-91 | the loop changes the rows and initials as SaveAll says |
| Registration.Decide | djangoerp/registration/views.py:57-67 | already active iff active; expired iff inactive with an earlier expiration; a missing expiration activates |
| Registration.ActivatedFrame | djangoerp/registration/views.py:52-72 | only the token's account is activated and only its token spent; the store stays consistent |
| Registration.ActivateTwice | djangoerp/registration/views.py:55-72 | an activation that goes ahead cannot be repeated: the key is not found the second time |
| Registration.ActiveKeepsToken | djangoerp/registration/views.py:57-61 | an active account's token is kept and the answer does not depend on the date |
| Registration.ExpiredKeepsToken | djangoerp/registration/views.py:62-65 | an expired token is kept and the account stays inactive |
| Registration.Site.Register | djangoerp/registration/views.py:32-50 | an authenticated requester creates nothing; a valid form creates an inactive account under a new key |
| Registration.Site.Activate | djangoerp/registration/views.py:52-72 | the new accounts, tokens and response are those of Activated |
| Registration.FreshKey | djangoerp/registration/views.py:39-44 | the new primary key is unused |

## Left out

- Django's ORM, signal dispatch and `dispatch_uid` registration, `ContentType` lookups and `get_model` are not modelled. Tables are maps; content types are a given set; a model's verbose name is a parameter.
- Other backends' `has_perm`, Django's `User.has_perm` dispatch and template variable resolution are not modelled. They are given as functions (`Backend.answer`, `Request.hasPerm`).
- Template rendering is not modelled. `template.Template(...).render` is a given function, and `render_to_string` and `flatatt` are left out; rendered outputs are datatypes, not HTML.
- JSON parsing and printing (`json.loads`, `json.dumps`) are not modelled; the widget works on the decoded dictionary.
- `urlparse` is a given function from a URL to its scheme and network location.
- `reverse` for URL names is a given function, and `user_login` is a parameter.
- HTTP responses, `messages` and `redirect_to_login` are not modelled; only the chosen target or path is.
- Email sending in notifications/signals.py is not modelled. Nor is the activation-token creation done by registration/signals.py, which is not part of this model.
- notifications/models.py is not part of this model. `follow`/`unfollow` are recorded as calls, `post_change.send` is the `sent` result, and `source.followers()` is a given sequence.
- MenuTags.BestMatch: submenus form a finite tree (`MenuTree`); a menu that is its own submenu, which would make the source recurse forever, cannot be expressed.
- Python's `int()` accepts surrounding whitespace and a sign; `Text.ParseNat` accepts only decimal digits, and `str.isdigit` is modelled for ASCII digits only.
- BaseFuncs.Get: attributes of dicts and lists (such as `items`) are not looked up; a dict answers from its entries only.
- A `QueryDict` is modelled as its items in iteration order. `get` gives the last value for a key and `items()` gives one value per key, so a key with several values is seen once.
- PluggetForms.SettingField: `cleaned_k[0] is '!'` is modelled as an equality test. CPython interns one-character strings, so the two agree.
- The choices of a plugget choice field are left out, because they are the rows of a model the form queries.
- NotificationForms.Decompress: the order of the dictionary's values is taken as given; Python 2 dict order is not modelled.
- `SubscriptionsForm.__init__` computing each initial value from subscription counts is not modelled; the form is built with the initials as given. A form with no subscriber is left out.
- The activity row itself and its `get_content` are not stored; NotifyFollowers models the signature and notification tables only.
- Backends.GetGroupPermissions models the intended set of "<app_label>.<codename>.<object_id>" reachable via groups. The source at core/backends.py:45-46 unpacks three columns into two names and formats an undefined `obj_id`, so it raises whenever a group grant exists; that crash is not reproduced.
- Managers.ObjectPermissionUpsert and Managers.ObjectPermissionByNaturalKey: object permissions are a map keyed by (permission, object id), so at most one row exists per pair. djangoerp/core/models.py:56-67 declares no unique constraint on that pair, so the source can hold duplicates. The `MultipleObjectsReturned` that `get` and `get_or_create` at djangoerp/core/managers.py:48 and 52 then raise is not modelled.
- AuthtoolsSignals.UpdateAuthorPermissions: the `print` of the author and the instance at djangoerp/authtools/signals.py:36 is not modelled; printing and logging leave the tables unchanged.
- PermFuncs.UserHasPerm: each backend's answers are taken for a user held in the current-user slot. When the slot is empty, as for an anonymous visitor, the source passes None to the first backend's `has_perm`, which raises AttributeError (djangoerp/core/backends.py:62 reads `is_superuser` of it). That error path is not modelled.
- Concurrency is not modelled: the current-user slot is one sequential object.
- `validate_json`, `enrich_form`, the seed-data `install` functions, menus/signals.py and the reflection-based `make_observable` helpers are outside this model.

## Findings

| source | as written | input that shows it | evidently intended | confidence | as-written member | corrected member |
|---|---|---|---|---|---|---|
| djangoerp/core/managers.py:47 | `get_by_natural_key` calls a method on a fresh `PermissionManager()` that is bound to no model, so every lookup raises: AttributeError once the content type is found, DoesNotExist before that; `get_by_uid` (managers.py:54-56) goes through it and fails the same way | any call with an existing content type, e.g. ("view_user", "auth", "user", 1) for an existing row | look the permission up through the model's own manager, then the object permission | high, not executed | Managers.ObjectPermissionByNaturalKeyAsWritten, Managers.ObjectPermissionLookupDiscrepancy | Managers.ObjectPermissionByNaturalKey |
| djangoerp/core/views.py:142-148 | `curr_page` is the GET text and is compared with the int page count; in Python 2 a str is always greater than an int | GET page "1", a list left with 2 pages: redirects to page 2 | compare the page number with the page count | high, not executed | ListViews.RedirectAsWritten, ListViews.TextPageAlwaysRedirects | ListViews.RedirectTarget, ListViews.RedirectTargetStable |
| djangoerp/core/views.py:145-150 | an emptied list has page count 0, and the default page 1 is greater, so it redirects to page 0 | no page parameter, every row deleted | stay on page 1, the only page an empty list has | high, not executed | ListViews.RedirectAsWritten, ListViews.EmptiedListGoesToPageZero | ListViews.RedirectTarget, ListViews.LastPage |
| djangoerp/core/views.py:142-149 | on a POST, `paginate_queryset` has not run, so the page is read and set under "page" rather than the list's "<uid>_page" | list uid "orders", GET orders_page=5 | read and set the list's own page parameter | medium, not executed | ListViews.ModelListView.ConfirmDeleteRedirectAsWritten, ListViews.PrefixedPageMissed | ListViews.ConfirmDeleteRedirect |
