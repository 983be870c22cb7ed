/** The permission handlers of djangoerp/core/signals.py: the author of a new
    object gets view, change and delete rights over it; a saved user gets
    those rights over itself and joins the "users" group; a saved content
    type gets a "view_<model>" permission. */
module Signals {
  import opened Wrappers
  import opened Text
  import opened Models
  import opened Managers
  import opened Store
  import opened Backends
  import opened UserCache

  /** The codename of the default permission for `action` on `model`. */
  function Codename(action: string, model: string): string {
    action + "_" + model
  }

  /** The object permission `_update_author_permissions` gets or creates for
      `action` on object `pk` of content type `ct`. */
  function AuthorRow(ct: ContentType, action: string, pk: nat): ObjectPermission {
    ObjectPermission(Permission(ContentType(ct.appLabel, Lower(ct.model)), Codename(action, ct.model)), pk)
  }

  /** Object permission `op` is granted to user `u` directly. */
  predicate GrantedTo(t: Tables, op: ObjectPermission, u: UserId) {
    op in t.objectPermissions && u in t.objectPermissions[op].users
  }

  /** The body of `_update_author_permissions` once it has decided to run:
      view, change and delete object permissions for the instance are got or
      created in that order, then the author is added to the users of each.
      A raise part-way keeps the rows created before it. */
  function AuthorGrant(t: Tables, ct: ContentType, pk: nat, author: UserId): Effect<()> {
    var view := ObjectPermissionUpsert(t, Codename("view", ct.model), ct.appLabel, ct.model, Pk(pk));
    if view.result.Err? then Effect(Err(view.result.error), view.after)
    else
      var change := ObjectPermissionUpsert(view.after, Codename("change", ct.model), ct.appLabel, ct.model, Pk(pk));
      if change.result.Err? then Effect(Err(change.result.error), change.after)
      else
        var delete := ObjectPermissionUpsert(change.after, Codename("delete", ct.model), ct.appLabel, ct.model, Pk(pk));
        if delete.result.Err? then Effect(Err(delete.result.error), delete.after)
        else
          GrowsTransitive(view.after, change.after, delete.after);
          var t1 := AddGrantee(delete.after, view.result.value.0, author);
          var t2 := AddGrantee(t1, change.result.value.0, author);
          Effect(Ok(()), AddGrantee(t2, delete.result.value.0, author))
  }

  /** The author grant only adds: no row, grantee or membership is removed. */
  lemma AuthorGrantOnlyAdds(t: Tables, ct: ContentType, pk: nat, author: UserId)
    ensures Extends(t, AuthorGrant(t, ct, pk, author).after)
  {
    var view := ObjectPermissionUpsert(t, Codename("view", ct.model), ct.appLabel, ct.model, Pk(pk));
    if view.result.Ok? {
      var change := ObjectPermissionUpsert(view.after, Codename("change", ct.model), ct.appLabel, ct.model, Pk(pk));
      GrowsTransitive(t, view.after, change.after);
      if change.result.Ok? {
        var delete := ObjectPermissionUpsert(change.after, Codename("delete", ct.model), ct.appLabel, ct.model, Pk(pk));
        GrowsTransitive(t, change.after, delete.after);
        if delete.result.Ok? {
          var t1 := AddGrantee(delete.after, view.result.value.0, author);
          var t2 := AddGrantee(t1, change.result.value.0, author);
          var t3 := AddGrantee(t2, delete.result.value.0, author);
          ExtendsTransitive(t, delete.after, t1);
          ExtendsTransitive(t, t1, t2);
          ExtendsTransitive(t, t2, t3);
        }
      }
    }
  }

  /** When the grant completes, the author is a user of the view, change and
      delete object permissions of the instance. */
  lemma AuthorGrantGrants(t: Tables, ct: ContentType, pk: nat, author: UserId)
    requires AuthorGrant(t, ct, pk, author).result.Ok?
    ensures var after := AuthorGrant(t, ct, pk, author).after;
            && GrantedTo(after, AuthorRow(ct, "view", pk), author)
            && GrantedTo(after, AuthorRow(ct, "change", pk), author)
            && GrantedTo(after, AuthorRow(ct, "delete", pk), author)
  {
    var view := ObjectPermissionUpsert(t, Codename("view", ct.model), ct.appLabel, ct.model, Pk(pk));
    var change := ObjectPermissionUpsert(view.after, Codename("change", ct.model), ct.appLabel, ct.model, Pk(pk));
    var delete := ObjectPermissionUpsert(change.after, Codename("delete", ct.model), ct.appLabel, ct.model, Pk(pk));
    var t1 := AddGrantee(delete.after, view.result.value.0, author);
    var t2 := AddGrantee(t1, change.result.value.0, author);
    var t3 := AddGrantee(t2, delete.result.value.0, author);
    assert GrantedTo(t1, view.result.value.0, author);
    assert GrantedTo(t2, change.result.value.0, author);
    assert GrantedTo(t3, delete.result.value.0, author);
    assert GrantedTo(t2, view.result.value.0, author);
    assert GrantedTo(t3, view.result.value.0, author);
    assert GrantedTo(t3, change.result.value.0, author);
  }

  /** The grant concerns the instance only: an object permission for any
      other object keeps its grantees, so the instance gets no rights over
      its author. */
  lemma AuthorGrantConcernsInstanceOnly(t: Tables, ct: ContentType, pk: nat, author: UserId, op: ObjectPermission)
    requires op in t.objectPermissions && op.objectId != pk
    ensures var after := AuthorGrant(t, ct, pk, author).after;
            op in after.objectPermissions && after.objectPermissions[op] == t.objectPermissions[op]
  {
    var view := ObjectPermissionUpsert(t, Codename("view", ct.model), ct.appLabel, ct.model, Pk(pk));
    if view.result.Ok? {
      var change := ObjectPermissionUpsert(view.after, Codename("change", ct.model), ct.appLabel, ct.model, Pk(pk));
      if change.result.Ok? {
        var delete := ObjectPermissionUpsert(change.after, Codename("delete", ct.model), ct.appLabel, ct.model, Pk(pk));
        if delete.result.Ok? {
          var t1 := AddGrantee(delete.after, view.result.value.0, author);
          var t2 := AddGrantee(t1, change.result.value.0, author);
          assert t1.objectPermissions[op] == t.objectPermissions[op];
          assert t2.objectPermissions[op] == t.objectPermissions[op];
        }
      }
    }
  }

  /** Running the grant a second time with the same author and instance
      leaves the same rows and grantee sets. */
  lemma AuthorGrantIdempotent(t: Tables, ct: ContentType, pk: nat, author: UserId)
    requires AuthorGrant(t, ct, pk, author).result.Ok?
    ensures var first := AuthorGrant(t, ct, pk, author);
            AuthorGrant(first.after, ct, pk, author) == Effect(Ok(()), first.after)
  {
    var first := AuthorGrant(t, ct, pk, author);
    GrantStable(t, first.after, first.after, ct, pk, author);
  }

  /** `_update_author_permissions(sender, instance, raw, created)`: the grant
      runs only when the slot holds a user and the instance was just created. */
  function AuthorHandler(t: Tables, author: Option<UserId>, ct: ContentType, pk: nat, created: bool): Effect<()> {
    if author.Some? && created then AuthorGrant(t, ct, pk, author.value) else Effect(Ok(()), t)
  }

  /** With no current user, or on a save that did not create the instance,
      nothing changes; so an editor who did not create it gains nothing. */
  lemma AuthorHandlerNeedsCreation(t: Tables, author: Option<UserId>, ct: ContentType, pk: nat, created: bool, u: UserId)
    requires author.None? || !created
    ensures AuthorHandler(t, author, ct, pk, created) == Effect(Ok(()), t)
    ensures AllPermissions(AuthorHandler(t, author, ct, pk, created).after, u) == AllPermissions(t, u)
  {
  }

  /** After a created instance is saved by a user, `has_perm` answers yes for
      that user, when active, for view, change and delete on the instance. */
  lemma AuthorCanUseCreatedObject(t: Tables, author: UserId, ct: ContentType, pk: nat, action: string)
    requires AuthorHandler(t, Some(author), ct, pk, true).result.Ok?
    requires action == "view" || action == "change" || action == "delete"
    ensures var after := AuthorHandler(t, Some(author), ct, pk, true).after;
            HasPermDecision(false, true, ct.appLabel + "." + Codename(action, ct.model), Some(pk), AllPermissionUids(after, author))
  {
    var after := AuthorHandler(t, Some(author), ct, pk, true).after;
    AuthorGrantGrants(t, ct, pk, author);
    var row := AuthorRow(ct, action, pk);
    assert row in UserPermissions(after, author);
    assert ObjectPermissionUid(row) in Uids(UserPermissions(after, author));
  }

  /** `_update_author_permissions` run on the database, the author read from
      the current-user slot. */
  method UpdateAuthorPermissions(db: Database, slot: LoggedInUserCache, ct: ContentType, pk: nat, created: bool)
    returns (r: Result<(), Error>)
    modifies db
    ensures var e := AuthorHandler(old(db.Snapshot()), slot.Author(), ct, pk, created);
            r == e.result && db.Snapshot() == e.after
  {
    var author := slot.CurrentUser();
    if author != null && created {
      r := GrantAuthor(db, ct, pk, author.pk);
    } else {
      r := Ok(());
    }
  }

  /** The three get-or-creates and the three `users.add` calls. */
  method GrantAuthor(db: Database, ct: ContentType, pk: nat, author: UserId) returns (r: Result<(), Error>)
    modifies db
    ensures var e := AuthorGrant(old(db.Snapshot()), ct, pk, author);
            r == e.result && db.Snapshot() == e.after
  {
    ghost var t0 := db.Snapshot();
    var view := db.GetOrCreateObjectPermission(Codename("view", ct.model), ct.appLabel, ct.model, Pk(pk));
    ghost var e1 := ObjectPermissionUpsert(t0, Codename("view", ct.model), ct.appLabel, ct.model, Pk(pk));
    if view.Err? {
      return Err(view.error);
    }
    var change := db.GetOrCreateObjectPermission(Codename("change", ct.model), ct.appLabel, ct.model, Pk(pk));
    ghost var e2 := ObjectPermissionUpsert(e1.after, Codename("change", ct.model), ct.appLabel, ct.model, Pk(pk));
    if change.Err? {
      return Err(change.error);
    }
    var delete := db.GetOrCreateObjectPermission(Codename("delete", ct.model), ct.appLabel, ct.model, Pk(pk));
    ghost var e3 := ObjectPermissionUpsert(e2.after, Codename("delete", ct.model), ct.appLabel, ct.model, Pk(pk));
    if delete.Err? {
      return Err(delete.error);
    }
    GrowsTransitive(e1.after, e2.after, e3.after);
    db.AddUser(view.value.0, author);
    db.AddUser(change.value.0, author);
    db.AddUser(delete.value.0, author);
    r := Ok(());
  }

  // ---------------------------------------------------------------------
  // user_post_save
  // ---------------------------------------------------------------------

  /** The content type of the user model. */
  const UserContentType := ContentType("auth", "user")

  /** `user_post_save`: the saved user gets view, change and delete object
      permissions over itself, then joins the group "users", which is
      created when absent. It runs on every save. */
  function UserSaveEffect(t: Tables, u: UserId): Effect<()> {
    EnrollAfterGrant(AuthorGrant(t, UserContentType, u, u), u)
  }

  /** The second half of `user_post_save`: after a successful grant, the
      user joins "users". */
  function EnrollAfterGrant(grant: Effect<()>, u: UserId): Effect<()> {
    if grant.result.Err? then grant
    else
      var withGroup := grant.after.(groups := grant.after.groups + {"users"});
      Effect(Ok(()), JoinGroup(withGroup, u, "users"))
  }

  /** After `user_post_save` completes, the user holds rights over itself
      and belongs to "users"; nothing was taken away. */
  lemma UserSaveGrantsSelf(t: Tables, u: UserId)
    requires UserSaveEffect(t, u).result.Ok?
    ensures var after := UserSaveEffect(t, u).after;
            && GrantedTo(after, AuthorRow(UserContentType, "view", u), u)
            && GrantedTo(after, AuthorRow(UserContentType, "change", u), u)
            && GrantedTo(after, AuthorRow(UserContentType, "delete", u), u)
            && "users" in after.groups && "users" in UserGroups(after, u)
            && Extends(t, after)
  {
    AuthorGrantGrants(t, UserContentType, u, u);
    AuthorGrantOnlyAdds(t, UserContentType, u, u);
  }

  /** Saving a user twice leaves the tables as the first save left them. */
  lemma UserSaveIdempotent(t: Tables, u: UserId)
    requires UserSaveEffect(t, u).result.Ok?
    ensures var first := UserSaveEffect(t, u);
            UserSaveEffect(first.after, u) == first
  {
    var grant := AuthorGrant(t, UserContentType, u, u);
    assert grant == Effect(Ok(()), grant.after);
    var w := EnrollAfterGrant(grant, u).after;
    EnrollExtends(grant.after, u);
    GrantStable(t, grant.after, w, UserContentType, u, u);
    UserSaveOnSavedUser(w, u);
  }

  /** `user_post_save` changes nothing on tables where its grant is complete
      and the user already belongs to "users". */
  lemma UserSaveOnSavedUser(w: Tables, u: UserId)
    requires AuthorGrant(w, UserContentType, u, u) == Effect(Ok(()), w)
    requires "users" in w.groups && u in w.memberships && "users" in w.memberships[u]
    ensures UserSaveEffect(w, u) == Effect(Ok(()), w)
  {
    EnrollStable(w, u);
  }

  /** Enrolling only adds, and leaves the user a member of "users". */
  lemma EnrollExtends(g: Tables, u: UserId)
    ensures var w := EnrollAfterGrant(Effect(Ok(()), g), u);
            w.result == Ok(()) && Extends(g, w.after)
            && "users" in w.after.groups && u in w.after.memberships && "users" in w.after.memberships[u]
  {
    var withGroup := g.(groups := g.groups + {"users"});
    ExtendsTransitive(g, withGroup, JoinGroup(withGroup, u, "users"));
  }

  /** Enrolling a member of "users" again changes nothing. */
  lemma EnrollStable(w: Tables, u: UserId)
    requires "users" in w.groups && u in w.memberships && "users" in w.memberships[u]
    ensures EnrollAfterGrant(Effect(Ok(()), w), u) == Effect(Ok(()), w)
  {
    var withGroup := w.(groups := w.groups + {"users"});
    assert withGroup == w by {
      assert w.groups + {"users"} == w.groups;
    }
    assert JoinGroup(w, u, "users") == w by {
      assert UserGroups(w, u) + {"users"} == UserGroups(w, u);
      assert w.memberships[u := UserGroups(w, u)] == w.memberships;
    }
  }

  /** A completed author grant, rerun on tables that extend its result and
      add nothing to the permission rows, changes nothing. */
  lemma GrantStable(t: Tables, first: Tables, w: Tables, ct: ContentType, pk: nat, author: UserId)
    requires AuthorGrant(t, ct, pk, author) == Effect(Ok(()), first)
    requires Extends(first, w)
    ensures AuthorGrant(w, ct, pk, author) == Effect(Ok(()), w)
  {
    var view := ObjectPermissionUpsert(t, Codename("view", ct.model), ct.appLabel, ct.model, Pk(pk));
    var change := ObjectPermissionUpsert(view.after, Codename("change", ct.model), ct.appLabel, ct.model, Pk(pk));
    var delete := ObjectPermissionUpsert(change.after, Codename("delete", ct.model), ct.appLabel, ct.model, Pk(pk));
    GrantUpsertsStable(t, first, w, ct, pk, author);
    AuthorGrantGrants(t, ct, pk, author);
    AddGranteePresent(w, view.result.value.0, author);
    AddGranteePresent(w, change.result.value.0, author);
    AddGranteePresent(w, delete.result.value.0, author);
  }

  /** The three upserts of a completed author grant, rerun on tables that
      extend its result, find their rows and change nothing. */
  lemma GrantUpsertsStable(t: Tables, first: Tables, w: Tables, ct: ContentType, pk: nat, author: UserId)
    requires AuthorGrant(t, ct, pk, author) == Effect(Ok(()), first)
    requires Extends(first, w)
    ensures var view := ObjectPermissionUpsert(t, Codename("view", ct.model), ct.appLabel, ct.model, Pk(pk));
            var change := ObjectPermissionUpsert(view.after, Codename("change", ct.model), ct.appLabel, ct.model, Pk(pk));
            var delete := ObjectPermissionUpsert(change.after, Codename("delete", ct.model), ct.appLabel, ct.model, Pk(pk));
            && view.result.Ok? && change.result.Ok? && delete.result.Ok?
            && ObjectPermissionUpsert(w, Codename("view", ct.model), ct.appLabel, ct.model, Pk(pk)) == Effect(Ok((view.result.value.0, false)), w)
            && ObjectPermissionUpsert(w, Codename("change", ct.model), ct.appLabel, ct.model, Pk(pk)) == Effect(Ok((change.result.value.0, false)), w)
            && ObjectPermissionUpsert(w, Codename("delete", ct.model), ct.appLabel, ct.model, Pk(pk)) == Effect(Ok((delete.result.value.0, false)), w)
  {
    var view := ObjectPermissionUpsert(t, Codename("view", ct.model), ct.appLabel, ct.model, Pk(pk));
    var change := ObjectPermissionUpsert(view.after, Codename("change", ct.model), ct.appLabel, ct.model, Pk(pk));
    var delete := ObjectPermissionUpsert(change.after, Codename("delete", ct.model), ct.appLabel, ct.model, Pk(pk));
    GrantStepsExtend(t, first, w, ct, pk, author);
    ObjectPermissionUpsertStable(t, w, Codename("view", ct.model), ct.appLabel, ct.model, Pk(pk));
    ObjectPermissionUpsertStable(view.after, w, Codename("change", ct.model), ct.appLabel, ct.model, Pk(pk));
    ObjectPermissionUpsertStable(change.after, w, Codename("delete", ct.model), ct.appLabel, ct.model, Pk(pk));
  }

  /** Each intermediate table of a completed author grant is extended by
      anything that extends its result. */
  lemma GrantStepsExtend(t: Tables, first: Tables, w: Tables, ct: ContentType, pk: nat, author: UserId)
    requires AuthorGrant(t, ct, pk, author) == Effect(Ok(()), first)
    requires Extends(first, w)
    ensures var view := ObjectPermissionUpsert(t, Codename("view", ct.model), ct.appLabel, ct.model, Pk(pk));
            var change := ObjectPermissionUpsert(view.after, Codename("change", ct.model), ct.appLabel, ct.model, Pk(pk));
            var delete := ObjectPermissionUpsert(change.after, Codename("delete", ct.model), ct.appLabel, ct.model, Pk(pk));
            && view.result.Ok? && change.result.Ok? && delete.result.Ok?
            && Extends(view.after, w) && Extends(change.after, w) && Extends(delete.after, w)
  {
    var view := ObjectPermissionUpsert(t, Codename("view", ct.model), ct.appLabel, ct.model, Pk(pk));
    var change := ObjectPermissionUpsert(view.after, Codename("change", ct.model), ct.appLabel, ct.model, Pk(pk));
    var delete := ObjectPermissionUpsert(change.after, Codename("delete", ct.model), ct.appLabel, ct.model, Pk(pk));
    var t1 := AddGrantee(delete.after, view.result.value.0, author);
    var t2 := AddGrantee(t1, change.result.value.0, author);
    assert first == AddGrantee(t2, delete.result.value.0, author);
    StepsExtend(view.after, change.after, delete.after, t1, t2, first, w);
  }

  lemma StepsExtend(a: Tables, b: Tables, c: Tables, t1: Tables, t2: Tables, first: Tables, w: Tables)
    requires Grows(a, b) && Grows(b, c) && Extends(c, t1) && Extends(t1, t2) && Extends(t2, first) && Extends(first, w)
    ensures Extends(a, w) && Extends(b, w) && Extends(c, w)
  {
    ExtendsTransitive(c, t1, t2);
    ExtendsTransitive(c, t2, first);
    ExtendsTransitive(c, first, w);
    GrowsTransitive(a, b, c);
    ExtendsTransitive(a, c, w);
    GrowsTransitive(b, c, c);
    ExtendsTransitive(b, c, w);
  }

  /** `user_post_save` run on the database. */
  method UserPostSave(db: Database, user: User) returns (r: Result<(), Error>)
    modifies db
    ensures var e := UserSaveEffect(old(db.Snapshot()), user.pk);
            r == e.result && db.Snapshot() == e.after
  {
    r := GrantAuthor(db, UserContentType, user.pk, user.pk);
    if r.Err? {
      return;
    }
    var _ := db.GetOrCreateGroup("users");
    db.AddMembership(user.pk, "users");
  }

  // ---------------------------------------------------------------------
  // add_view_permission
  // ---------------------------------------------------------------------

  /** `add_view_permission` for a saved content type: get or create the
      permission "view_<model>" named "Can view <verbose name>". */
  function ViewPermissionEffect(t: Tables, ct: ContentType): (e: Effect<(Permission, bool)>)
    requires ct in t.contentTypes
    ensures e.result.Ok? ==> var row := Permission(ct, Codename("view", ct.model));
              e.result.value.0 == row && row in e.after.permissions && e.after.permissions[row] == "Can view " + t.contentTypes[ct]
    ensures e.result.Err? <==> var row := Permission(ct, Codename("view", ct.model));
              row in t.permissions && t.permissions[row] != "Can view " + t.contentTypes[ct]
  {
    PermissionGetOrCreate(t, Permission(ct, Codename("view", ct.model)), "Can view " + t.contentTypes[ct])
  }

  /** Saving a content type again finds the permission the first save made. */
  lemma ViewPermissionIdempotent(t: Tables, ct: ContentType)
    requires ct in t.contentTypes && ViewPermissionEffect(t, ct).result.Ok?
    ensures var first := ViewPermissionEffect(t, ct);
            ViewPermissionEffect(first.after, ct) == Effect(Ok((first.result.value.0, false)), first.after)
  {
  }

  /** For a lower-case model name without '_', the handler makes the same
      row, with the same name, as `get_or_create_by_natural_key` would. */
  lemma ViewPermissionAgreesWithManager(t: Tables, ct: ContentType)
    requires ct in t.contentTypes && '_' !in ct.model && Lower(ct.model) == ct.model
    ensures ViewPermissionEffect(t, ct) == PermissionUpsert(t, Codename("view", ct.model), ct.appLabel, ct.model)
  {
    PermissionNameOfSimpleCodename("view", ct.model, t.contentTypes[ct]);
    assert "Can " + "view" + " " + t.contentTypes[ct] == "Can view " + t.contentTypes[ct];
    assert ContentType(ct.appLabel, Lower(ct.model)) == ct;
  }

  /** `add_view_permission` run on the database. */
  method AddViewPermission(db: Database, ct: ContentType) returns (r: Result<(Permission, bool), Error>)
    requires ct in db.contentTypes
    modifies db
    ensures var e := ViewPermissionEffect(old(db.Snapshot()), ct);
            r == e.result && db.Snapshot() == e.after
  {
    var e := ViewPermissionEffect(db.Snapshot(), ct);
    db.Apply(e.after);
    r := e.result;
  }
}
