/** The row-level access backend of djangoerp/core/backends.py. The sets of
    permission uids a user holds are computed on first use and kept on the
    user object until the cache fields are cleared. */
module Backends {
  import opened Wrappers
  import opened Text
  import opened Models
  import opened Managers
  import opened Store

  /** A user as the backend sees it. An anonymous user is neither active nor
      a superuser. The two cache fields stand for the optional attributes
      `_obj_perm_cache` and `_group_obj_perm_cache`. */
  class User {
    const pk: UserId
    const isAnonymous: bool
    var isSuperuser: bool
    var isActive: bool
    var isStaff: bool
    var objPermCache: Option<set<string>>
    var groupObjPermCache: Option<set<string>>

    constructor (pk: UserId, isSuperuser: bool, isActive: bool, isStaff: bool)
      ensures this.pk == pk && !isAnonymous
      ensures this.isSuperuser == isSuperuser && this.isActive == isActive && this.isStaff == isStaff
      ensures objPermCache.None? && groupObjPermCache.None?
    {
      this.pk, isAnonymous := pk, false;
      this.isSuperuser, this.isActive, this.isStaff := isSuperuser, isActive, isStaff;
      objPermCache, groupObjPermCache := None, None;
    }

    /** Django's `AnonymousUser`. */
    constructor Anonymous()
      ensures isAnonymous && !isSuperuser && !isActive && !isStaff
      ensures objPermCache.None? && groupObjPermCache.None?
    {
      pk, isAnonymous := 0, true;
      isSuperuser, isActive, isStaff := false, false, false;
      objPermCache, groupObjPermCache := None, None;
    }

    predicate IsAuthenticated()
    {
      !isAnonymous
    }

    /** Deleting both cache attributes, as the test helper `clear_perm_caches` does. */
    method ClearPermCaches()
      modifies this`objPermCache, this`groupObjPermCache
      ensures objPermCache.None? && groupObjPermCache.None?
    {
      objPermCache, groupObjPermCache := None, None;
    }
  }

  /** The uids of a set of object permissions. */
  function Uids(ops: set<ObjectPermission>): (r: set<string>)
    ensures forall op :: op in ops ==> ObjectPermissionUid(op) in r
    ensures forall s :: s in r ==> exists op :: op in ops && ObjectPermissionUid(op) == s
  {
    set op | op in ops :: ObjectPermissionUid(op)
  }

  /** The set `get_group_permissions` is meant to compute: the uids of the
      object permissions granted to the user's groups. The code at
      djangoerp/core/backends.py:45-46 unpacks three selected columns into two
      names, so as written it raises as soon as such a grant exists; this
      model follows the evident intent instead. */
  function GroupPermissionUids(t: Tables, u: UserId): set<string> {
    Uids(GroupPermissions(t, u))
  }

  /** The set `get_all_permissions` computes for a user with no caches. */
  function AllPermissionUids(t: Tables, u: UserId): set<string> {
    Uids(UserPermissions(t, u)) + GroupPermissionUids(t, u)
  }

  /** The all-permissions set is exactly the uids of `get_all_permissions` of
      the manager, and contains the group-permissions set. */
  lemma AllPermissionUidsAreManagerGrants(t: Tables, u: UserId)
    ensures AllPermissionUids(t, u) == Uids(AllPermissions(t, u))
    ensures GroupPermissionUids(t, u) <= AllPermissionUids(t, u)
  {
    assert AllPermissions(t, u) == UserPermissions(t, u) + GroupPermissions(t, u);
    forall s | s in Uids(AllPermissions(t, u)) ensures s in AllPermissionUids(t, u) {
      var op :| op in AllPermissions(t, u) && ObjectPermissionUid(op) == s;
      if op in UserPermissions(t, u) {
        assert s in Uids(UserPermissions(t, u));
      } else {
        assert s in GroupPermissionUids(t, u);
      }
    }
  }

  /** What `get_all_permissions` returns for `user` in its present state,
      caches included. */
  function CurrentGrants(t: Tables, user: User): set<string>
    reads user
  {
    if user.isAnonymous then {}
    else if user.objPermCache.Some? then user.objPermCache.value
    else Uids(UserPermissions(t, user.pk))
         + (if user.groupObjPermCache.Some? then user.groupObjPermCache.value else GroupPermissionUids(t, user.pk))
  }

  /** With no cache on the user, the grants are read from the tables. */
  lemma FreshGrants(t: Tables, user: User)
    requires !user.isAnonymous && user.objPermCache.None? && user.groupObjPermCache.None?
    ensures CurrentGrants(t, user) == AllPermissionUids(t, user.pk)
  {
  }

  /** `ObjectPermissionBackend.authenticate`: this backend never authenticates. */
  function Authenticate(username: string, password: string): (r: Option<UserId>)
    ensures r == None
  {
    None
  }

  /** `ObjectPermissionBackend.get_group_permissions` */
  method GetGroupPermissions(db: Database, user: User) returns (perms: set<string>)
    requires !user.isAnonymous
    modifies user`groupObjPermCache
    ensures old(user.groupObjPermCache).Some? ==> perms == old(user.groupObjPermCache).value
    ensures old(user.groupObjPermCache).None? ==> perms == GroupPermissionUids(db.Snapshot(), user.pk)
    ensures user.groupObjPermCache == Some(perms)
  {
    if user.groupObjPermCache.None? {
      user.groupObjPermCache := Some(GroupPermissionUids(db.Snapshot(), user.pk));
    }
    perms := user.groupObjPermCache.value;
  }

  /** `ObjectPermissionBackend.get_all_permissions`: empty for an anonymous
      user, otherwise the stored set, computed on first use. */
  method GetAllPermissions(db: Database, user: User) returns (perms: set<string>)
    modifies user`objPermCache, user`groupObjPermCache
    ensures perms == old(CurrentGrants(db.Snapshot(), user))
    ensures user.isAnonymous || old(user.objPermCache).Some? ==> unchanged(user)
    ensures !user.isAnonymous ==> user.objPermCache == Some(perms)
    ensures !user.isAnonymous && old(user.objPermCache).None? && old(user.groupObjPermCache).None?
            ==> user.groupObjPermCache == Some(GroupPermissionUids(db.Snapshot(), user.pk))
    ensures old(user.groupObjPermCache).Some? ==> user.groupObjPermCache == old(user.groupObjPermCache)
  {
    if user.isAnonymous {
      return {};
    }
    if user.objPermCache.None? {
      var direct := Uids(UserPermissions(db.Snapshot(), user.pk));
      var viaGroups := GetGroupPermissions(db, user);
      user.objPermCache := Some(direct + viaGroups);
    }
    perms := user.objPermCache.value;
  }

  /** The argument `perm` of `has_perm`: a permission row or its uid text. */
  datatype PermArg = PermRow(p: Permission) | PermText(text: string)

  function PermArgUid(perm: PermArg): string {
    match perm
    case PermRow(p) => PermissionUid(p)
    case PermText(text) => text
  }

  /** The answer of `has_perm` given the user's flags and permission set. */
  function HasPermDecision(isSuperuser: bool, isActive: bool, perm: string, obj: Option<nat>, grants: set<string>): (granted: bool)
    ensures isSuperuser ==> granted
    ensures !isSuperuser && !isActive ==> !granted
    ensures obj.None? ==> (granted <==> isSuperuser)
    ensures !isSuperuser && isActive && obj.Some? ==> (granted <==> perm + "." + NatToString(obj.value) in grants)
  {
    if isSuperuser then true
    else if !isActive then false
    else if obj.None? then false
    else perm + "." + NatToString(obj.value) in grants
  }

  /** `ObjectPermissionBackend.has_perm(user, perm, obj)`, `obj` given by its
      primary key. Only a lookup that reaches the permission set touches the
      caches. */
  method HasPerm(db: Database, user: User, perm: PermArg, obj: Option<nat>) returns (granted: bool)
    modifies user`objPermCache, user`groupObjPermCache
    ensures granted == HasPermDecision(old(user.isSuperuser), old(user.isActive), PermArgUid(perm), obj, old(CurrentGrants(db.Snapshot(), user)))
    ensures user.isSuperuser || !user.isActive || obj.None? ==> unchanged(user)
    ensures !user.isAnonymous && !user.isSuperuser && user.isActive && obj.Some? ==> user.objPermCache == Some(old(CurrentGrants(db.Snapshot(), user)))
  {
    if user.isSuperuser {
      return true;
    }
    if !user.isActive {
      return false;
    }
    if obj.None? {
      return false;
    }
    var uid := PermArgUid(perm);
    var perms := GetAllPermissions(db, user);
    granted := uid + "." + NatToString(obj.value) in perms;
  }

  // ---------------------------------------------------------------------
  // The uid of an object permission names exactly one row
  // ---------------------------------------------------------------------

  /** A permission whose labels have no '.' and whose content type is the
      model its codename ends with, as for every permission Django and the
      handlers create. */
  predicate WellNamed(p: Permission) {
    '.' !in p.contentType.appLabel && '.' !in p.codename && p.contentType.model == ModelName(p.codename)
  }

  /** Every object permission row of `t` is for a well-named permission. */
  predicate WellNamedTables(t: Tables) {
    forall op :: op in t.objectPermissions ==> WellNamed(op.perm)
  }

  /** Well-named object permissions with the same uid are the same row. */
  lemma UidDeterminesRow(a: ObjectPermission, b: ObjectPermission)
    requires WellNamed(a.perm) && WellNamed(b.perm)
    requires ObjectPermissionUid(a) == ObjectPermissionUid(b)
    ensures a == b
  {
    ObjectPermissionUidRoundTrip(a);
    ObjectPermissionUidRoundTrip(b);
  }

  /** For an active, non-superuser user with no cached grants, `has_perm`
      for a well-named permission on object `pk` holds iff an object
      permission for exactly that (permission, object) is granted to the
      user or to one of the user's groups. */
  lemma {:induction false} HasPermIffGranted(t: Tables, user: User, p: Permission, pk: nat)
    requires WellNamedTables(t) && WellNamed(p)
    requires !user.isAnonymous && !user.isSuperuser && user.isActive
    requires user.objPermCache.None? && user.groupObjPermCache.None?
    ensures HasPermDecision(user.isSuperuser, user.isActive, PermissionUid(p), Some(pk), CurrentGrants(t, user))
            <==> ObjectPermission(p, pk) in AllPermissions(t, user.pk)
  {
    var target := ObjectPermission(p, pk);
    var s := PermissionUid(p) + "." + NatToString(pk);
    assert s == ObjectPermissionUid(target);
    FreshGrants(t, user);
    AllPermissionUidsAreManagerGrants(t, user.pk);
    if s in Uids(AllPermissions(t, user.pk)) {
      var op :| op in AllPermissions(t, user.pk) && ObjectPermissionUid(op) == s;
      UidDeterminesRow(op, target);
    }
  }

  /** A grant made after the user's permission set was cached is not seen
      until the caches are cleared. */
  method StaleUntilCleared(db: Database, user: User, op: ObjectPermission) returns (before: bool, stale: bool, after: bool)
    requires WellNamedTables(db.Snapshot()) && WellNamed(op.perm)
    requires !user.isAnonymous && !user.isSuperuser && user.isActive
    requires user.objPermCache.None? && user.groupObjPermCache.None?
    requires op in db.objectPermissions && op !in AllPermissions(db.Snapshot(), user.pk)
    modifies db, user
    ensures !before && !stale && after
  {
    HasPermIffGranted(db.Snapshot(), user, op.perm, op.objectId);
    before := HasPerm(db, user, PermRow(op.perm), Some(op.objectId));
    db.AddUser(op, user.pk);
    stale := HasPerm(db, user, PermRow(op.perm), Some(op.objectId));
    user.ClearPermCaches();
    assert WellNamedTables(db.Snapshot());
    HasPermIffGranted(db.Snapshot(), user, op.perm, op.objectId);
    after := HasPerm(db, user, PermRow(op.perm), Some(op.objectId));
  }
}
