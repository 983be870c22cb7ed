/** The permission managers of djangoerp/core/managers.py, as functions over
    a snapshot of the permission tables. Each call yields what it returns or
    raises together with the tables after it (`Effect`). */
module Managers {
  import opened Wrappers
  import opened Text
  import opened Models

  /** The exceptions the managers raise. */
  datatype Error =
    | UnknownModel    // no installed model for (app_label, model)
    | DoesNotExist    // a lookup found no row
    | IntegrityError  // a create clashed with the (content type, codename) unique key
    | IndexError      // a uid with fewer than three dot-separated tokens
    | ValueError      // an object id token that is not a numeral
    | AttributeError  // a manager used without a model

  /** The rows the permission engine reads and writes. */
  datatype Tables = Tables(
    contentTypes: map<ContentType, string>,               // installed models, with their verbose names
    permissions: map<Permission, string>,                 // permission rows, with their names
    objectPermissions: map<ObjectPermission, Grantees>,  // one row per (permission, object id); the schema does not enforce this
    groups: set<string>,
    memberships: map<UserId, set<string>>)                // user -> the groups the user belongs to

  /** What a call returns or raises, and the tables after it. */
  datatype Effect<T> = Effect(result: Result<T, Error>, after: Tables)

  /** The argument given to `int(object_id)`: a primary key, or a token of a uid. */
  datatype ObjectIdArg = Pk(n: nat) | Token(text: string)

  /** `u` keeps every row of `t` as it was; at most permission and object
      permission rows were added, and an added object permission grants nobody. */
  predicate Grows(t: Tables, u: Tables) {
    && u.contentTypes == t.contentTypes
    && u.groups == t.groups
    && u.memberships == t.memberships
    && (forall k :: k in t.permissions ==> k in u.permissions && u.permissions[k] == t.permissions[k])
    && (forall k :: k in t.objectPermissions ==> k in u.objectPermissions && u.objectPermissions[k] == t.objectPermissions[k])
    && (forall k :: k in u.objectPermissions && k !in t.objectPermissions ==> u.objectPermissions[k] == Grantees({}, {}))
  }

  /** `u` has every row of `t`, and every grantee and membership of `t`:
      rows, grantees, groups and memberships may only have been added. */
  predicate Extends(t: Tables, u: Tables) {
    && u.contentTypes == t.contentTypes
    && t.groups <= u.groups
    && (forall k :: k in t.memberships ==> k in u.memberships && t.memberships[k] <= u.memberships[k])
    && (forall k :: k in t.permissions ==> k in u.permissions && u.permissions[k] == t.permissions[k])
    && (forall k :: k in t.objectPermissions ==>
          && k in u.objectPermissions
          && t.objectPermissions[k].users <= u.objectPermissions[k].users
          && t.objectPermissions[k].groups <= u.objectPermissions[k].groups)
  }

  lemma ExtendsTransitive(t: Tables, u: Tables, w: Tables)
    requires Extends(t, u) && Extends(u, w)
    ensures Extends(t, w)
  {
  }

  lemma GrowsTransitive(t: Tables, u: Tables, w: Tables)
    requires Grows(t, u) && Grows(u, w)
    ensures Grows(t, w) && Extends(t, w)
  {
  }

  /** `int(object_id)` for a primary key or a token of decimal digits. */
  function ObjectIdValue(arg: ObjectIdArg): (r: Result<nat, Error>)
    ensures arg.Pk? ==> r == Ok(arg.n)
    ensures arg.Token? ==> (r.Ok? <==> |arg.text| > 0 && AllDigits(arg.text))
    ensures r.Err? ==> r.error == ValueError
  {
    match arg
    case Pk(n) => Ok(n)
    case Token(text) =>
      match ParseNat(text)
      case Some(n) => Ok(n)
      case None => Err(ValueError)
  }

  // ---------------------------------------------------------------------
  // PermissionManager
  // ---------------------------------------------------------------------

  /** The name `get_or_create_by_natural_key` gives a permission: "Can ",
      the codename before its last '_' with each '_' read as a space, then
      the model's verbose name. */
  function PermissionName(codename: string, verboseName: string): string {
    "Can " + Replace(RPartition(codename, "_").0, "_", " ") + " " + verboseName
  }

  /** A codename "<action>_<model>" whose action has no '_' names its
      permission "Can <action> <verbose name>". */
  lemma PermissionNameOfSimpleCodename(action: string, model: string, verboseName: string)
    requires '_' !in action && '_' !in model
    ensures PermissionName(action + "_" + model, verboseName) == "Can " + action + " " + verboseName
  {
    var codename := action + "_" + model;
    ContainsChar(model, '_');
    ContainsChar(action, '_');
    var p := RPartition(codename, "_");
    assert Contains(codename, "_") by {
      assert OccursAt(codename, "_", |action|);
    }
    assert p.2 == model && p.0 == action by {
      LastSeparator(action, model, p.0, p.2, '_');
    }
    ReplaceAbsent(action, "_", " ");
  }

  /** Two splits of one string around its last `c` are the same split. */
  lemma LastSeparator(a: string, b: string, x: string, y: string, c: char)
    requires a + [c] + b == x + [c] + y
    requires c !in b && c !in y
    ensures a == x && b == y
  {
    var s := a + [c] + b;
    if |b| < |y| {
      CharInTail(x, c, y, |a|);
      assert false;
    } else if |y| < |b| {
      CharInTail(a, c, b, |x|);
      assert false;
    }
    assert a == s[..|a|];
    assert x == s[..|x|];
    assert b == s[|a| + 1..];
    assert y == s[|x| + 1..];
  }

  lemma CharInTail(x: string, c: char, y: string, k: nat)
    requires |x| < k < |x| + 1 + |y|
    ensures (x + [c] + y)[k] in y
  {
    assert (x + [c] + y)[k] == y[k - |x| - 1];
  }

  /** Django's `get_by_natural_key(codename, app_label, model)`. */
  function PermissionByNaturalKey(t: Tables, codename: string, appLabel: string, model: string): (r: Result<Permission, Error>)
    ensures r.Ok? <==> ContentType(appLabel, model) in t.contentTypes && Permission(ContentType(appLabel, model), codename) in t.permissions
    ensures r.Ok? ==> r.value == Permission(ContentType(appLabel, model), codename)
    ensures r.Err? ==> r.error == DoesNotExist
  {
    var ct := ContentType(appLabel, model);
    if ct !in t.contentTypes then Err(DoesNotExist)
    else if Permission(ct, codename) !in t.permissions then Err(DoesNotExist)
    else Ok(Permission(ct, codename))
  }

  /** Django's `Permission.objects.get_or_create(content_type, codename, name)`:
      the row is found when it exists with that name and created when it does
      not exist; a row with the same key and another name violates the unique
      key on (content type, codename). */
  function PermissionGetOrCreate(t: Tables, row: Permission, name: string): (e: Effect<(Permission, bool)>)
    ensures Grows(t, e.after) && e.after.objectPermissions == t.objectPermissions
    ensures e.result.Ok? ==> e.result.value.0 == row && row in e.after.permissions && e.after.permissions[row] == name
    ensures e.result.Ok? ==> (e.result.value.1 <==> row !in t.permissions)
    ensures e.result.Err? <==> row in t.permissions && t.permissions[row] != name
    ensures e.result.Err? ==> e.result.error == IntegrityError
    ensures !(e.result.Ok? && e.result.value.1) ==> e.after == t
  {
    if row !in t.permissions then Effect(Ok((row, true)), t.(permissions := t.permissions[row := name]))
    else if t.permissions[row] == name then Effect(Ok((row, false)), t)
    else Effect(Err(IntegrityError), t)
  }

  /** `PermissionManager.get_or_create_by_natural_key`: the content type of
      the model (matched without regard to case), then the permission row
      with its generated name. */
  function PermissionUpsert(t: Tables, codename: string, appLabel: string, model: string): (e: Effect<(Permission, bool)>)
    ensures Grows(t, e.after) && e.after.objectPermissions == t.objectPermissions
    ensures e.result.Ok? ==> e.result.value.0 == Permission(ContentType(appLabel, Lower(model)), codename)
    ensures e.result.Ok? ==> e.result.value.0 in e.after.permissions
    ensures e.result.Ok? ==> (e.result.value.1 <==> e.result.value.0 !in t.permissions)
    ensures !(e.result.Ok? && e.result.value.1) ==> e.after == t
    ensures e.result == Err(UnknownModel) <==> ContentType(appLabel, Lower(model)) !in t.contentTypes
  {
    var ct := ContentType(appLabel, Lower(model));
    if ct !in t.contentTypes then Effect(Err(UnknownModel), t)
    else PermissionGetOrCreate(t, Permission(ct, codename), PermissionName(codename, t.contentTypes[ct]))
  }

  /** `(app_label, codename)` read from a permission uid: around its last '.'. */
  function DecodePermissionUid(uid: string): (r: (string, string))
    ensures Contains(uid, ".") ==> r.0 + "." + r.1 == uid && !Contains(r.1, ".")
    ensures !Contains(uid, ".") ==> r == ("", uid)
  {
    var parts := RPartition(uid, ".");
    (parts.0, parts.2)
  }

  /** The model a codename names: the text after its last '_'. */
  function ModelName(codename: string): string {
    RPartition(codename, "_").2
  }

  /** `PermissionManager.get_by_uid` */
  function PermissionByUid(t: Tables, uid: string): (r: Result<Permission, Error>)
    ensures r.Ok? ==> r.value in t.permissions && r.value.contentType in t.contentTypes
    ensures r.Ok? && Contains(uid, ".") ==> PermissionUid(r.value) == uid
    ensures r.Err? ==> r.error == DoesNotExist
  {
    var (appLabel, codename) := DecodePermissionUid(uid);
    PermissionByNaturalKey(t, codename, appLabel, ModelName(codename))
  }

  /** `PermissionManager.get_or_create_by_uid` */
  function PermissionUpsertByUid(t: Tables, uid: string): (e: Effect<(Permission, bool)>)
    ensures Grows(t, e.after) && e.after.objectPermissions == t.objectPermissions
    ensures e.result.Ok? ==> e.result.value.0 in e.after.permissions
    ensures e.result.Ok? && Contains(uid, ".") ==> PermissionUid(e.result.value.0) == uid
    ensures e.result.Ok? ==> (e.result.value.1 <==> e.result.value.0 !in t.permissions)
  {
    var (appLabel, codename) := DecodePermissionUid(uid);
    PermissionUpsert(t, codename, appLabel, ModelName(codename))
  }

  /** A permission uid decodes to its application label and codename when
      the codename has no '.'. */
  lemma PermissionUidRoundTrip(p: Permission)
    requires '.' !in p.codename
    ensures DecodePermissionUid(PermissionUid(p)) == (p.contentType.appLabel, p.codename)
  {
    var uid := PermissionUid(p);
    var parts := RPartition(uid, ".");
    assert Contains(uid, ".") by {
      assert OccursAt(uid, ".", |p.contentType.appLabel|);
    }
    ContainsChar(parts.2, '.');
    LastSeparator(p.contentType.appLabel, p.codename, parts.0, parts.2, '.');
  }

  /** Looking a permission up by its uid finds that permission, when its
      codename ends with "_<model>". */
  lemma PermissionByUidFindsRow(t: Tables, p: Permission)
    requires '.' !in p.codename && p.contentType.model == ModelName(p.codename)
    ensures PermissionByUid(t, PermissionUid(p)) == (if p.contentType in t.contentTypes && p in t.permissions then Ok(p) else Err(DoesNotExist))
  {
    PermissionUidRoundTrip(p);
  }

  // ---------------------------------------------------------------------
  // ObjectPermissionManager
  // ---------------------------------------------------------------------

  /** `ObjectPermissionManager.get_by_natural_key` as it is written: the
      permission is looked up through a `PermissionManager()` that is bound
      to no model. The content type argument is evaluated first, so a
      missing content type raises DoesNotExist; otherwise the query on the
      unbound manager raises AttributeError before reaching the tables. */
  function ObjectPermissionByNaturalKeyAsWritten(t: Tables, codename: string, appLabel: string, model: string, objectId: ObjectIdArg): (r: Result<ObjectPermission, Error>)
    ensures r.Err?
    ensures r.error == DoesNotExist <==> ContentType(appLabel, model) !in t.contentTypes
    ensures r.error == AttributeError <==> ContentType(appLabel, model) in t.contentTypes
  {
    if ContentType(appLabel, model) in t.contentTypes then Err(AttributeError) else Err(DoesNotExist)
  }

  /** `ObjectPermissionManager.get_by_natural_key` as intended: the
      permission by natural key, then the row for it and the object id. */
  function ObjectPermissionByNaturalKey(t: Tables, codename: string, appLabel: string, model: string, objectId: ObjectIdArg): (r: Result<ObjectPermission, Error>)
    ensures r.Ok? <==> PermissionByNaturalKey(t, codename, appLabel, model).Ok? && ObjectIdValue(objectId).Ok?
                       && ObjectPermission(Permission(ContentType(appLabel, model), codename), ObjectIdValue(objectId).value) in t.objectPermissions
    ensures r.Ok? ==> r.value == ObjectPermission(Permission(ContentType(appLabel, model), codename), ObjectIdValue(objectId).value)
  {
    match PermissionByNaturalKey(t, codename, appLabel, model)
    case Err(e) => Err(e)
    case Ok(perm) =>
      match ObjectIdValue(objectId)
      case Err(e) => Err(e)
      case Ok(n) =>
        if ObjectPermission(perm, n) in t.objectPermissions then Ok(ObjectPermission(perm, n)) else Err(DoesNotExist)
  }

  /** The as-written lookup fails on a row that exists, which the intended
      lookup finds. */
  lemma ObjectPermissionLookupDiscrepancy(t: Tables, op: ObjectPermission)
    requires op.perm.contentType in t.contentTypes && op.perm in t.permissions && op in t.objectPermissions
    ensures ObjectPermissionByNaturalKey(t, op.perm.codename, op.perm.contentType.appLabel, op.perm.contentType.model, Pk(op.objectId)) == Ok(op)
    ensures ObjectPermissionByNaturalKeyAsWritten(t, op.perm.codename, op.perm.contentType.appLabel, op.perm.contentType.model, Pk(op.objectId)) == Err(AttributeError)
  {
  }

  /** `ObjectPermissionManager.get_or_create_by_natural_key`: get or create
      the permission, then convert the object id, then get or create the row.
      A bad object id raises after the permission row was created. */
  function ObjectPermissionUpsert(t: Tables, codename: string, appLabel: string, model: string, objectId: ObjectIdArg): (e: Effect<(ObjectPermission, bool)>)
    ensures Grows(t, e.after)
    ensures e.result.Ok? ==> ObjectIdValue(objectId).Ok?
    ensures e.result.Ok? ==> e.result.value.0 == ObjectPermission(Permission(ContentType(appLabel, Lower(model)), codename), ObjectIdValue(objectId).value)
    ensures e.result.Ok? ==> e.result.value.0 in e.after.objectPermissions
    ensures e.result.Ok? ==> (e.result.value.1 <==> e.result.value.0 !in t.objectPermissions)
    ensures e.result == Err(ValueError) <==> PermissionUpsert(t, codename, appLabel, model).result.Ok? && ObjectIdValue(objectId).Err?
    ensures e.result.Err? ==> e.after == PermissionUpsert(t, codename, appLabel, model).after
  {
    var p := PermissionUpsert(t, codename, appLabel, model);
    match p.result
    case Err(err) => Effect(Err(err), p.after)
    case Ok((perm, _)) =>
      match ObjectIdValue(objectId)
      case Err(err) => Effect(Err(err), p.after)
      case Ok(n) =>
        var row := ObjectPermission(perm, n);
        if row in p.after.objectPermissions then Effect(Ok((row, false)), p.after)
        else Effect(Ok((row, true)), p.after.(objectPermissions := p.after.objectPermissions[row := Grantees({}, {})]))
  }

  /** The `(app_label, codename, object_id)` tokens of an object permission
      uid: its pieces between '.'; fewer than three pieces raise IndexError. */
  function DecodeObjectPermissionUid(uid: string): (r: Result<(string, string, string), Error>)
    ensures r.Err? <==> |Split(uid, ".")| < 3
    ensures r.Err? ==> r.error == IndexError
  {
    var tokens := Split(uid, ".");
    if |tokens| < 3 then Err(IndexError) else Ok((tokens[0], tokens[1], tokens[2]))
  }

  /** `ObjectPermissionManager.get_by_uid` as intended: it goes through the
      intended natural-key lookup, since as written it inherits the failure
      of `ObjectPermissionByNaturalKeyAsWritten`. */
  function ObjectPermissionByUid(t: Tables, uid: string): (r: Result<ObjectPermission, Error>)
    ensures |Split(uid, ".")| < 3 <==> r == Err(IndexError)
    ensures r.Ok? ==> r.value in t.objectPermissions
    ensures r.Ok? ==> r.value.perm.contentType.appLabel == Split(uid, ".")[0] && r.value.perm.codename == Split(uid, ".")[1]
  {
    match DecodeObjectPermissionUid(uid)
    case Err(e) => Err(e)
    case Ok((appLabel, codename, objectId)) =>
      ObjectPermissionByNaturalKey(t, codename, appLabel, ModelName(codename), Token(objectId))
  }

  /** `ObjectPermissionManager.get_or_create_by_uid` */
  function ObjectPermissionUpsertByUid(t: Tables, uid: string): (e: Effect<(ObjectPermission, bool)>)
    ensures Grows(t, e.after)
    ensures |Split(uid, ".")| < 3 ==> e == Effect(Err(IndexError), t)
    ensures e.result.Ok? ==> e.result.value.0 in e.after.objectPermissions
    ensures e.result.Ok? ==> e.result.value.0.perm.contentType.appLabel == Split(uid, ".")[0] && e.result.value.0.perm.codename == Split(uid, ".")[1]
    ensures e.result.Ok? ==> (e.result.value.1 <==> e.result.value.0 !in t.objectPermissions)
  {
    match DecodeObjectPermissionUid(uid)
    case Err(e) => Effect(Err(e), t)
    case Ok((appLabel, codename, objectId)) =>
      ObjectPermissionUpsert(t, codename, appLabel, ModelName(codename), Token(objectId))
  }

  /** An object permission uid splits back into its three tokens when the
      application label and the codename have no '.'. */
  lemma {:induction false} ObjectPermissionUidRoundTrip(op: ObjectPermission)
    requires '.' !in op.perm.contentType.appLabel && '.' !in op.perm.codename
    ensures DecodeObjectPermissionUid(ObjectPermissionUid(op)) == Ok((op.perm.contentType.appLabel, op.perm.codename, NatToString(op.objectId)))
    ensures ObjectIdValue(Token(NatToString(op.objectId))) == Ok(op.objectId)
  {
    var app, codename, id := op.perm.contentType.appLabel, op.perm.codename, NatToString(op.objectId);
    var parts := [app, codename, id];
    assert Join(parts, ".") == ObjectPermissionUid(op) by {
      assert Join(parts[2..], ".") == id;
      assert Join(parts[1..], ".") == codename + "." + id;
    }
    DigitsHaveNo(id, '.');
    forall i | 0 <= i < |parts| ensures '.' !in parts[i] {
    }
    SplitJoinChar(parts, '.');
    ParseNatToString(op.objectId);
  }

  /** Getting or creating by an object permission's own uid is getting or
      creating it by its natural key, so it yields that very row. */
  lemma ObjectPermissionUpsertByOwnUid(t: Tables, op: ObjectPermission)
    requires '.' !in op.perm.contentType.appLabel && '.' !in op.perm.codename
    ensures ObjectPermissionUpsertByUid(t, ObjectPermissionUid(op))
         == ObjectPermissionUpsert(t, op.perm.codename, op.perm.contentType.appLabel, ModelName(op.perm.codename), Pk(op.objectId))
    ensures ObjectPermissionByUid(t, ObjectPermissionUid(op))
         == ObjectPermissionByNaturalKey(t, op.perm.codename, op.perm.contentType.appLabel, ModelName(op.perm.codename), Pk(op.objectId))
  {
    ObjectPermissionUidRoundTrip(op);
  }

  // ---------------------------------------------------------------------
  // Repeated calls and lookups after creation
  // ---------------------------------------------------------------------

  /** A second `get_or_create_by_natural_key` for a permission finds the row
      the first created and changes nothing. */
  lemma PermissionUpsertIdempotent(t: Tables, codename: string, appLabel: string, model: string)
    requires PermissionUpsert(t, codename, appLabel, model).result.Ok?
    ensures var first := PermissionUpsert(t, codename, appLabel, model);
            PermissionUpsert(first.after, codename, appLabel, model) == Effect(Ok((first.result.value.0, false)), first.after)
  {
  }

  /** A second `get_or_create_by_natural_key` for an object permission finds
      the row the first created and changes nothing. */
  lemma ObjectPermissionUpsertIdempotent(t: Tables, codename: string, appLabel: string, model: string, objectId: ObjectIdArg)
    requires ObjectPermissionUpsert(t, codename, appLabel, model, objectId).result.Ok?
    ensures var first := ObjectPermissionUpsert(t, codename, appLabel, model, objectId);
            ObjectPermissionUpsert(first.after, codename, appLabel, model, objectId) == Effect(Ok((first.result.value.0, false)), first.after)
  {
    PermissionUpsertIdempotent(t, codename, appLabel, model);
  }

  /** A get-or-create that succeeded once succeeds again, returning the same
      row and changing nothing, on any later tables that kept its rows. */
  lemma ObjectPermissionUpsertStable(t: Tables, w: Tables, codename: string, appLabel: string, model: string, objectId: ObjectIdArg)
    requires ObjectPermissionUpsert(t, codename, appLabel, model, objectId).result.Ok?
    requires Extends(ObjectPermissionUpsert(t, codename, appLabel, model, objectId).after, w)
    ensures var e := ObjectPermissionUpsert(t, codename, appLabel, model, objectId);
            ObjectPermissionUpsert(w, codename, appLabel, model, objectId) == Effect(Ok((e.result.value.0, false)), w)
  {
  }

  /** After `get_or_create_by_natural_key` succeeds, `get_by_natural_key`
      with the same (lower-case) key finds the row it returned. */
  lemma ObjectPermissionUpsertThenLookup(t: Tables, codename: string, appLabel: string, model: string, objectId: ObjectIdArg)
    requires ObjectPermissionUpsert(t, codename, appLabel, model, objectId).result.Ok?
    ensures var e := ObjectPermissionUpsert(t, codename, appLabel, model, objectId);
            ObjectPermissionByNaturalKey(e.after, codename, appLabel, Lower(model), objectId) == Ok(e.result.value.0)
  {
  }

  /** The example of the manager tests: "auth.view_user.1" yields the
      permission to view user 1. */
  lemma UpsertByUidExample(t: Tables)
    requires ContentType("auth", "user") in t.contentTypes
    requires var p := Permission(ContentType("auth", "user"), "view_user");
             p !in t.permissions || t.permissions[p] == PermissionName("view_user", t.contentTypes[ContentType("auth", "user")])
    ensures var e := ObjectPermissionUpsertByUid(t, "auth.view_user.1");
            e.result.Ok? && e.result.value.0 == ObjectPermission(Permission(ContentType("auth", "user"), "view_user"), 1)
  {
    var op := ObjectPermission(Permission(ContentType("auth", "user"), "view_user"), 1);
    ExampleUid(op);
    ObjectPermissionUpsertByOwnUid(t, op);
    ExampleModelName();
  }

  lemma ExampleUid(op: ObjectPermission)
    requires op == ObjectPermission(Permission(ContentType("auth", "user"), "view_user"), 1)
    ensures ObjectPermissionUid(op) == "auth.view_user.1"
  {
    assert NatToString(1) == "1";
  }

  lemma ExampleModelName()
    ensures ModelName("view_user") == "user" && Lower("user") == "user"
  {
    var p := RPartition("view_user", "_");
    ContainsChar(p.2, '_');
    ContainsChar("user", '_');
    LastSeparator("view", "user", p.0, p.2, '_');
  }

  // ---------------------------------------------------------------------
  // Grants
  // ---------------------------------------------------------------------

  /** `row.users.add(u)`, for a row that exists. */
  function AddGrantee(t: Tables, op: ObjectPermission, u: UserId): (r: Tables)
    requires op in t.objectPermissions
    ensures Extends(t, r)
    ensures r.permissions == t.permissions && r.objectPermissions.Keys == t.objectPermissions.Keys
    ensures r.groups == t.groups && r.memberships == t.memberships
    ensures r.objectPermissions[op] == Grantees(t.objectPermissions[op].users + {u}, t.objectPermissions[op].groups)
    ensures forall k :: k in t.objectPermissions && k != op ==> r.objectPermissions[k] == t.objectPermissions[k]
  {
    var g := t.objectPermissions[op];
    t.(objectPermissions := t.objectPermissions[op := g.(users := g.users + {u})])
  }

  /** Adding a grantee who is already there changes nothing. */
  lemma AddGranteePresent(t: Tables, op: ObjectPermission, u: UserId)
    requires op in t.objectPermissions && u in t.objectPermissions[op].users
    ensures AddGrantee(t, op, u) == t
  {
    assert t.objectPermissions[op].users + {u} == t.objectPermissions[op].users;
    assert AddGrantee(t, op, u).objectPermissions == t.objectPermissions;
  }

  /** `group.user_set.add(u)`, for a group that exists. */
  function JoinGroup(t: Tables, u: UserId, group: string): (r: Tables)
    ensures Extends(t, r) && r.groups == t.groups
    ensures UserGroups(r, u) == UserGroups(t, u) + {group}
    ensures forall v :: v != u ==> UserGroups(r, v) == UserGroups(t, v)
  {
    t.(memberships := t.memberships[u := UserGroups(t, u) + {group}])
  }


  // ---------------------------------------------------------------------

  /** The groups user `u` belongs to. */
  function UserGroups(t: Tables, u: UserId): set<string> {
    if u in t.memberships then t.memberships[u] else {}
  }

  /** `get_group_permissions`: the object permissions granted to a group of `u`. */
  function GroupPermissions(t: Tables, u: UserId): (r: set<ObjectPermission>)
    ensures forall op :: op in r <==> op in t.objectPermissions && t.objectPermissions[op].groups * UserGroups(t, u) != {}
  {
    set op | op in t.objectPermissions && t.objectPermissions[op].groups * UserGroups(t, u) != {}
  }

  /** The object permissions granted to `u` directly. */
  function UserPermissions(t: Tables, u: UserId): (r: set<ObjectPermission>)
    ensures forall op :: op in r <==> op in t.objectPermissions && u in t.objectPermissions[op].users
  {
    set op | op in t.objectPermissions && u in t.objectPermissions[op].users
  }

  /** `get_all_permissions`: granted to `u` directly or through a group. */
  function AllPermissions(t: Tables, u: UserId): (r: set<ObjectPermission>)
    ensures r == UserPermissions(t, u) + GroupPermissions(t, u)
  {
    set op | op in t.objectPermissions && (u in t.objectPermissions[op].users || t.objectPermissions[op].groups * UserGroups(t, u) != {})
  }

  /** Tables that were only added to grant every permission they granted
      before, to every user. */
  lemma ExtendsKeepsGrants(t: Tables, w: Tables, u: UserId)
    requires Extends(t, w)
    ensures AllPermissions(t, u) <= AllPermissions(w, u)
    ensures GroupPermissions(t, u) <= GroupPermissions(w, u)
  {
    assert UserGroups(t, u) <= UserGroups(w, u);
    forall op | op in GroupPermissions(t, u) ensures op in GroupPermissions(w, u) {
      var g :| g in t.objectPermissions[op].groups * UserGroups(t, u);
      assert g in w.objectPermissions[op].groups * UserGroups(w, u);
    }
  }
}

/** The permission tables as mutable state: the managers' operations that
    write rows, and the many-to-many `add` calls on grantee sets. */
module Store {
  import opened Wrappers
  import opened Models
  import opened Managers

  class Database {
    var contentTypes: map<ContentType, string>
    var permissions: map<Permission, string>
    var objectPermissions: map<ObjectPermission, Grantees>
    var groups: set<string>
    var memberships: map<UserId, set<string>>

    /** The current rows as a value. */
    function Snapshot(): Tables
      reads this
    {
      Tables(contentTypes, permissions, objectPermissions, groups, memberships)
    }

    constructor (t: Tables)
      ensures Snapshot() == t
    {
      contentTypes, permissions, objectPermissions := t.contentTypes, t.permissions, t.objectPermissions;
      groups, memberships := t.groups, t.memberships;
    }

    method Apply(t: Tables)
      modifies this
      ensures Snapshot() == t
    {
      contentTypes, permissions, objectPermissions := t.contentTypes, t.permissions, t.objectPermissions;
      groups, memberships := t.groups, t.memberships;
    }

    /** `PermissionManager.get_or_create_by_natural_key` */
    method GetOrCreatePermission(codename: string, appLabel: string, model: string) returns (r: Result<(Permission, bool), Error>)
      modifies this
      ensures var e := PermissionUpsert(old(Snapshot()), codename, appLabel, model);
              r == e.result && Snapshot() == e.after
    {
      var e := PermissionUpsert(Snapshot(), codename, appLabel, model);
      Apply(e.after);
      r := e.result;
    }

    /** `ObjectPermissionManager.get_or_create_by_natural_key` */
    method GetOrCreateObjectPermission(codename: string, appLabel: string, model: string, objectId: ObjectIdArg)
      returns (r: Result<(ObjectPermission, bool), Error>)
      modifies this
      ensures var e := ObjectPermissionUpsert(old(Snapshot()), codename, appLabel, model, objectId);
              r == e.result && Snapshot() == e.after
    {
      var e := ObjectPermissionUpsert(Snapshot(), codename, appLabel, model, objectId);
      Apply(e.after);
      r := e.result;
    }

    /** `ObjectPermissionManager.get_or_create_by_uid` */
    method GetOrCreateObjectPermissionByUid(uid: string) returns (r: Result<(ObjectPermission, bool), Error>)
      modifies this
      ensures var e := ObjectPermissionUpsertByUid(old(Snapshot()), uid);
              r == e.result && Snapshot() == e.after
    {
      var e := ObjectPermissionUpsertByUid(Snapshot(), uid);
      Apply(e.after);
      r := e.result;
    }

    /** `op.users.add(u)`: adding a user already present changes nothing. */
    method AddUser(op: ObjectPermission, u: UserId)
      requires op in objectPermissions
      modifies this`objectPermissions
      ensures Snapshot() == AddGrantee(old(Snapshot()), op, u)
    {
      var g := objectPermissions[op];
      objectPermissions := objectPermissions[op := g.(users := g.users + {u})];
    }

    /** `Group.objects.get_or_create(name=name)` */
    method GetOrCreateGroup(name: string) returns (created: bool)
      modifies this`groups
      ensures Snapshot() == old(Snapshot()).(groups := old(groups) + {name})
      ensures created <==> name !in old(groups)
    {
      created := name !in groups;
      groups := groups + {name};
    }

    /** `user.groups.add(group)` */
    method AddMembership(u: UserId, group: string)
      requires group in groups
      modifies this`memberships
      ensures Snapshot() == JoinGroup(old(Snapshot()), u, group)
    {
      memberships := memberships[u := UserGroups(Snapshot(), u) + {group}];
    }
  }
}
