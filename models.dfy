/** Permission identities (djangoerp/core/models.py): a class-level
    `Permission` named "<app_label>.<codename>" and an `ObjectPermission`
    that binds it to one object, named "<app_label>.<codename>.<object_id>". */
module Models {
  import opened Text

  /** The primary key of a user row. */
  type UserId = nat

  /** A content type: the application label and the model name of a model class. */
  datatype ContentType = ContentType(appLabel: string, model: string)

  /** A class-level permission row. Rows are unique per (content type, codename). */
  datatype Permission = Permission(contentType: ContentType, codename: string)

  /** A permission bound to the object whose primary key is `objectId`. */
  datatype ObjectPermission = ObjectPermission(perm: Permission, objectId: nat)

  /** The users and the groups (by name) an object permission is granted to. */
  datatype Grantees = Grantees(users: set<UserId>, groups: set<string>)

  /** `Permission.uid` */
  function PermissionUid(p: Permission): (uid: string)
    ensures StartsWith(uid, p.contentType.appLabel + ".") && EndsWith(uid, "." + p.codename)
    ensures |uid| == |p.contentType.appLabel| + 1 + |p.codename|
  {
    var uid := p.contentType.appLabel + "." + p.codename;
    assert uid[..|p.contentType.appLabel| + 1] == p.contentType.appLabel + ".";
    assert uid[|uid| - |"." + p.codename|..] == "." + p.codename;
    uid
  }

  /** `ObjectPermission.uid`: the permission's uid followed by the object id. */
  function ObjectPermissionUid(op: ObjectPermission): (uid: string)
    ensures uid == op.perm.contentType.appLabel + "." + op.perm.codename + "." + NatToString(op.objectId)
  {
    PermissionUid(op.perm) + "." + NatToString(op.objectId)
  }

  /** `ObjectPermission.__unicode__`, given the display text of its permission. */
  function ObjectPermissionLabel(permText: string, objectId: nat): string {
    permText + " | " + NatToString(objectId)
  }

  /** The display text of an object permission ends with its object id: the
      text after its last " | " is the id's numeral. */
  lemma {:induction false} LabelEndsWithObjectId(permText: string, objectId: nat)
    ensures RPartition(ObjectPermissionLabel(permText, objectId), " | ") == (permText, " | ", NatToString(objectId))
  {
    var digits := NatToString(objectId);
    var s := ObjectPermissionLabel(permText, objectId);
    var n := |permText|;
    assert OccursAt(s, " | ", n) by {
      assert s[n..n + 3] == " | ";
    }
    forall j: nat | n < j ensures !OccursAt(s, " | ", j) {
      if j + 3 <= |s| {
        assert s[j..j + 3][1] == s[j + 1];
        if j > n + 1 {
          assert s[j + 1] == digits[j - n - 2];
        }
      }
    }
    var r := LastIndexOf(s, " | ");
    assert r.Some? && r.value == n by {
      assert Contains(s, " | ");
    }
    assert s[..n] == permText;
    assert s[n + 3..] == digits;
  }
}
