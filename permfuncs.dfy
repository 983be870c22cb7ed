/** The `user_has_perm` template filter of
    djangoerp/core/templatetags/permfuncs.py: the user held in the
    current-user slot is asked about a permission at class level and then on
    the object, backend by backend, and the first yes wins. */
module PermFuncs {
  import opened Wrappers
  import opened Text
  import opened Backends

  /** An installed authentication backend as the filter sees it: one without
      a `has_perm` attribute, or the answers of its `has_perm` for the slot's
      current user, given the permission and the object (None for a
      class-level question). */
  datatype Backend = NoHasPerm | HasPermFn(answer: (string, Option<nat>) -> bool)

  /** One call of `backend.has_perm`: which backend, and whether the object
      was passed. The calls matter because `has_perm` may fill caches. */
  datatype Call = Call(backend: nat, withObject: bool)

  /** The answer of the filter together with the calls it made. */
  datatype Outcome = Outcome(granted: bool, calls: seq<Call>)

  /** Backend `b` says yes at class level or on `obj`. */
  predicate Grants(b: Backend, perm: string, obj: Option<nat>) {
    b.HasPermFn? && (b.answer(perm, None) || b.answer(perm, obj))
  }

  /** The loop of `user_has_perm` from backend `i` on: its answer and the
      calls it makes, class level first, stopping at the first yes. */
  function Scan(backends: seq<Backend>, perm: string, obj: Option<nat>, i: nat): Outcome
    requires i <= |backends|
    decreases |backends| - i
  {
    if i == |backends| then Outcome(false, [])
    else match backends[i]
      case NoHasPerm => Scan(backends, perm, obj, i + 1)
      case HasPermFn(answer) =>
        if answer(perm, None) then Outcome(true, [Call(i, false)])
        else if answer(perm, obj) then Outcome(true, [Call(i, false), Call(i, true)])
        else
          var rest := Scan(backends, perm, obj, i + 1);
          Outcome(rest.granted, [Call(i, false), Call(i, true)] + rest.calls)
  }

  /** The answer of a call made by the filter. */
  function CallAnswer(backends: seq<Backend>, perm: string, obj: Option<nat>, c: Call): bool
    requires c.backend < |backends| && backends[c.backend].HasPermFn?
  {
    backends[c.backend].answer(perm, if c.withObject then obj else None)
  }

  /** The filter says yes iff some backend with `has_perm` from `i` on says
      yes at class level or on the object. */
  lemma {:induction false} ScanGrantsIff(backends: seq<Backend>, perm: string, obj: Option<nat>, i: nat)
    requires i <= |backends|
    ensures Scan(backends, perm, obj, i).granted <==> exists j :: i <= j < |backends| && Grants(backends[j], perm, obj)
    decreases |backends| - i
  {
    if i < |backends| {
      ScanGrantsIff(backends, perm, obj, i + 1);
      if Grants(backends[i], perm, obj) {
        assert Scan(backends, perm, obj, i).granted;
      } else {
        assert Scan(backends, perm, obj, i).granted == Scan(backends, perm, obj, i + 1).granted;
        forall j | i <= j < |backends| && Grants(backends[j], perm, obj)
          ensures i + 1 <= j
        {
        }
      }
    }
  }

  /** One step of the scan past a backend that does not decide. */
  lemma ScanStep(backends: seq<Backend>, perm: string, obj: Option<nat>, i: nat)
    requires i < |backends| && !Grants(backends[i], perm, obj)
    ensures var rest := Scan(backends, perm, obj, i + 1);
            Scan(backends, perm, obj, i)
            == if backends[i].HasPermFn? then Outcome(rest.granted, [Call(i, false), Call(i, true)] + rest.calls) else rest
  {
  }

  /** The calls go to backends with `has_perm` only, from `i` on, in
      increasing order. */
  lemma {:induction false} ScanCallsTargets(backends: seq<Backend>, perm: string, obj: Option<nat>, i: nat)
    requires i <= |backends|
    ensures var calls := Scan(backends, perm, obj, i).calls;
            && (forall k :: 0 <= k < |calls| ==> i <= calls[k].backend < |backends| && backends[calls[k].backend].HasPermFn?)
            && (forall k :: 0 < k < |calls| ==> calls[k - 1].backend <= calls[k].backend)
    decreases |backends| - i
  {
    if i < |backends| {
      ScanCallsTargets(backends, perm, obj, i + 1);
      if !Grants(backends[i], perm, obj) {
        ScanStep(backends, perm, obj, i);
        var rest := Scan(backends, perm, obj, i + 1).calls;
        if backends[i].HasPermFn? {
          var calls := [Call(i, false), Call(i, true)] + rest;
          forall k | 2 <= k < |calls| ensures calls[k] == rest[k - 2] { }
        }
      }
    }
  }

  /** Each object-level call follows the class-level call to the same
      backend; every call but the last says no, and the filter says yes iff
      the last call does. */
  lemma ScanCallAnswers(backends: seq<Backend>, perm: string, obj: Option<nat>, i: nat)
    requires i <= |backends|
    ensures var out := Scan(backends, perm, obj, i);
            var calls := out.calls;
            && (forall k :: 0 <= k < |calls| ==> calls[k].backend < |backends| && backends[calls[k].backend].HasPermFn?)
            && (forall k :: 0 <= k < |calls| && calls[k].withObject ==> 0 < k && calls[k - 1] == Call(calls[k].backend, false))
            && (forall k :: 0 <= k < |calls| - 1 ==> !CallAnswer(backends, perm, obj, calls[k]))
            && (out.granted <==> |calls| > 0 && CallAnswer(backends, perm, obj, calls[|calls| - 1]))
  {
    ScanCallsTargets(backends, perm, obj, i);
    ScanCallPairs(backends, perm, obj, i);
    ScanCallsRefuse(backends, perm, obj, i);
  }

  /** An object-level call comes right after the class-level call to the
      same backend. */
  lemma {:induction false} ScanCallPairs(backends: seq<Backend>, perm: string, obj: Option<nat>, i: nat)
    requires i <= |backends|
    ensures var calls := Scan(backends, perm, obj, i).calls;
            forall k :: 0 <= k < |calls| && calls[k].withObject ==> 0 < k && calls[k - 1] == Call(calls[k].backend, false)
    decreases |backends| - i
  {
    if i < |backends| {
      ScanCallPairs(backends, perm, obj, i + 1);
      if !Grants(backends[i], perm, obj) {
        ScanStep(backends, perm, obj, i);
        var rest := Scan(backends, perm, obj, i + 1);
        if backends[i].HasPermFn? {
          var calls := [Call(i, false), Call(i, true)] + rest.calls;
          forall k | 2 <= k < |calls| ensures calls[k] == rest.calls[k - 2] { }
        }
      }
    }
  }

  /** Every call but the last says no, and the filter says yes iff the last
      call does. */
  lemma {:induction false} ScanCallsRefuse(backends: seq<Backend>, perm: string, obj: Option<nat>, i: nat)
    requires i <= |backends|
    ensures var out := Scan(backends, perm, obj, i);
            var calls := out.calls;
            && (forall k :: 0 <= k < |calls| ==> calls[k].backend < |backends| && backends[calls[k].backend].HasPermFn?)
            && (forall k :: 0 <= k < |calls| - 1 ==> !CallAnswer(backends, perm, obj, calls[k]))
            && (out.granted <==> |calls| > 0 && CallAnswer(backends, perm, obj, calls[|calls| - 1]))
    decreases |backends| - i
  {
    ScanCallsTargets(backends, perm, obj, i);
    if i < |backends| {
      ScanCallsRefuse(backends, perm, obj, i + 1);
      if !Grants(backends[i], perm, obj) {
        ScanStep(backends, perm, obj, i);
        var rest := Scan(backends, perm, obj, i + 1);
        if backends[i].HasPermFn? {
          var calls := [Call(i, false), Call(i, true)] + rest.calls;
          forall k | 2 <= k < |calls| ensures calls[k] == rest.calls[k - 2] { }
          assert !CallAnswer(backends, perm, obj, calls[0]);
          assert !CallAnswer(backends, perm, obj, calls[1]);
          if |rest.calls| > 0 {
            assert calls[|calls| - 1] == rest.calls[|rest.calls| - 1];
          }
        }
      }
    }
  }

  /** `user_has_perm(obj, perm_name)`, the answers of each backend given for
      the user in the slot. */
  method UserHasPerm(backends: seq<Backend>, perm: string, obj: Option<nat>) returns (granted: bool, calls: seq<Call>)
    ensures Outcome(granted, calls) == Scan(backends, perm, obj, 0)
  {
    ghost var whole := Scan(backends, perm, obj, 0);
    calls := [];
    var i := 0;
    while i < |backends|
      invariant 0 <= i <= |backends|
      invariant whole.granted == Scan(backends, perm, obj, i).granted
      invariant whole.calls == calls + Scan(backends, perm, obj, i).calls
    {
      var b := backends[i];
      if b.HasPermFn? {
        if b.answer(perm, None) {
          assert Scan(backends, perm, obj, i) == Outcome(true, [Call(i, false)]);
          return true, calls + [Call(i, false)];
        }
        if b.answer(perm, obj) {
          assert Scan(backends, perm, obj, i) == Outcome(true, [Call(i, false), Call(i, true)]);
          return true, calls + [Call(i, false), Call(i, true)];
        }
        ScanStep(backends, perm, obj, i);
        calls := calls + [Call(i, false), Call(i, true)];
      } else {
        ScanStep(backends, perm, obj, i);
      }
      i := i + 1;
    }
    return false, calls;
  }

  // ---------------------------------------------------------------------
  // The scenario of the template tag test: the slot holds an active user
  // who is not a superuser, with Django's model backend (class-level
  // permissions only) and the object permission backend installed.
  // ---------------------------------------------------------------------

  /** Django's `ModelBackend.has_perm` for an active user holding the
      class-level permission uids `modelPerms`: never yes on an object. */
  function ModelBackend(modelPerms: set<string>): Backend {
    HasPermFn((perm: string, obj: Option<nat>) => obj.None? && perm in modelPerms)
  }

  /** `ObjectPermissionBackend.has_perm` for an active user who is not a
      superuser and holds the object permission uids `grants`. */
  function ObjectBackend(grants: set<string>): Backend {
    HasPermFn((perm: string, obj: Option<nat>) => HasPermDecision(false, true, perm, obj, grants))
  }

  /** Two permission uids of the test, told apart by their sixth character. */
  lemma ActionsDiffer(suffix: string)
    ensures "auth.view_user" + suffix != "auth.change_user" + suffix
    ensures "auth.view_user" + suffix != "auth.delete_user" + suffix
    ensures "auth.change_user" + suffix != "auth.delete_user" + suffix
  {
    assert ("auth.view_user" + suffix)[5] == 'v';
    assert ("auth.change_user" + suffix)[5] == 'c';
    assert ("auth.delete_user" + suffix)[5] == 'd';
  }

  /** With two backends the filter says yes iff one of them does. */
  lemma ScanTwo(first: Backend, second: Backend, perm: string, obj: Option<nat>)
    ensures Scan([first, second], perm, obj, 0).granted <==> Grants(first, perm, obj) || Grants(second, perm, obj)
  {
    var backends := [first, second];
    ScanGrantsIff(backends, perm, obj, 0);
    if Grants(second, perm, obj) {
      assert Grants(backends[1], perm, obj);
    }
  }

  /** Strings with the same tail are equal iff their heads are. */
  lemma CancelSuffix(a: string, b: string, tail: string)
    ensures a + tail == b + tail <==> a == b
  {
    if a + tail == b + tail {
      assert a == (a + tail)[..|a|];
      assert b == (b + tail)[..|b|];
    }
  }

  /** For an active user who is not a superuser, holding the class-level
      permissions `modelPerms` and the one object grant of `perm` on object
      `pk`, the filter on object `pk` says yes for exactly `perm` and the
      class-level permissions. */
  lemma FilterWithOneObjectGrant(modelPerms: set<string>, perm: string, pk: nat, query: string)
    ensures var backends := [ModelBackend(modelPerms), ObjectBackend({perm + "." + NatToString(pk)})];
            Scan(backends, query, Some(pk), 0).granted <==> query == perm || query in modelPerms
  {
    ScanTwo(ModelBackend(modelPerms), ObjectBackend({perm + "." + NatToString(pk)}), query, Some(pk));
    CancelSuffix(query, perm, "." + NatToString(pk));
    assert query + "." + NatToString(pk) == query + ("." + NatToString(pk));
    assert perm + "." + NatToString(pk) == perm + ("." + NatToString(pk));
  }

  /** With only an object grant for viewing user `pk`, the filter says yes
      for view and no for change and delete; once the class-level change
      permission is added, change is yes as well, and delete stays no. */
  lemma TemplateTagScenario(pk: nat)
    ensures var grants := {"auth.view_user" + "." + NatToString(pk)};
            var before := [ModelBackend({}), ObjectBackend(grants)];
            var after := [ModelBackend({"auth.change_user"}), ObjectBackend(grants)];
            && Scan(before, "auth.view_user", Some(pk), 0).granted
            && !Scan(before, "auth.change_user", Some(pk), 0).granted
            && !Scan(before, "auth.delete_user", Some(pk), 0).granted
            && Scan(after, "auth.view_user", Some(pk), 0).granted
            && Scan(after, "auth.change_user", Some(pk), 0).granted
            && !Scan(after, "auth.delete_user", Some(pk), 0).granted
  {
    ActionsDiffer("");
    FilterWithOneObjectGrant({}, "auth.view_user", pk, "auth.view_user");
    FilterWithOneObjectGrant({}, "auth.view_user", pk, "auth.change_user");
    FilterWithOneObjectGrant({}, "auth.view_user", pk, "auth.delete_user");
    FilterWithOneObjectGrant({"auth.change_user"}, "auth.view_user", pk, "auth.view_user");
    FilterWithOneObjectGrant({"auth.change_user"}, "auth.view_user", pk, "auth.change_user");
    FilterWithOneObjectGrant({"auth.change_user"}, "auth.view_user", pk, "auth.delete_user");
  }
}
