/** The shared "who is acting" slot of djangoerp/core/cache.py: one
    `LoggedInUserCache` instance, kept by its metaclass, whose `user` field
    the request middleware and the signal handlers read and reassign. */
module UserCache {
  import opened Wrappers
  import opened Models
  import opened Backends

  class LoggedInUserCache {
    var user: User?

    /** The class attribute `user = None` is the initial value. */
    constructor ()
      ensures user == null
    {
      user := null;
    }

    /** `set_user(request)`: only an authenticated request user is stored. */
    method SetUser(requestUser: User)
      modifies this`user
      ensures requestUser.IsAuthenticated() ==> user == requestUser
      ensures !requestUser.IsAuthenticated() ==> user == old(user)
    {
      if requestUser.IsAuthenticated() {
        user := requestUser;
      }
    }

    /** `current_user` */
    function CurrentUser(): User?
      reads this
    {
      user
    }

    /** `has_user` */
    predicate HasUser()
      reads this
    {
      user != null
    }

    /** The primary key of the user in the slot, if any. */
    function Author(): (r: Option<UserId>)
      reads this
      ensures r.Some? <==> HasUser()
      ensures r.Some? ==> r.value == CurrentUser().pk
    {
      if user == null then None else Some(user.pk)
    }
  }

  /** The metaclass `_Singleton`: the class keeps its one instance in
      `instance`, and calling the class returns it, creating it first. */
  class Singleton {
    var instance: LoggedInUserCache?

    constructor ()
      ensures instance == null
    {
      instance := null;
    }

    /** `LoggedInUserCache()` */
    method Call() returns (c: LoggedInUserCache)
      modifies this
      ensures old(instance) != null ==> c == old(instance)
      ensures old(instance) == null ==> fresh(c) && c.user == null
      ensures instance == c
    {
      if instance == null {
        instance := new LoggedInUserCache();
      }
      c := instance;
    }
  }

  /** Every construction returns the same instance, and a fresh slot holds
      no user. */
  method ConstructTwice(cls: Singleton) returns (first: LoggedInUserCache, second: LoggedInUserCache)
    requires cls.instance == null
    modifies cls
    ensures first == second && !first.HasUser()
  {
    first := cls.Call();
    second := cls.Call();
  }

  /** The save / assign / restore pattern the class documents: the slot ends
      as it began, and holds `other` in between. */
  method SaveAssignRestore(slot: LoggedInUserCache, other: User?) returns (during: User?)
    modifies slot
    ensures during == other
    ensures slot.user == old(slot.user)
  {
    var saved := slot.CurrentUser();
    slot.user := other;
    during := slot.CurrentUser();
    slot.user := saved;
  }
}
