/** Menus and links of djangoerp/menus/models.py: how they display and the
    URL a link points to. */
module MenuModels {
  import opened Wrappers
  import opened Text

  /** A menu: a unique slug and an optional description. */
  datatype Menu = Menu(slug: string, description: Option<string>)

  /** `Menu.__unicode__`: the description or, when it is missing or empty,
      the slug. */
  function MenuLabel(m: Menu): (shown: string)
    ensures m.description.Some? && m.description.value != "" ==> shown == m.description.value
    ensures m.description.None? || m.description == Some("") ==> shown == m.slug
  {
    if m.description.Some? && m.description.value != "" then m.description.value else m.slug
  }

  /** `Link.__unicode__`: "<menu> | <title>". */
  function LinkLabel(menu: Menu, title: string): (shown: string)
    ensures StartsWith(shown, MenuLabel(menu)) && EndsWith(shown, title)
    ensures |shown| == |MenuLabel(menu)| + 3 + |title|
    ensures shown[|MenuLabel(menu)|..|shown| - |title|] == " | "
  {
    var head := MenuLabel(menu);
    var shown := head + " | " + title;
    assert shown[|head|..|shown| - |title|] == " | ";
    shown
  }

  /** `Link.get_absolute_url`: a URL starting with "www." gets the
      "http://" scheme; any other URL is returned as it is. */
  function AbsoluteUrl(url: string): (r: string)
    ensures StartsWith(url, "www.") ==> r == "http://" + url
    ensures !StartsWith(url, "www.") ==> r == url
  {
    if StartsWith(url, "www.") then "http://" + url else url
  }

  /** An absolute URL is already absolute: applying `get_absolute_url` to
      its own result changes nothing. */
  lemma AbsoluteUrlIdempotent(url: string)
    ensures AbsoluteUrl(AbsoluteUrl(url)) == AbsoluteUrl(url)
  {
    if StartsWith(url, "www.") {
      assert ("http://" + url)[0] == 'h';
    }
  }
}

/** The bookmark and menu helpers of djangoerp/menus/utils.py. */
module MenuUtils {
  import opened Wrappers
  import opened Text
  import opened Models
  import opened Managers
  import opened Backends
  import opened UserCache

  /** The menu table: slug to description (None for a null description). */
  type MenuTable = map<string, Option<string>>

  /** The result of `Menu.objects.get_or_create(slug=..., description=...)`:
      whether a row was created, or the error, and the table after it. */
  datatype MenuEffect = MenuEffect(result: Result<bool, Error>, after: MenuTable)

  /** Django's `get_or_create` with both fields as the lookup: a row with
      that slug and description is found; otherwise one is inserted, which
      clashes with the unique slug when the slug is taken by a row with
      another description. */
  function MenuGetOrCreate(menus: MenuTable, slug: string, description: string): (e: MenuEffect)
    ensures e.result.Ok? ==> e.after == menus[slug := Some(description)]
    ensures e.result.Ok? ==> (e.result.value <==> slug !in menus)
    ensures e.result.Err? <==> slug in menus && menus[slug] != Some(description)
    ensures e.result.Err? ==> e.result.error == IntegrityError && e.after == menus
  {
    if slug in menus && menus[slug] == Some(description) then MenuEffect(Ok(false), menus)
    else if slug in menus then MenuEffect(Err(IntegrityError), menus)
    else MenuEffect(Ok(true), menus[slug := Some(description)])
  }

  /** A second identical `get_or_create` finds the row the first one left. */
  lemma MenuGetOrCreateIdempotent(menus: MenuTable, slug: string, description: string)
    requires MenuGetOrCreate(menus, slug, description).result.Ok?
    ensures var first := MenuGetOrCreate(menus, slug, description);
            MenuGetOrCreate(first.after, slug, description) == MenuEffect(Ok(false), first.after)
  {
  }

  /** The slug of the bookmarks menu of an instance of class `className`
      with primary key `pk`. */
  function BookmarksSlug(className: string, pk: nat): string {
    Lower(className) + "_" + NatToString(pk) + "_bookmarks"
  }

  function BookmarksDescription(className: string, pk: nat): string {
    "Bookmarks for " + className + ":" + NatToString(pk)
  }

  /** The slug `get_bookmarks_for` looks up is the one `create_bookmarks`
      builds for an instance of the class `User`. */
  lemma UserBookmarksSlug(pk: nat)
    ensures BookmarksSlug("User", pk) == "user_" + NatToString(pk) + "_bookmarks"
  {
    assert Lower("User") == "user";
  }

  /** The menus, held in place and changed by the helpers. */
  class MenuStore {
    var menus: MenuTable

    constructor (menus: MenuTable)
      ensures this.menus == menus
    {
      this.menus := menus;
    }

    /** `Menu.objects.get_or_create(slug=slug, description=description)` */
    method GetOrCreate(slug: string, description: string) returns (r: Result<bool, Error>)
      modifies this
      ensures var e := MenuGetOrCreate(old(menus), slug, description);
              r == e.result && menus == e.after
    {
      var e := MenuGetOrCreate(menus, slug, description);
      menus := e.after;
      r := e.result;
    }
  }

  /** `create_bookmarks(instance)`. `asUser` is the instance when it is a
      user, and null otherwise. The slot is set to that user while the menu
      is got or created (`during` is the slot then) and set back afterwards;
      the set-back is not in a `finally` block, so when the creation raises
      the slot keeps the swapped user. */
  method CreateBookmarks(store: MenuStore, slot: LoggedInUserCache, className: string, pk: nat, asUser: User?)
    returns (r: Result<bool, Error>, during: User?)
    requires asUser != null ==> asUser.pk == pk
    modifies store, slot
    ensures var e := MenuGetOrCreate(old(store.menus), BookmarksSlug(className, pk), BookmarksDescription(className, pk));
            r == e.result && store.menus == e.after
    ensures during == if asUser != null then asUser else old(slot.user)
    ensures r.Ok? ==> slot.user == old(slot.user)
    ensures r.Err? ==> slot.user == during
  {
    var currentUser := slot.CurrentUser();
    if asUser != null {
      slot.user := asUser;
    }
    during := slot.CurrentUser();
    r := store.GetOrCreate(BookmarksSlug(className, pk), BookmarksDescription(className, pk));
    if r.Err? {
      return;
    }
    slot.user := currentUser;
  }

  /** `delete_bookmarks(instance)`: the bookmarks menu is removed if there
      is one; a missing menu is not an error. */
  method DeleteBookmarks(store: MenuStore, className: string, pk: nat)
    modifies store
    ensures store.menus == old(store.menus) - {BookmarksSlug(className, pk)}
  {
    var slug := BookmarksSlug(className, pk);
    if slug in store.menus {
      store.menus := store.menus - {slug};
    }
  }

  /** `get_bookmarks_for(username)`: the user with that username, then the
      menu with slug "user_<pk>_bookmarks"; each lookup fails with
      DoesNotExist when there is no such row. */
  function BookmarksFor(usernames: map<string, UserId>, menus: MenuTable, username: string): (r: Result<string, Error>)
    ensures r.Ok? <==> username in usernames && BookmarksSlug("User", usernames[username]) in menus
    ensures r.Ok? ==> r.value == BookmarksSlug("User", usernames[username])
    ensures r.Err? ==> r.error == DoesNotExist
  {
    if username !in usernames then Err(DoesNotExist)
    else
      var slug := "user_" + NatToString(usernames[username]) + "_bookmarks";
      UserBookmarksSlug(usernames[username]);
      if slug in menus then Ok(slug) else Err(DoesNotExist)
  }

  /** `get_user_of(slug)`: the second '_'-separated field of the slug is
      the user's primary key. Fewer than two fields raise IndexError, a
      field that is not a number ValueError, and an unknown key
      DoesNotExist. */
  function UserOf(users: set<UserId>, slug: string): (r: Result<UserId, Error>)
    ensures r.Ok? ==> r.value in users
    ensures |Split(slug, "_")| < 2 <==> r == Err(IndexError)
    ensures |Split(slug, "_")| >= 2 ==> (r == Err(ValueError) <==> ParseNat(Split(slug, "_")[1]).None?)
    ensures |Split(slug, "_")| >= 2 && ParseNat(Split(slug, "_")[1]).Some? ==>
              && (r.Ok? <==> ParseNat(Split(slug, "_")[1]).value in users)
              && (r.Ok? ==> r.value == ParseNat(Split(slug, "_")[1]).value)
              && (r.Err? ==> r.error == DoesNotExist)
  {
    var fields := Split(slug, "_");
    if |fields| < 2 then Err(IndexError)
    else match ParseNat(fields[1])
      case None => Err(ValueError)
      case Some(pk) => if pk in users then Ok(pk) else Err(DoesNotExist)
  }

  /** For a class name with no '_', `get_user_of` recovers the primary key
      from the slug `create_bookmarks` builds. */
  lemma UserOfBookmarksSlug(users: set<UserId>, className: string, pk: nat)
    requires '_' !in className && pk in users
    ensures UserOf(users, BookmarksSlug(className, pk)) == Ok(pk)
  {
    BookmarksSlugFields(className, pk);
    ParseNatToString(pk);
  }

  /** The fields of a bookmarks slug, for a class name with no '_'. */
  lemma BookmarksSlugFields(className: string, pk: nat)
    requires '_' !in className
    ensures Split(BookmarksSlug(className, pk), "_") == [Lower(className), NatToString(pk), "bookmarks"]
  {
    var name, digits := Lower(className), NatToString(pk);
    LowerKeepsSeparator(className, '_');
    DigitsHaveNo(digits, '_');
    var parts := [name, digits, "bookmarks"];
    JoinThree(name, digits, "bookmarks", "_");
    assert "_bookmarks" == "_" + "bookmarks";
    assert BookmarksSlug(className, pk) == Join(parts, "_");
    assert '_' !in "bookmarks";
    assert forall k :: 0 <= k < |parts| ==> '_' !in parts[k];
    SplitJoinChar(parts, '_');
  }

  lemma JoinThree(a: string, b: string, c: string, sep: string)
    ensures Join([a, b, c], sep) == a + sep + b + sep + c
  {
    JoinCons(a, [b, c], sep);
    JoinCons(b, [c], sep);
  }

  /** A class name with a '_' breaks the round trip: the bookmarks of
      object 5 of class "Sales_Order" are not traced back to user 5. */
  lemma UserOfUnderscoredClass(users: set<UserId>)
    requires 5 in users
    ensures UserOf(users, BookmarksSlug("Sales_Order", 5)) == Err(ValueError)
  {
    UnderscoredSlugFields();
    assert ParseNat("order").None? by {
      assert !IsDigit("order"[0]);
    }
  }

  lemma UnderscoredSlugFields()
    ensures Split(BookmarksSlug("Sales_Order", 5), "_") == ["sales", "order", "5", "bookmarks"]
  {
    var parts := ["sales", "order", "5", "bookmarks"];
    assert Lower("Sales_Order") == "sales_order";
    assert NatToString(5) == "5";
    JoinCons("sales", ["order", "5", "bookmarks"], "_");
    JoinCons("order", ["5", "bookmarks"], "_");
    JoinCons("5", ["bookmarks"], "_");
    assert Join(parts, "_") == BookmarksSlug("Sales_Order", 5);
    assert forall k :: 0 <= k < |parts| ==> '_' !in parts[k];
    SplitJoinChar(parts, '_');
  }

  /** The slugs and descriptions of the per-model menus. */
  function DetailNavigationMenu(className: string): (string, string) {
    (Lower(className) + "_detail_navigation", Capitalize(Lower(className)) + " navigation")
  }

  function DetailActionsMenu(className: string): (string, string) {
    (Lower(className) + "_detail_actions", Capitalize(Lower(className)) + " actions")
  }

  function ListActionsMenu(className: string): (string, string) {
    (Lower(className) + "_list_actions", Capitalize(Lower(className)) + " list actions")
  }

  /** The three per-model menus of a class have three different slugs, so
      creating one never clashes with another. */
  lemma ModelMenuSlugsDistinct(className: string)
    ensures DetailNavigationMenu(className).0 != DetailActionsMenu(className).0
    ensures DetailNavigationMenu(className).0 != ListActionsMenu(className).0
    ensures DetailActionsMenu(className).0 != ListActionsMenu(className).0
  {
    var n := |Lower(className)|;
    assert DetailNavigationMenu(className).0[n + 1] == 'd';
    assert ListActionsMenu(className).0[n + 1] == 'l';
    assert |DetailNavigationMenu(className).0| != |DetailActionsMenu(className).0|;
  }

  /** `create_detail_navigation`, `create_detail_actions` and
      `create_list_actions`: a get-or-create of the menu. */
  method CreateModelMenu(store: MenuStore, menu: (string, string)) returns (r: Result<bool, Error>)
    modifies store
    ensures var e := MenuGetOrCreate(old(store.menus), menu.0, menu.1);
            r == e.result && store.menus == e.after
  {
    r := store.GetOrCreate(menu.0, menu.1);
  }
}
