/** The template tags of djangoerp/menus/templatetags/menus.py: which links
    of a menu a user may follow, the `menu` tag's arguments, the user's
    bookmarks menu, and the link that best matches the current URL. */
module MenuTags {
  import opened Wrappers
  import opened Text
  import opened Models
  import opened MenuUtils

  // ---------------------------------------------------------------------
  // Link authorization in `_render_menu`
  // ---------------------------------------------------------------------

  /** The user in the template context: `is_staff`, `is_superuser`,
      `is_authenticated()` and the answers of `has_perm`. */
  datatype Viewer = Viewer(isStaff: bool, isSuperuser: bool, isAuthenticated: bool, hasPerm: string -> bool)

  /** A link of a menu as `_render_menu` loads and updates it. The
      restrictions are fixed; the texts are rendered and `authorized` is
      set in place. */
  class LinkRow {
    var title: string
    var url: string
    var description: Option<string>
    var authorized: bool
    const onlyAuthenticated: bool
    const onlyStaff: bool
    const onlyWithPerms: seq<Permission>

    constructor (title: string, url: string, description: Option<string>, onlyAuthenticated: bool, onlyStaff: bool, onlyWithPerms: seq<Permission>)
      ensures this.title == title && this.url == url && this.description == description && !authorized
      ensures this.onlyAuthenticated == onlyAuthenticated && this.onlyStaff == onlyStaff && this.onlyWithPerms == onlyWithPerms
    {
      this.title, this.url, this.description, authorized := title, url, description, false;
      this.onlyAuthenticated, this.onlyStaff, this.onlyWithPerms := onlyAuthenticated, onlyStaff, onlyWithPerms;
    }
  }

  /** The permission uids a link requires. */
  function RequiredPerms(perms: seq<Permission>): (uids: seq<string>)
    ensures |uids| == |perms|
    ensures forall k :: 0 <= k < |perms| ==> uids[k] == PermissionUid(perms[k])
  {
    seq(|perms|, k requires 0 <= k < |perms| => PermissionUid(perms[k]))
  }

  /** The value `_render_menu` gives `link.authorized`. Staff and
      superusers may follow every link; otherwise a link for authenticated
      users is closed to anonymous ones, a staff link is closed, and any
      other link needs every permission it lists (`has_perms`). */
  predicate Authorized(viewer: Viewer, onlyAuthenticated: bool, onlyStaff: bool, perms: seq<Permission>)
  {
    if viewer.isStaff || viewer.isSuperuser then true
    else if onlyAuthenticated && !viewer.isAuthenticated then false
    else if onlyStaff then false
    else forall p :: p in RequiredPerms(perms) ==> viewer.hasPerm(p)
  }

  /** The rule stated case by case: staff and superusers see everything;
      for anyone else a staff link is closed, an authenticated-only link
      is closed to anonymous users, and otherwise the link is open iff the
      user holds every listed permission. */
  lemma AuthorizedCases(viewer: Viewer, onlyAuthenticated: bool, onlyStaff: bool, perms: seq<Permission>)
    ensures viewer.isStaff || viewer.isSuperuser ==> Authorized(viewer, onlyAuthenticated, onlyStaff, perms)
    ensures !viewer.isStaff && !viewer.isSuperuser && onlyStaff ==> !Authorized(viewer, onlyAuthenticated, onlyStaff, perms)
    ensures !viewer.isStaff && !viewer.isSuperuser && onlyAuthenticated && !viewer.isAuthenticated
            ==> !Authorized(viewer, onlyAuthenticated, onlyStaff, perms)
    ensures !viewer.isStaff && !viewer.isSuperuser && !onlyStaff && (viewer.isAuthenticated || !onlyAuthenticated)
            ==> (Authorized(viewer, onlyAuthenticated, onlyStaff, perms)
                 <==> forall k :: 0 <= k < |perms| ==> viewer.hasPerm(PermissionUid(perms[k])))
  {
    var uids := RequiredPerms(perms);
    if forall k :: 0 <= k < |perms| ==> viewer.hasPerm(PermissionUid(perms[k])) {
      forall p | p in uids ensures viewer.hasPerm(p) {
        var k :| 0 <= k < |uids| && uids[k] == p;
      }
    }
  }

  /** What `_render_menu` returns: "" or the menu template rendered with
      the slug and the links. */
  datatype MenuOutput = Blank | Rendered(template: string, slug: string, links: seq<LinkRow>)

  /** The template name with every double and single quote removed. */
  function Unquote(template: string): (r: string)
    ensures '"' !in r && '\'' !in r
    ensures |r| <= |template|
  {
    var once := Replace(template, "\"", "");
    RemoveCharAll(template, '"');
    RemoveCharAll(once, '\'');
    FilterKeepsAbsent(once, '\'', '"');
    Replace(once, "'", "")
  }

  /** Unquoting a name that has no quote leaves it as it is. */
  lemma UnquotePlain(template: string)
    requires '"' !in template && '\'' !in template
    ensures Unquote(template) == template
  {
    ContainsChar(template, '"');
    ReplaceAbsent(template, "\"", "");
    ContainsChar(template, '\'');
    ReplaceAbsent(template, "'", "");
  }

  /** `_render_menu(slug, context, html_template)`. `links` is None when
      there is no menu with that slug. Each link is authorized for the
      viewer and its texts rendered with `render`; a missing menu or one
      without links gives "". */
  method RenderMenu(slug: string, links: Option<seq<LinkRow>>, viewer: Viewer, render: string -> string, template: string)
    returns (out: MenuOutput)
    requires links.Some? ==> forall i, j :: 0 <= i < j < |links.value| ==> links.value[i] != links.value[j]
    modifies if links.Some? then set l | l in links.value else {}
    ensures links.None? || links.value == [] ==> out == Blank
    ensures links.Some? && links.value != [] ==> out == Rendered(Unquote(template), slug, links.value)
    ensures links.Some? ==> forall l :: l in links.value ==>
              && l.authorized == Authorized(viewer, l.onlyAuthenticated, l.onlyStaff, l.onlyWithPerms)
              && l.title == render(old(l.title))
              && l.url == render(old(l.url))
              && l.description == (if old(l.description).Some? && old(l.description).value != "" then Some(render(old(l.description).value)) else old(l.description))
  {
    if links.None? {
      return Blank;
    }
    var rows := links.value;
    var i := 0;
    while i < |rows|
      invariant 0 <= i <= |rows|
      invariant forall k :: 0 <= k < i ==>
                  RenderedLink(rows[k], viewer, render, old(rows[k].title), old(rows[k].url), old(rows[k].description))
      invariant forall k :: i <= k < |rows| ==>
                  rows[k].title == old(rows[k].title) && rows[k].url == old(rows[k].url) && rows[k].description == old(rows[k].description)
    {
      RenderLink(rows[i], viewer, render);
      i := i + 1;
    }
    if rows == [] {
      return Blank;
    }
    return Rendered(Unquote(template), slug, rows);
  }

  /** A link after the loop body: authorized by the rule, its texts
      rendered from `title`, `url` and `description`. */
  ghost predicate RenderedLink(l: LinkRow, viewer: Viewer, render: string -> string, title: string, url: string, description: Option<string>)
    reads l
  {
    && l.authorized == Authorized(viewer, l.onlyAuthenticated, l.onlyStaff, l.onlyWithPerms)
    && l.title == render(title)
    && l.url == render(url)
    && l.description == (if description.Some? && description.value != "" then Some(render(description.value)) else description)
  }

  /** The body of the loop of `_render_menu` for one link. */
  method RenderLink(link: LinkRow, viewer: Viewer, render: string -> string)
    modifies link
    ensures RenderedLink(link, viewer, render, old(link.title), old(link.url), old(link.description))
  {
    var perms := RequiredPerms(link.onlyWithPerms);
    link.authorized := true;
    link.title := render(link.title);
    if link.description.Some? && link.description.value != "" {
      link.description := Some(render(link.description.value));
    }
    link.url := render(link.url);
    if !(viewer.isStaff || viewer.isSuperuser) {
      if link.onlyAuthenticated && !viewer.isAuthenticated {
        link.authorized := false;
      } else if link.onlyStaff && !(viewer.isStaff || viewer.isSuperuser) {
        link.authorized := false;
      } else {
        link.authorized := forall p :: p in perms ==> viewer.hasPerm(p);
      }
    }
  }

  // ---------------------------------------------------------------------
  // The `menu` tag and `render_user_bookmarks`
  // ---------------------------------------------------------------------

  /** The template argument of a `menu` node: the default name, or the
      third token as written. `render` resolves only a `template.Variable`,
      which the compiled filter expression is not, so the token text itself
      reaches `_render_menu`, which strips its quotes. */
  datatype TemplateArg = Literal(name: string) | Token(text: string)

  datatype MenuNode = MenuNode(slug: string, template: TemplateArg)

  const DefaultMenuTemplate: string := "menus/menu.html"

  /** The `menu` tag: `{% menu slug [template] %}`. Without a slug the tag
      is a syntax error naming the tag; arguments after the template are
      ignored. */
  function ParseMenuTag(bits: seq<string>): (r: Result<MenuNode, string>)
    requires |bits| >= 1
    ensures r.Err? <==> |bits| < 2
    ensures r.Err? ==> r.error == bits[0]
    ensures r.Ok? ==> r.value.slug == bits[1]
    ensures |bits| == 2 ==> r == Ok(MenuNode(bits[1], Literal(DefaultMenuTemplate)))
    ensures |bits| > 2 ==> r == Ok(MenuNode(bits[1], Token(bits[2])))
  {
    if |bits| < 2 then Err(bits[0])
    else if |bits| == 2 then Ok(MenuNode(bits[1], Literal(DefaultMenuTemplate)))
    else Ok(MenuNode(bits[1], Token(bits[2])))
  }

  /** Arguments past the template do not change the node. */
  lemma ParseMenuTagIgnoresExtra(bits: seq<string>, extra: seq<string>)
    requires |bits| >= 3
    ensures ParseMenuTag(bits + extra) == ParseMenuTag(bits)
  {
  }

  /** `render_user_bookmarks`: the slug of the menu rendered for the
      context's user, or None (output "") for a user who is not a saved
      user model instance (`pk` None or 0). */
  function UserBookmarksMenu(userPk: Option<nat>): (slug: Option<string>)
    ensures slug.Some? <==> userPk.Some? && userPk.value != 0
    ensures slug.Some? ==> slug.value == BookmarksSlug("User", userPk.value)
  {
    if userPk.Some? && userPk.value != 0 then
      UserBookmarksSlug(userPk.value);
      Some("user_" + NatToString(userPk.value) + "_bookmarks")
    else None
  }

  // ---------------------------------------------------------------------
  // `score_link` and `best_match`
  // ---------------------------------------------------------------------

  /** A menu as `best_match` walks it: its links in order, each with its
      id, its rendered URL and its submenu. */
  datatype MenuTree = MenuTree(links: seq<Link>)
  datatype Link = Link(id: nat, url: string, submenu: Option<MenuTree>)

  /** The running best: the score (characters of the reference URL left
      over) and the id of the matched top-level link. */
  datatype Best = Best(score: nat, matched: Option<nat>)

  /** The score of `url` against `refUrl` if it is a prefix of it. */
  function Score(url: string, refUrl: string): (r: Option<nat>)
    ensures r.Some? <==> StartsWith(refUrl, url)
    ensures r.Some? ==> r.value == |refUrl| - |url|
  {
    if StartsWith(refUrl, url) then Some(|refUrl| - |url|) else None
  }

  /** `parent or l` */
  function Credit(parent: Option<nat>, l: Link): nat {
    if parent.Some? then parent.value else l.id
  }

  /** The loop of `best_match` over the links of `menu` from the `i`-th on:
      a link whose URL scores strictly better becomes the best (credited to
      `parent` when there is one) and its submenu is skipped; any other
      link's submenu is searched with that link as the parent. */
  function BestFrom(menu: MenuTree, i: nat, parent: Option<nat>, refUrl: string, best: Best): Best
    requires i <= |menu.links|
    decreases menu, |menu.links| - i
  {
    if i == |menu.links| then best
    else
      var l := menu.links[i];
      var s := Score(l.url, refUrl);
      if s.Some? && s.value < best.score then
        BestFrom(menu, i + 1, parent, refUrl, Best(s.value, Some(Credit(parent, l))))
      else
        var below := if l.submenu.Some? then BestFrom(l.submenu.value, 0, Some(Credit(parent, l)), refUrl, best) else best;
        BestFrom(menu, i + 1, parent, refUrl, below)
  }

  /** `best_match(menu, parent, score, matched_link)`, rebinding the score
      and the match as it goes through the links. */
  method BestMatch(menu: Option<MenuTree>, parent: Option<nat>, refUrl: string, start: Best) returns (best: Best)
    ensures menu.None? ==> best == start
    ensures menu.Some? ==> best == BestFrom(menu.value, 0, parent, refUrl, start)
    decreases menu
  {
    best := start;
    if menu.None? {
      return;
    }
    var tree := menu.value;
    var i := 0;
    while i < |tree.links|
      invariant 0 <= i <= |tree.links|
      invariant BestFrom(tree, 0, parent, refUrl, start) == BestFrom(tree, i, parent, refUrl, best)
    {
      var l := tree.links[i];
      var s := Score(l.url, refUrl);
      if s.Some? && s.value < best.score {
        best := Best(s.value, Some(Credit(parent, l)));
      } else {
        assert l in tree.links;
        best := BestMatch(l.submenu, Some(Credit(parent, l)), refUrl, best);
      }
      i := i + 1;
    }
  }

  /** Some link of `menu` from the `i`-th on, or of one of their submenus,
      has a URL scoring exactly `score` against `refUrl`. */
  predicate SomeLinkScores(menu: MenuTree, i: nat, refUrl: string, score: nat)
    decreases menu
  {
    exists k :: i <= k < |menu.links|
      && (|| Score(menu.links[k].url, refUrl) == Some(score)
          || (menu.links[k].submenu.Some? && SomeLinkScores(menu.links[k].submenu.value, 0, refUrl, score)))
  }

  /** The search never worsens the score. A lower score comes from a link of
      the menu or a submenu whose URL is a prefix of the reference URL
      leaving exactly that many characters; the match is then the parent,
      or a top-level link of the menu. */
  lemma {:induction false} BestFromImproves(menu: MenuTree, i: nat, parent: Option<nat>, refUrl: string, best: Best)
    requires i <= |menu.links|
    ensures var r := BestFrom(menu, i, parent, refUrl, best);
            && r.score <= best.score
            && (r.score == best.score ==> r.matched == best.matched)
            && (r.score < best.score ==> r.matched.Some? && SomeLinkScores(menu, i, refUrl, r.score))
            && (r.score < best.score && parent.Some? ==> r.matched == parent)
            && (r.score < best.score && parent.None? ==> exists k :: i <= k < |menu.links| && r.matched == Some(menu.links[k].id))
    decreases menu, |menu.links| - i
  {
    if i < |menu.links| {
      var l := menu.links[i];
      var s := Score(l.url, refUrl);
      if s.Some? && s.value < best.score {
        var next := Best(s.value, Some(Credit(parent, l)));
        BestFromImproves(menu, i + 1, parent, refUrl, next);
        var r := BestFrom(menu, i + 1, parent, refUrl, next);
        if r.score < next.score {
          var k :| i + 1 <= k < |menu.links|
            && (|| Score(menu.links[k].url, refUrl) == Some(r.score)
                || (menu.links[k].submenu.Some? && SomeLinkScores(menu.links[k].submenu.value, 0, refUrl, r.score)));
          assert SomeLinkScores(menu, i, refUrl, r.score);
        } else {
          assert Score(menu.links[i].url, refUrl) == Some(r.score);
        }
      } else {
        var below := if l.submenu.Some? then BestFrom(l.submenu.value, 0, Some(Credit(parent, l)), refUrl, best) else best;
        if l.submenu.Some? {
          BestFromImproves(l.submenu.value, 0, Some(Credit(parent, l)), refUrl, best);
        }
        BestFromImproves(menu, i + 1, parent, refUrl, below);
      }
    }
  }

  /** Every link from the `i`-th on is examined: the final score is no
      worse than the score of any of their URLs. */
  lemma {:induction false} BestFromBeatsEveryLink(menu: MenuTree, i: nat, parent: Option<nat>, refUrl: string, best: Best, k: nat)
    requires i <= k < |menu.links| && Score(menu.links[k].url, refUrl).Some?
    ensures BestFrom(menu, i, parent, refUrl, best).score <= Score(menu.links[k].url, refUrl).value
    decreases |menu.links| - i
  {
    var l := menu.links[i];
    var s := Score(l.url, refUrl);
    var next := if s.Some? && s.value < best.score then Best(s.value, Some(Credit(parent, l)))
                else if l.submenu.Some? then BestFrom(l.submenu.value, 0, Some(Credit(parent, l)), refUrl, best) else best;
    assert BestFrom(menu, i, parent, refUrl, best) == BestFrom(menu, i + 1, parent, refUrl, next);
    if l.submenu.Some? && !(s.Some? && s.value < best.score) {
      BestFromImproves(l.submenu.value, 0, Some(Credit(parent, l)), refUrl, best);
    }
    if k == i {
      if i + 1 < |menu.links| {
        BestFromImproves(menu, i + 1, parent, refUrl, next);
      }
    } else {
      BestFromBeatsEveryLink(menu, i + 1, parent, refUrl, next, k);
    }
  }

  /** With the search starting from the length of the reference URL, a match
      leaves fewer characters than the whole reference URL, and some link of
      the menu or of a submenu has a URL scoring exactly that: a non-empty
      URL. */
  lemma MatchScoreBelowRefLength(menu: MenuTree, refUrl: string)
    ensures var r := BestFrom(menu, 0, None, refUrl, Best(|refUrl|, None));
            r.matched.Some? ==> r.score < |refUrl| && SomeLinkScores(menu, 0, refUrl, r.score)
  {
    BestFromImproves(menu, 0, None, refUrl, Best(|refUrl|, None));
  }

  /** Every link of `menu` or of its submenus whose URL is a prefix of
      `refUrl` has an empty URL. */
  ghost predicate OnlyEmptyPrefixes(menu: MenuTree, refUrl: string)
    decreases menu
  {
    forall k :: 0 <= k < |menu.links| ==>
      && (StartsWith(refUrl, menu.links[k].url) ==> menu.links[k].url == [])
      && (menu.links[k].submenu.Some? ==> OnlyEmptyPrefixes(menu.links[k].submenu.value, refUrl))
  }

  /** Where only empty URLs are prefixes, no link scores below the length
      of the reference URL. */
  lemma {:induction false} NoScoreBelowRefLength(menu: MenuTree, i: nat, refUrl: string, score: nat)
    requires OnlyEmptyPrefixes(menu, refUrl)
    ensures score < |refUrl| ==> !SomeLinkScores(menu, i, refUrl, score)
    decreases menu
  {
    forall k | i <= k < |menu.links| && menu.links[k].submenu.Some?
      ensures score < |refUrl| ==> !SomeLinkScores(menu.links[k].submenu.value, 0, refUrl, score)
    {
      assert menu.links[k] in menu.links;
      NoScoreBelowRefLength(menu.links[k].submenu.value, 0, refUrl, score);
    }
  }

  /** A link with an empty URL is never the match: when every link that is
      a prefix of the reference URL has an empty URL, nothing is matched. */
  lemma EmptyUrlsNeverMatch(menu: MenuTree, refUrl: string)
    requires OnlyEmptyPrefixes(menu, refUrl)
    ensures BestFrom(menu, 0, None, refUrl, Best(|refUrl|, None)).matched.None?
  {
    var r := BestFrom(menu, 0, None, refUrl, Best(|refUrl|, None));
    MatchScoreBelowRefLength(menu, refUrl);
    NoScoreBelowRefLength(menu, 0, refUrl, r.score);
  }

  /** In a menu without submenus, ties go to the earliest link: the match
      is the first link whose URL reaches the best score. */
  lemma {:induction false} FlatMenuFirstBestWins(menu: MenuTree, i: nat, refUrl: string, best: Best, k: nat)
    requires forall j :: 0 <= j < |menu.links| ==> menu.links[j].submenu.None?
    requires i <= k < |menu.links|
    requires Score(menu.links[k].url, refUrl).Some?
    requires Score(menu.links[k].url, refUrl).value == BestFrom(menu, i, None, refUrl, best).score < best.score
    requires forall j :: i <= j < k ==> Score(menu.links[j].url, refUrl).None? || Score(menu.links[j].url, refUrl).value > Score(menu.links[k].url, refUrl).value
    ensures BestFrom(menu, i, None, refUrl, best).matched == Some(menu.links[k].id)
    decreases |menu.links| - i
  {
    var l := menu.links[i];
    var s := Score(l.url, refUrl);
    if s.Some? && s.value < best.score {
      var next := Best(s.value, Some(l.id));
      if k == i {
        BestFromImproves(menu, i + 1, None, refUrl, next);
      } else {
        BestFromImproves(menu, i + 1, None, refUrl, next);
        FlatMenuFirstBestWins(menu, i + 1, refUrl, next, k);
      }
    } else {
      FlatMenuFirstBestWins(menu, i + 1, refUrl, best, k);
    }
  }

  /** `score_link(context, link, ref_url, css_class)`: the class when the
      link is the best match in its menu for the reference URL, else "". */
  method ScoreLink(menu: MenuTree, linkId: nat, refUrl: string, cssClass: string) returns (r: string)
    ensures var found := BestFrom(menu, 0, None, refUrl, Best(|refUrl|, None)).matched;
            r == if found == Some(linkId) then cssClass else ""
  {
    var best := BestMatch(Some(menu), None, refUrl, Best(|refUrl|, None));
    if best.matched == Some(linkId) {
      return cssClass;
    }
    return "";
  }
}
