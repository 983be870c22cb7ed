/** The request parsing of the list views of djangoerp/core/views.py: list
    prefixes, the selected rows, the page check after a deletion and the
    filter queries. */
module ListViews {
  import opened Wrappers
  import opened Text

  /** The items of a `QueryDict` (request.GET or request.POST) in iteration
      order: each key with its value. */
  type QueryItems = seq<(string, string)>

  /** `QueryDict.get(key)`: the value of the last item with that key. */
  function Lookup(items: QueryItems, key: string): (v: Option<string>)
    ensures v.None? <==> forall i :: 0 <= i < |items| ==> items[i].0 != key
    ensures v.Some? ==> exists i :: 0 <= i < |items| && items[i] == (key, v.value)
  {
    if items == [] then None
    else if items[|items| - 1].0 == key then Some(items[|items| - 1].1)
    else
      var v := Lookup(items[..|items| - 1], key);
      assert forall i :: 0 <= i < |items| - 1 ==> items[..|items| - 1][i] == items[i];
      v
  }

  // ---------------------------------------------------------------------
  // prefixes
  // ---------------------------------------------------------------------

  /** `get_list_prefix`: "<uid>_" for a list with a uid, "" otherwise. */
  function ListPrefix(uid: string): (prefix: string)
    ensures uid == "" ==> prefix == ""
    ensures uid != "" ==> |prefix| == |uid| + 1 && StartsWith(prefix, uid) && prefix[|uid|] == '_'
  {
    if uid != "" then uid + "_" else ""
  }

  /** Two lists have the same prefix only when they have the same uid, so
      the parameters of two lists on one page never mix. */
  lemma ListPrefixInjective(u: string, v: string)
    requires ListPrefix(u) == ListPrefix(v)
    ensures u == v
  {
    if u != "" && v != "" {
      assert u == ListPrefix(u)[..|u|];
    }
  }

  /** The page parameter `paginate_queryset` sets: "<prefix>page". */
  function PageKwarg(uid: string): (name: string)
    ensures EndsWith(name, "page") && name[..|name| - 4] == ListPrefix(uid)
  {
    var name := ListPrefix(uid) + "page";
    assert name[..|name| - 4] == ListPrefix(uid);
    name
  }

  lemma PageKwargInjective(u: string, v: string)
    requires PageKwarg(u) == PageKwarg(v)
    ensures u == v
  {
    ListPrefixInjective(u, v);
  }

  /** Django's default `page_kwarg`. */
  const DefaultPageKwarg: string := "page"

  /** A list view; `pageKwarg` is `self.page_kwarg`, which holds Django's
      default until `paginate_queryset` runs. */
  class ModelListView {
    const listUid: string
    var pageKwarg: string

    constructor (listUid: string)
      ensures this.listUid == listUid && pageKwarg == DefaultPageKwarg
    {
      this.listUid := listUid;
      pageKwarg := DefaultPageKwarg;
    }

    /** `paginate_queryset`: the page parameter becomes the list's own. */
    method PaginateQueryset()
      modifies this
      ensures pageKwarg == PageKwarg(listUid)
    {
      pageKwarg := ListPrefix(listUid) + "page";
    }

    /** The page check after a confirmed deletion, as written: the current
        page is read under `self.page_kwarg`, and the redirect, if any, is
        to that parameter set to the page count. */
    method ConfirmDeleteRedirectAsWritten(get: QueryItems, pageSize: Option<nat>, itemCount: nat)
      returns (r: Result<Option<(string, nat)>, PageError>)
      ensures r == ConfirmDeleteAsWritten(pageKwarg, get, pageSize, itemCount)
    {
      var count := PageCount(itemCount, pageSize);
      if count.Err? {
        return Err(count.error);
      }
      var target := RedirectAsWritten(Lookup(get, pageKwarg), count.value);
      r := Ok(if target.Some? then Some((pageKwarg, target.value)) else None);
    }
  }

  /** In a POST request nothing calls `paginate_queryset` before the page
      check, so a fresh view of a list with a uid looks for the page under
      "page" and misses the list's own "<uid>_page" parameter. */
  lemma PrefixedPageMissed(uid: string, page: string)
    requires uid != ""
    ensures PageKwarg(uid) != DefaultPageKwarg
    ensures Lookup([(PageKwarg(uid), page)], DefaultPageKwarg).None?
  {
    assert |PageKwarg(uid)| > |DefaultPageKwarg|;
  }

  // ---------------------------------------------------------------------
  // selected rows
  // ---------------------------------------------------------------------

  /** What `get_selected_uids` returns: "*" for all rows, or a list of
      primary keys as text. */
  datatype Selection = All | Uids(uids: seq<string>)

  /** A POST item that ticks a row: its key starts with "<prefix>select_" and
      its value is not empty. */
  predicate Ticks(item: (string, string), prefix: string) {
    StartsWith(item.0, prefix + "select_") && item.1 != ""
  }

  /** The text after the last '_' of a key. */
  function UidOf(key: string): (uid: string)
    ensures '_' !in uid && EndsWith(key, uid)
  {
    var r := RPartition(key, "_");
    ContainsChar(r.2, '_');
    assert key == r.0 + r.1 + r.2;
    assert key[|key| - |r.2|..] == r.2;
    r.2
  }

  /** The uids the ticking items give, in item order. */
  function Ticked(items: QueryItems, prefix: string): (uids: seq<string>)
    ensures |uids| <= |items|
  {
    if items == [] then []
    else
      var last := items[|items| - 1];
      Ticked(items[..|items| - 1], prefix) + (if Ticks(last, prefix) then [UidOf(last.0)] else [])
  }

  /** `get_selected_uids` on a POST with these items. */
  function SelectedUids(post: QueryItems, prefix: string): Selection {
    var all := Lookup(post, prefix + "select_all");
    if all.Some? && all.value != "" then All else Uids(Ticked(post, prefix))
  }

  /** A uid is selected iff some ticking item's key ends with it after its
      last '_'. */
  lemma {:induction false} TickedIff(items: QueryItems, prefix: string, uid: string)
    ensures uid in Ticked(items, prefix) <==> exists i :: 0 <= i < |items| && Ticks(items[i], prefix) && UidOf(items[i].0) == uid
  {
    if items != [] {
      var n := |items| - 1;
      var init := items[..n];
      TickedIff(init, prefix, uid);
      assert forall i :: 0 <= i < n ==> init[i] == items[i];
      if exists i :: 0 <= i < |items| && Ticks(items[i], prefix) && UidOf(items[i].0) == uid {
        var i :| 0 <= i < |items| && Ticks(items[i], prefix) && UidOf(items[i].0) == uid;
        if i < n {
          assert Ticks(init[i], prefix) && UidOf(init[i].0) == uid;
        }
      }
    }
  }

  /** The checkbox of row `pk`, named "<prefix>select_<pk>", selects exactly
      that row's key. */
  lemma CheckboxSelectsRow(prefix: string, pk: nat)
    ensures Ticks((prefix + "select_" + NatToString(pk), "on"), prefix)
    ensures UidOf(prefix + "select_" + NatToString(pk)) == NatToString(pk)
  {
    var key := prefix + "select_" + NatToString(pk);
    DigitsHaveNo(NatToString(pk), '_');
    assert key == (prefix + "select") + "_" + NatToString(pk);
    RPartitionAt(prefix + "select", "_", NatToString(pk));
    assert key[..|prefix + "select_"|] == prefix + "select_";
  }

  /** `get_selected_uids(request)` */
  method GetSelectedUids(post: QueryItems, prefix: string) returns (selected: Selection)
    ensures selected == SelectedUids(post, prefix)
  {
    var all := Lookup(post, prefix + "select_all");
    if all.Some? && all.value != "" {
      return All;
    }
    var uids: seq<string> := [];
    var i := 0;
    while i < |post|
      invariant 0 <= i <= |post|
      invariant uids == Ticked(post[..i], prefix)
    {
      assert post[..i + 1][..i] == post[..i];
      var (k, v) := post[i];
      if StartsWith(k, prefix + "select_") && v != "" {
        uids := uids + [UidOf(k)];
      }
      i := i + 1;
    }
    assert post[..i] == post;
    selected := Uids(uids);
  }

  // ---------------------------------------------------------------------
  // page check after a deletion
  // ---------------------------------------------------------------------

  /** Python's errors on `item_count / page_size`: no page size (None), or a
      page size of zero. */
  datatype PageError = TypeError | ZeroDivisionError

  /** `page_count`: the item count divided by the page size, rounded up. */
  function PageCount(itemCount: nat, pageSize: Option<nat>): (r: Result<nat, PageError>)
    ensures pageSize.None? <==> r == Err(TypeError)
    ensures pageSize == Some(0) <==> r == Err(ZeroDivisionError)
    ensures r.Ok? ==> (r.value - 1) * pageSize.value < itemCount <= r.value * pageSize.value
  {
    if pageSize.None? then Err(TypeError)
    else if pageSize.value == 0 then Err(ZeroDivisionError)
    else
      var size := pageSize.value;
      var q := itemCount / size;
      var count := if itemCount % size > 0 then q + 1 else q;
      assert itemCount == q * size + itemCount % size;
      assert (count - 1) * size == count * size - size;
      Ok(count)
  }

  /** A value Python 2 compares: an int, or a str. */
  datatype PyValue = PyInt(i: int) | PyStr(s: string)

  /** Lexicographic order on strings. */
  predicate LexLess(a: string, b: string) {
    (a == [] && b != []) || (a != [] && b != [] && (a[0] < b[0] || (a[0] == b[0] && LexLess(a[1..], b[1..]))))
  }

  /** Python 2's `a > b`: numbers compare by value, strings by their
      characters, and any number is less than any string. */
  predicate PyGreater(a: PyValue, b: PyValue) {
    match (a, b)
    case (PyInt(x), PyInt(y)) => x > y
    case (PyStr(x), PyStr(y)) => LexLess(y, x)
    case (PyStr(_), PyInt(_)) => true
    case (PyInt(_), PyStr(_)) => false
  }

  /** The redirect target of lines 142-150 as written: `curr_page` is the
      GET text, or the int 1 when absent, compared with `>` to the int page
      count. */
  function RedirectAsWritten(currPage: Option<string>, pageCount: nat): (target: Option<nat>)
    ensures currPage.Some? ==> target == Some(pageCount)
    ensures currPage.None? ==> (target.Some? <==> pageCount == 0)
    ensures target.Some? ==> target.value == pageCount
  {
    var current := if currPage.Some? then PyStr(currPage.value) else PyInt(1);
    if PyGreater(current, PyInt(pageCount)) then Some(pageCount) else None
  }

  /** The page the request asks for: 1 when absent, the number when the text
      is one. */
  function RequestedPage(currPage: Option<string>): (page: Option<nat>)
    ensures currPage.None? ==> page == Some(1)
    ensures currPage.Some? ==> page == ParseNat(currPage.value)
  {
    if currPage.None? then Some(1) else ParseNat(currPage.value)
  }

  /** The last page a paginator allowing an empty first page serves. */
  function LastPage(pageCount: nat): (last: nat)
    ensures last >= 1 && last >= pageCount && (pageCount >= 1 ==> last == pageCount)
  {
    if pageCount == 0 then 1 else pageCount
  }

  /** The redirect the check evidently means: when the requested page lies
      past the last page, go to the last page. */
  function RedirectTarget(currPage: Option<string>, pageCount: nat): (target: Option<nat>)
    ensures target.Some? <==> RequestedPage(currPage).Some? && RequestedPage(currPage).value > LastPage(pageCount)
    ensures target.Some? ==> target.value == LastPage(pageCount) && target.value >= 1
  {
    var page := RequestedPage(currPage);
    if page.Some? && page.value > LastPage(pageCount) then Some(LastPage(pageCount)) else None
  }

  /** A page that still exists is never redirected away from, and a
      redirect lands on a page that is not redirected again. */
  lemma RedirectTargetStable(page: nat, pageCount: nat)
    ensures 1 <= page <= LastPage(pageCount) ==> RedirectTarget(Some(NatToString(page)), pageCount).None?
    ensures var t := RedirectTarget(Some(NatToString(page)), pageCount);
            t.Some? ==> RedirectTarget(Some(NatToString(t.value)), pageCount).None?
  {
    ParseNatToString(page);
    ParseNatToString(LastPage(pageCount));
  }

  /** As written, any page given as text is redirected, even a page that
      exists: page "1" of a list that still has two pages goes to page 2. */
  lemma TextPageAlwaysRedirects()
    ensures RedirectAsWritten(Some("1"), 2) == Some(2)
    ensures RedirectTarget(Some("1"), 2).None?
  {
    ParseNatToString(1);
    assert NatToString(1) == "1";
  }

  /** As written, deleting every row of a list shown without a page
      parameter redirects to page 0, which the paginator does not serve. */
  lemma EmptiedListGoesToPageZero()
    ensures RedirectAsWritten(None, 0) == Some(0)
    ensures RedirectTarget(None, 0).None?
  {
  }

  /** The page check after a confirmed deletion as written, with the page
      read under `key`: the redirect, if any, sets `key` to the page count. */
  function ConfirmDeleteAsWritten(key: string, get: QueryItems, pageSize: Option<nat>, itemCount: nat)
    : (r: Result<Option<(string, nat)>, PageError>)
    ensures r.Err? <==> pageSize.None? || pageSize == Some(0)
    ensures r.Ok? && r.value.Some? ==> r.value.value == (key, PageCount(itemCount, pageSize).value)
    ensures r.Ok? && Lookup(get, key).Some? ==> r.value.Some?
  {
    var count := PageCount(itemCount, pageSize);
    if count.Err? then Err(count.error)
    else
      var target := RedirectAsWritten(Lookup(get, key), count.value);
      Ok(if target.Some? then Some((key, target.value)) else None)
  }

  /** The page check with the list's own page parameter and the intended
      comparison. */
  function ConfirmDeleteRedirect(listUid: string, get: QueryItems, pageSize: Option<nat>, itemCount: nat)
    : (r: Result<Option<(string, nat)>, PageError>)
    ensures r.Err? <==> pageSize.None? || pageSize == Some(0)
    ensures r.Ok? && r.value.Some? ==> r.value.value.0 == PageKwarg(listUid)
    ensures r.Ok? ==>
              var last := LastPage(PageCount(itemCount, pageSize).value);
              var page := RequestedPage(Lookup(get, PageKwarg(listUid)));
              (r.value.Some? <==> page.Some? && page.value > last)
              && (r.value.Some? ==> r.value.value.1 == last)
  {
    var key := PageKwarg(listUid);
    var count := PageCount(itemCount, pageSize);
    if count.Err? then Err(count.error)
    else
      var target := RedirectTarget(Lookup(get, key), count.value);
      Ok(if target.Some? then Some((key, target.value)) else None)
  }

  // ---------------------------------------------------------------------
  // filters
  // ---------------------------------------------------------------------

  /** "<prefix>filter_by_" */
  function FilterPrefix(prefix: string): (p: string)
    ensures |p| > 0 && EndsWith(p, "filter_by_")
  {
    var p := prefix + "filter_by_";
    assert p[|p| - 10..] == "filter_by_";
    p
  }

  /** The field of a filter parameter: the key with every occurrence of the
      filter prefix removed. */
  function FilterName(key: string, prefix: string): string {
    Replace(key, FilterPrefix(prefix), "")
  }

  /** A parameter built from a field that does not contain the filter
      prefix gives that field back. */
  lemma FilterNameOfKey(prefix: string, name: string)
    requires !Contains(name, FilterPrefix(prefix))
    ensures FilterName(FilterPrefix(prefix) + name, prefix) == name
  {
    ReplaceLeading(FilterPrefix(prefix), name, "");
    ReplaceAbsent(name, FilterPrefix(prefix), "");
    assert "" + name == name;
  }

  /** A GET item that filters: a non-empty value under a key starting with
      the filter prefix. */
  predicate Filters(item: (string, string), prefix: string) {
    item.1 != "" && StartsWith(item.0, FilterPrefix(prefix))
  }

  /** `get_filter_query_from_get` on these items: each filtering item binds
      its field to its value, a later item overriding an earlier one. */
  function FilterQueryFromGet(items: QueryItems, prefix: string): map<string, string> {
    if items == [] then map[]
    else
      var last := items[|items| - 1];
      var before := FilterQueryFromGet(items[..|items| - 1], prefix);
      if Filters(last, prefix) then before[FilterName(last.0, prefix) := last.1] else before
  }

  /** A field is filtered on iff some filtering item names it, and it is
      bound to the value of one of them; empty values never filter. */
  lemma {:induction false} FilterQueryFromGetIff(items: QueryItems, prefix: string, name: string)
    ensures name in FilterQueryFromGet(items, prefix) <==>
              exists i :: 0 <= i < |items| && Filters(items[i], prefix) && FilterName(items[i].0, prefix) == name
    ensures name in FilterQueryFromGet(items, prefix) ==>
              exists i :: 0 <= i < |items| && Filters(items[i], prefix) && FilterName(items[i].0, prefix) == name
                && FilterQueryFromGet(items, prefix)[name] == items[i].1
  {
    if items != [] {
      var n := |items| - 1;
      var init := items[..n];
      FilterQueryFromGetIff(init, prefix, name);
      assert forall i :: 0 <= i < n ==> init[i] == items[i];
      if Filters(items[n], prefix) && FilterName(items[n].0, prefix) == name {
      } else if name in FilterQueryFromGet(init, prefix) {
        var i :| 0 <= i < n && Filters(init[i], prefix) && FilterName(init[i].0, prefix) == name
                 && FilterQueryFromGet(init, prefix)[name] == init[i].1;
        assert Filters(items[i], prefix);
      }
      if exists i :: 0 <= i < |items| && Filters(items[i], prefix) && FilterName(items[i].0, prefix) == name {
        var i :| 0 <= i < |items| && Filters(items[i], prefix) && FilterName(items[i].0, prefix) == name;
        if i < n {
          assert Filters(init[i], prefix) && FilterName(init[i].0, prefix) == name;
        }
      }
    }
  }

  /** `get_filter_query_from_get()` */
  method GetFilterQueryFromGet(get: QueryItems, prefix: string) returns (query: map<string, string>)
    ensures query == FilterQueryFromGet(get, prefix)
  {
    var filterPrefix := prefix + "filter_by_";
    query := map[];
    var i := 0;
    while i < |get|
      invariant 0 <= i <= |get|
      invariant query == FilterQueryFromGet(get[..i], prefix)
    {
      assert get[..i + 1][..i] == get[..i];
      var (name, value) := get[i];
      if value != "" && StartsWith(name, filterPrefix) {
        query := query[Replace(name, filterPrefix, "") := value];
      }
      i := i + 1;
    }
    assert get[..i] == get;
  }

  /** "<prefix>filter_expr_" */
  function ExprPrefix(prefix: string): string {
    prefix + "filter_expr_"
  }

  /** The lookup a POSTed filter becomes: the field, followed by
      "__<expr>" when "<prefix>filter_expr_<field>" holds a non-empty
      expression. */
  function FilterArg(post: QueryItems, prefix: string, name: string): (arg: string)
    ensures var e := Lookup(post, ExprPrefix(prefix) + name);
            e.Some? && e.value != "" ==> arg == name + "__" + e.value
    ensures var e := Lookup(post, ExprPrefix(prefix) + name);
            e.None? || e.value == "" ==> arg == name
  {
    var e := Lookup(post, ExprPrefix(prefix) + name);
    if e.Some? && e.value != "" then name + "__" + e.value else name
  }

  /** `get_filter_query_from_post` over the first items of the POST `post`:
      every item whose key starts with the filter prefix binds its lookup to
      its value, empty or not. */
  function FilterQueryFromPost(items: QueryItems, post: QueryItems, prefix: string): map<string, string> {
    if items == [] then map[]
    else
      var last := items[|items| - 1];
      var before := FilterQueryFromPost(items[..|items| - 1], post, prefix);
      if StartsWith(last.0, FilterPrefix(prefix)) then before[FilterArg(post, prefix, FilterName(last.0, prefix)) := last.1]
      else before
  }

  /** Unlike the GET query, the POST query keeps filters with empty
      values: every item under the filter prefix gives a lookup. */
  lemma {:induction false} FilterQueryFromPostKeepsAll(items: QueryItems, post: QueryItems, prefix: string, i: nat)
    requires i < |items| && StartsWith(items[i].0, FilterPrefix(prefix))
    ensures FilterArg(post, prefix, FilterName(items[i].0, prefix)) in FilterQueryFromPost(items, post, prefix)
  {
    var n := |items| - 1;
    if i < n {
      assert items[..n][i] == items[i];
      FilterQueryFromPostKeepsAll(items[..n], post, prefix, i);
    }
  }

  /** `get_filter_query_from_post()` */
  method GetFilterQueryFromPost(post: QueryItems, prefix: string) returns (query: map<string, string>)
    ensures query == FilterQueryFromPost(post, post, prefix)
  {
    var namePrefix := prefix + "filter_by_";
    var exprPrefix := prefix + "filter_expr_";
    query := map[];
    var i := 0;
    while i < |post|
      invariant 0 <= i <= |post|
      invariant query == FilterQueryFromPost(post[..i], post, prefix)
    {
      assert post[..i + 1][..i] == post[..i];
      var (name, value) := post[i];
      if StartsWith(name, namePrefix) {
        name := Replace(name, namePrefix, "");
        var expr := Lookup(post, exprPrefix + name);
        var arg := name;
        if expr.Some? && expr.value != "" {
          arg := arg + "__" + expr.value;
        }
        query := query[arg := value];
      }
      i := i + 1;
    }
    assert post[..i] == post;
  }

  /** The redirect arguments of the filter form's `post`: every lookup of the
      query under "<prefix>filter_by_", with its value, or with None when the
      filters are reset. */
  function FilterKwargs(query: map<string, string>, prefix: string, reset: bool): (kwargs: map<string, Option<string>>)
    ensures forall name :: name in query ==> FilterPrefix(prefix) + name in kwargs
    ensures forall k :: k in kwargs ==> StartsWith(k, FilterPrefix(prefix)) && k[|FilterPrefix(prefix)|..] in query
    ensures forall name :: name in query ==> kwargs[FilterPrefix(prefix) + name] == if reset then None else Some(query[name])
  {
    var p := FilterPrefix(prefix);
    var keys := set name | name in query :: p + name;
    assert forall name :: name in query ==> (p + name)[|p|..] == name;
    map k | k in keys :: if reset then None else Some(query[k[|p|..]])
  }

  /** The filter form's `post`: the query from the POST, renamed under the
      filter prefix; when "<prefix>reset_filters" is posted, every argument
      is then overwritten with None. */
  method FilterPost(post: QueryItems, prefix: string) returns (kwargs: map<string, Option<string>>)
    ensures kwargs == FilterKwargs(FilterQueryFromPost(post, post, prefix), prefix, Lookup(post, prefix + "reset_filters").Some?)
  {
    var query := GetFilterQueryFromPost(post, prefix);
    kwargs := FilterKwargs(query, prefix, false);
    if Lookup(post, prefix + "reset_filters").Some? {
      ghost var keys := kwargs.Keys;
      var todo := kwargs.Keys;
      while todo != {}
        invariant todo <= kwargs.Keys == keys
        invariant forall k :: k in kwargs && k !in todo ==> kwargs[k] == None
        decreases |todo|
      {
        var k :| k in todo;
        kwargs := kwargs[k := None];
        todo := todo - {k};
      }
      ResetAll(kwargs, query, prefix);
    }
  }

  /** Arguments with the keys of the filter arguments, all None, are the
      reset arguments. */
  lemma ResetAll(kwargs: map<string, Option<string>>, query: map<string, string>, prefix: string)
    requires kwargs.Keys == FilterKwargs(query, prefix, false).Keys
    requires forall k :: k in kwargs ==> kwargs[k] == None
    ensures kwargs == FilterKwargs(query, prefix, true)
  {
    var reset := FilterKwargs(query, prefix, true);
    assert kwargs.Keys == reset.Keys;
  }

  /** A filter submitted in the form comes back from the redirect's GET
      parameters under its own field. */
  lemma FilterRoundTrip(prefix: string, name: string, value: string)
    requires value != "" && !Contains(name, FilterPrefix(prefix))
    ensures FilterQueryFromGet([(FilterPrefix(prefix) + name, value)], prefix) == map[name := value]
  {
    FilterNameOfKey(prefix, name);
    var key := FilterPrefix(prefix) + name;
    assert key[..|FilterPrefix(prefix)|] == FilterPrefix(prefix);
    assert [(key, value)][..0] == [];
  }

  /** The field a lookup filters on: the part before the last "__", or the
      whole lookup when there is no "__" before the last part. */
  function FieldOf(key: string): string {
    var r := RPartition(key, "__");
    if r.0 != "" then r.0 else r.2
  }

  /** The operator part of a lookup: the part after the last "__". */
  function OperatorOf(key: string): string {
    RPartition(key, "__").2
  }

  /** The `list_filter_by` entries of a filter query, read in item order. */
  function FilterEntries(items: seq<(string, string)>): (m: map<string, (string, string)>)
    ensures |items| == 0 <==> |m| == 0
  {
    if items == [] then map[]
    else
      var last := items[|items| - 1];
      var m := FilterEntries(items[..|items| - 1])[FieldOf(last.0) := (OperatorOf(last.0), last.1)];
      assert FieldOf(last.0) in m;
      m
  }

  /** The `list_filter_by` context variable: the entries, or None for an
      empty query. */
  function ListFilterBy(items: seq<(string, string)>): (r: Option<map<string, (string, string)>>)
    ensures r.None? <==> items == []
    ensures r.Some? ==> r.value == FilterEntries(items)
  {
    var m := FilterEntries(items);
    if |m| == 0 then None else Some(m)
  }

  /** A lookup "<field>__<op>" is shown under its field with its operator;
      a lookup with no "__" is shown under itself with itself as operator. */
  lemma FilterEntryOfLookup(field: string, op: string, value: string)
    requires field != "" && '_' !in op
    ensures FilterEntries([(field + "__" + op, value)]) == map[field := (op, value)]
    ensures !Contains(field, "__") ==> FilterEntries([(field, value)]) == map[field := (field, value)]
  {
    RPartitionAt(field, "__", op);
    assert [(field + "__" + op, value)][..0] == [];
    assert [(field, value)][..0] == [];
  }
}
