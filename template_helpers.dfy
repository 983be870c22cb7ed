/** The generic template filters and tags of
    djangoerp/core/templatetags/basefuncs.py. */
module BaseFuncs {
  import opened Wrappers
  import opened Text

  /** The truthy arguments, in order: the empty string is falsy. */
  function Truthy(args: seq<string>): (kept: seq<string>)
    ensures |kept| <= |args|
    ensures forall k :: 0 <= k < |kept| ==> kept[k] != "" && kept[k] in args
    ensures forall a :: a in args && a != "" ==> a in kept
  {
    if args == [] then []
    else (if args[0] == "" then [] else [args[0]]) + Truthy(args[1..])
  }

  /** `join(join_str, *args)` */
  function JoinTruthy(sep: string, args: seq<string>): (r: string)
    ensures forall k :: 0 <= k < |args| && args[k] != "" ==> Contains(r, args[k])
  {
    var kept := Truthy(args);
    JoinContainsParts(kept, sep);
    assert forall k :: 0 <= k < |args| && args[k] != "" ==> args[k] in kept;
    Join(kept, sep)
  }

  lemma {:induction false} TruthyAppend(a: seq<string>, b: seq<string>)
    ensures Truthy(a + b) == Truthy(a) + Truthy(b)
  {
    if a != [] {
      assert (a + b)[0] == a[0];
      assert (a + b)[1..] == a[1..] + b;
      TruthyAppend(a[1..], b);
    } else {
      assert a + b == b;
    }
  }

  /** A falsy argument anywhere is dropped: `join("_", "a", "b", "", "d")`
      is `join("_", "a", "b", "d")`. */
  lemma JoinDropsFalsy(sep: string, before: seq<string>, after: seq<string>)
    ensures JoinTruthy(sep, before + [""] + after) == JoinTruthy(sep, before + after)
  {
    TruthyAppend(before + [""], after);
    TruthyAppend(before, [""]);
    TruthyAppend(before, after);
    assert [""][1..] == [];
    assert Truthy([""]) == [];
    assert Truthy(before + [""]) == Truthy(before);
  }

  /** The join is empty exactly when every argument is falsy. */
  lemma JoinEmptyIff(sep: string, args: seq<string>)
    ensures JoinTruthy(sep, args) == "" <==> forall k :: 0 <= k < |args| ==> args[k] == ""
  {
    var kept := Truthy(args);
    if exists k :: 0 <= k < |args| && args[k] != "" {
      var k :| 0 <= k < |args| && args[k] != "";
      assert args[k] in args;
      assert |kept| >= 1;
      if |kept| > 1 {
        assert Join(kept, sep) == kept[0] + sep + Join(kept[1..], sep);
      }
      assert |Join(kept, sep)| >= |kept[0]| > 0;
    }
  }

  /** When the separator is one character that no argument contains,
      splitting the joined string gives back the truthy arguments. */
  lemma JoinThenSplit(c: char, args: seq<string>)
    requires forall k :: 0 <= k < |args| ==> c !in args[k]
    requires exists k :: 0 <= k < |args| && args[k] != ""
    ensures Split(JoinTruthy([c], args), [c]) == Truthy(args)
  {
    var kept := Truthy(args);
    var k :| 0 <= k < |args| && args[k] != "";
    assert args[k] in kept;
    forall j | 0 <= j < |kept| ensures c !in kept[j] {
      var i :| 0 <= i < |args| && args[i] == kept[j];
    }
    SplitJoinChar(kept, c);
  }

  /** Python's `ValueError` for an empty separator. */
  datatype SplitError = EmptySeparator

  /** `split(string, sep)`: `string.split(sep)`. */
  function SplitFilter(s: string, sep: string): (r: Result<seq<string>, SplitError>)
    ensures r.Err? <==> sep == ""
    ensures r.Ok? ==> |r.value| >= 1 && Join(r.value, sep) == s
  {
    if sep == "" then Err(EmptySeparator)
    else
      JoinSplit(s, sep);
      Ok(Split(s, sep))
  }

  /** The key given to `get`: a string or an int. */
  datatype Key = Name(name: string) | Index(i: int)

  /** An attribute of a plain object: a value or a method returning one
      when called with no argument. */
  datatype Attr<V> = Plain(v: V) | Method(result: V)

  /** The kinds of object `get` distinguishes. The attributes of dicts,
      lists and tuples themselves are not modelled. */
  datatype Obj<V> = Dict(entries: map<Key, V>) | Sequence(items: seq<V>) | Object(attrs: map<string, Attr<V>>)

  /** What `get` returns: a value, or "" for a missing key or attribute. */
  datatype Got<V> = Value(v: V) | EmptyString

  /** The exceptions `get` lets through: a digit string used as an index
      (TypeError), an index out of range (IndexError), an int attribute
      name (TypeError). */
  datatype GetError = TypeError | IndexError

  /** `get(obj, attr_name)` */
  function Get<V>(obj: Obj<V>, key: Key): (r: Result<Got<V>, GetError>)
    ensures obj.Dict? ==> r == Ok(if key in obj.entries then Value(obj.entries[key]) else EmptyString)
    ensures obj.Sequence? && key.Index? && 0 <= key.i < |obj.items| ==> r == Ok(Value(obj.items[key.i]))
    ensures obj.Sequence? && key.Index? && -|obj.items| <= key.i < 0 ==> r == Ok(Value(obj.items[|obj.items| + key.i]))
    ensures obj.Sequence? && key.Index? && !(-|obj.items| <= key.i < |obj.items|) ==> r == Err(IndexError)
    ensures obj.Sequence? && key.Name? && key.name != "" && AllDigits(key.name) ==> r == Err(TypeError)
    ensures obj.Object? && key.Index? ==> r == Err(TypeError)
    ensures obj.Object? && key.Name? && key.name !in obj.attrs ==> r == Ok(EmptyString)
    ensures obj.Object? && key.Name? && key.name in obj.attrs ==>
              r == Ok(Value(match obj.attrs[key.name] case Plain(v) => v case Method(v) => v))
  {
    match obj
    case Dict(entries) => Ok(if key in entries then Value(entries[key]) else EmptyString)
    case Sequence(items) =>
      (match key
       case Index(i) =>
         if 0 <= i < |items| then Ok(Value(items[i]))
         else if -|items| <= i < 0 then Ok(Value(items[|items| + i]))
         else Err(IndexError)
       case Name(name) =>
         // A digit string passes the guard and is then used as the index.
         if name != "" && AllDigits(name) then Err(TypeError)
         else Ok(EmptyString))
    case Object(attrs) =>
      (match key
       case Index(_) => Err(TypeError)
       case Name(name) =>
         if name !in attrs then Ok(EmptyString)
         else match attrs[name]
           case Plain(v) => Ok(Value(v))
           case Method(v) => Ok(Value(v)))
  }
}

/** `parse_args_kwargs` of djangoerp/core/templatetags/__init__.py. */
module TagArgs {
  import opened Wrappers
  import opened Text

  /** The tokens without '=', in order. */
  function Positional(tokens: seq<string>): (args: seq<string>)
    ensures forall a :: a in args <==> a in tokens && '=' !in a
  {
    if tokens == [] then []
    else Positional(tokens[..|tokens| - 1]) + (if '=' in tokens[|tokens| - 1] then [] else [tokens[|tokens| - 1]])
  }

  /** `token.split('=', 1)` for a token containing '=': the text before the
      first '=' and everything after it. */
  function SplitKeyword(token: string): (kv: (string, string))
    requires '=' in token
    ensures kv.0 + "=" + kv.1 == token
    ensures '=' !in kv.0
  {
    ContainsChar(token, '=');
    var i := IndexOf(token, "=").value;
    OccursAtChar(token, '=', i);
    forall j | 0 <= j < i ensures token[j] != '=' {
      OccursAtChar(token, '=', j);
    }
    assert token[..i] + "=" + token[i + 1..] == token;
    (token[..i], token[i + 1..])
  }

  /** The keyword arguments of the tokens: each token with '=' sets its key,
      a later token overriding an earlier one. */
  function Keywords(tokens: seq<string>): map<string, string>
  {
    if tokens == [] then map[]
    else
      var last := tokens[|tokens| - 1];
      var before := Keywords(tokens[..|tokens| - 1]);
      if '=' in last then before[SplitKeyword(last).0 := SplitKeyword(last).1] else before
  }

  /** The token sets `key`: it has an '=' and `key` before the first one. */
  predicate SetsKey(token: string, key: string) {
    '=' in token && SplitKeyword(token).0 == key
  }

  /** A key is bound iff some token sets it. */
  lemma {:induction false} KeywordsDomain(tokens: seq<string>, key: string)
    ensures key in Keywords(tokens) <==> exists j :: 0 <= j < |tokens| && SetsKey(tokens[j], key)
  {
    if tokens != [] {
      var n := |tokens| - 1;
      var init := tokens[..n];
      KeywordsDomain(init, key);
      assert forall j :: 0 <= j < n ==> init[j] == tokens[j];
      assert key in Keywords(tokens) <==> key in Keywords(init) || SetsKey(tokens[n], key);
    }
  }

  /** The last token that sets a key gives its value: later duplicates
      override earlier ones. */
  lemma {:induction false} KeywordsLastWins(tokens: seq<string>, key: string, j: nat)
    requires j < |tokens| && SetsKey(tokens[j], key)
    requires forall m :: j < m < |tokens| ==> !SetsKey(tokens[m], key)
    ensures key in Keywords(tokens) && Keywords(tokens)[key] == SplitKeyword(tokens[j]).1
  {
    var n := |tokens| - 1;
    if j < n {
      var init := tokens[..n];
      forall m | j < m < |init| ensures !SetsKey(init[m], key) {
        assert init[m] == tokens[m];
      }
      KeywordsLastWins(init, key, j);
      assert !SetsKey(tokens[n], key);
    }
  }

  /** A keyword token splits back into its key and its value whenever the
      key has no '='; the value may hold more of them. */
  lemma SplitKeywordPair(key: string, value: string)
    requires '=' !in key
    ensures '=' in key + "=" + value
    ensures SplitKeyword(key + "=" + value) == (key, value)
  {
    var token := key + "=" + value;
    assert token[|key|] == '=';
    IndexOfCharAfter(key, '=', value);
    var kv := SplitKeyword(token);
    assert kv.0 == token[..|key|] == key;
    assert kv.1 == token[|key| + 1..] == value;
  }

  /** "a=b=c" is split at its first '=' only. */
  lemma FirstEqualsOnly()
    ensures SplitKeyword("a=b=c") == ("a", "b=c")
  {
    SplitKeywordPair("a", "b=c");
    assert "a" + "=" + "b=c" == "a=b=c";
  }

  /** `parse_args_kwargs(parser, token)` on the split contents of the
      token: the tag name, the positional arguments and the keyword
      arguments. */
  method ParseArgsKwargs(contents: seq<string>) returns (tagName: string, args: seq<string>, kwargs: map<string, string>)
    requires |contents| >= 1
    ensures tagName == contents[0]
    ensures args == Positional(contents[1..])
    ensures kwargs == Keywords(contents[1..])
  {
    tagName := contents[0];
    var tokens := contents[1..];
    args, kwargs := [], map[];
    var i := 0;
    while i < |tokens|
      invariant 0 <= i <= |tokens|
      invariant args == Positional(tokens[..i])
      invariant kwargs == Keywords(tokens[..i])
    {
      var value := tokens[i];
      assert tokens[..i + 1][..i] == tokens[..i];
      if '=' in value {
        var kv := SplitKeyword(value);
        kwargs := kwargs[kv.0 := kv.1];
      } else {
        args := args + [value];
      }
      i := i + 1;
    }
    assert tokens[..i] == tokens;
  }
}

/** The breadcrumb tags of djangoerp/core/templatetags/breadcrumbs.py. */
module Breadcrumbs {
  import opened Wrappers
  import opened Text

  /** A crumb: its text and its link (None for `url=None`). */
  type Crumb = (string, Option<string>)

  /** The errors `remove_last_crumb` can raise. */
  datatype CrumbError = AttributeError | IndexError

  /** The request of the template context; `breadcrumbs` is None until the
      attribute is first set. */
  class Request {
    var breadcrumbs: Option<seq<Crumb>>

    constructor ()
      ensures breadcrumbs.None?
    {
      breadcrumbs := None;
    }

    /** `add_crumb(context, crumb, url)`: the link is the URL unchanged when
        it is missing, empty or starts with '/', and the reversed URL name
        otherwise; the crumb goes at the end of the list, which is created
        empty first if needed. The tag outputs "". */
    method AddCrumb(crumb: string, url: Option<string>, reverse: string -> string) returns (out: string)
      modifies this
      ensures var href := if url.Some? && url.value != "" && !StartsWith(url.value, "/") then Some(reverse(url.value)) else url;
              breadcrumbs == Some(Crumbs(old(breadcrumbs)) + [(crumb, href)])
      ensures out == ""
    {
      var href := url;
      if url.Some? && url.value != "" && !StartsWith(url.value, "/") {
        href := Some(reverse(url.value));
      }
      if breadcrumbs.None? {
        breadcrumbs := Some([]);
      }
      breadcrumbs := Some(breadcrumbs.value + [(crumb, href)]);
      out := "";
    }

    /** `remove_last_crumb(context)`: `pop()` on the list; with no list the
        attribute lookup raises, and on an empty list the pop does. */
    method RemoveLastCrumb() returns (out: Result<string, CrumbError>)
      modifies this
      ensures old(breadcrumbs).None? ==> out == Err(AttributeError) && breadcrumbs == old(breadcrumbs)
      ensures old(breadcrumbs) == Some([]) ==> out == Err(IndexError) && breadcrumbs == old(breadcrumbs)
      ensures old(breadcrumbs).Some? && old(breadcrumbs).value != [] ==>
                out == Ok("") && breadcrumbs == Some(DropLast(old(breadcrumbs).value))
    {
      if breadcrumbs.None? {
        return Err(AttributeError);
      }
      if breadcrumbs.value == [] {
        return Err(IndexError);
      }
      breadcrumbs := Some(DropLast(breadcrumbs.value));
      return Ok("");
    }

    /** `render_breadcrumbs(context)`: the list, or None when no crumb was
        ever added. */
    function RenderBreadcrumbs(): (r: Option<seq<Crumb>>)
      reads this
      ensures r.None? <==> breadcrumbs.None?
      ensures r.Some? ==> r.value == breadcrumbs.value
    {
      breadcrumbs
    }
  }

  /** The crumbs of a request, an absent list read as empty. */
  function Crumbs(b: Option<seq<Crumb>>): (r: seq<Crumb>)
    ensures b.Some? ==> r == b.value
    ensures b.None? ==> r == []
  {
    if b.Some? then b.value else []
  }

  /** The list without its last crumb. */
  function DropLast(s: seq<Crumb>): (r: seq<Crumb>)
    requires s != []
    ensures |r| == |s| - 1 && r + [s[|s| - 1]] == s
  {
    s[..|s| - 1]
  }

  /** Adding a crumb and removing the last one restores the list; a request
      without a list is left with an empty one. */
  method AddThenRemove(request: Request, crumb: string, url: Option<string>, reverse: string -> string)
    returns (removed: Result<string, CrumbError>)
    modifies request
    ensures removed == Ok("")
    ensures request.breadcrumbs == Some(Crumbs(old(request.breadcrumbs)))
  {
    ghost var before := Crumbs(request.breadcrumbs);
    var _ := request.AddCrumb(crumb, url, reverse);
    ghost var added := request.breadcrumbs.value;
    removed := request.RemoveLastCrumb();
    assert DropLast(added) == before;
  }
}
