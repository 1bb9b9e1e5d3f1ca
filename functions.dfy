/**
  The page helpers of `functionService`: the first validation error, the
  pagination projection, first-letter capitalisation, and the rewriting of
  the page URL's query parameters (`updateUrlParams`, `goToPage`,
  `nextPage`).

  A query string is an ordered list of name/value pairs, as a
  `URLSearchParams` object holds it; `set` and `delete` follow section 6.2
  of the WHATWG URL Standard.
 */
module Functions {
  import opened Common
  import opened UrlEncoding

  // ---------------------------------------------------------------------
  // getFirstError and setPaginationData
  // ---------------------------------------------------------------------

  /** A plain object: its own enumerable properties in `Object.keys` order. */
  type Object<V> = seq<(string, V)>

  /** `Object.keys(o)`. */
  function Keys<V>(o: Object<V>): seq<string> {
    seq(|o|, i requires 0 <= i < |o| => o[i].0)
  }

  /** `o[key]`: the value of the property named `key`; `None` is `undefined`. */
  function Lookup<V>(o: Object<V>, key: string): Option<V>
    decreases |o|
  {
    if o == [] then None else if o[0].0 == key then Some(o[0].1) else Lookup(o[1..], key)
  }

  /**
    `getFirstError(fieldErrors)`: null for a missing object (`None`) or one
    without properties, otherwise the value of its first property.
   */
  function GetFirstError<V>(fieldErrors: Option<Object<V>>): (r: Option<V>)
    ensures r.None? <==> (fieldErrors.None? || fieldErrors.value == [])
    ensures r.Some? ==> r.value == fieldErrors.value[0].1
  {
    if fieldErrors.None? then None
    else
      var errorKeys := Keys(fieldErrors.value);
      if |errorKeys| > 0 then Lookup(fieldErrors.value, errorKeys[0]) else None
  }

  const PaginationKeys: seq<string> := ["current_page", "last_page", "per_page", "total"]

  /**
    `setPaginationData(pagination, result)`, given `result.data` (`None`
    when it is null or undefined, where reading from it throws a
    `TypeError`). The incoming `pagination` is not read: the result is the
    projection of `result.data` on the four pagination fields, in order,
    and nothing else.
   */
  function SetPaginationData<V>(pagination: Object<V>, data: Option<Object<V>>): (r: Result<Object<Option<V>>, string>)
    ensures r.Err? <==> data.None?
    ensures r.Ok? ==> Keys(r.value) == PaginationKeys
    ensures r.Ok? ==> forall i :: 0 <= i < |PaginationKeys| ==> r.value[i].1 == Lookup(data.value, PaginationKeys[i])
  {
    if data.None? then Err("TypeError")
    else
      var d := data.value;
      Ok([("current_page", Lookup(d, "current_page")),
          ("last_page", Lookup(d, "last_page")),
          ("per_page", Lookup(d, "per_page")),
          ("total", Lookup(d, "total"))])
  }

  // ---------------------------------------------------------------------
  // capitalizeFirst
  // ---------------------------------------------------------------------

  predicate IsLowerAscii(c: char) { 'a' <= c <= 'z' }

  /** `toUpperCase` on one character, restricted to ASCII letters. */
  function ToUpperAscii(c: char): char {
    if IsLowerAscii(c) then (c as int - 32) as char else c
  }

  /**
    `capitalizeFirst(str)`: `""` for a missing or empty string, otherwise the
    first character upper-cased and the rest kept.
   */
  function CapitalizeFirst(str: Option<string>): (r: string)
    ensures (str.None? || str.value == "") ==> r == ""
    ensures str.Some? && str.value != "" ==>
              && |r| == |str.value|
              && r[0] == ToUpperAscii(str.value[0])
              && !IsLowerAscii(r[0])
              && r[1..] == str.value[1..]
  {
    if str.None? || str.value == "" then "" else [ToUpperAscii(str.value[0])] + str.value[1..]
  }

  /** Capitalising twice is capitalising once. */
  lemma CapitalizeFirstIdempotent(str: Option<string>)
    ensures CapitalizeFirst(Some(CapitalizeFirst(str))) == CapitalizeFirst(str)
  {
    if str.Some? && str.value != "" {
      var r := CapitalizeFirst(str);
      assert ToUpperAscii(r[0]) == r[0];
      assert [r[0]] + r[1..] == r;
    }
  }

  // ---------------------------------------------------------------------
  // URLSearchParams
  // ---------------------------------------------------------------------

  /** How many pairs carry `name`. */
  function Count(ps: seq<Param>, name: string): nat
    decreases |ps|
  {
    if ps == [] then 0 else (if ps[0].0 == name then 1 else 0) + Count(ps[1..], name)
  }

  /** `get(name)`: the value of the first pair with that name. */
  function ValueOf(ps: seq<Param>, name: string): Option<string>
    decreases |ps|
  {
    if ps == [] then None else if ps[0].0 == name then Some(ps[0].1) else ValueOf(ps[1..], name)
  }

  /** The position of the first pair with that name (`|ps|` when there is none). */
  function FirstIndex(ps: seq<Param>, name: string): nat
    decreases |ps|
  {
    if ps == [] then 0 else if ps[0].0 == name then 0 else 1 + FirstIndex(ps[1..], name)
  }

  /** The pairs whose names are not in `names`, in their order. */
  function Strip(ps: seq<Param>, names: set<string>): seq<Param>
    decreases |ps|
  {
    if ps == [] then [] else (if ps[0].0 in names then [] else [ps[0]]) + Strip(ps[1..], names)
  }

  /** `delete(name)`: every pair with that name is removed. */
  function DeleteParam(ps: seq<Param>, name: string): (r: seq<Param>)
    ensures Count(r, name) == 0
    ensures r == Strip(ps, {name})
    decreases |ps|
  {
    if ps == [] then []
    else if ps[0].0 == name then DeleteParam(ps[1..], name)
    else [ps[0]] + DeleteParam(ps[1..], name)
  }

  /** The replacing half of `set`: the first pair gets the value, later pairs with that name go. */
  function ReplaceFirst(ps: seq<Param>, name: string, value: string): (r: seq<Param>)
    requires Count(ps, name) > 0
    ensures Count(r, name) == 1
    ensures ValueOf(r, name) == Some(value)
    ensures FirstIndex(r, name) == FirstIndex(ps, name)
    ensures Strip(r, {name}) == Strip(ps, {name})
    decreases |ps|
  {
    if ps[0].0 == name then
      var rest := DeleteParam(ps[1..], name);
      StripTwice(ps[1..], {name}, {name});
      assert {name} + {name} == {name};
      assert ([(name, value)] + rest)[1..] == rest;
      [(name, value)] + rest
    else
      [ps[0]] + ReplaceFirst(ps[1..], name, value)
  }

  /**
    `set(name, value)`: when a pair with that name exists, the first one takes
    the value in place and the others are removed; otherwise the pair is
    appended. Either way exactly one pair carries the name and the other
    pairs keep their order.
   */
  function SetParam(ps: seq<Param>, name: string, value: string): (r: seq<Param>)
    ensures Count(r, name) == 1
    ensures ValueOf(r, name) == Some(value)
    ensures Strip(r, {name}) == Strip(ps, {name})
    ensures Count(ps, name) == 0 ==> r == ps + [(name, value)]
    ensures Count(ps, name) > 0 ==> FirstIndex(r, name) == FirstIndex(ps, name)
  {
    if Count(ps, name) == 0 then
      AppendAbsent(ps, name, value);
      ps + [(name, value)]
    else
      ReplaceFirst(ps, name, value)
  }

  /** Appending a pair with a name the list lacks. */
  lemma {:induction false} AppendAbsent(ps: seq<Param>, name: string, value: string)
    requires Count(ps, name) == 0
    ensures Count(ps + [(name, value)], name) == 1
    ensures ValueOf(ps + [(name, value)], name) == Some(value)
    ensures Strip(ps + [(name, value)], {name}) == Strip(ps, {name})
    decreases |ps|
  {
    if ps != [] {
      AppendAbsent(ps[1..], name, value);
      assert (ps + [(name, value)])[1..] == ps[1..] + [(name, value)];
    } else {
      assert ([(name, value)])[1..] == [];
    }
  }

  /** Stripping names in two rounds is stripping them all at once. */
  lemma {:induction false} StripTwice(ps: seq<Param>, a: set<string>, b: set<string>)
    ensures Strip(Strip(ps, a), b) == Strip(ps, a + b)
    decreases |ps|
  {
    if ps != [] {
      StripTwice(ps[1..], a, b);
      var head := if ps[0].0 in a then [] else [ps[0]];
      StripConcat(head, Strip(ps[1..], a), b);
    }
  }

  lemma {:induction false} StripConcat(xs: seq<Param>, ys: seq<Param>, names: set<string>)
    ensures Strip(xs + ys, names) == Strip(xs, names) + Strip(ys, names)
    decreases |xs|
  {
    if xs != [] {
      assert (xs + ys)[1..] == xs[1..] + ys;
      StripConcat(xs[1..], ys, names);
    } else {
      assert xs + ys == ys;
    }
  }

  /** Names outside the stripped set are counted and read as before. */
  lemma {:induction false} StripKeeps(ps: seq<Param>, names: set<string>, name: string)
    requires name !in names
    ensures Count(Strip(ps, names), name) == Count(ps, name)
    ensures ValueOf(Strip(ps, names), name) == ValueOf(ps, name)
    decreases |ps|
  {
    if ps != [] {
      StripKeeps(ps[1..], names, name);
      var head := if ps[0].0 in names then [] else [ps[0]];
      var rest := Strip(ps[1..], names);
      if head == [] {
        assert Strip(ps, names) == rest;
      } else {
        assert Strip(ps, names) == [ps[0]] + rest;
        assert (Strip(ps, names))[1..] == rest;
      }
    }
  }

  /**
    Setting or deleting one name leaves the count and the value of every
    other name as they were, and leaves the pairs outside a set of names that
    contains it as they were.
   */
  lemma OtherNamesKept(ps: seq<Param>, name: string, value: string, other: string, names: set<string>)
    requires other != name
    requires name in names
    ensures Count(SetParam(ps, name, value), other) == Count(ps, other)
    ensures ValueOf(SetParam(ps, name, value), other) == ValueOf(ps, other)
    ensures Count(DeleteParam(ps, name), other) == Count(ps, other)
    ensures ValueOf(DeleteParam(ps, name), other) == ValueOf(ps, other)
    ensures Strip(SetParam(ps, name, value), names) == Strip(ps, names)
    ensures Strip(DeleteParam(ps, name), names) == Strip(ps, names)
  {
    var s := SetParam(ps, name, value);
    StripKeeps(s, {name}, other);
    StripKeeps(ps, {name}, other);
    StripTwice(s, {name}, names);
    StripTwice(ps, {name}, names);
    assert {name} + names == names;
  }

  /** Deleting a name that is absent changes nothing. */
  lemma {:induction false} DeleteAbsent(ps: seq<Param>, name: string)
    requires Count(ps, name) == 0
    ensures DeleteParam(ps, name) == ps
    decreases |ps|
  {
    if ps != [] {
      DeleteAbsent(ps[1..], name);
    }
  }

  /** Setting the value a name already has, once, changes nothing. */
  lemma {:induction false} SetPresent(ps: seq<Param>, name: string, value: string)
    requires Count(ps, name) == 1 && ValueOf(ps, name) == Some(value)
    ensures SetParam(ps, name, value) == ps
    decreases |ps|
  {
    if ps[0].0 == name {
      DeleteAbsent(ps[1..], name);
    } else {
      ReplaceStable(ps[1..], name, value);
    }
  }

  lemma {:induction false} ReplaceStable(ps: seq<Param>, name: string, value: string)
    requires Count(ps, name) == 1 && ValueOf(ps, name) == Some(value)
    ensures ReplaceFirst(ps, name, value) == ps
    decreases |ps|
  {
    if ps[0].0 == name {
      DeleteAbsent(ps[1..], name);
    } else {
      ReplaceStable(ps[1..], name, value);
    }
  }

  // ---------------------------------------------------------------------
  // updateUrlParams, goToPage, nextPage
  // ---------------------------------------------------------------------

  const PerPageParam: string := "per_page"
  const PageParam: string := "page"
  const SortOrderParam: string := "sort_order"
  const SearchParam: string := "search"
  const DefaultSortOrder: string := "ASC"

  /** The parameters `updateUrlParams` rewrites; all others it leaves alone. */
  const Managed: set<string> := {PerPageParam, PageParam, SortOrderParam, SearchParam}

  /**
    The four rewriting steps of `updateUrlParams` on the query parameters;
    the pairs of every other name are kept, in their order.
   */
  function RewriteParams(ps: seq<Param>, searchTerm: string, perPage: int, page: int, resetPage: bool, sortOrder: string)
    : (r: seq<Param>)
    ensures Strip(r, Managed) == Strip(ps, Managed)
  {
    var p1 := SetParam(ps, PerPageParam, IntToString(perPage));
    var p2 := SetParam(p1, PageParam, IntToString(if resetPage then 1 else page));
    var p3 := SetParam(p2, SortOrderParam, sortOrder);
    OtherNamesKept(ps, PerPageParam, IntToString(perPage), PageParam, Managed);
    OtherNamesKept(p1, PageParam, IntToString(if resetPage then 1 else page), PerPageParam, Managed);
    OtherNamesKept(p2, SortOrderParam, sortOrder, PerPageParam, Managed);
    OtherNamesKept(p3, SearchParam, searchTerm, PerPageParam, Managed);
    if searchTerm != "" then SetParam(p3, SearchParam, searchTerm) else DeleteParam(p3, SearchParam)
  }

  /**
    After the rewrite there is exactly one `per_page`, one `page` (1 when
    the page is reset) and one `sort_order`; `search` holds the term, or is
    gone entirely when the term is empty; every other parameter is kept, in
    its order.
   */
  lemma RewriteParamsSpec(ps: seq<Param>, searchTerm: string, perPage: int, page: int, resetPage: bool, sortOrder: string)
    ensures var r := RewriteParams(ps, searchTerm, perPage, page, resetPage, sortOrder);
            && Count(r, PerPageParam) == 1 && ValueOf(r, PerPageParam) == Some(IntToString(perPage))
            && Count(r, PageParam) == 1 && ValueOf(r, PageParam) == Some(IntToString(if resetPage then 1 else page))
            && Count(r, SortOrderParam) == 1 && ValueOf(r, SortOrderParam) == Some(sortOrder)
            && (searchTerm != "" ==> Count(r, SearchParam) == 1 && ValueOf(r, SearchParam) == Some(searchTerm))
            && (searchTerm == "" ==> Count(r, SearchParam) == 0)
            && Strip(r, Managed) == Strip(ps, Managed)
  {
    var p1 := SetParam(ps, PerPageParam, IntToString(perPage));
    var p2 := SetParam(p1, PageParam, IntToString(if resetPage then 1 else page));
    var p3 := SetParam(p2, SortOrderParam, sortOrder);
    OtherNamesKept(ps, PerPageParam, IntToString(perPage), PageParam, Managed);
    OtherNamesKept(p1, PageParam, IntToString(if resetPage then 1 else page), PerPageParam, Managed);
    OtherNamesKept(p2, SortOrderParam, sortOrder, PerPageParam, Managed);
    OtherNamesKept(p2, SortOrderParam, sortOrder, PageParam, Managed);
    OtherNamesKept(p3, SearchParam, searchTerm, PerPageParam, Managed);
    OtherNamesKept(p3, SearchParam, searchTerm, PageParam, Managed);
    OtherNamesKept(p3, SearchParam, searchTerm, SortOrderParam, Managed);
  }

  /** Rewriting an already rewritten list with the same arguments changes nothing. */
  lemma RewriteParamsIdempotent(ps: seq<Param>, searchTerm: string, perPage: int, page: int, resetPage: bool, sortOrder: string)
    ensures var r := RewriteParams(ps, searchTerm, perPage, page, resetPage, sortOrder);
            RewriteParams(r, searchTerm, perPage, page, resetPage, sortOrder) == r
  {
    var r := RewriteParams(ps, searchTerm, perPage, page, resetPage, sortOrder);
    RewriteParamsSpec(ps, searchTerm, perPage, page, resetPage, sortOrder);
    SetPresent(r, PerPageParam, IntToString(perPage));
    SetPresent(r, PageParam, IntToString(if resetPage then 1 else page));
    SetPresent(r, SortOrderParam, sortOrder);
    if searchTerm != "" {
      SetPresent(r, SearchParam, searchTerm);
    } else {
      DeleteAbsent(r, SearchParam);
    }
  }

  /** A page URL: everything before the query, the query pairs, the fragment. */
  datatype Url = Url(origin: string, pathname: string, params: seq<Param>, hash: string)

  /**
    An href as the URL parser splits it: origin, path, the query string
    without its `?`, and the fragment with its `#`.
   */
  datatype Parts = Parts(origin: string, pathname: string, query: string, hash: string)

  /** `new URL(href)`: `searchParams` are read from the query with the urlencoded parser. */
  function ParseUrl(p: Parts): Url {
    Url(p.origin, p.pathname, ParseQuery(p.query), p.hash)
  }

  /** `url.toString()`: the query, when there is one, after a `?`. */
  function Href(u: Url): (r: string)
    ensures |r| >= |u.origin + u.pathname| + |u.hash|
    ensures u.params != [] ==> |r| > |u.origin + u.pathname| + |u.hash|
    ensures r[..|u.origin + u.pathname|] == u.origin + u.pathname
    ensures r[|r| - |u.hash|..] == u.hash
    ensures u.params != [] ==> r[|u.origin + u.pathname|] == '?'
    ensures u.params == [] ==> r == u.origin + u.pathname + u.hash
  {
    var head := u.origin + u.pathname;
    var r := head + (if u.params == [] then "" else "?" + Query(u.params)) + u.hash;
    assert r == head + ((if u.params == [] then "" else "?" + Query(u.params)) + u.hash);
    r
  }

  /** The URL `updateUrlParams` builds from the current one: only the managed parameters change. */
  function UpdatedUrl(u: Url, searchTerm: string, perPage: int, page: int, resetPage: bool, sortOrder: string): (r: Url)
    ensures r.origin == u.origin && r.pathname == u.pathname && r.hash == u.hash
    ensures Strip(r.params, Managed) == Strip(u.params, Managed)
  {
    u.(params := RewriteParams(u.params, searchTerm, perPage, page, resetPage, sortOrder))
  }

  /** Arguments of `goto(url, {replaceState, noScroll})`. */
  datatype Navigation = Navigation(url: string, replaceState: bool, noScroll: bool)

  /**
    The effect of heading for the URL string `target` from the current href
    `before`: a replacing, non-scrolling navigation when the strings differ,
    nothing otherwise.
   */
  predicate Headed(before: string, log: seq<Navigation>, after: string, log': seq<Navigation>, target: string) {
    if target != before then after == target && log' == log + [Navigation(target, true, true)]
    else after == before && log' == log
  }

  /**
    Serializing a URL and parsing it back gives the same URL, provided the
    URL parser splits the href at the boundaries it was written with: the
    query pairs are read back by the urlencoded parser.
   */
  lemma HrefRoundTrip(u: Url, locate: string -> Parts)
    ensures locate(Href(u)) == Parts(u.origin, u.pathname, Query(u.params), u.hash) ==>
              ParseUrl(locate(Href(u))) == u
  {
    ParseQueryRoundTrip(u.params);
  }

  /**
    From the href the rewrite produced, re-applying the same arguments
    navigates nowhere, provided the URL parser splits that href at the
    boundaries it was written with.
   */
  lemma ReapplyNavigatesNowhere(u: Url, locate: string -> Parts, searchTerm: string, perPage: int, page: int,
                                resetPage: bool, sortOrder: string, log: seq<Navigation>)
    ensures var t := UpdatedUrl(u, searchTerm, perPage, page, resetPage, sortOrder);
            locate(Href(t)) == Parts(t.origin, t.pathname, Query(t.params), t.hash) ==>
              Headed(Href(t), log, Href(t), log,
                     Href(UpdatedUrl(ParseUrl(locate(Href(t))), searchTerm, perPage, page, resetPage, sortOrder)))
  {
    var t := UpdatedUrl(u, searchTerm, perPage, page, resetPage, sortOrder);
    HrefRoundTrip(t, locate);
    RewriteParamsIdempotent(u.params, searchTerm, perPage, page, resetPage, sortOrder);
  }

  /**
    The page the helpers run in: the string `window.location.href`, the way
    the URL parser `new URL(...)` splits an href into its parts, and the
    navigations made.
   */
  class Browser {
    var href: string
    const locate: string -> Parts
    var navigations: seq<Navigation>

    constructor (href: string, locate: string -> Parts)
      ensures this.href == href && this.locate == locate && navigations == []
    {
      this.href := href;
      this.locate := locate;
      navigations := [];
    }

    /** `goto(url, {replaceState: true, noScroll: true})`: recorded, and the href becomes `target`. */
    method Goto(target: string)
      modifies this
      ensures href == target
      ensures navigations == old(navigations) + [Navigation(target, true, true)]
    {
      navigations := navigations + [Navigation(target, true, true)];
      href := target;
    }

    /**
      `updateUrlParams(newSearchTerm, newItemsPerPage, newPage, resetPage,
      newSortOrder)`: the current href is parsed, its parameters are set or
      deleted one by one, and the page navigates to the serialized result
      only when that string differs from the current href.
     */
    method UpdateUrlParams(newSearchTerm: string, newItemsPerPage: int, newPage: int,
                           resetPage: bool := false, newSortOrder: string := DefaultSortOrder)
      modifies this
      ensures Headed(old(href), old(navigations), href, navigations,
                     Href(UpdatedUrl(ParseUrl(locate(old(href))), newSearchTerm, newItemsPerPage, newPage, resetPage, newSortOrder)))
    {
      var url := ParseUrl(locate(href));
      url := url.(params := SetParam(url.params, PerPageParam, IntToString(newItemsPerPage)));
      var targetPage := if resetPage then 1 else newPage;
      url := url.(params := SetParam(url.params, PageParam, IntToString(targetPage)));
      url := url.(params := SetParam(url.params, SortOrderParam, newSortOrder));
      if newSearchTerm != "" {
        url := url.(params := SetParam(url.params, SearchParam, newSearchTerm));
      } else {
        url := url.(params := DeleteParam(url.params, SearchParam));
      }
      var newUrlString := Href(url);
      if newUrlString != href {
        Goto(newUrlString);
      }
    }

    /** `goToPage(searchTerm, itemsPerPage, pageNumber)`: never resets the page. */
    method GoToPage(searchTerm: string, itemsPerPage: int, pageNumber: int)
      modifies this
      ensures Headed(old(href), old(navigations), href, navigations,
                     Href(UpdatedUrl(ParseUrl(locate(old(href))), searchTerm, itemsPerPage, pageNumber, false, DefaultSortOrder)))
    {
      UpdateUrlParams(searchTerm, itemsPerPage, pageNumber, false);
    }

    /** `nextPage(searchTerm, itemsPerPage, pagination)`: heads for `current_page - 1`. */
    method NextPage(searchTerm: string, itemsPerPage: int, currentPage: int)
      modifies this
      ensures Headed(old(href), old(navigations), href, navigations,
                     Href(UpdatedUrl(ParseUrl(locate(old(href))), searchTerm, itemsPerPage, currentPage - 1, false, DefaultSortOrder)))
    {
      GoToPage(searchTerm, itemsPerPage, currentPage - 1);
    }
  }
}
