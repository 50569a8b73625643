// Reading a paginated collection whole or not at all.
module PageWalk {
  import opened Prelude

  const MAX_PAGES: nat := 200

  // Where one page says the next one is.
  datatype Link<K> = Last | Next(key: K) | Unfollowable

  // What asking for one page comes to. `Raised` is the transport's own failure.
  datatype Answer<K, T> = Raised | NotAPage | Page(items: seq<T>, link: Link<K>)

  datatype WalkFailure = TransportFailed | WalkRefused

  // A walk asks for no key twice, so what a transport would say to each is a function.
  type Source<!K, T> = K -> Answer<K, T>

  // Each page leads to the one after it.
  ghost predicate Linked<K(!new), T>(get: Source<K, T>, start: K, pages: seq<K>)
  {
    && |pages| > 0 && pages[0] == start
    && forall i :: 0 <= i < |pages| - 1 ==> get(pages[i]).Page? && get(pages[i]).link == Next(pages[i + 1])
  }

  ghost predicate Whole<K(!new), T>(get: Source<K, T>, start: K, pages: seq<K>)
  {
    Linked(get, start, pages) && get(pages[|pages| - 1]).Page? && get(pages[|pages| - 1]).link == Last
  }

  ghost function Items<K(!new), T>(get: Source<K, T>, pages: seq<K>): seq<T>
  {
    if pages == [] || !get(pages[|pages| - 1]).Page? then []
    else Items(get, pages[..|pages| - 1]) + get(pages[|pages| - 1]).items
  }

  // A chain is settled by where it starts.
  lemma {:induction false} SameChain<K(!new), T>(get: Source<K, T>, start: K, some: seq<K>, all: seq<K>)
    requires Linked(get, start, some) && Whole(get, start, all)
    ensures |some| <= |all| && some == all[..|some|]
  {
    if |some| > 1 {
      var before := some[..|some| - 1];
      SameChain(get, start, before, all);
      assert get(before[|before| - 1]).link == Next(some[|before|]);
      assert all[|before| - 1] == before[|before| - 1];
      assert some == before + [some[|before|]];
    }
  }

  // A page that came up twice would lead on from its second place as from its
  // first, for ever.
  lemma {:induction false} NoPageTwice<K(!new), T>(get: Source<K, T>, start: K, pages: seq<K>, i: nat, j: nat)
    requires Whole(get, start, pages) && i < j < |pages|
    ensures pages[i] != pages[j]
    decreases |pages| - j
  {
    assert get(pages[i]).link == Next(pages[i + 1]);
    if j < |pages| - 1 {
      NoPageTwice(get, start, pages, i + 1, j + 1);
      assert get(pages[j]).link == Next(pages[j + 1]);
    }
  }

  // Nothing more to ask for: the last key asked for gave no page, or a page that is
  // the last one, leads nowhere or back, or was the last one allowed.
  ghost predicate Stopped<K(!new), T>(get: Source<K, T>, asked: seq<K>)
    requires asked != []
  {
    var answer := get(asked[|asked| - 1]);
    !answer.Page? || !answer.link.Next? || answer.link.key in asked || |asked| == 200
  }

  ghost predicate NoRepeats<K>(keys: seq<K>)
  {
    forall i, j :: 0 <= i < j < |keys| ==> keys[i] != keys[j]
  }

  // A walk that asked for these keys, in this order, and answers r: everything the
  // chain holds, or a failure exactly when the chain cannot be read to its end in
  // 200 pages. The failure is the transport's own exactly when the last
  // request is the one that raised.
  ghost predicate AllOrNothing<K(!new), T>(get: Source<K, T>, start: K, r: Result<seq<T>, WalkFailure>, asked: seq<K>)
  {
    && Linked(get, start, asked) && |asked| <= 200 && NoRepeats(asked) && Stopped(get, asked)
    && (r.Ok? ==> Whole(get, start, asked) && r.value == Items(get, asked))
    && (r.Refused? ==> forall all :: Whole(get, start, all) ==> |all| > 200)
    && (r.Refused? ==> (r.why.TransportFailed? <==> get(asked[|asked| - 1]).Raised?))
  }

  // A walk from `start` answers r.
  ghost predicate Walked<K(!new), T>(get: Source<K, T>, start: K, r: Result<seq<T>, WalkFailure>)
  {
    exists asked :: AllOrNothing(get, start, r, asked)
  }

  lemma {:induction false} OneWay<K(!new), T>(get: Source<K, T>, start: K, some: seq<K>, more: seq<K>)
    requires Linked(get, start, some) && Linked(get, start, more) && |some| <= |more|
    ensures some == more[..|some|]
  {
    if |some| > 1 {
      var before := some[..|some| - 1];
      OneWay(get, start, before, more);
      assert get(before[|before| - 1]).link == Next(some[|before|]);
      assert more[|before| - 1] == before[|before| - 1];
      assert some == before + [some[|before|]];
    }
  }

  lemma GoesOn<K(!new), T>(get: Source<K, T>, start: K, more: seq<K>, n: nat)
    requires Linked(get, start, more) && NoRepeats(more)
    ensures 0 < n < |more| <= MAX_PAGES ==> !Stopped(get, more[..n])
  {
    if 0 < n < |more| <= MAX_PAGES {
      assert get(more[n - 1]).link == Next(more[n]) && more[..n][n - 1] == more[n - 1];
    }
  }

  lemma NoFurther<K(!new), T>(get: Source<K, T>, start: K, some: seq<K>, more: seq<K>)
    requires Linked(get, start, some) && Linked(get, start, more) && |some| <= |more| <= MAX_PAGES
    requires Stopped(get, some) && NoRepeats(more)
    ensures some == more
  {
    OneWay(get, start, some, more);
    GoesOn(get, start, more, |some|);
  }

  // The transport alone decides the answer, and which of the two failures it is.
  lemma OneAnswerPerWalk<K(!new), T>(get: Source<K, T>, start: K, r: Result<seq<T>, WalkFailure>, r': Result<seq<T>, WalkFailure>)
    requires Walked(get, start, r) && Walked(get, start, r')
    ensures r == r'
  {
    var asked :| AllOrNothing(get, start, r, asked);
    var asked' :| AllOrNothing(get, start, r', asked');
    if |asked| <= |asked'| {
      NoFurther(get, start, asked, asked');
    } else {
      NoFurther(get, start, asked', asked);
    }
  }

  // The walk stands before `key`, having read `pages`.
  ghost predicate Before<K(!new), T>(get: Source<K, T>, start: K, pages: seq<K>, key: K)
  {
    Linked(get, start, pages + [key])
  }

  // If the page at `key` does not end or extend the chain, no chain ends.
  lemma DeadEnd<K(!new), T>(get: Source<K, T>, start: K, pages: seq<K>, key: K)
    requires Before(get, start, pages, key)
    requires !get(key).Page? || get(key).link == Unfollowable || (get(key).link.Next? && get(key).link.key in pages + [key])
    ensures forall all :: !Whole(get, start, all)
  {
    forall all | Whole(get, start, all) ensures false {
      var some := pages + [key];
      SameChain(get, start, some, all);
      var n := |pages|;
      assert all[n] == key;
      if n < |all| - 1 {
        assert get(all[n]).link == Next(all[n + 1]);
        var i :| 0 <= i < |some| && some[i] == get(key).link.key;
        NoPageTwice(get, start, all, i, n + 1);
      }
    }
  }

  lemma TooLong<K(!new), T>(get: Source<K, T>, start: K, pages: seq<K>, key: K)
    requires Before(get, start, pages, key) && NoRepeats(pages + [key]) && |pages| == MAX_PAGES
    ensures Linked(get, start, pages) && NoRepeats(pages) && get(pages[|pages| - 1]).Page?
    ensures forall all :: Whole(get, start, all) ==> |all| > MAX_PAGES
  {
    var some := pages + [key];
    assert forall i :: 0 <= i < |pages| ==> some[i] == pages[i];
    assert get(some[|pages| - 1]).link == Next(some[|pages|]);
    forall all | Whole(get, start, all) ensures |all| > MAX_PAGES {
      SameChain(get, start, pages + [key], all);
    }
  }

  lemma OnePageMore<K(!new), T>(get: Source<K, T>, start: K, pages: seq<K>, key: K)
    requires Before(get, start, pages, key) && get(key).Page?
    ensures Items(get, pages + [key]) == Items(get, pages) + get(key).items
    ensures get(key).link == Last ==> Whole(get, start, pages + [key])
    ensures get(key).link.Next? ==> Before(get, start, pages + [key], get(key).link.key)
  {
    assert (pages + [key])[..|pages|] == pages;
    if get(key).link.Next? {
      var more := pages + [key] + [get(key).link.key];
      forall i | 0 <= i < |more| - 1 ensures get(more[i]).Page? && get(more[i]).link == Next(more[i + 1]) {
        if i < |pages| {
          assert more[i] == (pages + [key])[i] && more[i + 1] == (pages + [key])[i + 1];
        }
      }
    }
  }

  // -- GitHub: a JSON array, and a Link header naming the next path --------------

  datatype LinkHeader = NoNext | NextPath(path: string) | RefusedPath

  datatype Response<T> = Fails | Other(link: LinkHeader) | JsonList(items: seq<T>, link: LinkHeader)

  ghost function OfGitHub<T>(r: Response<T>): Answer<string, T>
  {
    match r
    case Fails => Raised
    case Other(_) => NotAPage
    case JsonList(items, link) =>
      Page(items, if link.NoNext? then Last else if link.NextPath? then Next(link.path) else Unfollowable)
  }

  // A chain of responses: JSON arrays all, each naming the next page's path but
  // the last, which names none.
  ghost predicate GitHubChain<T>(http: string -> Response<T>, path: string, pages: seq<string>)
  {
    && pages != [] && pages[0] == path
    && (forall i :: 0 <= i < |pages| ==> http(pages[i]).JsonList?)
    && (forall i :: 0 <= i < |pages| - 1 ==> http(pages[i]).link == NextPath(pages[i + 1]))
    && http(pages[|pages| - 1]).link == NoNext
  }

  ghost function ListedBy<T>(http: string -> Response<T>, pages: seq<string>): seq<T>
  {
    if pages == [] || !http(pages[|pages| - 1]).JsonList? then []
    else ListedBy(http, pages[..|pages| - 1]) + http(pages[|pages| - 1]).items
  }

  // A whole collection is exactly such a chain, and its items are theirs: a page
  // that is no list, or names a refused path, is never taken for the end.
  lemma {:induction false} WholeOnGitHub<T>(http: string -> Response<T>, path: string, pages: seq<string>)
    ensures Whole(k => OfGitHub(http(k)), path, pages) <==> GitHubChain(http, path, pages)
    ensures Items(k => OfGitHub(http(k)), pages) == ListedBy(http, pages)
    decreases |pages|
  {
    var get := k => OfGitHub(http(k));
    if pages != [] {
      WholeOnGitHub(http, path, pages[..|pages| - 1]);
    }
    forall i | 0 <= i < |pages| - 1
      ensures get(pages[i]).Page? && get(pages[i]).link == Next(pages[i + 1]) <==>
              http(pages[i]).JsonList? && http(pages[i]).link == NextPath(pages[i + 1])
    {
    }
  }

  method WalkGitHub<T>(http: string -> Response<T>, path: string)
    returns (r: Result<seq<T>, WalkFailure>, ghost asked: seq<string>)
    ensures Walked(k => OfGitHub(http(k)), path, r)
    ensures AllOrNothing(k => OfGitHub(http(k)), path, r, asked)
  {
    ghost var get := k => OfGitHub(http(k));
    var items: seq<T> := [];
    var seen := {path};
    var current := Some(path);
    var count := 0;
    ghost var pages: seq<string> := [];
    while current.Some?
      invariant count == |pages| <= MAX_PAGES && items == Items(get, pages)
      invariant current.Some? ==> Before(get, path, pages, current.value) && NoRepeats(pages + [current.value])
      invariant current.Some? ==> seen == set k | k in pages + [current.value]
      invariant current.None? ==> Whole(get, path, pages) && NoRepeats(pages)
      decreases MAX_PAGES - count, current.Some?
    {
      count := count + 1;
      if count > MAX_PAGES {
        TooLong(get, path, pages, current.value);
        r, asked := Refused(WalkRefused), pages;
        assert AllOrNothing(get, path, r, asked);
        return;
      }
      var page := http(current.value);
      if page.Fails? || page.Other? {
        DeadEnd(get, path, pages, current.value);
        r, asked := Refused(if page.Fails? then TransportFailed else WalkRefused), pages + [current.value];
        assert AllOrNothing(get, path, r, asked);
        return;
      }
      OnePageMore(get, path, pages, current.value);
      items := items + page.items;
      if page.link.RefusedPath? || (page.link.NextPath? && page.link.path in seen) {
        DeadEnd(get, path, pages, current.value);
        r, asked := Refused(WalkRefused), pages + [current.value];
        assert AllOrNothing(get, path, r, asked);
        return;
      }
      pages := pages + [current.value];
      current := if page.link.NextPath? then Some(page.link.path) else None;
      if current.Some? {
        seen := seen + {current.value};
      }
    }
    r, asked := Ok(items), pages;
    assert AllOrNothing(get, path, r, asked);
  }

  // -- Linear: a connection somewhere in the response, and an end cursor ----------

  datatype PageInfo = PageInfo(hasNextPage: bool, endCursor: Option<string>)

  datatype Connection<T> = Nowhere | Null | Connection(nodes: seq<T>, info: Option<PageInfo>)

  datatype Reply<T> = QueryFails | Data(connection: Connection<T>)

  predicate Usable(cursor: Option<string>)
  {
    cursor.Some? && cursor.value != ""
  }

  // No page information is taken to mean that there is no more.
  ghost function OfLinear<T>(r: Reply<T>): Answer<Option<string>, T>
  {
    match r
    case QueryFails => Raised
    case Data(c) =>
      if !c.Connection? then NotAPage
      else Page(c.nodes,
                if c.info.None? || !c.info.value.hasNextPage then Last
                else if Usable(c.info.value.endCursor) then Next(c.info.value.endCursor)
                else Unfollowable)
  }

  ghost predicate CursorTo<T>(r: Reply<T>, next: Option<string>)
  {
    r.Data? && r.connection.Connection? && r.connection.info == Some(PageInfo(true, next)) && next.Some? && next != Some("")
  }

  // A chain of connections: each page but the last says there is a next one and has
  // a cursor for it; the last says there is none, or says nothing.
  ghost predicate LinearChain<T>(query: Option<string> -> Reply<T>, pages: seq<Option<string>>)
  {
    && pages != [] && pages[0] == None
    && (forall i :: 0 <= i < |pages| ==> query(pages[i]).Data? && query(pages[i]).connection.Connection?)
    && (forall i :: 0 <= i < |pages| - 1 ==> CursorTo(query(pages[i]), pages[i + 1]))
    && var info := query(pages[|pages| - 1]).connection.info;
       info.Some? ==> !info.value.hasNextPage
  }

  ghost function NodesOf<T>(query: Option<string> -> Reply<T>, pages: seq<Option<string>>): seq<T>
  {
    if pages == [] || !query(pages[|pages| - 1]).Data? || !query(pages[|pages| - 1]).connection.Connection? then []
    else NodesOf(query, pages[..|pages| - 1]) + query(pages[|pages| - 1]).connection.nodes
  }

  lemma {:induction false} WholeOnLinear<T>(query: Option<string> -> Reply<T>, pages: seq<Option<string>>)
    ensures Whole(k => OfLinear(query(k)), None, pages) <==> LinearChain(query, pages)
    ensures Items(k => OfLinear(query(k)), pages) == NodesOf(query, pages)
    decreases |pages|
  {
    var get := k => OfLinear(query(k));
    if pages != [] {
      WholeOnLinear(query, pages[..|pages| - 1]);
    }
    forall i | 0 <= i < |pages| - 1
      ensures get(pages[i]).Page? && get(pages[i]).link == Next(pages[i + 1]) <==>
              CursorTo(query(pages[i]), pages[i + 1])
    {
    }
  }

  method WalkLinear<T>(query: Option<string> -> Reply<T>) returns (r: Result<seq<T>, WalkFailure>, ghost asked: seq<Option<string>>)
    ensures Walked(k => OfLinear(query(k)), None, r)
    ensures AllOrNothing(k => OfLinear(query(k)), None, r, asked)
  {
    ghost var get := k => OfLinear(query(k));
    var nodes: seq<T> := [];
    var cursor: Option<string> := None;
    var seen: set<string> := {};
    var count := 0;
    ghost var pages: seq<Option<string>> := [];
    while true
      invariant count == |pages| <= MAX_PAGES && nodes == Items(get, pages) && Before(get, None, pages, cursor)
      invariant NoRepeats(pages + [cursor]) && forall c :: Some(c) in pages + [cursor] <==> c in seen
      decreases MAX_PAGES - count
    {
      count := count + 1;
      if count > MAX_PAGES {
        TooLong(get, None, pages, cursor);
        r, asked := Refused(WalkRefused), pages;
        assert AllOrNothing(get, None, r, asked);
        return;
      }
      var data := query(cursor);
      if data.QueryFails? || !data.connection.Connection? {
        DeadEnd(get, None, pages, cursor);
        r, asked := Refused(if data.QueryFails? then TransportFailed else WalkRefused), pages + [cursor];
        assert AllOrNothing(get, None, r, asked);
        return;
      }
      OnePageMore(get, None, pages, cursor);
      nodes := nodes + data.connection.nodes;
      if data.connection.info.None? || !data.connection.info.value.hasNextPage {
        r, asked := Ok(nodes), pages + [cursor];
        assert AllOrNothing(get, None, r, asked);
        return;
      }
      var next := data.connection.info.value.endCursor;
      if !Usable(next) || next.value in seen {
        DeadEnd(get, None, pages, cursor);
        r, asked := Refused(WalkRefused), pages + [cursor];
        assert AllOrNothing(get, None, r, asked);
        return;
      }
      seen := seen + {next.value};
      pages, cursor := pages + [cursor], next;
    }
  }
}
