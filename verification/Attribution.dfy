// Who most recently applied a label, decided from a whole history and refused
// where the history does not say.
module Attribution {
  import opened Prelude
  import opened PageWalk
  import opened Sorting

  // A timestamp as it arrives: missing, unparseable, without a zone, or an instant.
  datatype Stamp = Missing | Garbled | Zoneless | Instant(at: int)

  // Who an entry is attributed to. A bot is never given a name the caller could match.
  datatype Party = Bot(name: string) | User(id: string) | Unattributed

  datatype Application = Application(at: Stamp, who: Party)

  datatype Failure = Unorderable | NotRead(why: WalkFailure)

  function NameOf(p: Party): Option<string>
  {
    if p.User? && p.id != "" then Some(p.id) else None
  }

  ghost predicate Newest(apps: set<Application>, a: Application)
  {
    a in apps && a.at.Instant? && forall b :: b in apps && b.at.Instant? ==> b.at.at <= a.at.at
  }

  ghost predicate Placeable(apps: set<Application>)
  {
    forall a :: a in apps ==> a.at.Instant?
  }

  // All the newest applications name one party.
  ghost predicate OneParty(apps: set<Application>)
  {
    forall a, b :: Newest(apps, a) && Newest(apps, b) ==> a.who == b.who
  }

  // The answer, from what was applied and nothing else: not the order of arrival,
  // the division into pages, or how often an entry was repeated.
  ghost predicate Attributed(apps: set<Application>, r: Result<Option<string>, Failure>)
  {
    && (r.Refused? <==> !Placeable(apps) || !OneParty(apps))
    && (r.Refused? ==> r.why == Unorderable)
    && (apps == {} ==> r == Ok(None))
    && (r.Ok? ==> forall a :: Newest(apps, a) ==> r.value == NameOf(a.who))
  }

  lemma {:induction false} SomeNewest(apps: set<Application>)
    requires apps != {} && Placeable(apps)
    ensures exists a :: Newest(apps, a)
    decreases |apps|
  {
    var a :| a in apps;
    var rest := apps - {a};
    if rest == {} {
      assert apps == {a};
      assert Newest(apps, a);
    } else {
      SomeNewest(rest);
      var b :| Newest(rest, b);
      assert Newest(apps, if a.at.at <= b.at.at then b else a);
    }
  }

  // A name is given exactly when it is every newest application's.
  lemma NamedExactlyWhen(apps: set<Application>, r: Result<Option<string>, Failure>, name: string)
    requires Attributed(apps, r)
    ensures r == Ok(Some(name)) <==>
              && Placeable(apps) && apps != {} && name != ""
              && forall a :: Newest(apps, a) ==> a.who == User(name)
  {
    if apps != {} && Placeable(apps) {
      SomeNewest(apps);
    }
  }

  lemma OneAnswer(apps: set<Application>, r: Result<Option<string>, Failure>, r': Result<Option<string>, Failure>)
    requires Attributed(apps, r) && Attributed(apps, r')
    ensures r == r'
  {
    if apps != {} && Placeable(apps) {
      SomeNewest(apps);
    }
  }

  // -- the decision --------------------------------------------------------------

  type Dated = (int, Party)

  function When(d: Dated): real { d.0 as real }

  method MostRecent(apps: seq<Application>) returns (r: Result<Option<string>, Failure>)
    ensures Attributed((set a | a in apps), r)
  {
    ghost var all := set a | a in apps;
    if apps == [] {
      return Ok(None);
    }
    var instants: seq<Dated> := [];
    for i := 0 to |apps|
      invariant |instants| == i
      invariant forall j :: 0 <= j < i ==> apps[j].at.Instant? && instants[j] == (apps[j].at.at, apps[j].who)
    {
      if !apps[i].at.Instant? {
        assert apps[i] in all;
        return Refused(Unorderable);
      }
      instants := instants + [(apps[i].at.at, apps[i].who)];
    }
    var sorted := SortBy(instants, When);
    Sorted(instants, When);
    SortKeeps(apps, instants, sorted);
    var newest := sorted[|sorted| - 1];
    var parties := set d | d in sorted && d.0 == newest.0 :: d.1;
    PartiesAreNewest(all, sorted, parties);
    if |parties| > 1 {
      return Refused(Unorderable);
    }
    return Ok(NameOf(newest.1));
  }

  lemma SortKeeps(apps: seq<Application>, instants: seq<Dated>, sorted: seq<Dated>)
    requires |instants| == |apps| && multiset(sorted) == multiset(instants)
    requires forall j :: 0 <= j < |apps| ==> apps[j].at.Instant? && instants[j] == (apps[j].at.at, apps[j].who)
    ensures |sorted| == |apps|
    ensures forall d :: d in sorted <==> Application(Instant(d.0), d.1) in apps
  {
    assert |sorted| == |multiset(sorted)| && |instants| == |multiset(instants)|;
    forall d ensures d in sorted <==> Application(Instant(d.0), d.1) in apps {
      assert d in sorted <==> d in multiset(sorted);
      assert d in instants <==> d in multiset(instants);
      if Application(Instant(d.0), d.1) in apps {
        var j :| 0 <= j < |apps| && apps[j] == Application(Instant(d.0), d.1);
        assert instants[j] == d;
      }
    }
  }

  lemma PartiesAreNewest(all: set<Application>, sorted: seq<Dated>, parties: set<Party>)
    requires sorted != [] && Ascending(sorted, When) && Placeable(all)
    requires forall d :: d in sorted <==> Application(Instant(d.0), d.1) in all
    requires parties == set d | d in sorted && d.0 == sorted[|sorted| - 1].0 :: d.1
    ensures |parties| > 1 <==> !OneParty(all)
    ensures |parties| <= 1 ==> forall a :: Newest(all, a) ==> a.who == sorted[|sorted| - 1].1
  {
    var last := sorted[|sorted| - 1];
    forall a ensures Newest(all, a) <==> a.at == Instant(last.0) && a.who in parties {
      if Newest(all, a) {
        assert (a.at.at, a.who) in sorted && Application(Instant(last.0), last.1) in all;
      }
      if a.at == Instant(last.0) && a.who in parties {
        forall b | b in all ensures b.at.at <= last.0 {
          assert (b.at.at, b.who) in sorted;
        }
      }
    }
    assert last.1 in parties;
    if |parties| > 1 {
      assert parties - {last.1} != {} by {
        assert parties == parties - {last.1} + {last.1};
      }
      var other :| other in parties - {last.1};
      assert Newest(all, Application(Instant(last.0), other)) && Newest(all, Application(Instant(last.0), last.1));
    } else {
      assert parties == {last.1} by {
        assert |parties - {last.1}| == 0;
      }
    }
  }

  // -- the two trackers ----------------------------------------------------------

  datatype TimelineEvent = TimelineEvent(kind: string, tag: string, at: Stamp, login: Option<string>)

  function OfEvent(e: TimelineEvent): Application
  {
    Application(e.at, if e.login.Some? then User(e.login.value) else Unattributed)
  }

  predicate Labels(e: TimelineEvent, tag: string)
  {
    e.kind == "labeled" && e.tag == tag
  }

  // What the answer must be where a whole chain of pages decides it.
  ghost predicate Settles<K(!new), E>(get: Source<K, E>, start: K, applies: E -> bool, of: E -> Application,
                                      r: Result<Option<string>, Failure>)
  {
    if r.Refused? && r.why.NotRead? then Walked(get, start, Refused(r.why.why))
    else exists pages :: |pages| <= MAX_PAGES && Whole(get, start, pages) && Attributed(Applied(Items(get, pages), applies, of), r)
  }

  ghost function Applied<E>(entries: seq<E>, applies: E -> bool, of: E -> Application): set<Application>
  {
    set i | 0 <= i < |entries| && applies(entries[i]) :: of(entries[i])
  }

  // The same entries in another order come to the same answer.
  lemma OrderDoesNotMatter<E>(s: seq<E>, s': seq<E>, applies: E -> bool, of: E -> Application,
                              r: Result<Option<string>, Failure>, r': Result<Option<string>, Failure>)
    requires multiset(s) == multiset(s') && Attributed(Applied(s, applies, of), r) && Attributed(Applied(s', applies, of), r')
    ensures r == r'
  {
    SameEntries(s, s', applies, of);
    OneAnswer(Applied(s, applies, of), r, r');
  }

  // Two servers that hold the same entries, in any order and cut into any pages,
  // get the same answer.
  lemma {:induction false} PagingDoesNotMatter<J(!new), K(!new), E>(
    get: Source<J, E>, start: J, get': Source<K, E>, start': K, applies: E -> bool, of: E -> Application,
    pages: seq<J>, pages': seq<K>, r: Result<Option<string>, Failure>, r': Result<Option<string>, Failure>)
    requires Whole(get, start, pages) && Whole(get', start', pages')
    requires multiset(Items(get, pages)) == multiset(Items(get', pages'))
    requires Settles(get, start, applies, of, r) && Settles(get', start', applies, of, r')
    ensures r == r' || (r.Refused? && r.why.NotRead?) || (r'.Refused? && r'.why.NotRead?)
    ensures r.Refused? && r.why.NotRead? ==> |pages| > MAX_PAGES
    ensures r'.Refused? && r'.why.NotRead? ==> |pages'| > MAX_PAGES
  {
    if !(r.Refused? && r.why.NotRead?) && !(r'.Refused? && r'.why.NotRead?) {
      var some :| |some| <= MAX_PAGES && Whole(get, start, some) && Attributed(Applied(Items(get, some), applies, of), r);
      var some' :| |some'| <= MAX_PAGES && Whole(get', start', some') && Attributed(Applied(Items(get', some'), applies, of), r');
      OneChain(get, start, pages, some);
      OneChain(get', start', pages', some');
      OrderDoesNotMatter(Items(get, pages), Items(get', pages'), applies, of, r, r');
    }
  }

  // One transport gives one answer: a name, none, or one and the same failure.
  lemma OneTransportOneAnswer<K(!new), E>(get: Source<K, E>, start: K, applies: E -> bool, of: E -> Application,
                                          r: Result<Option<string>, Failure>, r': Result<Option<string>, Failure>)
    requires Settles(get, start, applies, of, r) && Settles(get, start, applies, of, r')
    ensures r == r'
  {
    var unread, unread' := r.Refused? && r.why.NotRead?, r'.Refused? && r'.why.NotRead?;
    if unread && unread' {
      OneAnswerPerWalk(get, start, Refused(r.why.why), Refused(r'.why.why));
    } else if !unread && !unread' {
      var some :| |some| <= MAX_PAGES && Whole(get, start, some) && Attributed(Applied(Items(get, some), applies, of), r);
      var some' :| |some'| <= MAX_PAGES && Whole(get, start, some') && Attributed(Applied(Items(get, some'), applies, of), r');
      OneChain(get, start, some, some');
      OneAnswer(Applied(Items(get, some), applies, of), r, r');
    }
  }

  lemma OneChain<K(!new), T>(get: Source<K, T>, start: K, one: seq<K>, other: seq<K>)
    requires Whole(get, start, one) && Whole(get, start, other)
    ensures one == other
  {
    SameChain(get, start, one, other);
    SameChain(get, start, other, one);
  }

  lemma SameEntries<E>(s: seq<E>, s': seq<E>, applies: E -> bool, of: E -> Application)
    requires multiset(s) == multiset(s')
    ensures Applied(s, applies, of) == Applied(s', applies, of)
  {
    SomeEntries(s, s', applies, of);
    SomeEntries(s', s, applies, of);
  }

  lemma SomeEntries<E>(s: seq<E>, s': seq<E>, applies: E -> bool, of: E -> Application)
    requires multiset(s) == multiset(s')
    ensures Applied(s, applies, of) <= Applied(s', applies, of)
  {
    forall i | 0 <= i < |s| && applies(s[i]) ensures of(s[i]) in Applied(s', applies, of) {
      assert s[i] in multiset(s');
      var j :| 0 <= j < |s'| && s'[j] == s[i];
    }
  }

  // -- what the answers are, in terms of the entries themselves ---------------------

  ghost predicate LabeledAt(events: seq<TimelineEvent>, i: int, tag: string)
  {
    0 <= i < |events| && events[i].kind == "labeled" && events[i].tag == tag
  }

  ghost predicate NewestLabeled(events: seq<TimelineEvent>, i: int, tag: string)
  {
    LabeledAt(events, i, tag) && events[i].at.Instant? &&
    forall j :: LabeledAt(events, j, tag) && events[j].at.Instant? ==> events[j].at.at <= events[i].at.at
  }

  // A label that cannot be placed, or two newest ones by different accounts, and
  // there is no answer. Otherwise the account of all the newest ones, if they have one.
  ghost predicate TimelineSays(events: seq<TimelineEvent>, tag: string, r: Result<Option<string>, Failure>)
  {
    && (r.Refused? <==>
          || (exists i :: LabeledAt(events, i, tag) && !events[i].at.Instant?)
          || (exists i, j :: NewestLabeled(events, i, tag) && NewestLabeled(events, j, tag) && events[i].login != events[j].login))
    && (r.Refused? ==> r.why == Unorderable)
    && (r.Ok? ==> forall name :: r.value == Some(name) <==>
          && name != "" && (exists i :: NewestLabeled(events, i, tag))
          && forall i :: NewestLabeled(events, i, tag) ==> events[i].login == Some(name))
  }

  ghost predicate AddedAt(entries: seq<HistoryEntry>, i: int, id: string)
  {
    0 <= i < |entries| && id in entries[i].added
  }

  ghost predicate NewestAdded(entries: seq<HistoryEntry>, i: int, id: string)
  {
    AddedAt(entries, i, id) && entries[i].at.Instant? &&
    forall j :: AddedAt(entries, j, id) && entries[j].at.Instant? ==> entries[j].at.at <= entries[i].at.at
  }

  // Both by one bot, or both by no bot and by one account or none.
  ghost predicate BySame(a: HistoryEntry, b: HistoryEntry)
  {
    a.bot == b.bot && (a.bot.None? ==> a.actor == b.actor || (a.actor in {None, Some("")} && b.actor in {None, Some("")}))
  }

  // The same over a history, where a bot is never a name.
  ghost predicate HistorySays(entries: seq<HistoryEntry>, id: string, r: Result<Option<string>, Failure>)
  {
    && (r.Refused? <==>
          || (exists i :: AddedAt(entries, i, id) && !entries[i].at.Instant?)
          || (exists i, j :: NewestAdded(entries, i, id) && NewestAdded(entries, j, id) && !BySame(entries[i], entries[j])))
    && (r.Refused? ==> r.why == Unorderable)
    && (r.Ok? ==> forall name :: r.value == Some(name) <==>
          && name != "" && (exists i :: NewestAdded(entries, i, id))
          && forall i :: NewestAdded(entries, i, id) ==> entries[i].bot.None? && entries[i].actor == Some(name))
  }

  // Which entries count, by their places, and what becomes of them as applications.
  ghost predicate Mirrors<E>(entries: seq<E>, of: E -> Application, places: set<int>, apps: set<Application>)
  {
    && (forall i :: i in places ==> 0 <= i < |entries| && of(entries[i]) in apps)
    && (forall a :: a in apps ==> exists i :: i in places && of(entries[i]) == a)
  }

  ghost predicate NewestPlace<E>(entries: seq<E>, of: E -> Application, places: set<int>, i: int)
    requires forall j :: j in places ==> 0 <= j < |entries|
  {
    i in places && of(entries[i]).at.Instant? &&
    forall j :: j in places && of(entries[j]).at.Instant? ==> of(entries[j]).at.at <= of(entries[i]).at.at
  }

  lemma NewestMirrored<E>(entries: seq<E>, of: E -> Application, places: set<int>, apps: set<Application>)
    requires Mirrors(entries, of, places, apps)
    ensures forall i :: i in places ==> (NewestPlace(entries, of, places, i) <==> Newest(apps, of(entries[i])))
    ensures forall a :: Newest(apps, a) ==> exists i :: NewestPlace(entries, of, places, i) && of(entries[i]) == a
  {
    forall a | Newest(apps, a) ensures exists i :: NewestPlace(entries, of, places, i) && of(entries[i]) == a {
      var i :| i in places && of(entries[i]) == a;
      assert NewestPlace(entries, of, places, i);
    }
  }

  ghost predicate Saying<E>(entries: seq<E>, of: E -> Application, places: set<int>, r: Result<Option<string>, Failure>)
    requires forall j :: j in places ==> 0 <= j < |entries|
  {
    && (r.Refused? <==>
          || (exists i :: i in places && !of(entries[i]).at.Instant?)
          || (exists i, j :: NewestPlace(entries, of, places, i) && NewestPlace(entries, of, places, j) &&
                             of(entries[i]).who != of(entries[j]).who))
    && (r.Refused? ==> r.why == Unorderable)
    && (r.Ok? ==> forall name :: r.value == Some(name) <==>
          && name != "" && (exists i :: NewestPlace(entries, of, places, i))
          && forall i :: NewestPlace(entries, of, places, i) ==> of(entries[i]).who == User(name))
  }

  lemma RefusedByPlace<E>(entries: seq<E>, of: E -> Application, places: set<int>, apps: set<Application>,
                          r: Result<Option<string>, Failure>)
    requires Mirrors(entries, of, places, apps) && Attributed(apps, r)
    ensures r.Refused? <==>
              || (exists i :: i in places && !of(entries[i]).at.Instant?)
              || (exists i, j :: NewestPlace(entries, of, places, i) && NewestPlace(entries, of, places, j) &&
                                 of(entries[i]).who != of(entries[j]).who)
  {
    NewestMirrored(entries, of, places, apps);
    if !OneParty(apps) {
      var a, b :| Newest(apps, a) && Newest(apps, b) && a.who != b.who;
      var i :| NewestPlace(entries, of, places, i) && of(entries[i]) == a;
      var j :| NewestPlace(entries, of, places, j) && of(entries[j]) == b;
    }
  }

  lemma NamedByPlace<E>(entries: seq<E>, of: E -> Application, places: set<int>, apps: set<Application>,
                        r: Result<Option<string>, Failure>, name: string)
    requires Mirrors(entries, of, places, apps) && Attributed(apps, r) && r.Ok?
    ensures r.value == Some(name) <==>
              && name != "" && (exists i :: NewestPlace(entries, of, places, i))
              && forall i :: NewestPlace(entries, of, places, i) ==> of(entries[i]).who == User(name)
  {
    NewestMirrored(entries, of, places, apps);
    NamedExactlyWhen(apps, r, name);
    if apps != {} {
      SomeNewest(apps);
    }
  }

  lemma SaidByPlace<E>(entries: seq<E>, of: E -> Application, places: set<int>, apps: set<Application>,
                       r: Result<Option<string>, Failure>)
    requires Mirrors(entries, of, places, apps) && Attributed(apps, r)
    ensures Saying(entries, of, places, r)
  {
    RefusedByPlace(entries, of, places, apps, r);
    if r.Ok? {
      forall name ensures r.value == Some(name) <==>
              && name != "" && (exists i :: NewestPlace(entries, of, places, i))
              && forall i :: NewestPlace(entries, of, places, i) ==> of(entries[i]).who == User(name)
      {
        NamedByPlace(entries, of, places, apps, r, name);
      }
    }
  }

  lemma AppliedMirrors<E>(entries: seq<E>, applies: E -> bool, of: E -> Application)
    ensures var places := set i | 0 <= i < |entries| && applies(entries[i]);
            Mirrors(entries, of, places, Applied(entries, applies, of))
  {
  }

  lemma FromTimeline(events: seq<TimelineEvent>, tag: string, r: Result<Option<string>, Failure>)
    requires Attributed(Applied(events, (e: TimelineEvent) => Labels(e, tag), OfEvent), r)
    ensures TimelineSays(events, tag, r)
  {
    var applies := (e: TimelineEvent) => Labels(e, tag);
    var places := set i | 0 <= i < |events| && applies(events[i]);
    AppliedMirrors(events, applies, OfEvent);
    SaidByPlace(events, OfEvent, places, Applied(events, applies, OfEvent), r);
    TimelinePlaces(events, tag, places, r);
  }

  lemma TimelinePlaces(events: seq<TimelineEvent>, tag: string, places: set<int>, r: Result<Option<string>, Failure>)
    requires places == set i | 0 <= i < |events| && Labels(events[i], tag)
    requires Saying(events, OfEvent, places, r)
    ensures TimelineSays(events, tag, r)
  {
    assert forall i :: LabeledAt(events, i, tag) <==> i in places;
    assert forall i :: NewestLabeled(events, i, tag) <==> NewestPlace(events, OfEvent, places, i);
  }

  lemma FromHistory(entries: seq<HistoryEntry>, id: string, r: Result<Option<string>, Failure>)
    requires Attributed(Applied(entries, (e: HistoryEntry) => id in e.added, OfEntry), r)
    ensures HistorySays(entries, id, r)
  {
    var applies := (e: HistoryEntry) => id in e.added;
    var places := set i | 0 <= i < |entries| && applies(entries[i]);
    AppliedMirrors(entries, applies, OfEntry);
    SaidByPlace(entries, OfEntry, places, Applied(entries, applies, OfEntry), r);
    HistoryPlaces(entries, id, places, r);
  }

  lemma HistoryPlaces(entries: seq<HistoryEntry>, id: string, places: set<int>, r: Result<Option<string>, Failure>)
    requires places == set i | 0 <= i < |entries| && id in entries[i].added
    requires Saying(entries, OfEntry, places, r)
    ensures HistorySays(entries, id, r)
  {
    assert forall i :: AddedAt(entries, i, id) <==> i in places;
    assert forall i :: NewestAdded(entries, i, id) <==> NewestPlace(entries, OfEntry, places, i);
    assert forall i, j :: i in places && j in places ==>
      (BySame(entries[i], entries[j]) <==> OfEntry(entries[i]).who == OfEntry(entries[j]).who);
  }

  // What a tracker that read its whole collection answers, and otherwise why it
  // could not be read.
  ghost predicate Read<K(!new), E>(get: Source<K, E>, start: K, entries: seq<E>)
  {
    Walked(get, start, Ok(entries))
  }

  ghost predicate TimelineAnswers(get: Source<string, TimelineEvent>, start: string, tag: string, r: Result<Option<string>, Failure>)
  {
    if r.Refused? && r.why.NotRead? then Walked(get, start, Refused(r.why.why))
    else exists events :: Read(get, start, events) && TimelineSays(events, tag, r)
  }

  ghost predicate HistoryAnswers(get: Source<Option<string>, HistoryEntry>, id: string, r: Result<Option<string>, Failure>)
  {
    if r.Refused? && r.why.NotRead? then Walked(get, None, Refused(r.why.why))
    else exists entries :: Read(get, None, entries) && HistorySays(entries, id, r)
  }

  method GitHubLabelActor(http: string -> Response<TimelineEvent>, timeline: string, tag: string)
    returns (r: Result<Option<string>, Failure>)
    ensures Settles(k => OfGitHub(http(k)), timeline, (e: TimelineEvent) => Labels(e, tag), OfEvent, r)
    ensures TimelineAnswers(k => OfGitHub(http(k)), timeline, tag, r)
  {
    ghost var get := k => OfGitHub(http(k));
    var walked, _ := WalkGitHub(http, timeline);
    if walked.Refused? {
      return Refused(NotRead(walked.why));
    }
    var events := walked.value;
    var apps: seq<Application> := [];
    ghost var applies := (e: TimelineEvent) => Labels(e, tag);
    for i := 0 to |events|
      invariant (set a | a in apps) == Applied(events[..i], applies, OfEvent)
    {
      OneEntryMore(events[..i], events[i], applies, OfEvent);
      assert events[..i + 1] == events[..i] + [events[i]];
      if Labels(events[i], tag) {
        apps := apps + [OfEvent(events[i])];
      }
    }
    assert events[..|events|] == events;
    r := MostRecent(apps);
    FromTimeline(events, tag, r);
    assert Read(get, timeline, events);
  }

  lemma OneEntryMore<E>(entries: seq<E>, e: E, applies: E -> bool, of: E -> Application)
    ensures Applied(entries + [e], applies, of) == Applied(entries, applies, of) + (if applies(e) then {of(e)} else {})
  {
    assert forall i :: 0 <= i < |entries| ==> (entries + [e])[i] == entries[i];
    assert (entries + [e])[|entries|] == e;
  }

  datatype LabelNode = LabelNode(name: string, id: string)

  datatype HistoryEntry = HistoryEntry(added: set<string>, at: Stamp, bot: Option<string>, actor: Option<string>)

  // A bot is one party and a person is an account id; an empty id attributes nothing.
  function OfEntry(e: HistoryEntry): Application
  {
    Application(e.at,
                if e.bot.Some? then Bot(e.bot.value)
                else if e.actor.Some? && e.actor.value != "" then User(e.actor.value)
                else Unattributed)
  }

  // The id of the first label of that name on the issue.
  method LabelId(labels: Option<string> -> Reply<LabelNode>, name: string) returns (r: Result<Option<string>, Failure>)
    ensures Identified(k => OfLinear(labels(k)), name, r)
  {
    var walked, _ := WalkLinear(labels);
    if walked.Refused? {
      return Refused(NotRead(walked.why));
    }
    var nodes := walked.value;
    for i := 0 to |nodes|
      invariant forall j :: 0 <= j < i ==> nodes[j].name != name
    {
      if nodes[i].name == name {
        assert FirstNamed(nodes, name, Some(nodes[i].id));
        return Ok(Some(nodes[i].id));
      }
    }
    assert FirstNamed(nodes, name, None);
    return Ok(None);
  }

  ghost predicate FirstNamed(nodes: seq<LabelNode>, name: string, id: Option<string>)
  {
    if id.None? then forall j :: 0 <= j < |nodes| ==> nodes[j].name != name
    else exists i :: 0 <= i < |nodes| && nodes[i] == LabelNode(name, id.value) && forall j :: 0 <= j < i ==> nodes[j].name != name
  }

  ghost predicate Identified(get: Source<Option<string>, LabelNode>, name: string, r: Result<Option<string>, Failure>)
  {
    if r.Refused? then r.why.NotRead? && Walked(get, None, Refused(r.why.why))
    else exists pages :: Whole(get, None, pages) && FirstNamed(Items(get, pages), name, r.value)
  }

  // The answer over two walks: the label's id first, then the history.
  ghost predicate SettledByHistory(labels: Source<Option<string>, LabelNode>, history: Source<Option<string>, HistoryEntry>,
                                   name: string, r: Result<Option<string>, Failure>)
  {
    exists id :: Identified(labels, name, id) &&
      if id.Refused? then r == Refused(id.why)
      else if id.value.None? then r == Ok(None)
      else Settles(history, None, (e: HistoryEntry) => id.value.value in e.added, OfEntry, r) &&
           HistoryAnswers(history, id.value.value, r)
  }

  method LinearLabelActor(labels: Option<string> -> Reply<LabelNode>, history: Option<string> -> Reply<HistoryEntry>, name: string)
    returns (r: Result<Option<string>, Failure>)
    ensures SettledByHistory(k => OfLinear(labels(k)), k => OfLinear(history(k)), name, r)
  {
    var found := LabelId(labels, name);
    if found.Refused? {
      return Refused(found.why);
    }
    if found.value.None? {
      return Ok(None);
    }
    var labelId := found.value.value;
    ghost var get := k => OfLinear(history(k));
    var walked, _ := WalkLinear(history);
    if walked.Refused? {
      return Refused(NotRead(walked.why));
    }
    var entries := walked.value;
    var apps: seq<Application> := [];
    ghost var applies := (e: HistoryEntry) => found.value.value in e.added;
    for i := 0 to |entries|
      invariant (set a | a in apps) == Applied(entries[..i], applies, OfEntry)
    {
      OneEntryMore(entries[..i], entries[i], applies, OfEntry);
      assert entries[..i + 1] == entries[..i] + [entries[i]];
      if labelId in entries[i].added {
        apps := apps + [OfEntry(entries[i])];
      }
    }
    assert entries[..|entries|] == entries;
    r := MostRecent(apps);
    FromHistory(entries, labelId, r);
    assert Read(get, None, entries);
  }
}
