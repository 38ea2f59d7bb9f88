/** The `event_list` view: optional search, category and date-range filters over the ordered listing. */
module EventListing {
  import opened Wrappers
  import opened Text
  import opened Models
  import opened Seqs
  import opened Ordering

  /** A query parameter as sent (`raw`, which decides whether the filter applies and is echoed
      back) together with the value the framework parsed it to. */
  datatype Arg<T> = Arg(raw: string, value: T)

  /** The `search`, `category`, `start` and `end` parameters; `None` when absent. */
  datatype EventQuery = EventQuery(
    search: Option<string>,
    category: Option<Arg<nat>>,
    start: Option<Arg<int>>,
    end: Option<Arg<int>>)

  datatype ListView = ListView(
    events: seq<Annotated>,
    search: string,
    categoryId: string,
    start: string,
    end: string)

  /** Python truthiness of a parameter: present and not the empty string. */
  predicate Given(raw: Option<string>) {
    raw.Some? && raw.value != ""
  }

  function RawOf<T>(arg: Option<Arg<T>>): Option<string> {
    if arg.Some? then Some(arg.value.raw) else None
  }

  /** `x or ""`. */
  function Echo(raw: Option<string>): string {
    if Given(raw) then raw.value else ""
  }

  /** `Q(name__icontains=term) | Q(location__icontains=term)`. */
  predicate SearchHit(term: string, e: Event) {
    IContains(e.name, term) || IContains(e.location, term)
  }

  /** Whether the date range applies: only when both ends are given. */
  predicate RangeGiven(q: EventQuery) {
    Given(RawOf(q.start)) && Given(RawOf(q.end))
  }

  /** The reference meaning of a query: every filter whose parameter is given must accept the event. */
  predicate Matches(q: EventQuery, e: Event) {
    && (Given(q.search) ==> SearchHit(q.search.value, e))
    && (Given(RawOf(q.category)) ==> e.category == Some(q.category.value.value))
    && (RangeGiven(q) ==> q.start.value.value <= e.date <= q.end.value.value)
  }

  function SearchFilter(term: string): Event -> bool {
    (e: Event) => SearchHit(term, e)
  }

  function CategoryFilter(id: nat): Event -> bool {
    (e: Event) => e.category == Some(id)
  }

  /** `date__range=[start, end]`, inclusive at both ends. */
  function RangeFilter(start: int, end: int): Event -> bool {
    (e: Event) => start <= e.date <= end
  }

  function MatchFilter(q: EventQuery): Event -> bool {
    (e: Event) => Matches(q, e)
  }

  /** The event rows of `event_list`: the ordered listing narrowed by each given filter in turn. */
  function FilteredEvents(store: Store, q: EventQuery): seq<Event> {
    var events := Listing(store);
    var events := if Given(q.search) then Filter(events, SearchFilter(q.search.value)) else events;
    var events := if Given(RawOf(q.category)) then Filter(events, CategoryFilter(q.category.value.value)) else events;
    if RangeGiven(q) then Filter(events, RangeFilter(q.start.value.value, q.end.value.value)) else events
  }

  /** The `event_list` view. The category drop-down, `Category.objects.all().order_by("name")`,
      is not part of this model. */
  function EventList(store: Store, q: EventQuery): (v: ListView)
    ensures forall e :: e in EventsOf(v.events) <==> e in store.events && Matches(q, e)
    ensures Sorted(EventsOf(v.events))
    ensures multiset(EventsOf(v.events)) == multiset(Filter(store.events, MatchFilter(q)))
    ensures forall i :: 0 <= i < |v.events| ==> v.events[i] == Annotate(store, v.events[i].event)
    ensures v.search == Echo(q.search) && v.categoryId == Echo(RawOf(q.category))
    ensures v.start == Echo(RawOf(q.start)) && v.end == Echo(RawOf(q.end))
  {
    var events := FilteredEvents(store, q);
    ChainIsOneFilter(store, q);
    FilterPermutation(Listing(store), store.events, MatchFilter(q));
    FilterKeepsSorted(Listing(store), MatchFilter(q));
    EventsOfAnnotateAll(store, events);
    ListView(
      AnnotateAll(store, events),
      Echo(q.search),
      Echo(RawOf(q.category)),
      Echo(RawOf(q.start)),
      Echo(RawOf(q.end)))
  }

  /** Applying the given filters one after another is filtering once by their conjunction. */
  lemma ChainIsOneFilter(store: Store, q: EventQuery)
    ensures FilteredEvents(store, q) == Filter(Listing(store), MatchFilter(q))
  {
    var s0 := Listing(store);
    var searchOn, categoryOn, rangeOn := Given(q.search), Given(RawOf(q.category)), RangeGiven(q);
    var p1: Event -> bool := (e: Event) => searchOn ==> SearchHit(q.search.value, e);
    var p12: Event -> bool := (e: Event) => p1(e) && (categoryOn ==> e.category == Some(q.category.value.value));
    var s1 := if searchOn then Filter(s0, SearchFilter(q.search.value)) else s0;
    assert s1 == Filter(s0, p1) by {
      if searchOn {
        FilterExtensional(s0, SearchFilter(q.search.value), p1);
      } else {
        FilterKeepsAll(s0, p1);
      }
    }
    var s2 := if categoryOn then Filter(s1, CategoryFilter(q.category.value.value)) else s1;
    assert s2 == Filter(s0, p12) by {
      if categoryOn {
        FilterFilter(s0, p1, CategoryFilter(q.category.value.value), p12);
      } else {
        FilterExtensional(s0, p1, p12);
      }
    }
    if rangeOn {
      FilterFilter(s0, p12, RangeFilter(q.start.value.value, q.end.value.value), MatchFilter(q));
    } else {
      FilterExtensional(s0, p12, MatchFilter(q));
    }
  }

  /** With only one end of the date range given, the range is ignored: the same events come
      back as with neither end given. */
  lemma OneSidedRangeIgnored(store: Store, q: EventQuery)
    requires !Given(RawOf(q.start)) || !Given(RawOf(q.end))
    ensures EventList(store, q).events == EventList(store, q.(start := None, end := None)).events
  {
  }

  /** An empty or missing search term filters nothing. */
  lemma EmptySearchIgnored(store: Store, q: EventQuery)
    ensures EventList(store, q.(search := Some(""))) == EventList(store, q.(search := None))
  {
  }

  /** The search term is matched without regard to ASCII case. */
  lemma SearchIgnoresCase(store: Store, q: EventQuery)
    requires Given(q.search)
    ensures EventList(store, q.(search := Some(Lower(q.search.value)))).events == EventList(store, q).events
  {
    LowerIdempotent(q.search.value);
    FilterExtensional(Listing(store), SearchFilter(Lower(q.search.value)), SearchFilter(q.search.value));
    assert Lower(q.search.value) != "";
  }

  /** The parsed value a parameter carried, or `default` when it was absent. */
  function ValueOr<T>(arg: Option<Arg<T>>, default: T): T {
    if arg.Some? then arg.value.value else default
  }

  /** The query a form that redisplays the echoed values sends back: every parameter is now
      present, with the echoed text, and keeps the value it was parsed to. */
  function Resubmit(q: EventQuery, v: ListView): EventQuery {
    EventQuery(
      Some(v.search),
      Some(Arg(v.categoryId, ValueOr(q.category, 0))),
      Some(Arg(v.start, ValueOr(q.start, 0))),
      Some(Arg(v.end, ValueOr(q.end, 0))))
  }

  /** Submitting the echoed parameters again reproduces the same view: the echo loses nothing
      that decides which events are listed. */
  lemma EchoRoundTrip(store: Store, q: EventQuery)
    ensures EventList(store, Resubmit(q, EventList(store, q))) == EventList(store, q)
  {
    var q' := Resubmit(q, EventList(store, q));
    assert Given(q'.search) == Given(q.search);
    assert Given(RawOf(q'.category)) == Given(RawOf(q.category));
    assert RangeGiven(q') == RangeGiven(q);
    assert FilteredEvents(store, q') == FilteredEvents(store, q);
  }
}
