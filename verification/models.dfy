/**
  The data model: categories, participants, events and the event–participant join table,
  and the annotated event rows the listing views hand to their templates.
*/
module Models {
  import opened Wrappers

  datatype Category = Category(id: nat, name: string, description: string)

  datatype Participant = Participant(id: nat, name: string, email: string)

  /** An event row. `date` is a day number and `time` minutes since midnight; the
      participants are not a field of the row but rows of the join table. */
  datatype Event = Event(
    id: nat,
    name: string,
    description: string,
    date: int,
    time: nat,
    location: string,
    category: Option<nat>)

  /** One row of the event–participant join table. */
  datatype Link = Link(event: nat, participant: nat)

  /** The whole database. The join table is a set, so no (event, participant) pair is stored twice. */
  datatype Store = Store(
    categories: seq<Category>,
    participants: seq<Participant>,
    events: seq<Event>,
    links: set<Link>)

  /** An event with what `select_related`, `prefetch_related` and `annotate` attach to it. */
  datatype Annotated = Annotated(
    event: Event,
    category: Option<Category>,
    participants: set<nat>,
    participantCount: nat)

  function EventIds(events: seq<Event>): set<nat> {
    set e | e in events :: e.id
  }

  /** Primary keys are unique. */
  predicate UniqueIds(events: seq<Event>) {
    forall i, j :: 0 <= i < j < |events| ==> events[i].id != events[j].id
  }

  /** The store's referential integrity as far as the dashboard needs it: event keys are
      unique and every join row names an existing event. */
  predicate WellFormed(store: Store) {
    LinksWellFormed(store.links, store.events)
  }

  /** Event keys are unique and every join row names one of the events. */
  predicate LinksWellFormed(links: set<Link>, events: seq<Event>) {
    && UniqueIds(events)
    && forall l :: l in links ==> l.event in EventIds(events)
  }

  /** The ids of the participants linked to event `id`. */
  function ParticipantsOf(links: set<Link>, id: nat): (ps: set<nat>)
    ensures forall p :: p in ps <==> Link(id, p) in links
  {
    set l | l in links && l.event == id :: l.participant
  }

  /** The join rows of event `id`. */
  function RowsOf(links: set<Link>, id: nat): set<Link> {
    set l | l in links && l.event == id
  }

  /** The category a nullable foreign key points at: the first with that id, if any. */
  function ResolveCategory(categories: seq<Category>, id: Option<nat>): (r: Option<Category>)
    ensures r.Some? ==> r.value in categories && id == Some(r.value.id)
    ensures r.None? <==> id.None? || forall c :: c in categories ==> c.id != id.value
  {
    if id.None? || categories == [] then None
    else if categories[0].id == id.value then Some(categories[0])
    else ResolveCategory(categories[1..], id)
  }

  /** One annotated row: resolved category, prefetched participants and the distinct count. */
  function Annotate(store: Store, e: Event): (a: Annotated)
    ensures a.event == e
    ensures a.category == ResolveCategory(store.categories, e.category)
    ensures a.participantCount == |a.participants|
    ensures forall p :: p in a.participants <==> Link(e.id, p) in store.links
  {
    var ps := ParticipantsOf(store.links, e.id);
    Annotated(e, ResolveCategory(store.categories, e.category), ps, |ps|)
  }

  function AnnotateAll(store: Store, events: seq<Event>): seq<Annotated> {
    seq(|events|, i requires 0 <= i < |events| => Annotate(store, events[i]))
  }

  /** The event rows underneath an annotated listing. */
  function EventsOf(rows: seq<Annotated>): seq<Event> {
    seq(|rows|, i requires 0 <= i < |rows| => rows[i].event)
  }

  lemma EventsOfAnnotateAll(store: Store, events: seq<Event>)
    ensures EventsOf(AnnotateAll(store, events)) == events
  {
  }

  /** The sum of the participant counts of `events`. */
  function SumCounts(links: set<Link>, events: seq<Event>): nat {
    if events == [] then 0 else |ParticipantsOf(links, events[0].id)| + SumCounts(links, events[1..])
  }

  /** Tagging a set of participant ids with one event id loses none of them. */
  lemma {:induction false} TaggedCard(id: nat, ps: set<nat>)
    ensures |set p | p in ps :: Link(id, p)| == |ps|
    decreases ps
  {
    if ps != {} {
      var p :| p in ps;
      var rest := ps - {p};
      TaggedCard(id, rest);
      assert (set q | q in ps :: Link(id, q)) == (set q | q in rest :: Link(id, q)) + {Link(id, p)};
    }
  }

  /** `Count("participants", distinct=True)` equals the number of the event's join rows,
      because the join table never repeats a pair. */
  lemma DistinctCountIsRowCount(links: set<Link>, id: nat)
    ensures |ParticipantsOf(links, id)| == |RowsOf(links, id)|
  {
    var ps := ParticipantsOf(links, id);
    TaggedCard(id, ps);
    assert RowsOf(links, id) == set p | p in ps :: Link(id, p);
  }

  /** The counts of events other than those whose rows changed are unchanged. */
  lemma {:induction false} SumCountsFrame(a: set<Link>, b: set<Link>, events: seq<Event>)
    requires forall e :: e in events ==> ParticipantsOf(a, e.id) == ParticipantsOf(b, e.id)
    ensures SumCounts(a, events) == SumCounts(b, events)
  {
    if events != [] {
      SumCountsFrame(a, b, events[1..]);
    }
  }

  /** Every join row belongs to exactly one event, so the size of the join table is the sum,
      over all events, of their distinct participant counts. */
  lemma {:induction false} RegistrationsAreSumOfCounts(links: set<Link>, events: seq<Event>)
    requires LinksWellFormed(links, events)
    ensures |links| == SumCounts(links, events)
    decreases |events|
  {
    if events == [] {
      assert EventIds(events) == {};
    } else {
      var e0, rest := events[0], events[1..];
      var mine := RowsOf(links, e0.id);
      var others := links - mine;
      assert |links| == |mine| + |others|;
      DistinctCountIsRowCount(links, e0.id);
      TailFacts(links, events);
      RegistrationsAreSumOfCounts(others, rest);
      SumCountsFrame(others, links, rest);
    }
  }

  /** Removing the first event and its join rows leaves a store of the same shape, in which
      the remaining events see the same participants as before. */
  lemma TailFacts(links: set<Link>, events: seq<Event>)
    requires events != [] && LinksWellFormed(links, events)
    ensures var others := links - RowsOf(links, events[0].id);
      && LinksWellFormed(others, events[1..])
      && (forall e :: e in events[1..] ==> ParticipantsOf(others, e.id) == ParticipantsOf(links, e.id))
  {
    var e0, rest := events[0], events[1..];
    var others := links - RowsOf(links, e0.id);
    forall l | l in others ensures l.event in EventIds(rest) {
      var e :| e in events && e.id == l.event;
      var k :| 0 <= k < |events| && events[k] == e;
      assert k != 0;
      assert rest[k - 1] == e;
    }
    forall i, j | 0 <= i < j < |rest| ensures rest[i].id != rest[j].id {
      assert rest[i] == events[i + 1] && rest[j] == events[j + 1];
    }
    forall e | e in rest ensures ParticipantsOf(others, e.id) == ParticipantsOf(links, e.id) {
      var k :| 0 <= k < |rest| && rest[k] == e;
      assert events[k + 1] == e;
      assert e.id != e0.id;
    }
  }

  /** Detail lookup by primary key fails when no event has that key. */
  datatype LookupError = NotFound(id: nat)

  /** `get_object_or_404(Event..., pk=pk)`, with category and participants attached. */
  function FindEvent(store: Store, pk: nat): (r: Result<Annotated, LookupError>)
    ensures r.Success? ==> r.value.event in store.events && r.value.event.id == pk
    ensures r.Success? ==> r.value == Annotate(store, r.value.event)
    ensures r.Failure? <==> pk !in EventIds(store.events)
    ensures r.Failure? ==> r.error == NotFound(pk)
  {
    FindIn(store, store.events, pk)
  }

  function FindIn(store: Store, events: seq<Event>, pk: nat): (r: Result<Annotated, LookupError>)
    ensures r.Success? ==> r.value.event in events && r.value.event.id == pk
    ensures r.Success? ==> r.value == Annotate(store, r.value.event)
    ensures r.Failure? <==> pk !in EventIds(events)
    ensures r.Failure? ==> r.error == NotFound(pk)
  {
    if events == [] then Failure(NotFound(pk))
    else if events[0].id == pk then Success(Annotate(store, events[0]))
    else
      var r := FindIn(store, events[1..], pk);
      assert EventIds(events) == {events[0].id} + EventIds(events[1..]) by {
        assert events == [events[0]] + events[1..];
      }
      r
  }
}
