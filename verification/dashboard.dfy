/** The dashboard view: headline counts and one date-selected section of the event listing. */
module Dashboard {
  import opened Wrappers
  import opened Models
  import opened Seqs
  import opened Ordering

  /** Which events the section below the counts shows. */
  datatype Mode = Today | All | Upcoming | Past

  /** The mode a `mode` parameter selects; every value but the three named ones means today. */
  function ParseMode(raw: string): (m: Mode)
    ensures m == All <==> raw == "all"
    ensures m == Upcoming <==> raw == "upcoming"
    ensures m == Past <==> raw == "past"
    ensures m == Today <==> raw != "all" && raw != "upcoming" && raw != "past"
  {
    match raw
    case "all" => All
    case "upcoming" => Upcoming
    case "past" => Past
    case _ => Today
  }

  /** Whether event `e` belongs to the section of mode `m` on day `today`. */
  predicate InSection(m: Mode, today: int, e: Event) {
    match m
    case Today => e.date == today
    case All => true
    case Upcoming => e.date >= today
    case Past => e.date < today
  }

  function Title(m: Mode): string {
    match m
    case Today => "Today's Events"
    case All => "All Events"
    case Upcoming => "Upcoming Events"
    case Past => "Past Events"
  }

  /** `date__gte=today`. */
  function OnOrAfter(today: int): Event -> bool {
    (e: Event) => e.date >= today
  }

  /** `date__lt=today`. */
  function BeforeDay(today: int): Event -> bool {
    (e: Event) => e.date < today
  }

  /** `date=today`. */
  function OnDay(today: int): Event -> bool {
    (e: Event) => e.date == today
  }

  datatype DashboardView = DashboardView(
    totalEvents: nat,
    totalParticipantsUnique: nat,
    totalParticipantRegistrations: nat,
    upcomingCount: nat,
    pastCount: nat,
    sectionTitle: string,
    mode: string,
    eventsSection: seq<Annotated>)


  /** The `dashboard` view. `today` stands for the clock and `modeParam` for the `mode`
      query parameter, absent when the request does not carry one. */
  function ComputeDashboard(store: Store, today: int, modeParam: Option<string>): (v: DashboardView)
    ensures v.totalEvents == |store.events|
    ensures v.totalParticipantsUnique == |store.participants|
    ensures v.totalParticipantRegistrations == |store.links|
    ensures v.upcomingCount == |Filter(store.events, OnOrAfter(today))|
    ensures v.pastCount == |Filter(store.events, BeforeDay(today))|
    ensures v.upcomingCount + v.pastCount == v.totalEvents
    ensures v.mode == modeParam.GetOr("today")
    ensures v.sectionTitle == Title(ParseMode(v.mode))
    ensures forall e :: e in EventsOf(v.eventsSection) <==> e in store.events && InSection(ParseMode(v.mode), today, e)
    ensures Sorted(EventsOf(v.eventsSection))
    ensures IsSubsequence(EventsOf(v.eventsSection), Listing(store))
    ensures forall i :: 0 <= i < |v.eventsSection| ==> v.eventsSection[i] == Annotate(store, v.eventsSection[i].event)
  {
    var mode := modeParam.GetOr("today");
    var qs := Listing(store);
    var upcoming := Filter(store.events, OnOrAfter(today));
    var past := Filter(store.events, BeforeDay(today));
    FilterPartition(store.events, OnOrAfter(today), BeforeDay(today));
    var section :=
      if mode == "all" then qs
      else if mode == "upcoming" then Filter(qs, OnOrAfter(today))
      else if mode == "past" then Filter(qs, BeforeDay(today))
      else Filter(qs, OnDay(today));
    var title :=
      if mode == "all" then "All Events"
      else if mode == "upcoming" then "Upcoming Events"
      else if mode == "past" then "Past Events"
      else "Today's Events";
    SectionFacts(store, today, mode, section);
    EventsOfAnnotateAll(store, section);
    DashboardView(
      |store.events|,
      |store.participants|,
      |store.links|,
      |upcoming|,
      |past|,
      title,
      mode,
      AnnotateAll(store, section))
  }

  /** The section rows are the listing filtered by the mode's predicate. */
  lemma SectionFacts(store: Store, today: int, mode: string, section: seq<Event>)
    requires section ==
      if mode == "all" then Listing(store)
      else if mode == "upcoming" then Filter(Listing(store), OnOrAfter(today))
      else if mode == "past" then Filter(Listing(store), BeforeDay(today))
      else Filter(Listing(store), OnDay(today))
    ensures forall e :: e in section <==> e in store.events && InSection(ParseMode(mode), today, e)
    ensures Sorted(section)
    ensures IsSubsequence(section, Listing(store))
  {
    var qs := Listing(store);
    if mode == "all" {
      IsSubsequenceRefl(qs);
    } else {
      var p :=
        if mode == "upcoming" then OnOrAfter(today)
        else if mode == "past" then BeforeDay(today)
        else OnDay(today);
      assert section == Filter(qs, p);
      FilterKeepsSorted(qs, p);
      FilterIsSubsequence(qs, p);
    }
  }

  /** Mode `all` lists every event: the section is as long as `total_events`. */
  lemma AllSectionIsEverything(store: Store, today: int)
    ensures var v := ComputeDashboard(store, today, Some("all"));
      |v.eventsSection| == v.totalEvents && multiset(EventsOf(v.eventsSection)) == multiset(store.events)
  {
    EventsOfAnnotateAll(store, Listing(store));
  }

  /** Mode `upcoming` lists exactly the events counted by `upcoming_count`. */
  lemma UpcomingSectionMatchesCount(store: Store, today: int)
    ensures var v := ComputeDashboard(store, today, Some("upcoming"));
      |v.eventsSection| == v.upcomingCount
      && multiset(EventsOf(v.eventsSection)) == multiset(Filter(store.events, OnOrAfter(today)))
  {
    var qs := Listing(store);
    FilterPermutation(qs, store.events, OnOrAfter(today));
    EventsOfAnnotateAll(store, Filter(qs, OnOrAfter(today)));
  }

  /** Mode `past` lists exactly the events counted by `past_count`. */
  lemma PastSectionMatchesCount(store: Store, today: int)
    ensures var v := ComputeDashboard(store, today, Some("past"));
      |v.eventsSection| == v.pastCount
      && multiset(EventsOf(v.eventsSection)) == multiset(Filter(store.events, BeforeDay(today)))
  {
    var qs := Listing(store);
    FilterPermutation(qs, store.events, BeforeDay(today));
    EventsOfAnnotateAll(store, Filter(qs, BeforeDay(today)));
  }

  /** The default section lists exactly the events dated today. */
  lemma TodaySectionIsToday(store: Store, today: int)
    ensures var v := ComputeDashboard(store, today, None);
      v.sectionTitle == "Today's Events"
      && multiset(EventsOf(v.eventsSection)) == multiset(Filter(store.events, OnDay(today)))
  {
    var qs := Listing(store);
    FilterPermutation(qs, store.events, OnDay(today));
    EventsOfAnnotateAll(store, Filter(qs, OnDay(today)));
  }

  /** An unrecognised mode behaves as `today`, and a missing one is `today`: only the echoed
      mode string differs. */
  lemma UnknownModeFallsBackToToday(store: Store, today: int, raw: string)
    requires raw != "all" && raw != "upcoming" && raw != "past"
    ensures ComputeDashboard(store, today, Some(raw)) == ComputeDashboard(store, today, Some("today")).(mode := raw)
    ensures ComputeDashboard(store, today, None) == ComputeDashboard(store, today, Some("today"))
  {
  }

  /** `total_participant_registrations` is the sum of every event's distinct participant count. */
  lemma RegistrationsMatchCounts(store: Store, today: int, modeParam: Option<string>)
    requires WellFormed(store)
    ensures ComputeDashboard(store, today, modeParam).totalParticipantRegistrations == SumCounts(store.links, store.events)
  {
    RegistrationsAreSumOfCounts(store.links, store.events);
  }

  /** A worked example: one category, one participant, and one event on the day asked about
      with that participant registered (2024-01-10 is day 738895 counted from 0001-01-01). */
  lemma TodayExample()
    ensures
      var music := Category(1, "Music", "");
      var jazz := Event(1, "Jazz Night", "", 738895, 20 * 60, "", Some(1));
      var store := Store([music], [Participant(1, "Ana", "ana@x.com")], [jazz], {Link(1, 1)});
      var v := ComputeDashboard(store, 738895, Some("today"));
      && v.sectionTitle == "Today's Events"
      && v.eventsSection == [Annotated(jazz, Some(music), {1}, 1)]
      && v.totalEvents == 1 && v.upcomingCount == 1 && v.pastCount == 0
      && v.totalParticipantRegistrations == 1
  {
    var music := Category(1, "Music", "");
    var jazz := Event(1, "Jazz Night", "", 738895, 20 * 60, "", Some(1));
    var store := Store([music], [Participant(1, "Ana", "ana@x.com")], [jazz], {Link(1, 1)});
    assert ParticipantsOf(store.links, 1) == {1};
    assert Filter([jazz], OnDay(738895)) == [jazz];
  }
}
