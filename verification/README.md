# Event manager core, modelled in Dafny

This project models the logic of a small Django event-management application.
It does not model the CRUD plumbing around that logic. Three pieces are modelled, each as pure functions over an in-memory database:

- **The dashboard** (`dashboard` view). It computes the headline counts: total events, participants, join-table rows, upcoming and past events. It also computes one section of the event listing, chosen by the `mode` query parameter: `all`, `upcoming`, `past`, or anything else meaning today.
- **The event listing** (`event_list` view). It applies the optional filters in turn to the listing ordered by date and time:
  - a case-insensitive search on name or location;
  - a category match;
  - an inclusive date range, applied only when both ends are given.
  It then echoes the parameters back.
- **The event-name rule** (`EventForm.clean_name`). It strips the name and rejects names shorter than three characters.

The database is a `Models.Store`, which holds:

- sequences of categories, participants and events;
- the event–participant join table, as a set of `Link(event, participant)` rows.

An event row does not hold its participants. They are the join rows carrying its id, as in the database. The listing views attach the following to each row, as an `Models.Annotated` value:

- the resolved category (`select_related`);
- the participant ids (`prefetch_related`);
- the distinct participant count (`annotate(Count(..., distinct=True))`).

Dates are day numbers and times are minutes since midnight.

"Today" is a parameter. Each query parameter is modelled as follows:

- An absent parameter is `None`.
- A present parameter keeps its raw text. The raw text decides Python truthiness and is what gets echoed back.
- The category and date parameters also carry the value the framework parsed them to. That parsing is not modelled.

Files:

| file | module | contents |
|---|---|---|
| wrappers.dfy | `Wrappers` | `Option`, `Result` |
| text.dfy | `Text` | `str.strip()` with its reference meaning `IsStripOf`, ASCII folding, substring search |
| forms.dfy | `Forms` | `CleanName` and its properties |
| seqs.dfy | `Seqs` | `Filter` (a query-set `.filter`) and its algebra |
| models.dfy | `Models` | entities, join table, annotation, detail lookup, the registrations sum |
| ordering.dfy | `Ordering` | `order_by("date", "time")` as an insertion sort |
| dashboard.dfy | `Dashboard` | the dashboard view and its properties |
| listing.dfy | `EventListing` | the event-list view and its properties |

Two details of the code's behaviour:

- The dashboard echoes the `mode` parameter exactly as received. An unrecognised value such as `"week"` is echoed as `"week"`, although its section and title are those of `today` (`Dashboard.UnknownModeFallsBackToToday`).
- Filters apply only to truthy parameters. An empty `search`, `category`, `start` or `end` is the same as an absent one.

## Model

| member | source | states |
|---|---|---|
| Text.TrimStart | events/forms.py:56 | the result is a suffix of the input, everything cut off is whitespace, and the result does not start with whitespace |
| Text.TrimEnd | events/forms.py:56 | the result is a prefix of the input, everything cut off is whitespace, and the result does not end with whitespace |
| Text.Strip | events/forms.py:56 | `strip()` yields a slice of the input with only whitespace outside it and none at either end of it (`IsStripOf`) |
| Text.StripOfUnique | events/forms.py:56 | at most one string is a strip of a given string, so the reference meaning determines the result |
| Text.StripIsStripOf | events/forms.py:56 | a string is a strip of `s` if and only if it equals `Strip(s)` |
| Text.StripIdempotent | events/forms.py:56 | stripping an already stripped string changes nothing |
| Text.StripAllSpace | events/forms.py:56 | a whitespace-only string strips to the empty string |
| Text.ContainsIffOccurs | events/views.py:76 | the substring scan succeeds if and only if the term occurs at some offset |
| Text.IContainsIffFoldedOccurrence | events/views.py:76 | `icontains` holds if and only if some slice of the field equals the term up to ASCII case |
| Forms.CleanName | events/forms.py:55-59 | accepts if and only if the stripped name has at least 3 characters; an accepted value is the strip of the input, has no whitespace at either end and is at least 3 long; a rejection carries the form's message |
| Forms.CleanNameRejectsBlank | events/forms.py:56-58 | a missing name, or one made only of whitespace, is always rejected |
| Forms.CleanNameIdempotent | events/forms.py:56-59 | cleaning an accepted name again returns it unchanged |
| Forms.TwoLetterNameRejected | events/forms.py:57-58 | the name "AB" is rejected with "Event name must be at least 3 characters." |
| Forms.PaddedNameTrimmed | events/forms.py:56-59 | " Jazz " is accepted as "Jazz" |
| Seqs.Filter | events/views.py:37 | a filtered query set keeps exactly the rows of the input that satisfy the predicate |
| Seqs.FilterIsSubsequence | events/views.py:37-43 | a filtered query set is a subsequence of the one it came from, so it keeps that set's order |
| Seqs.FilterMultiset | events/views.py:37-43 | filtering keeps every accepted occurrence and drops every rejected one |
| Seqs.FilterPermutation | events/views.py:17-18 | counting before or after ordering gives the same number, since filtering commutes with reordering up to permutation |
| Seqs.FilterPartition | events/views.py:17-18 | a predicate and its negation split the rows, so the two counts add up to the total |
| Seqs.FilterFilter | events/views.py:74-88 | chained `.filter` calls equal one filter by the conjunction |
| Seqs.FilterExtensional | events/views.py:74-88 | filters by predicates that agree on every row give the same rows |
| Seqs.FilterKeepsAll | events/views.py:74-88 | a filter whose predicate every row satisfies changes nothing |
| Models.ParticipantsOf | events/views.py:29 | an event's participants are exactly the participant ids of its join rows |
| Models.ResolveCategory | events/views.py:27 | `select_related("category")` resolves the foreign key to a category with that id, and to nothing exactly when the key is null or dangling |
| Models.Annotate | events/views.py:27-29 | an annotated row carries the event's category as `select_related` resolves it, the event's linked participants, and their number as its count |
| Models.DistinctCountIsRowCount | events/views.py:29 | the distinct participant count equals the number of the event's join rows |
| Models.RegistrationsAreSumOfCounts | events/views.py:21 | with unique event keys and no dangling join rows, the size of the join table is the sum of the events' distinct participant counts |
| Models.FindEvent | events/views.py:101-105 | detail lookup returns the event with that key with its category and participants attached, and `NotFound` exactly when no event has it; the source does not annotate a count here, so `participantCount` is only derived from the participants |
| Ordering.Insert | events/views.py:30 | inserting into an ordered listing keeps it ordered and adds exactly that row |
| Ordering.SortByDateTime | events/views.py:30 | the listing is ordered by date, then time, and is a permutation of the events |
| Ordering.FilterKeepsSorted | events/views.py:30-43 | filtering an ordered query set leaves it ordered |
| Dashboard.ParseMode | events/views.py:24-44 | `all`, `upcoming` and `past` select their own section; every other value selects today |
| Dashboard.ComputeDashboard | events/views.py:11-56 | `total_events`, `total_participants_unique` and `total_participant_registrations` are the sizes of the event, participant and join tables; `upcoming_count` counts the events dated today or later and `past_count` those dated earlier, so `upcoming_count + past_count == total_events`; the mode is echoed, with `"today"` when absent; the title matches the mode; the section holds exactly the events the mode selects, ordered, as a subsequence of the full listing, each with its annotation |
| Dashboard.SectionFacts | events/views.py:26-44 | every mode's section has exactly the selected events, in order, drawn from the full listing |
| Dashboard.AllSectionIsEverything | events/views.py:26-35 | mode `all` shows every event: the section length is `total_events` |
| Dashboard.UpcomingSectionMatchesCount | events/views.py:17-38 | mode `upcoming` shows exactly the events dated today or later, as many as `upcoming_count` |
| Dashboard.PastSectionMatchesCount | events/views.py:18-41 | mode `past` shows exactly the events dated before today, as many as `past_count` |
| Dashboard.TodaySectionIsToday | events/views.py:24-44 | with no mode, the section is "Today's Events" and holds exactly the events dated today |
| Dashboard.UnknownModeFallsBackToToday | events/views.py:24-44 | any unrecognised mode, or none, gives the view of mode `today`, except for the echoed mode string |
| Dashboard.RegistrationsMatchCounts | events/views.py:21-29 | `total_participant_registrations` is the sum over all events of their distinct participant counts |
| Dashboard.TodayExample | events/views.py:11-56 | one event today with one registered participant shows under "Today's Events" with count 1; one upcoming and none past |
| EventListing.EventList | events/views.py:62-98 | the listed events are exactly those satisfying every given filter, ordered by (date, time), each annotated; the parameters are echoed, with `""` for absent ones |
| EventListing.ChainIsOneFilter | events/views.py:72-88 | applying the given filters one after another equals filtering once by their conjunction (`Matches`) |
| EventListing.OneSidedRangeIgnored | events/views.py:84-88 | with only `start` or only `end`, the events equal those with neither |
| EventListing.EmptySearchIgnored | events/views.py:73-77 | an empty search term gives the same view as no search term |
| EventListing.EchoRoundTrip | events/views.py:72-96 | submitting the echoed `search`, `category`, `start` and `end` again gives the same view, events and echoes alike |
| EventListing.SearchIgnoresCase | events/views.py:72-77 | searching with the lower-cased term gives the same events as with the term itself |

## Left out

- Rendering, templates, redirects and HTTP request and response objects are presentation and I/O. Each view returns the values it would put in its template context.
- The category, participant and event create, update and delete handlers are left out. They are thin wrappers over the framework's save and delete. Only the detail lookup (`Models.FindEvent`) is modelled.
- On-delete and cascade behaviour is defined in a models file that is not part of this model.
- Widget and CSS `Meta` configuration of the forms is UI only.
- Field-level validation is framework behaviour that cannot be seen here. This covers required fields, e-mail format, and parsing the `start`, `end` and `category` strings. A parsed value that does not exist, such as `category=abc`, makes the framework raise. The model instead takes each such parameter already parsed.
- The category drop-down of the event list (`Category.objects.all().order_by("name")`) is not modelled. Its ordering of names is the database's collation.
- `EventListing.SearchIgnoresCase` and `Text.IContains` fold only ASCII letters. Case-insensitive matching beyond ASCII depends on the database backend.
- Participant records are resolved to ids only. Their names and e-mails play no part in the logic.
- `Dashboard.ComputeDashboard` and `EventListing.EventList` order events with equal (date, time) in one fixed way: every section is a subsequence of a single stable sort of the events. In the source each section is its own query with its own `ORDER BY`, and the database may order such ties differently from query to query. Only the sortedness, membership and multiplicity clauses carry over to the source unchanged.
- A null `location` is modelled as the empty string. Like SQL `NULL`, the empty string matches no non-empty search term.
- `date.today()` is not modelled. The clock is the `today` parameter.
- The event time is kept to the minute. Seconds are not modelled.
