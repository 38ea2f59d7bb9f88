/** `order_by("date", "time")`: ascending by date, then by time of day. The database leaves the
    order among equal (date, time) rows open; the sort here fixes one such order. */
module Ordering {
  import opened Models
  import opened Seqs

  /** `a` may come before `b` in the listing. */
  predicate Before(a: Event, b: Event) {
    a.date < b.date || (a.date == b.date && a.time <= b.time)
  }

  predicate Sorted(s: seq<Event>) {
    forall i, j :: 0 <= i < j < |s| ==> Before(s[i], s[j])
  }

  /** A row that may precede every row of a sorted `s` can be put in front of it. */
  lemma SortedCons(x: Event, s: seq<Event>)
    requires Sorted(s)
    requires forall y :: y in s ==> Before(x, y)
    ensures Sorted([x] + s)
  {
    var r := [x] + s;
    forall i, j | 0 <= i < j < |r| ensures Before(r[i], r[j]) {
      assert r[j] == s[j - 1];
      if i > 0 {
        assert r[i] == s[i - 1];
      }
    }
  }

  /** Places `x` into the sorted `s` ahead of the first row it may precede. */
  function Insert(x: Event, s: seq<Event>): (r: seq<Event>)
    requires Sorted(s)
    ensures Sorted(r)
    ensures multiset(r) == multiset(s) + multiset{x}
  {
    if s == [] then [x]
    else if Before(x, s[0]) then [x] + s
    else
      var t := Insert(x, s[1..]);
      assert s == [s[0]] + s[1..];
      forall y | y in t ensures Before(s[0], y) {
        assert y in multiset(t);
        if y != x {
          assert y in multiset(s[1..]);
          var k :| 0 <= k < |s[1..]| && s[1..][k] == y;
          assert s[k + 1] == y;
        }
      }
      SortedCons(s[0], t);
      [s[0]] + t
  }

  /** The events of `s` ordered by (date, time). */
  function SortByDateTime(s: seq<Event>): (r: seq<Event>)
    ensures Sorted(r)
    ensures multiset(r) == multiset(s)
    ensures forall e :: e in r <==> e in s
  {
    if s == [] then []
    else
      assert s == [s[0]] + s[1..];
      var r := Insert(s[0], SortByDateTime(s[1..]));
      assert forall e :: e in r <==> e in multiset(r);
      assert forall e :: e in s <==> e in multiset(s);
      r
  }

  /** The full event listing both views start from: every event, by date then time. */
  function Listing(store: Store): seq<Event> {
    SortByDateTime(store.events)
  }

  /** Filtering an ordered query set leaves it ordered. */
  lemma {:induction false} FilterKeepsSorted(s: seq<Event>, p: Event -> bool)
    requires Sorted(s)
    ensures Sorted(Filter(s, p))
  {
    if s != [] {
      assert Sorted(s[1..]) by {
        forall i, j | 0 <= i < j < |s[1..]| ensures Before(s[1..][i], s[1..][j]) {
          assert s[1..][i] == s[i + 1] && s[1..][j] == s[j + 1];
        }
      }
      FilterKeepsSorted(s[1..], p);
      var t := Filter(s[1..], p);
      forall y | y in t ensures Before(s[0], y) {
        var k :| 0 <= k < |s[1..]| && s[1..][k] == y;
        assert s[k + 1] == y;
      }
      SortedCons(s[0], t);
    }
  }
}
