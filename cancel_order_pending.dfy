/** The cron job that cancels Redsys orders left pending for more than ten
    minutes. Time is counted in whole seconds since the epoch, in UTC;
    `updated_at` is a number of seconds rather than a datetime string. */
module CancelOrderPending {

  /** One entry of an order's status history. */
  datatype HistoryComment = HistoryComment(comment: string, isCustomerNotified: bool)

  /** The parts of a sales order the job reads or changes. */
  datatype SalesOrder = SalesOrder(
    incrementId: string,
    status: string,
    updatedAt: int,
    paymentMethod: string,
    history: seq<HistoryComment>)

  const Pending := "pending"
  const Canceled := "canceled"
  const RedsysMethod := "redsys"
  const IdleComment := "Order cancelled because it was idle for more than 10 minutes"
  const IdleSeconds := 600

  // ---------------------------------------------------------------------
  // Search criteria

  /** The two filters the job builds: `updated_at` with condition `to`, and
      `status` with condition `eq`. */
  datatype Filter = UpdatedAtTo(cutoff: int) | StatusEq(status: string)

  /** A filter group matches when any of its filters does. */
  datatype FilterGroup = FilterGroup(filters: seq<Filter>)

  /** Search criteria match when every filter group does. */
  datatype SearchCriteria = SearchCriteria(groups: seq<FilterGroup>)

  predicate FilterMatches(f: Filter, o: SalesOrder) {
    match f
    case UpdatedAtTo(cutoff) => o.updatedAt <= cutoff
    case StatusEq(status) => o.status == status
  }

  predicate GroupMatches(g: FilterGroup, o: SalesOrder) {
    exists i :: 0 <= i < |g.filters| && FilterMatches(g.filters[i], o)
  }

  predicate CriteriaMatch(c: SearchCriteria, o: SalesOrder) {
    forall j :: 0 <= j < |c.groups| ==> GroupMatches(c.groups[j], o)
  }

  /** The criteria the job searches with: the date filter and the status
      filter each in a group of its own (the second group is a clone of the
      first, given different filters). */
  function StaleCriteria(cutoff: int): SearchCriteria {
    SearchCriteria([FilterGroup([UpdatedAtTo(cutoff)]), FilterGroup([StatusEq(Pending)])])
  }

  /** Because the two filters sit in separate groups, an order is selected
      exactly when it is both old enough and pending. */
  lemma StaleCriteriaIsConjunction(cutoff: int, o: SalesOrder)
    ensures CriteriaMatch(StaleCriteria(cutoff), o) <==> o.updatedAt <= cutoff && o.status == Pending
  {
    var c := StaleCriteria(cutoff);
    if o.updatedAt <= cutoff && o.status == Pending {
      assert FilterMatches(c.groups[0].filters[0], o);
      assert FilterMatches(c.groups[1].filters[0], o);
      forall j | 0 <= j < |c.groups|
        ensures GroupMatches(c.groups[j], o)
      {
        assert FilterMatches(c.groups[j].filters[0], o);
      }
    } else {
      if o.updatedAt > cutoff {
        assert !GroupMatches(c.groups[0], o);
      } else {
        assert !GroupMatches(c.groups[1], o);
      }
    }
  }

  /** Both filters in one group would select every pending order and every
      old order: the separate groups are what make the search a
      conjunction. */
  lemma SingleGroupIsDisjunction(cutoff: int, o: SalesOrder)
    ensures CriteriaMatch(SearchCriteria([FilterGroup([UpdatedAtTo(cutoff), StatusEq(Pending)])]), o)
        <==> o.updatedAt <= cutoff || o.status == Pending
  {
    var g := FilterGroup([UpdatedAtTo(cutoff), StatusEq(Pending)]);
    var c := SearchCriteria([g]);
    if o.updatedAt <= cutoff || o.status == Pending {
      if o.updatedAt <= cutoff {
        assert FilterMatches(g.filters[0], o);
      } else {
        assert FilterMatches(g.filters[1], o);
      }
      assert GroupMatches(c.groups[0], o);
    } else {
      assert !GroupMatches(c.groups[0], o);
    }
  }

  /** What `getList` returns: the orders, by entity id, the criteria match. */
  function Search(orders: map<int, SalesOrder>, c: SearchCriteria): map<int, SalesOrder> {
    map id | id in orders && CriteriaMatch(c, orders[id]) :: orders[id]
  }

  // ---------------------------------------------------------------------
  // The cutoff

  function HourOfDay(t: int): int {
    t % 86400 / 3600
  }

  /** The hour the `h` format prints: 12 for midnight and noon, 1 to 11
      otherwise. */
  function TwelveHour(h: int): int {
    if h % 12 == 0 then 12 else h % 12
  }

  /** The instant that `t`, printed as `Y-m-d h:i:s` and read back, denotes:
      the date, minutes and seconds survive but the hour is the 12-hour one
      read as a 24-hour hour. */
  function Clock12(t: int): int {
    t + (TwelveHour(HourOfDay(t)) - HourOfDay(t)) * 3600
  }

  /** The cutoff as the job computes it: the current time printed with the
      12-hour format and read back, minus ten minutes, printed with the
      12-hour format again and compared as a datetime. */
  function CutoffAsWritten(now: int): int {
    Clock12(Clock12(now) - IdleSeconds)
  }

  /** The cutoff the job evidently means: ten minutes ago. */
  function Cutoff(now: int): int {
    now - IdleSeconds
  }

  /** Moving `t` by `k` seconds without leaving its day moves the second of
      the day by `k`. */
  lemma ShiftWithinDay(t: int, k: int)
    requires 0 <= t % 86400 + k < 86400
    ensures (t + k) % 86400 == t % 86400 + k
  {
    var d := t / 86400;
    assert t + k == d * 86400 + (t % 86400 + k);
  }

  lemma ClockOfHour(t: int)
    ensures var h := HourOfDay(t);
      && (h == 0 ==> Clock12(t) == t + 43200)
      && (1 <= h <= 12 ==> Clock12(t) == t)
      && (h >= 13 ==> Clock12(t) == t - 43200)
  {
    var h := HourOfDay(t);
    assert 0 <= h < 24;
  }

  /** The cutoff as written, by second of the day `s`: twelve hours in the
      future during the first seventy minutes after midnight, right from
      01:10 until 13:10, and twelve hours late from 13:10 on. */
  lemma {:induction false} CutoffAsWrittenByTimeOfDay(now: int)
    ensures var s := now % 86400;
      && (s < 4200 ==> CutoffAsWritten(now) == Cutoff(now) + 43200)
      && (4200 <= s < 47400 ==> CutoffAsWritten(now) == Cutoff(now))
      && (47400 <= s ==> CutoffAsWritten(now) == Cutoff(now) - 43200)
  {
    var s := now % 86400;
    ClockOfHour(now);
    var p := Clock12(now) - IdleSeconds;
    if s < 3600 {
      ShiftWithinDay(now, 43200 - 600);
    } else if s < 46800 {
      ShiftWithinDay(now, -600);
    } else {
      ShiftWithinDay(now, -43800);
    }
    ClockOfHour(p);
  }

  // ---------------------------------------------------------------------
  // Cancelling

  /** `cancel()`: the order moves to the canceled status. */
  function Cancel(o: SalesOrder): SalesOrder {
    o.(status := Canceled)
  }

  /** `addStatusHistoryComment(c)->setIsCustomerNotified(false)`. */
  function AddStatusHistoryComment(o: SalesOrder, comment: string): SalesOrder {
    o.(history := o.history + [HistoryComment(comment, false)])
  }

  /** What the job does to a Redsys order it cancels. */
  function CancelIdle(o: SalesOrder): SalesOrder {
    AddStatusHistoryComment(Cancel(o), IdleComment)
  }

  /** What the job does to one order of the search results. */
  function Process(o: SalesOrder): SalesOrder {
    if o.paymentMethod == RedsysMethod then CancelIdle(o) else o
  }

  /** An order the job cancels when searching with `cutoff`. */
  predicate Eligible(o: SalesOrder, cutoff: int) {
    CriteriaMatch(StaleCriteria(cutoff), o) && o.paymentMethod == RedsysMethod
  }

  /** The orders after one run of the job with cutoff `cutoff`. */
  function Sweep(orders: map<int, SalesOrder>, cutoff: int): map<int, SalesOrder> {
    map id | id in orders :: if CriteriaMatch(StaleCriteria(cutoff), orders[id]) then Process(orders[id]) else orders[id]
  }

  /** An order is cancelled exactly when it is pending, paid with Redsys and
      was last updated at least ten minutes ago. */
  lemma EligibleMeansIdleRedsysPending(o: SalesOrder, now: int)
    ensures Eligible(o, Cutoff(now))
        <==> o.status == Pending && o.paymentMethod == RedsysMethod && now - o.updatedAt >= IdleSeconds
  {
    StaleCriteriaIsConjunction(Cutoff(now), o);
  }

  /** One run: an eligible order is cancelled and gets one comment, not
      shown to the customer, and nothing else about it changes; every other
      order stays as it was; no order is added or removed. */
  lemma SweepEffect(orders: map<int, SalesOrder>, cutoff: int, id: int)
    requires id in orders
    ensures Sweep(orders, cutoff).Keys == orders.Keys
    ensures var before, after := orders[id], Sweep(orders, cutoff)[id];
      if Eligible(before, cutoff) then
        && after.status == Canceled
        && after.history == before.history + [HistoryComment(IdleComment, false)]
        && after == before.(status := Canceled, history := after.history)
      else
        after == before
  {
    var before := orders[id];
    if !CriteriaMatch(StaleCriteria(cutoff), before) {
      assert Sweep(orders, cutoff)[id] == before;
    }
  }

  /** A second run with the same cutoff changes nothing: cancelled orders
      are no longer pending. */
  lemma SweepIdempotent(orders: map<int, SalesOrder>, cutoff: int)
    ensures Sweep(Sweep(orders, cutoff), cutoff) == Sweep(orders, cutoff)
  {
    var once := Sweep(orders, cutoff);
    forall id | id in once
      ensures Sweep(once, cutoff)[id] == once[id]
    {
      StaleCriteriaIsConjunction(cutoff, orders[id]);
      StaleCriteriaIsConjunction(cutoff, once[id]);
    }
  }

  /** An order the job has cancelled is left alone by every later run. */
  lemma CancelledOrderStays(o: SalesOrder, cutoff: int)
    requires o.status == Canceled
    ensures !CriteriaMatch(StaleCriteria(cutoff), o)
  {
    StaleCriteriaIsConjunction(cutoff, o);
  }

  /** The orders after the job has run once per cutoff in `cutoffs`. */
  function SweepRuns(orders: map<int, SalesOrder>, cutoffs: seq<int>): map<int, SalesOrder>
    decreases |cutoffs|
  {
    if cutoffs == [] then orders else SweepRuns(Sweep(orders, cutoffs[0]), cutoffs[1..])
  }

  /** However often the job runs, each order is either untouched or
      cancelled once with a single idle comment. */
  lemma {:induction false} SweepRunsCancelOnce(orders: map<int, SalesOrder>, cutoffs: seq<int>, id: int)
    requires id in orders
    requires orders[id].status != Canceled
    ensures id in SweepRuns(orders, cutoffs)
    ensures SweepRuns(orders, cutoffs)[id] == orders[id]
         || SweepRuns(orders, cutoffs)[id] == CancelIdle(orders[id])
    decreases |cutoffs|
  {
    if cutoffs != [] {
      var next := Sweep(orders, cutoffs[0]);
      SweepEffect(orders, cutoffs[0], id);
      if next[id] == orders[id] {
        SweepRunsCancelOnce(next, cutoffs[1..], id);
      } else {
        CancelledStaysCancelled(next, cutoffs[1..], id);
      }
    }
  }

  lemma {:induction false} CancelledStaysCancelled(orders: map<int, SalesOrder>, cutoffs: seq<int>, id: int)
    requires id in orders && orders[id].status == Canceled
    ensures id in SweepRuns(orders, cutoffs) && SweepRuns(orders, cutoffs)[id] == orders[id]
    decreases |cutoffs|
  {
    if cutoffs != [] {
      var next := Sweep(orders, cutoffs[0]);
      CancelledOrderStays(orders[id], cutoffs[0]);
      assert next[id] == orders[id];
      CancelledStaysCancelled(next, cutoffs[1..], id);
    }
  }

  /** Three orders, all pending at 12:00:00 (second 43200 of day 0): one
      paid with Redsys and untouched since 11:49, one paid with Redsys and
      updated at 11:55, one paid with another method and untouched since
      11:49. Only the first is cancelled. */
  lemma SweepScenario()
    ensures var now := 43200;
      var idle := SalesOrder("100", Pending, now - 660, RedsysMethod, []);
      var recent := SalesOrder("101", Pending, now - 300, RedsysMethod, []);
      var other := SalesOrder("102", Pending, now - 660, "checkmo", []);
      var after := Sweep(map[1 := idle, 2 := recent, 3 := other], Cutoff(now));
      && after[1] == idle.(status := Canceled, history := [HistoryComment(IdleComment, false)])
      && after[2] == recent
      && after[3] == other
  {
    var now := 43200;
    var idle := SalesOrder("100", Pending, now - 660, RedsysMethod, []);
    var recent := SalesOrder("101", Pending, now - 300, RedsysMethod, []);
    var other := SalesOrder("102", Pending, now - 660, "checkmo", []);
    StaleCriteriaIsConjunction(Cutoff(now), idle);
    StaleCriteriaIsConjunction(Cutoff(now), recent);
  }

  /** With the cutoff as written, an order placed five minutes after
      midnight is cancelled at once (the cutoff is almost twelve hours in
      the future), where ten minutes ago would leave it alone. */
  lemma CutoffAsWrittenCancelsFreshOrder()
    ensures var o := SalesOrder("100", Pending, 300, RedsysMethod, []);
      && CutoffAsWritten(300) == 42900
      && Eligible(o, CutoffAsWritten(300))
      && !Eligible(o, Cutoff(300))
  {
    var o := SalesOrder("100", Pending, 300, RedsysMethod, []);
    CutoffAsWrittenByTimeOfDay(300);
    StaleCriteriaIsConjunction(CutoffAsWritten(300), o);
    StaleCriteriaIsConjunction(Cutoff(300), o);
  }

  /** With the cutoff as written, at 13:53:20 an order idle for more than
      eleven hours is not cancelled. */
  lemma CutoffAsWrittenMissesIdleOrder()
    ensures var o := SalesOrder("100", Pending, 10000, RedsysMethod, []);
      && CutoffAsWritten(50000) == 6200
      && !Eligible(o, CutoffAsWritten(50000))
      && Eligible(o, Cutoff(50000))
  {
    var o := SalesOrder("100", Pending, 10000, RedsysMethod, []);
    CutoffAsWrittenByTimeOfDay(50000);
    StaleCriteriaIsConjunction(CutoffAsWritten(50000), o);
    StaleCriteriaIsConjunction(Cutoff(50000), o);
  }

  // ---------------------------------------------------------------------
  // The repository and the job

  /** The sales orders, by entity id. */
  class OrderRepository {
    var orders: map<int, SalesOrder>
    /** How many searches have been issued. */
    ghost var searches: nat

    constructor(orders: map<int, SalesOrder>)
      ensures this.orders == orders && searches == 0
    {
      this.orders := orders;
      searches := 0;
    }

    /** `getList`: the orders matching the criteria. */
    method GetList(criteria: SearchCriteria) returns (items: map<int, SalesOrder>)
      modifies this
      ensures orders == old(orders) && searches == old(searches) + 1
      ensures items == Search(orders, criteria)
    {
      items := Search(orders, criteria);
      searches := searches + 1;
    }

    /** `save`: the order is written back under its entity id. */
    method Save(id: int, order: SalesOrder)
      modifies this
      ensures orders == old(orders)[id := order] && searches == old(searches)
    {
      orders := orders[id := order];
    }
  }

  /** The orders once the job has processed the search results in `done`. */
  ghost function Processed(orders: map<int, SalesOrder>, done: set<int>): map<int, SalesOrder> {
    map id | id in orders :: if id in done then Process(orders[id]) else orders[id]
  }

  /** Processing one more order of the results changes that order alone,
      and changes it only if it is paid with Redsys. */
  lemma ProcessedStep(orders: map<int, SalesOrder>, done: set<int>, id: int)
    requires id in orders && id !in done
    ensures orders[id].paymentMethod == RedsysMethod ==>
      Processed(orders, done + {id}) == Processed(orders, done)[id := CancelIdle(orders[id])]
    ensures orders[id].paymentMethod != RedsysMethod ==>
      Processed(orders, done + {id}) == Processed(orders, done)
  {
    assert Processed(orders, done + {id}).Keys == Processed(orders, done).Keys;
  }

  /** Processing every search result is one run of the sweep. */
  lemma ProcessedSearchIsSweep(orders: map<int, SalesOrder>, cutoff: int)
    ensures Processed(orders, Search(orders, StaleCriteria(cutoff)).Keys) == Sweep(orders, cutoff)
  {
  }

  /** A set with no element is the empty set. */
  lemma EmptyOrHasElement(s: set<int>)
    ensures s == {} || exists x :: x in s
  {
    if forall x :: x !in s {
      assert s == {};
    }
  }

  class CancelPendingJob {
    const repository: OrderRepository

    constructor(repository: OrderRepository)
      ensures this.repository == repository
    {
      this.repository := repository;
    }

    /** `execute`, given the enable flag and the current time. When enabled
        it searches once and leaves every order as one run of `Sweep` with
        the cutoff ten minutes ago says; `inspected` is the set of orders
        whose payment method was read, which is exactly the search result.
        When disabled it issues no search and changes nothing. */
    method Execute(enabled: bool, now: int) returns (ghost inspected: set<int>)
      modifies repository
      ensures !enabled ==> (
        && repository.orders == old(repository.orders)
        && repository.searches == old(repository.searches)
        && inspected == {})
      ensures enabled ==> (
        && repository.orders == Sweep(old(repository.orders), Cutoff(now))
        && repository.searches == old(repository.searches) + 1
        && inspected == Search(old(repository.orders), StaleCriteria(Cutoff(now))).Keys)
    {
      inspected := {};
      if enabled {
        var to := Cutoff(now);
        var criteria := StaleCriteria(to);
        var items := repository.GetList(criteria);
        ghost var before := repository.orders;
        var todo := items.Keys;
        while todo != {}
          invariant todo <= items.Keys
          invariant inspected == items.Keys - todo
          invariant repository.searches == old(repository.searches) + 1
          invariant repository.orders == Processed(before, inspected)
          decreases |todo|
        {
          EmptyOrHasElement(todo);
          var id :| id in todo;
          var order := items[id];
          ProcessedStep(before, inspected, id);
          inspected := inspected + {id};
          if order.paymentMethod == RedsysMethod {
            order := Cancel(order);
            order := AddStatusHistoryComment(order, IdleComment);
            repository.Save(id, order);
          }
          todo := todo - {id};
        }
        ProcessedSearchIsSweep(before, to);
      }
    }
  }
}
