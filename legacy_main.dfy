/** The legacy service: `build_allocation`, which gives every obligation a
    schedule key (an empty schedule when its method lacks the dates it needs),
    and `modify_catchup`, the cumulative catch-up of a contract modification
    (ASC 606-10-25-13(b)): the revenue the modified contract would have
    recognised before the effective month, less what the original contract
    recognised there, is booked in the effective month, and every later month
    follows the modified contract. */
module LegacyMain {
  import opened Money
  import opened Periods
  import opened Calendar
  import opened Wrappers
  import opened Allocation
  import opened Recognition
  import opened Contracts
  import PeriodKeys

  datatype Response = Response(allocation: seq<AllocResult>, schedules: ScheduleDict)

  /** The schedule one obligation gets: the date-driven methods fall through
      to `{}` when their dates are absent. */
  function PoSchedule(po: Po, alloc: int): (r: Schedule)
    ensures po.recognition == StraightLineMethod && (po.start.None? || po.end.None?) ==> r == map[]
    ensures po.recognition == PointInTimeMethod && po.start.None? ==> r == map[]
  {
    match po.recognition
    case StraightLineMethod =>
      if po.start.Some? && po.end.Some? then StraightLineSchedule(alloc, po.start.value, po.end.value) else map[]
    case PointInTimeMethod =>
      if po.start.Some? then PointInTime(alloc, po.start.value) else map[]
    case MilestoneMethod => MilestonesSpec(alloc, po.milestones)
    case PercentCompleteMethod => PercentCompleteSpec(alloc, po.percentSchedule)
  }

  /** The method dispatch, calling the engine's builders. */
  method DispatchSchedule(po: Po, alloc: int) returns (r: Schedule)
    requires PoDatesValid(po)
    ensures r == PoSchedule(po, alloc)
  {
    if po.recognition == StraightLineMethod && po.start.Some? && po.end.Some? {
      r := StraightLine(alloc, po.start.value, po.end.value);
    } else if po.recognition == PointInTimeMethod && po.start.Some? {
      r := PointInTime(alloc, po.start.value);
    } else if po.recognition == MilestoneMethod {
      r := Milestones(alloc, po.milestones);
    } else if po.recognition == PercentCompleteMethod {
      r := PercentComplete(alloc, po.percentSchedule);
    } else {
      r := map[];
    }
  }

  /** The `schedules` dictionary after the loop has visited `pos`. */
  function SchedulesSpec(pos: seq<Po>, shares: seq<int>): ScheduleDict
    requires |shares| == |pos|
  {
    if pos == [] then []
    else
      var n := |pos| - 1;
      Put(SchedulesSpec(pos[..n], shares[..n]), pos[n].id, PoSchedule(pos[n], shares[n]))
  }

  /** One more obligation puts its schedule under its id. */
  lemma SchedulesStep(pos: seq<Po>, shares: seq<int>, i: nat)
    requires |shares| == |pos| && i < |pos|
    ensures SchedulesSpec(pos[..i + 1], shares[..i + 1])
      == Put(SchedulesSpec(pos[..i], shares[..i]), pos[i].id, PoSchedule(pos[i], shares[i]))
  {
    assert pos[..i + 1][..i] == pos[..i] && shares[..i + 1][..i] == shares[..i];
  }

  /** Every obligation id is a key of the dictionary, and nothing else is. */
  lemma {:induction false} SchedulesKeys(pos: seq<Po>, shares: seq<int>)
    requires |shares| == |pos|
    ensures DictKeys(SchedulesSpec(pos, shares)) == Ids(pos)
  {
    if pos != [] {
      SchedulesKeys(pos[..|pos| - 1], shares[..|pos| - 1]);
    }
  }

  /** With distinct ids, each obligation's key holds its schedule. */
  lemma {:induction false} SchedulesLookup(pos: seq<Po>, shares: seq<int>, i: nat)
    requires |shares| == |pos| && i < |pos|
    requires forall j :: i < j < |pos| ==> pos[j].id != pos[i].id
    ensures Lookup(SchedulesSpec(pos, shares), pos[i].id) == Some(PoSchedule(pos[i], shares[i]))
  {
    var n := |pos| - 1;
    var pre := SchedulesSpec(pos[..n], shares[..n]);
    assert SchedulesSpec(pos, shares) == Put(pre, pos[n].id, PoSchedule(pos[n], shares[n]));
    if i < n {
      assert forall j :: i < j < n ==> pos[..n][j] == pos[j];
      SchedulesLookup(pos[..n], shares[..n], i);
      assert pos[..n][i] == pos[i] && shares[..n][i] == shares[i] && pos[n].id != pos[i].id;
    }
  }

  function BuildAllocationSpec(price: int, pos: seq<Po>): Response
  {
    var shares := Allocation.Allocation(Ssps(pos), price);
    Response(AllocResults(pos, shares), SchedulesSpec(pos, shares))
  }

  /** `build_allocation`: allocate, then run the loop over `zip(pos, allocated)`. */
  method BuildAllocation(price: int, pos: seq<Po>) returns (r: Response)
    requires DatesValid(pos)
    ensures r == BuildAllocationSpec(price, pos)
  {
    var shares := AllocateRelativeSsp(Ssps(pos), price);
    var schedules, results := ScheduleLoop(pos, shares);
    r := Response(results, schedules);
  }

  /** The loop of `build_allocation`: an allocation result and a schedule
      for each obligation, in order. */
  method ScheduleLoop(pos: seq<Po>, shares: seq<int>) returns (schedules: ScheduleDict, results: seq<AllocResult>)
    requires |shares| == |pos| && DatesValid(pos)
    ensures schedules == SchedulesSpec(pos, shares)
    ensures results == AllocResults(pos, shares)
  {
    schedules := [];
    results := [];
    var i := 0;
    while i < |pos|
      invariant 0 <= i <= |pos|
      invariant schedules == SchedulesSpec(pos[..i], shares[..i])
      invariant results == AllocResults(pos[..i], shares[..i])
    {
      AllocResultsStep(pos, shares, i);
      SchedulesStep(pos, shares, i);
      results := results + [AllocResult(pos[i].id, pos[i].ssp, shares[i])];
      assert pos[i] in pos;
      var s := DispatchSchedule(pos[i], shares[i]);
      schedules := Put(schedules, pos[i].id, s);
      i := i + 1;
    }
    assert pos[..i] == pos && shares[..i] == shares;
  }

  /** One allocation result per obligation in input order and one schedule
      key per obligation id. */
  lemma BuildAllocationShape(price: int, pos: seq<Po>)
    ensures |BuildAllocationSpec(price, pos).allocation| == |pos|
    ensures forall i :: 0 <= i < |pos| ==>
      BuildAllocationSpec(price, pos).allocation[i].poId == pos[i].id
      && BuildAllocationSpec(price, pos).allocation[i].allocatedPrice == Allocation.Allocation(Ssps(pos), price)[i]
    ensures DictKeys(BuildAllocationSpec(price, pos).schedules) == Ids(pos)
  {
    SchedulesKeys(pos, Allocation.Allocation(Ssps(pos), price));
  }

  // ---------------------------------------------------------------------
  // Contract modification by cumulative catch-up

  /** The base contract: its id, transaction price and obligations. */
  datatype Base = Base(id: string, price: int, pos: seq<Po>)

  /** The modification: obligations removed and added, the change in price
      (in cents) and the effective date. */
  datatype Modification = Modification(removeIds: seq<string>, addPos: seq<Po>, priceDelta: real, effective: Date)

  /** A journal line posted to the ledger, returned as data. */
  datatype JournalEntry = JournalEntry(period: Period, debit: string, credit: string, amount: int, memo: string, contractId: string)

  const DeferredRevenue := "2100-Deferred Revenue"
  const Revenue := "4000-Revenue"

  datatype CatchupResult = CatchupResult(
    oldSum: Schedule,
    newSum: Schedule,
    delta: Schedule,
    effective: Period,
    catchup: int,
    final: Schedule,
    journal: JournalEntry)

  /** `[p for p in pos if p.po_id not in remove]`: the kept obligations, in order. */
  function Kept(pos: seq<Po>, remove: seq<string>): (r: seq<Po>)
    ensures |r| <= |pos|
    ensures forall po :: po in r <==> po in pos && po.id !in remove
  {
    if pos == [] then []
    else
      var rest := Kept(pos[1..], remove);
      assert forall po :: po in pos <==> po == pos[0] || po in pos[1..];
      if pos[0].id in remove then rest else [pos[0]] + rest
  }

  /** The modified obligation list: the kept base obligations, then the added ones. */
  function ModifiedPos(base: seq<Po>, m: Modification): (r: seq<Po>)
    ensures forall po :: po in r <==> (po in base && po.id !in m.removeIds) || po in m.addPos
    ensures |r| >= |m.addPos| && r[|r| - |m.addPos|..] == m.addPos
  {
    var r := Kept(base, m.removeIds) + m.addPos;
    assert r[|r| - |m.addPos|..] == m.addPos;
    r
  }

  /** `round(base + delta, 2)`: the modified transaction price. */
  function NewPrice(price: int, delta: real): (r: int)
    ensures price as real + delta - 0.5 <= r as real <= price as real + delta + 0.5
    ensures delta == delta.Floor as real ==> r == price + delta.Floor
  {
    RoundWhole(price + delta.Floor);
    RoundHalfEven(price as real + delta)
  }

  /** `delta[p] = new[p] - old[p]` over the union of periods, absent counting 0. */
  function Delta(oldSum: Schedule, newSum: Schedule): (r: Schedule)
    ensures r.Keys == oldSum.Keys + newSum.Keys
    ensures forall p :: Get(r, p) == Get(newSum, p) - Get(oldSum, p)
  {
    map p | p in oldSum.Keys + newSum.Keys :: Get(newSum, p) - Get(oldSum, p)
  }

  /** `sum(v for k, v in delta.items() if k < eff_key)` */
  function Catchup(delta: Schedule, eff: Period): int
  {
    MapSum(Before(delta, eff))
  }

  /** Old amounts before the effective month, new amounts from it on. */
  function Spliced(oldSum: Schedule, newSum: Schedule, eff: Period): Schedule
  {
    Before(oldSum, eff) + From(newSum, eff)
  }

  /** `final`: the spliced schedule with the catch-up added into the effective month. */
  function FinalSchedule(oldSum: Schedule, newSum: Schedule, eff: Period): Schedule
  {
    Accumulate(Spliced(oldSum, newSum, eff), eff, Catchup(Delta(oldSum, newSum), eff))
  }

  /** `for p, a in old_sum.items(): if p < eff_key: final[p] = final.get(p, 0) + a` */
  method CopyBefore(oldSum: Schedule, eff: Period) returns (final: Schedule)
    ensures final == Before(oldSum, eff)
  {
    final := map[];
    var todo := oldSum.Keys;
    while todo != {}
      invariant todo <= oldSum.Keys
      invariant final == map p | p in oldSum.Keys - todo && p < eff :: oldSum[p]
      decreases |todo|
    {
      NoMember(todo);
      var p :| p in todo;
      if p < eff {
        final := final[p := Get(final, p) + oldSum[p]];
      }
      todo := todo - {p};
    }
  }

  /** `final` is `start` plus the amounts of `newSum` from `eff` on outside `todo`. */
  ghost predicate CopiedFrom(final: Schedule, start: Schedule, newSum: Schedule, eff: Period, todo: set<Period>)
  {
    && todo <= newSum.Keys
    && final == start + map p | p in newSum.Keys - todo && p >= eff :: newSum[p]
  }

  lemma CopyFromStep(final: Schedule, start: Schedule, newSum: Schedule, eff: Period, todo: set<Period>, p: Period)
    requires forall q :: q in start ==> q < eff
    requires CopiedFrom(final, start, newSum, eff, todo) && p in todo
    ensures p >= eff ==> Get(final, p) == 0 && CopiedFrom(final[p := newSum[p]], start, newSum, eff, todo - {p})
    ensures p < eff ==> CopiedFrom(final, start, newSum, eff, todo - {p})
  {
    var done := map q | q in newSum.Keys - todo && q >= eff :: newSum[q];
    var done' := map q | q in newSum.Keys - (todo - {p}) && q >= eff :: newSum[q];
    if p >= eff {
      assert done' == done[p := newSum[p]];
    } else {
      assert done' == done;
    }
  }

  lemma CopyFromEnds(start: Schedule, newSum: Schedule, eff: Period)
    ensures CopiedFrom(start, start, newSum, eff, newSum.Keys)
    ensures forall f :: CopiedFrom(f, start, newSum, eff, {}) ==> f == start + From(newSum, eff)
  {
    assert newSum.Keys - newSum.Keys == {};
    assert (map p | p in newSum.Keys - {} && p >= eff :: newSum[p]) == From(newSum, eff);
  }

  /** `for p, a in new_sum.items(): if p >= eff_key: final[p] = final.get(p, 0) + a`,
      onto a `final` holding only earlier months. */
  method CopyFrom(start: Schedule, newSum: Schedule, eff: Period) returns (final: Schedule)
    requires forall p :: p in start ==> p < eff
    ensures final == start + From(newSum, eff)
  {
    CopyFromEnds(start, newSum, eff);
    final := start;
    var todo := newSum.Keys;
    while todo != {}
      invariant CopiedFrom(final, start, newSum, eff, todo)
      decreases |todo|
    {
      NoMember(todo);
      var p :| p in todo;
      CopyFromStep(final, start, newSum, eff, todo, p);
      if p >= eff {
        final := final[p := Get(final, p) + newSum[p]];
      }
      todo := todo - {p};
    }
  }

  /** The catch-up loops: copy the old amounts before the effective month,
      the new amounts from it on, then add the catch-up into the effective month. */
  method CatchupCore(oldSum: Schedule, newSum: Schedule, eff: Period) returns (delta: Schedule, catchup: int, final: Schedule)
    ensures delta == Delta(oldSum, newSum)
    ensures catchup == Catchup(delta, eff)
    ensures final == FinalSchedule(oldSum, newSum, eff)
  {
    delta := Delta(oldSum, newSum);
    catchup := Catchup(delta, eff);
    final := CopyBefore(oldSum, eff);
    final := CopyFrom(final, newSum, eff);
    final := final[eff := Get(final, eff) + catchup];
  }

  /** The catch-up is the revenue the modified contract recognises before the
      effective month less the revenue the original one recognised there. */
  lemma CatchupIsShift(oldSum: Schedule, newSum: Schedule, eff: Period)
    ensures Catchup(Delta(oldSum, newSum), eff) == MapSum(Before(newSum, eff)) - MapSum(Before(oldSum, eff))
  {
    var d := Before(Delta(oldSum, newSum), eff);
    var u := d.Keys;
    SumOnDiff(u, oldSum, newSum, d);
    SumOnCongruent(u, newSum, Before(newSum, eff));
    SumOnCongruent(u, oldSum, Before(oldSum, eff));
    SumOnSuperset(u, Before(newSum, eff));
    SumOnSuperset(u, Before(oldSum, eff));
  }

  lemma SplicedParts(oldSum: Schedule, newSum: Schedule, eff: Period)
    ensures Before(Spliced(oldSum, newSum, eff), eff) == Before(oldSum, eff)
    ensures From(Spliced(oldSum, newSum, eff), eff) == From(newSum, eff)
  {
  }

  /** The modified schedule, catch-up included, recognises exactly what the
      modified contract recognises in total. */
  lemma FinalTotal(oldSum: Schedule, newSum: Schedule, eff: Period)
    ensures MapSum(FinalSchedule(oldSum, newSum, eff)) == MapSum(newSum)
  {
    var s := Spliced(oldSum, newSum, eff);
    MapSumAccumulate(s, eff, Catchup(Delta(oldSum, newSum), eff));
    MapSumBeforeFrom(s, eff);
    SplicedParts(oldSum, newSum, eff);
    CatchupIsShift(oldSum, newSum, eff);
    MapSumBeforeFrom(newSum, eff);
  }

  /** Months before the effective one keep the original amounts, later months
      take the modified amounts, the effective month takes the modified amount
      plus the catch-up; the periods are the old ones before, the new ones
      from, and the effective month. */
  lemma FinalValues(oldSum: Schedule, newSum: Schedule, eff: Period)
    ensures FinalSchedule(oldSum, newSum, eff).Keys
      == (set p | p in oldSum && p < eff) + (set p | p in newSum && p >= eff) + {eff}
    ensures forall p :: p < eff ==> Get(FinalSchedule(oldSum, newSum, eff), p) == Get(oldSum, p)
    ensures forall p :: p > eff ==> Get(FinalSchedule(oldSum, newSum, eff), p) == Get(newSum, p)
    ensures Get(FinalSchedule(oldSum, newSum, eff), eff) == Get(newSum, eff) + Catchup(Delta(oldSum, newSum), eff)
  {
  }

  /** A modification that changes nothing books no catch-up, and the final
      schedule is the original one, the effective month present (possibly 0). */
  lemma NoOpModification(s: Schedule, eff: Period)
    ensures Catchup(Delta(s, s), eff) == 0
    ensures FinalSchedule(s, s, eff) == s[eff := Get(s, eff)]
  {
    CatchupIsShift(s, s, eff);
    assert Spliced(s, s, eff) == s;
  }

  /** Comparing a schedule key with `effective_date[:7]` as text is comparing
      the periods, so the model's `p < eff` is the source's `k < eff_key`. */
  lemma EffectiveKeyOrder(p: Period, effective: Date)
    requires PeriodKeys.InKeyRange(p)
    requires effective.Valid() && 0 <= effective.year <= 9999
    ensures PeriodKeys.LexLess(PeriodKeys.PaddedKey(p), PeriodKeys.IsoText(effective)[..7]) <==> p < MonthIndex(effective)
  {
    PeriodKeys.EffectiveKey(effective);
    PeriodKeys.PaddedKeyOrder(p, MonthIndex(effective));
  }

  /** `modify_catchup(base, modification)`. */
  function ModifyCatchupSpec(base: Base, m: Modification): CatchupResult
  {
    var oldSum := Flatten(BuildAllocationSpec(base.price, base.pos).schedules);
    var newSum := Flatten(BuildAllocationSpec(NewPrice(base.price, m.priceDelta), ModifiedPos(base.pos, m)).schedules);
    var eff := MonthIndex(m.effective);
    var delta := Delta(oldSum, newSum);
    var catchup := Catchup(delta, eff);
    CatchupResult(oldSum, newSum, delta, eff, catchup, FinalSchedule(oldSum, newSum, eff),
      JournalEntry(eff, DeferredRevenue, Revenue, catchup, "Catch-up on modification", base.id))
  }

  method ModifyCatchup(base: Base, m: Modification) returns (r: CatchupResult)
    requires DatesValid(base.pos) && DatesValid(m.addPos)
    ensures r == ModifyCatchupSpec(base, m)
  {
    var original := BuildAllocation(base.price, base.pos);
    var pos := ModifiedPos(base.pos, m);
    var updated := BuildAllocation(NewPrice(base.price, m.priceDelta), pos);
    var oldSum := Flatten(original.schedules);
    var newSum := Flatten(updated.schedules);
    var eff := MonthIndex(m.effective);
    var delta, catchup, final := CatchupCore(oldSum, newSum, eff);
    var je := JournalEntry(eff, DeferredRevenue, Revenue, catchup, "Catch-up on modification", base.id);
    r := CatchupResult(oldSum, newSum, delta, eff, catchup, final, je);
  }

  /** The posting moves the catch-up from deferred revenue to revenue in the
      effective month, and the final schedule ties to the modified contract. */
  lemma ModifyCatchupPosts(base: Base, m: Modification)
    ensures var r := ModifyCatchupSpec(base, m);
      && r.journal.period == MonthIndex(m.effective)
      && r.journal.debit == DeferredRevenue && r.journal.credit == Revenue
      && r.journal.amount == MapSum(Before(r.newSum, r.effective)) - MapSum(Before(r.oldSum, r.effective))
      && MapSum(r.final) == MapSum(r.newSum)
  {
    var r := ModifyCatchupSpec(base, m);
    CatchupIsShift(r.oldSum, r.newSum, r.effective);
    FinalTotal(r.oldSum, r.newSum, r.effective);
  }
}
