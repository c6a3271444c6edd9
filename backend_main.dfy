/** `build_allocation` of the consolidated backend: allocate the transaction
    price over the obligations' SSPs, build each obligation's schedule by its
    recognition method, schedule the commission under the one-year practical
    expedient, and add the returns and loyalty adjustments. */
module BackendMain {
  import opened Money
  import opened Periods
  import opened Calendar
  import opened Wrappers
  import opened Allocation
  import opened Recognition
  import opened Contracts
  import Variable
  import VariableV1

  /** `CommissionPlanIn`: the commission and the months of benefit it buys. */
  datatype CommissionPlan = CommissionPlan(total: int, benefitMonths: int, expedient: bool)

  /** `VariableConsideration`: returns rate, loyalty share, term and breakage. */
  datatype VariableTerms = VariableTerms(returnsRate: real, loyaltyPct: real, loyaltyMonths: int, breakageRate: real)

  datatype Contract = Contract(
    price: int,
    pos: seq<Po>,
    commission: Option<CommissionPlan>,
    variable: Option<VariableTerms>)

  /** The `adjustments` dictionary; each entry is present only when it applied. */
  datatype Adjustments = Adjustments(
    returnsAdj: Option<Variable.Returns>,
    loyaltyDeferred: Option<int>,
    loyaltySchedule: Option<Schedule>)

  datatype Response = Response(
    allocation: seq<AllocResult>,
    schedules: ScheduleDict,
    commission: Option<Schedule>,
    adjustments: Option<Adjustments>)

  /** `date.fromisoformat(None)`: the error a date-driven method raises when its date is absent. */
  const MissingDate := "TypeError: fromisoformat: argument must be str"

  /** `contract.pos[0]` on an empty obligation list. */
  const NoObligation := "IndexError: list index out of range"

  /** The obligation's method needs a date it does not have. */
  predicate MissingDates(po: Po)
  {
    || (po.recognition == StraightLineMethod && (po.start.None? || po.end.None?))
    || (po.recognition == PointInTimeMethod && po.start.None?)
  }

  /** The schedule of one obligation, as the method dispatch builds it:
      any method other than the three named ones is percent complete. */
  function PoSchedule(po: Po, alloc: int): (r: Result<Schedule>)
    ensures r.Failure? <==> MissingDates(po)
  {
    match po.recognition
    case StraightLineMethod =>
      if po.start.None? || po.end.None? then Failure(MissingDate)
      else Success(StraightLineSchedule(alloc, po.start.value, po.end.value))
    case PointInTimeMethod =>
      if po.start.None? then Failure(MissingDate)
      else Success(PointInTime(alloc, po.start.value))
    case MilestoneMethod => Success(MilestonesSpec(alloc, po.milestones))
    case PercentCompleteMethod => Success(PercentCompleteSpec(alloc, po.percentSchedule))
  }

  /** The method dispatch, calling the engine's builders. */
  method DispatchSchedule(po: Po, alloc: int) returns (r: Result<Schedule>)
    requires PoDatesValid(po)
    ensures r == PoSchedule(po, alloc)
  {
    match po.recognition {
      case StraightLineMethod =>
        if po.start.None? || po.end.None? {
          return Failure(MissingDate);
        }
        var s := StraightLine(alloc, po.start.value, po.end.value);
        return Success(s);
      case PointInTimeMethod =>
        if po.start.None? {
          return Failure(MissingDate);
        }
        return Success(PointInTime(alloc, po.start.value));
      case MilestoneMethod =>
        var s := Milestones(alloc, po.milestones);
        return Success(s);
      case PercentCompleteMethod =>
        var s := PercentComplete(alloc, po.percentSchedule);
        return Success(s);
    }
  }

  /** The `schedules` dictionary after the loop has visited `pos`, or the
      error of the first obligation whose schedule could not be built. */
  function SchedulesSpec(pos: seq<Po>, shares: seq<int>): Result<ScheduleDict>
    requires |shares| == |pos|
  {
    if pos == [] then Success([])
    else
      var n := |pos| - 1;
      var prev := SchedulesSpec(pos[..n], shares[..n]);
      if prev.Failure? then prev
      else
        var s := PoSchedule(pos[n], shares[n]);
        if s.Failure? then Failure(s.error) else Success(Put(prev.value, pos[n].id, s.value))
  }

  /** An error raised on a prefix ends the whole loop with that error. */
  lemma {:induction false} FailureSticks(pos: seq<Po>, shares: seq<int>, k: nat)
    requires |shares| == |pos| && k <= |pos|
    requires SchedulesSpec(pos[..k], shares[..k]).Failure?
    ensures SchedulesSpec(pos, shares) == SchedulesSpec(pos[..k], shares[..k])
    decreases |pos| - k
  {
    if k < |pos| {
      SchedulesStep(pos, shares, k);
      FailureSticks(pos, shares, k + 1);
    } else {
      assert pos[..k] == pos && shares[..k] == shares;
    }
  }

  /** One more obligation: the dictionary so far, extended by its schedule. */
  lemma SchedulesStep(pos: seq<Po>, shares: seq<int>, i: nat)
    requires |shares| == |pos| && i < |pos|
    ensures SchedulesSpec(pos[..i + 1], shares[..i + 1])
      == (var prev := SchedulesSpec(pos[..i], shares[..i]);
          if prev.Failure? then prev
          else
            var s := PoSchedule(pos[i], shares[i]);
            if s.Failure? then Failure(s.error) else Success(Put(prev.value, pos[i].id, s.value)))
  {
    assert pos[..i + 1][..i] == pos[..i] && shares[..i + 1][..i] == shares[..i];
  }

  /** The loop fails exactly when some obligation lacks a date its method needs. */
  lemma {:induction false} SchedulesFail(pos: seq<Po>, shares: seq<int>)
    requires |shares| == |pos|
    ensures SchedulesSpec(pos, shares).Failure? <==> exists i :: 0 <= i < |pos| && MissingDates(pos[i])
  {
    if pos != [] {
      var n := |pos| - 1;
      SchedulesFail(pos[..n], shares[..n]);
      MissingStep(pos);
      assert pos[..n + 1] == pos && shares[..n + 1] == shares;
      SchedulesStep(pos, shares, n);
    }
  }

  /** Some obligation lacks a date exactly when one before the last does or
      the last does. */
  lemma MissingStep(pos: seq<Po>)
    requires pos != []
    ensures var n := |pos| - 1;
      (exists i :: 0 <= i < |pos| && MissingDates(pos[i]))
        <==> (exists i :: 0 <= i < n && MissingDates(pos[..n][i])) || MissingDates(pos[n])
  {
    var n := |pos| - 1;
    if exists i :: 0 <= i < |pos| && MissingDates(pos[i]) {
      var i :| 0 <= i < |pos| && MissingDates(pos[i]);
      if i < n {
        assert MissingDates(pos[..n][i]);
      }
    }
    if exists i :: 0 <= i < n && MissingDates(pos[..n][i]) {
      var i :| 0 <= i < n && MissingDates(pos[..n][i]);
      assert MissingDates(pos[i]);
    }
  }

  /** When the loop succeeds, the obligation ids are exactly the dictionary's keys. */
  lemma {:induction false} SchedulesKeys(pos: seq<Po>, shares: seq<int>)
    requires |shares| == |pos|
    ensures SchedulesSpec(pos, shares).Success? ==> DictKeys(SchedulesSpec(pos, shares).value) == Ids(pos)
  {
    if pos != [] && SchedulesSpec(pos, shares).Success? {
      var n := |pos| - 1;
      SchedulesKeys(pos[..n], shares[..n]);
    }
  }

  /** With distinct obligation ids, each obligation's key holds the schedule
      its method builds from its allocated price. */
  lemma SchedulesLookup(pos: seq<Po>, shares: seq<int>, i: nat)
    requires |shares| == |pos| && i < |pos|
    requires forall j :: i < j < |pos| ==> pos[j].id != pos[i].id
    requires SchedulesSpec(pos, shares).Success?
    ensures PoSchedule(pos[i], shares[i]).Success?
    ensures Lookup(SchedulesSpec(pos, shares).value, pos[i].id) == Some(PoSchedule(pos[i], shares[i]).value)
  {
    var ids := seq(|pos|, k requires 0 <= k < |pos| => pos[k].id);
    var rs := seq(|pos|, k requires 0 <= k < |pos| => PoSchedule(pos[k], shares[k]));
    SchedulesAsFold(pos, shares, |pos|);
    assert pos[..|pos|] == pos && shares[..|pos|] == shares;
    assert ids[..|pos|] == ids && rs[..|pos|] == rs;
    FoldLookup(ids, rs, i);
  }

  /** The loop as a fold of `Put` over the ids and the method results, in
      order, stopping at the first error. */
  function FoldPut(ids: seq<string>, rs: seq<Result<Schedule>>): Result<ScheduleDict>
    requires |ids| == |rs|
  {
    if ids == [] then Success([])
    else
      var n := |ids| - 1;
      var prev := FoldPut(ids[..n], rs[..n]);
      if prev.Failure? then prev
      else if rs[n].Failure? then Failure(rs[n].error) else Success(Put(prev.value, ids[n], rs[n].value))
  }

  lemma {:induction false} SchedulesAsFold(pos: seq<Po>, shares: seq<int>, k: nat)
    requires |shares| == |pos| && k <= |pos|
    ensures var ids := seq(|pos|, j requires 0 <= j < |pos| => pos[j].id);
      var rs := seq(|pos|, j requires 0 <= j < |pos| => PoSchedule(pos[j], shares[j]));
      SchedulesSpec(pos[..k], shares[..k]) == FoldPut(ids[..k], rs[..k])
  {
    var ids := seq(|pos|, j requires 0 <= j < |pos| => pos[j].id);
    var rs := seq(|pos|, j requires 0 <= j < |pos| => PoSchedule(pos[j], shares[j]));
    if k > 0 {
      SchedulesAsFold(pos, shares, k - 1);
      SchedulesStep(pos, shares, k - 1);
      FoldStep(ids, rs, k - 1);
    }
  }

  /** One more id and result extend the fold. */
  lemma FoldStep(ids: seq<string>, rs: seq<Result<Schedule>>, i: nat)
    requires |ids| == |rs| && i < |ids|
    ensures FoldPut(ids[..i + 1], rs[..i + 1])
      == (var prev := FoldPut(ids[..i], rs[..i]);
          if prev.Failure? then prev
          else if rs[i].Failure? then Failure(rs[i].error) else Success(Put(prev.value, ids[i], rs[i].value)))
  {
    TakeTake(ids, i + 1);
    TakeTake(rs, i + 1);
  }

  lemma TakeTake<T>(s: seq<T>, k: nat)
    requires 0 < k <= |s|
    ensures s[..k][..k - 1] == s[..k - 1]
  {
  }

  lemma {:induction false} FoldLookup(ids: seq<string>, rs: seq<Result<Schedule>>, i: nat)
    requires |ids| == |rs| && i < |ids|
    requires forall j :: i < j < |ids| ==> ids[j] != ids[i]
    requires FoldPut(ids, rs).Success?
    ensures rs[i].Success?
    ensures Lookup(FoldPut(ids, rs).value, ids[i]) == Some(rs[i].value)
  {
    var n := |ids| - 1;
    FoldLast(ids, rs);
    if i < n {
      assert forall j :: i < j < n ==> ids[..n][j] == ids[j];
      FoldLookup(ids[..n], rs[..n], i);
      assert ids[..n][i] == ids[i] && rs[..n][i] == rs[i];
    }
  }

  /** A fold that succeeds succeeded on the prefix and on the last result,
      and puts that result under the last id. */
  lemma FoldLast(ids: seq<string>, rs: seq<Result<Schedule>>)
    requires |ids| == |rs| && ids != [] && FoldPut(ids, rs).Success?
    ensures var n := |ids| - 1;
      && FoldPut(ids[..n], rs[..n]).Success? && rs[n].Success?
      && Lookup(FoldPut(ids, rs).value, ids[n]) == Some(rs[n].value)
      && forall j :: j != ids[n] ==> Lookup(FoldPut(ids, rs).value, j) == Lookup(FoldPut(ids[..n], rs[..n]).value, j)
  {
  }

  /** `commission_schedule`: amortized over the benefit period when it
      exceeds a year or the expedient is not elected; otherwise expensed in
      full in the first obligation's start month (default January 2025). */
  function CommissionSchedule(pos: seq<Po>, plan: CommissionPlan): Result<Schedule>
  {
    if plan.benefitMonths > 12 || !plan.expedient then
      Success(AmortizeCommission(plan.total, plan.benefitMonths, FirstStart(pos)))
    else if pos == [] then Failure(NoObligation)
    else
      var at := if pos[0].start.Some? then pos[0].start.value else DefaultStart;
      Success(map[MonthIndex(at) := plan.total])
  }

  /** The commission fails only when it is expensed with no obligation to
      date it; a positive term totals the commission, and expensed
      commission is the whole commission in the first obligation's start
      month, or January 2025 when it has none. */
  lemma CommissionRule(pos: seq<Po>, plan: CommissionPlan)
    ensures CommissionSchedule(pos, plan).Failure? <==> pos == [] && plan.benefitMonths <= 12 && plan.expedient
    ensures CommissionSchedule(pos, plan).Success? && plan.benefitMonths >= 1 ==>
      MapSum(CommissionSchedule(pos, plan).value) == plan.total
    ensures plan.benefitMonths <= 12 && plan.expedient && pos != [] ==>
      |CommissionSchedule(pos, plan).value.Keys| == 1
    ensures plan.benefitMonths <= 12 && plan.expedient && pos != [] ==>
      CommissionSchedule(pos, plan).value
        == map[MonthIndex(if pos[0].start.Some? then pos[0].start.value else DefaultStart) := plan.total]
  {
    if plan.benefitMonths > 12 || !plan.expedient {
      var s := AmortizeCommission(plan.total, plan.benefitMonths, FirstStart(pos));
      assert CommissionSchedule(pos, plan) == Success(s);
    } else if pos != [] {
      var at := if pos[0].start.Some? then pos[0].start.value else DefaultStart;
      var s := map[MonthIndex(at) := plan.total];
      assert CommissionSchedule(pos, plan) == Success(s);
      MapSumUpdate(map[], MonthIndex(at), plan.total);
      assert s.Keys == {MonthIndex(at)};
    }
  }

  /** Amortizing from the first start date covers the months from there. */
  lemma AmortizedFromFirst(pos: seq<Po>, total: int, months: int)
    requires months >= 1
    ensures AmortizeCommission(total, months, FirstStart(pos)).Keys
      == RangeSet(MonthIndex(FirstStart(pos)), MonthIndex(FirstStart(pos)) + months)
  {
  }

  /** Amortized commission covers exactly the benefit months from the first
      start date. */
  lemma CommissionAmortized(pos: seq<Po>, plan: CommissionPlan)
    requires plan.benefitMonths > 12 || !plan.expedient
    requires plan.benefitMonths >= 1
    ensures CommissionSchedule(pos, plan).Success?
    ensures CommissionSchedule(pos, plan).value.Keys
      == RangeSet(MonthIndex(FirstStart(pos)), MonthIndex(FirstStart(pos)) + plan.benefitMonths)
  {
    AmortizedFromFirst(pos, plan.total, plan.benefitMonths);
  }

  /** Sum of the allocations of the point-in-time obligations. */
  function PitTotal(pos: seq<Po>, shares: seq<int>): int
    requires |shares| == |pos|
  {
    if pos == [] then 0
    else
      var n := |pos| - 1;
      PitTotal(pos[..n], shares[..n]) + (if pos[n].recognition == PointInTimeMethod then shares[n] else 0)
  }

  /** The returns and loyalty adjustments, `None` when neither applied. */
  function AdjustmentsSpec(c: Contract, shares: seq<int>): Result<Option<Adjustments>>
    requires |shares| == |c.pos|
  {
    if c.variable.None? then Success(None)
    else
      var v := c.variable.value;
      var pit := PitTotal(c.pos, shares);
      var ret := if v.returnsRate > 0.0 && pit > 0 then Some(VariableV1.ExpectedReturnsV1(pit, v.returnsRate)) else None;
      if v.loyaltyPct > 0.0 then
        var deferred := VariableV1.LoyaltyLiabilityV1(c.price, v.loyaltyPct);
        var sched := VariableV1.LoyaltyScheduleV1(deferred, FirstStart(c.pos), v.loyaltyMonths, v.breakageRate);
        if sched.Failure? then Failure(sched.error)
        else Success(Some(Adjustments(ret, Some(deferred), Some(sched.value))))
      else if ret.Some? then Success(Some(Adjustments(ret, None, None)))
      else Success(None)
  }

  /** Returns are adjusted exactly when the rate and the point-in-time
      revenue are positive; loyalty is deferred exactly when its share is
      positive, out of the full transaction price, and its recognition
      schedule then starts at the first obligation start date; `adjustments`
      is `None` exactly when neither applied. */
  lemma AdjustmentsRule(c: Contract, shares: seq<int>)
    requires |shares| == |c.pos|
    ensures AdjustmentsSpec(c, shares).Failure? <==>
      c.variable.Some? && c.variable.value.loyaltyPct > 0.0 && c.variable.value.loyaltyMonths <= 0
    ensures AdjustmentsSpec(c, shares).Success? ==>
      var a := AdjustmentsSpec(c, shares).value;
      var applies := c.variable.Some? && c.variable.value.returnsRate > 0.0 && PitTotal(c.pos, shares) > 0;
      var loyal := c.variable.Some? && c.variable.value.loyaltyPct > 0.0;
      && (a.None? <==> !applies && !loyal)
      && (a.Some? ==> (a.value.returnsAdj.Some? <==> applies))
      && (a.Some? && applies ==>
            a.value.returnsAdj == Some(VariableV1.ExpectedReturnsV1(PitTotal(c.pos, shares), c.variable.value.returnsRate)))
      && (a.Some? ==> (a.value.loyaltyDeferred.Some? <==> loyal))
      && (a.Some? && loyal ==>
            a.value.loyaltyDeferred == Some(Variable.LoyaltyLiability(c.price, c.variable.value.loyaltyPct)))
      && (a.Some? ==> (a.value.loyaltySchedule.Some? <==> loyal))
      && (a.Some? && loyal ==>
            var v := c.variable.value;
            a.value.loyaltySchedule == Some(VariableV1.LoyaltyScheduleV1(Variable.LoyaltyLiability(c.price, v.loyaltyPct),
              FirstStart(c.pos), v.loyaltyMonths, v.breakageRate).value))
  {
    if c.variable.Some? && c.variable.value.loyaltyPct > 0.0 {
      var v := c.variable.value;
      VariableV1.LoyaltyScheduleV1Shape(VariableV1.LoyaltyLiabilityV1(c.price, v.loyaltyPct), FirstStart(c.pos), v.loyaltyMonths, v.breakageRate);
    }
  }

  /** `build_allocation(contract)`, errors included. */
  function BuildAllocationSpec(c: Contract): Result<Response>
  {
    var shares := Allocation.Allocation(Ssps(c.pos), c.price);
    var scheds := SchedulesSpec(c.pos, shares);
    if scheds.Failure? then Failure(scheds.error)
    else
      var comm := if c.commission.None? then Success(None)
        else match CommissionSchedule(c.pos, c.commission.value)
          case Success(s) => Success(Some(s))
          case Failure(e) => Failure(e);
      if comm.Failure? then Failure(comm.error)
      else
        var adj := AdjustmentsSpec(c, shares);
        if adj.Failure? then Failure(adj.error)
        else Success(Response(AllocResults(c.pos, shares), scheds.value, comm.value, adj.value))
  }

  /** The loop of `build_allocation`: visit the obligations in order,
      appending an allocation result and setting a schedule for each, and
      stop at the first schedule that cannot be built. */
  method ScheduleLoop(pos: seq<Po>, shares: seq<int>) returns (r: Result<ScheduleDict>, results: seq<AllocResult>)
    requires |shares| == |pos| && DatesValid(pos)
    ensures r == SchedulesSpec(pos, shares)
    ensures r.Success? ==> results == AllocResults(pos, shares)
  {
    var schedules: ScheduleDict := [];
    results := [];
    var i := 0;
    while i < |pos|
      invariant 0 <= i <= |pos|
      invariant SchedulesSpec(pos[..i], shares[..i]) == Success(schedules)
      invariant results == AllocResults(pos[..i], shares[..i])
    {
      AllocResultsStep(pos, shares, i);
      results := results + [AllocResult(pos[i].id, pos[i].ssp, shares[i])];
      assert PoDatesValid(pos[i]);
      var s := DispatchSchedule(pos[i], shares[i]);
      SchedulesStep(pos, shares, i);
      if s.Failure? {
        FailureSticks(pos, shares, i + 1);
        return Failure(s.error), results;
      }
      schedules := Put(schedules, pos[i].id, s.value);
      i := i + 1;
    }
    assert pos[..i] == pos && shares[..i] == shares;
    r := Success(schedules);
  }

  /** The orchestration: allocate, run the obligation loop, then the
      commission schedule and the adjustments. */
  method BuildAllocation(c: Contract) returns (r: Result<Response>)
    requires DatesValid(c.pos)
    ensures r == BuildAllocationSpec(c)
  {
    var shares := AllocateRelativeSsp(Ssps(c.pos), c.price);
    var scheds, results := ScheduleLoop(c.pos, shares);
    if scheds.Failure? {
      return Failure(scheds.error);
    }
    var comm: Option<Schedule> := None;
    if c.commission.Some? {
      var cs := CommissionSchedule(c.pos, c.commission.value);
      if cs.Failure? {
        return Failure(cs.error);
      }
      comm := Some(cs.value);
    }
    var adj := AdjustmentsSpec(c, shares);
    if adj.Failure? {
      return Failure(adj.error);
    }
    r := Success(Response(results, scheds.value, comm, adj.value));
  }

  /** The call fails exactly on a missing date, on an expensed commission
      with no obligation, or on a loyalty term of no months. */
  lemma BuildAllocationFails(c: Contract)
    ensures BuildAllocationSpec(c).Failure? <==>
      || (exists i :: 0 <= i < |c.pos| && MissingDates(c.pos[i]))
      || (c.commission.Some? && c.commission.value.benefitMonths <= 12 && c.commission.value.expedient && c.pos == [])
      || (c.variable.Some? && c.variable.value.loyaltyPct > 0.0 && c.variable.value.loyaltyMonths <= 0)
  {
    var shares := Allocation.Allocation(Ssps(c.pos), c.price);
    BuildAllocationParts(c);
    SchedulesFail(c.pos, shares);
    if c.commission.Some? {
      CommissionRule(c.pos, c.commission.value);
    }
    AdjustmentsRule(c, shares);
  }

  /** A response holds one allocation result per obligation, in input order,
      carrying its share of the full transaction price, the shares tying out
      to the price; one schedule key per obligation id; and a commission
      schedule exactly when a plan was given. */
  lemma BuildAllocationShape(c: Contract)
    ensures BuildAllocationSpec(c).Success? ==>
      var r := BuildAllocationSpec(c).value;
      && |r.allocation| == |c.pos|
      && (forall i :: 0 <= i < |c.pos| ==>
            r.allocation[i] == AllocResult(c.pos[i].id, c.pos[i].ssp, Allocation.Allocation(Ssps(c.pos), c.price)[i]))
      && (Money.Sum(Ssps(c.pos)) != 0 ==>
            Money.Sum(seq(|c.pos|, i requires 0 <= i < |c.pos| => r.allocation[i].allocatedPrice)) == c.price)
      && DictKeys(r.schedules) == Ids(c.pos)
      && (r.commission.Some? <==> c.commission.Some?)
  {
    var shares := Allocation.Allocation(Ssps(c.pos), c.price);
    BuildAllocationParts(c);
    SchedulesKeys(c.pos, shares);
    if BuildAllocationSpec(c).Success? {
      var r := BuildAllocationSpec(c).value;
      var amounts := seq(|c.pos|, i requires 0 <= i < |c.pos| => r.allocation[i].allocatedPrice);
      assert amounts == shares;
      if Money.Sum(Ssps(c.pos)) != 0 {
        AllocationTiesOut(Ssps(c.pos), c.price);
      }
    }
  }

  /** The request fails exactly when one of its three stages fails, and a
      response carries the allocation results, the schedules and a
      commission schedule exactly when a plan was given. */
  lemma BuildAllocationParts(c: Contract)
    ensures var shares := Allocation.Allocation(Ssps(c.pos), c.price);
      && (BuildAllocationSpec(c).Failure? <==>
            || SchedulesSpec(c.pos, shares).Failure?
            || (c.commission.Some? && CommissionSchedule(c.pos, c.commission.value).Failure?)
            || AdjustmentsSpec(c, shares).Failure?)
      && (BuildAllocationSpec(c).Success? ==>
            && BuildAllocationSpec(c).value.allocation == AllocResults(c.pos, shares)
            && BuildAllocationSpec(c).value.schedules == SchedulesSpec(c.pos, shares).value
            && (BuildAllocationSpec(c).value.commission.Some? <==> c.commission.Some?))
  {
  }
}
