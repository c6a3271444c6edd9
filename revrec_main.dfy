/** `build_allocation` of the RevRec service: allocate the transaction price
    over the obligations' SSPs and schedule only the straight-line obligations
    that have both dates and the point-in-time obligations that have a start
    date; every other obligation gets no schedule key at all. */
module RevrecMain {
  import opened Periods
  import opened Calendar
  import opened Wrappers
  import opened Allocation
  import opened Recognition
  import opened Contracts

  datatype Response = Response(allocation: seq<AllocResult>, schedules: ScheduleDict)

  /** The obligation's method is one this service schedules, with the dates it needs. */
  predicate Scheduled(po: Po)
  {
    || (po.recognition == StraightLineMethod && po.start.Some? && po.end.Some?)
    || (po.recognition == PointInTimeMethod && po.start.Some?)
  }

  /** The schedule of a scheduled obligation. */
  function PoSchedule(po: Po, alloc: int): Schedule
    requires Scheduled(po)
  {
    if po.recognition == StraightLineMethod then StraightLineSchedule(alloc, po.start.value, po.end.value)
    else PointInTime(alloc, po.start.value)
  }

  /** The `schedules` dictionary after the loop has visited `pos`. */
  function SchedulesSpec(pos: seq<Po>, shares: seq<int>): ScheduleDict
    requires |shares| == |pos|
  {
    if pos == [] then []
    else
      var n := |pos| - 1;
      var prev := SchedulesSpec(pos[..n], shares[..n]);
      if Scheduled(pos[n]) then Put(prev, pos[n].id, PoSchedule(pos[n], shares[n])) else prev
  }

  /** The ids of the obligations that get a schedule. */
  function ScheduledIds(pos: seq<Po>): (r: set<string>)
    ensures forall i :: 0 <= i < |pos| && Scheduled(pos[i]) ==> pos[i].id in r
    ensures forall x :: x in r ==> exists i :: 0 <= i < |pos| && Scheduled(pos[i]) && pos[i].id == x
  {
    if pos == [] then {}
    else
      var n := |pos| - 1;
      var front := ScheduledIds(pos[..n]);
      assert forall i :: 0 <= i < n ==> pos[..n][i] == pos[i];
      if Scheduled(pos[n]) then front + {pos[n].id} else front
  }

  /** The dictionary's keys are exactly the ids of the scheduled obligations. */
  lemma {:induction false} SchedulesKeys(pos: seq<Po>, shares: seq<int>)
    requires |shares| == |pos|
    ensures DictKeys(SchedulesSpec(pos, shares)) == ScheduledIds(pos)
  {
    if pos != [] {
      SchedulesKeys(pos[..|pos| - 1], shares[..|pos| - 1]);
    }
  }

  /** With distinct ids, a scheduled obligation's key holds its schedule. */
  lemma {:induction false} SchedulesLookup(pos: seq<Po>, shares: seq<int>, i: nat)
    requires |shares| == |pos| && i < |pos|
    requires forall a, b :: 0 <= a < b < |pos| ==> pos[a].id != pos[b].id
    ensures Scheduled(pos[i]) ==> Lookup(SchedulesSpec(pos, shares), pos[i].id) == Some(PoSchedule(pos[i], shares[i]))
    ensures !Scheduled(pos[i]) ==> Lookup(SchedulesSpec(pos, shares), pos[i].id).None?
  {
    var n := |pos| - 1;
    if i < n {
      SchedulesLookup(pos[..n], shares[..n], i);
      assert pos[..n][i] == pos[i];
    } else {
      SchedulesKeys(pos[..n], shares[..n]);
      assert pos[i].id !in ScheduledIds(pos[..n]) by {
        forall j | 0 <= j < n ensures pos[..n][j].id != pos[i].id {
          assert pos[..n][j] == pos[j];
        }
      }
    }
  }

  /** `build_allocation(contract)` of the RevRec service. */
  function BuildAllocationSpec(price: int, pos: seq<Po>): Response
  {
    var shares := Allocation.Allocation(Ssps(pos), price);
    Response(AllocResults(pos, shares), SchedulesSpec(pos, shares))
  }

  /** `build_allocation`: allocate, then run the loop over `zip(pos, allocated)`. */
  method BuildAllocation(price: int, pos: seq<Po>) returns (r: Response)
    requires DatesValid(pos)
    ensures r == BuildAllocationSpec(price, pos)
  {
    var shares := AllocateRelativeSsp(Ssps(pos), price);
    var schedules, results := ScheduleLoop(pos, shares);
    r := Response(results, schedules);
  }

  /** The loop: an allocation result for each obligation, and a schedule
      for each straight-line or point-in-time obligation whose dates are set. */
  method ScheduleLoop(pos: seq<Po>, shares: seq<int>) returns (schedules: ScheduleDict, results: seq<AllocResult>)
    requires |shares| == |pos| && DatesValid(pos)
    ensures schedules == SchedulesSpec(pos, shares)
    ensures results == AllocResults(pos, shares)
  {
    schedules := [];
    results := [];
    var i := 0;
    while i < |pos|
      invariant 0 <= i <= |pos|
      invariant schedules == SchedulesSpec(pos[..i], shares[..i])
      invariant results == AllocResults(pos[..i], shares[..i])
    {
      AllocResultsStep(pos, shares, i);
      results := results + [AllocResult(pos[i].id, pos[i].ssp, shares[i])];
      var po := pos[i];
      assert po in pos;
      assert pos[..i + 1][..i] == pos[..i] && shares[..i + 1][..i] == shares[..i];
      assert SchedulesSpec(pos[..i + 1], shares[..i + 1])
        == if Scheduled(po) then Put(schedules, po.id, PoSchedule(po, shares[i])) else schedules;
      if po.recognition == StraightLineMethod && po.start.Some? && po.end.Some? {
        var s := StraightLine(shares[i], po.start.value, po.end.value);
        schedules := Put(schedules, po.id, s);
      } else if po.recognition == PointInTimeMethod && po.start.Some? {
        schedules := Put(schedules, po.id, PointInTime(shares[i], po.start.value));
      }
      i := i + 1;
    }
    assert pos[..i] == pos && shares[..i] == shares;
  }

  /** One allocation result per obligation in input order; schedule keys
      exactly for the straight-line obligations with both dates and the
      point-in-time obligations with a start date. */
  lemma BuildAllocationShape(price: int, pos: seq<Po>)
    ensures |BuildAllocationSpec(price, pos).allocation| == |pos|
    ensures forall i :: 0 <= i < |pos| ==>
      BuildAllocationSpec(price, pos).allocation[i].poId == pos[i].id
      && BuildAllocationSpec(price, pos).allocation[i].allocatedPrice == Allocation.Allocation(Ssps(pos), price)[i]
    ensures DictKeys(BuildAllocationSpec(price, pos).schedules) == ScheduledIds(pos)
  {
    SchedulesKeys(pos, Allocation.Allocation(Ssps(pos), price));
  }
}
