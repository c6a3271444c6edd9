/** The contract data shared by the allocation endpoints: performance
    obligations, allocation results, the per-obligation schedule dictionary,
    and the per-period flattening of that dictionary (`sum_map` of the
    catch-up and `summarize_schedules` of the reports). */
module Contracts {
  import opened Periods
  import opened Calendar
  import opened Wrappers
  import opened Recognition

  datatype RecognitionMethod = PointInTimeMethod | StraightLineMethod | MilestoneMethod | PercentCompleteMethod

  /** A performance obligation; its dates are already parsed. */
  datatype Po = Po(
    id: string,
    ssp: int,
    recognition: RecognitionMethod,
    start: Option<Date>,
    end: Option<Date>,
    milestones: seq<Milestone>,
    percentSchedule: seq<Progress>)

  /** A parsed date is a real calendar date. */
  predicate PoDatesValid(po: Po)
  {
    (po.start.Some? ==> po.start.value.Valid()) && (po.end.Some? ==> po.end.value.Valid())
  }

  predicate DatesValid(pos: seq<Po>)
  {
    forall po :: po in pos ==> PoDatesValid(po)
  }

  /** The obligation ids. */
  function Ids(pos: seq<Po>): (r: set<string>)
    ensures forall i :: 0 <= i < |pos| ==> pos[i].id in r
    ensures forall x :: x in r ==> exists i :: 0 <= i < |pos| && pos[i].id == x
  {
    if pos == [] then {}
    else
      var n := |pos| - 1;
      var front := Ids(pos[..n]);
      assert forall i :: 0 <= i < n ==> pos[..n][i] == pos[i];
      front + {pos[n].id}
  }

  /** `next((po.start_date for po in pos if po.start_date), "2025-01-01")` */
  function FirstStart(pos: seq<Po>): (d: Date)
    ensures DatesValid(pos) ==> d.Valid()
    ensures forall i :: 0 <= i < |pos| && pos[i].start.Some? && (forall j :: 0 <= j < i ==> pos[j].start.None?) ==>
      d == pos[i].start.value
    ensures (forall i :: 0 <= i < |pos| ==> pos[i].start.None?) ==> d == DefaultStart
  {
    if pos == [] then DefaultStart
    else if pos[0].start.Some? then
      assert pos[0] in pos;
      pos[0].start.value
    else
      assert forall po :: po in pos[1..] ==> po in pos;
      assert forall i :: 1 <= i < |pos| ==> pos[1..][i - 1] == pos[i];
      FirstStart(pos[1..])
  }

  /** 2025-01-01, the start date used when no obligation has one. */
  const DefaultStart := Date(2025, 1, 1)

  datatype AllocResult = AllocResult(poId: string, ssp: int, allocatedPrice: int)

  function Ssps(pos: seq<Po>): (r: seq<int>)
    ensures |r| == |pos| && forall i :: 0 <= i < |pos| ==> r[i] == pos[i].ssp
  {
    seq(|pos|, i requires 0 <= i < |pos| => pos[i].ssp)
  }

  /** `[AllocResult(po_id, ssp, alloc) for po, alloc in zip(pos, allocated)]` */
  function AllocResults(pos: seq<Po>, shares: seq<int>): (r: seq<AllocResult>)
    requires |shares| == |pos|
    ensures |r| == |pos|
    ensures forall i :: 0 <= i < |pos| ==> r[i] == AllocResult(pos[i].id, pos[i].ssp, shares[i])
  {
    seq(|pos|, i requires 0 <= i < |pos| => AllocResult(pos[i].id, pos[i].ssp, shares[i]))
  }

  /** One more obligation appends its result. */
  lemma AllocResultsStep(pos: seq<Po>, shares: seq<int>, i: nat)
    requires |shares| == |pos| && i < |pos|
    ensures AllocResults(pos[..i + 1], shares[..i + 1])
      == AllocResults(pos[..i], shares[..i]) + [AllocResult(pos[i].id, pos[i].ssp, shares[i])]
  {
  }

  /** A Python dict from obligation id to schedule, in insertion order. */
  type ScheduleDict = seq<(string, Schedule)>

  function DictKeys(d: ScheduleDict): set<string>
  {
    set e | e in d :: e.0
  }

  /** `d[k] = v`: an existing key keeps its place and takes the new value,
      a new key is appended. */
  function Put(d: ScheduleDict, k: string, v: Schedule): (r: ScheduleDict)
    ensures DictKeys(r) == DictKeys(d) + {k}
    ensures Lookup(r, k) == Some(v)
    ensures forall j :: j != k ==> Lookup(r, j) == Lookup(d, j)
    ensures k in DictKeys(d) ==> |r| == |d|
    decreases |d|
  {
    if d == [] then [(k, v)]
    else if d[0].0 == k then
      DictKeysCons(d[0], d[1..]);
      DictKeysCons((k, v), d[1..]);
      assert ([(k, v)] + d[1..])[1..] == d[1..];
      [(k, v)] + d[1..]
    else
      var rest := Put(d[1..], k, v);
      DictKeysCons(d[0], d[1..]);
      DictKeysCons(d[0], rest);
      assert ([d[0]] + rest)[1..] == rest;
      [d[0]] + rest
  }

  /** Where `d[k] = v` puts the key: an existing key keeps its place, a new
      key is appended after the others. */
  lemma PutPlace(d: ScheduleDict, k: string, v: Schedule)
    ensures k in DictKeys(d) ==> forall i :: 0 <= i < |d| ==> Put(d, k, v)[i].0 == d[i].0
    ensures k !in DictKeys(d) ==> Put(d, k, v) == d + [(k, v)]
  {
    if k in DictKeys(d) {
      forall i | 0 <= i < |d| ensures Put(d, k, v)[i].0 == d[i].0 {
        PutKeyAt(d, k, v, i);
      }
    } else {
      PutAppends(d, k, v);
    }
  }

  lemma {:induction false} PutKeyAt(d: ScheduleDict, k: string, v: Schedule, i: nat)
    requires k in DictKeys(d) && i < |d|
    ensures |Put(d, k, v)| == |d| && Put(d, k, v)[i].0 == d[i].0
    decreases |d|
  {
    if d[0].0 != k && i > 0 {
      DictKeysCons(d[0], d[1..]);
      assert d == [d[0]] + d[1..];
      PutKeyAt(d[1..], k, v, i - 1);
      assert Put(d, k, v) == [d[0]] + Put(d[1..], k, v);
    }
  }

  lemma {:induction false} PutAppends(d: ScheduleDict, k: string, v: Schedule)
    requires k !in DictKeys(d)
    ensures Put(d, k, v) == d + [(k, v)]
    decreases |d|
  {
    if d != [] {
      DictKeysCons(d[0], d[1..]);
      assert d == [d[0]] + d[1..];
      PutAppends(d[1..], k, v);
      assert Put(d, k, v) == [d[0]] + Put(d[1..], k, v);
    }
  }

  lemma DictKeysCons(e: (string, Schedule), d: ScheduleDict)
    ensures DictKeys([e] + d) == {e.0} + DictKeys(d)
  {
    assert forall x :: x in [e] + d <==> x == e || x in d;
  }

  /** `d.get(k)` */
  function Lookup(d: ScheduleDict, k: string): (r: Option<Schedule>)
    ensures r.Some? <==> k in DictKeys(d)
    decreases |d|
  {
    if d == [] then None
    else if d[0].0 == k then Some(d[0].1)
    else
      assert d == [d[0]] + d[1..];
      Lookup(d[1..], k)
  }

  /** `out[p] = out.get(p, 0) + a` for every period of `s`: the amounts of two
      schedules added period by period. (Rounding a sum of whole cents to the
      cent changes nothing, so the source's `round(..., 2)` is not repeated.) */
  function AddInto(out: Schedule, s: Schedule): (r: Schedule)
    ensures r.Keys == out.Keys + s.Keys
    ensures forall p :: Get(r, p) == Get(out, p) + Get(s, p)
  {
    map p | p in out.Keys + s.Keys :: Get(out, p) + Get(s, p)
  }

  /** `sum_map(schedules)`: the amount of every period summed over all obligations. */
  function Flatten(d: ScheduleDict): (r: Schedule)
  {
    if d == [] then map[] else AddInto(Flatten(d[..|d| - 1]), d[|d| - 1].1)
  }

  /** Sum over the obligations of their amounts in period `p`. */
  function AmountAt(d: ScheduleDict, p: Period): int
  {
    if d == [] then 0 else AmountAt(d[..|d| - 1], p) + Get(d[|d| - 1].1, p)
  }

  /** Sum over the obligations of their schedule totals. */
  function TotalOf(d: ScheduleDict): int
  {
    if d == [] then 0 else TotalOf(d[..|d| - 1]) + MapSum(d[|d| - 1].1)
  }

  /** Adding two schedules period by period adds their totals. */
  lemma MapSumAddInto(out: Schedule, s: Schedule)
    ensures MapSum(AddInto(out, s)) == MapSum(out) + MapSum(s)
  {
    var u := out.Keys + s.Keys;
    var r := AddInto(out, s);
    SumOnDiff(u, out, r, s);
    SumOnSuperset(u, out);
    SumOnSuperset(u, s);
  }

  /** The flattened schedule has a period exactly when some obligation has it,
      holds there the sum of the obligations' amounts, and totals the sum of
      their totals. */
  lemma {:induction false} FlattenSums(d: ScheduleDict)
    ensures Flatten(d).Keys == set e, p | e in d && p in e.1 :: p
    ensures forall p :: Get(Flatten(d), p) == AmountAt(d, p)
    ensures MapSum(Flatten(d)) == TotalOf(d)
  {
    if d != [] {
      var front := d[..|d| - 1];
      FlattenSums(front);
      MapSumAddInto(Flatten(front), d[|d| - 1].1);
      assert d == front + [d[|d| - 1]];
      assert (set e, p | e in d && p in e.1 :: p)
        == (set e, p | e in front && p in e.1 :: p) + d[|d| - 1].1.Keys;
    }
  }
}
