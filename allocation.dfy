/** Relative stand-alone-selling-price allocation (`allocate_relative_ssp`):
    the transaction price is split across performance obligations in
    proportion to their SSPs, each share rounded to the cent, and the last
    obligation takes whatever remains so that the shares tie out to the price.
    SSPs and the total are in cents. */
module Allocation {
  import opened Money

  /** `round(total * (v / s), 2)`, in cents. */
  function Share(total: int, v: int, s: int): real
    requires s != 0
  {
    total as real * (v as real / s as real)
  }

  /** The rounded shares of the leading obligations. */
  function Shares(vs: seq<int>, total: int, s: int): (r: seq<int>)
    requires s != 0
    ensures |r| == |vs|
    ensures forall i :: 0 <= i < |vs| ==> r[i] == RoundHalfEven(Share(total, vs[i], s))
  {
    seq(|vs|, i requires 0 <= i < |vs| => RoundHalfEven(Share(total, vs[i], s)))
  }

  /** What `allocate_relative_ssp(ssps, total)` returns. */
  function Allocation(ssps: seq<int>, total: int): (r: seq<int>)
    ensures |r| == |ssps|
  {
    var s := Sum(ssps);
    if s == 0 || |ssps| == 0 then seq(|ssps|, _ => 0)
    else
      var front := Shares(ssps[..|ssps| - 1], total, s);
      front + [RoundHalfEven((total - Sum(front)) as real)]
  }

  /** The allocation loop: each obligation but the last gets its rounded
      share and adds it to the running total; the last gets the remainder. */
  method AllocateRelativeSsp(ssps: seq<int>, total: int) returns (out: seq<int>)
    ensures out == Allocation(ssps, total)
  {
    var s := Sum(ssps);
    if s == 0 {
      return seq(|ssps|, _ => 0);
    }
    out := [];
    var run := 0;
    var i := 0;
    while i < |ssps|
      invariant 0 <= i <= |ssps|
      invariant i < |ssps| ==> out == Shares(ssps[..i], total, s) && run == Sum(out)
      invariant i == |ssps| ==> out == Allocation(ssps, total)
    {
      if i < |ssps| - 1 {
        var a := RoundHalfEven(Share(total, ssps[i], s));
        assert Shares(ssps[..i + 1], total, s) == Shares(ssps[..i], total, s) + [a];
        out := out + [a];
        run := run + a;
      } else {
        assert ssps[..i] == ssps[..|ssps| - 1];
        out := out + [RoundHalfEven((total - run) as real)];
      }
      i := i + 1;
    }
  }

  /** When the SSPs sum to zero nothing is distributed: every share is zero. */
  lemma AllocationZeroSum(ssps: seq<int>, total: int)
    requires Sum(ssps) == 0
    ensures forall i :: 0 <= i < |ssps| ==> Allocation(ssps, total)[i] == 0
  {
  }

  /** With a nonzero SSP sum the shares tie out to the total exactly. */
  lemma AllocationTiesOut(ssps: seq<int>, total: int)
    requires Sum(ssps) != 0
    ensures Sum(Allocation(ssps, total)) == total
  {
    var r := Allocation(ssps, total);
    var front := Shares(ssps[..|ssps| - 1], total, Sum(ssps));
    RoundWhole(total - Sum(front));
    assert r == front + [total - Sum(front)];
    assert r[..|r| - 1] == front;
  }

  /** Every share but the last is within half a cent of the proportional amount. */
  lemma AllocationProportional(ssps: seq<int>, total: int)
    requires Sum(ssps) != 0
    ensures forall i :: 0 <= i < |ssps| - 1 ==>
      var exact := Share(total, ssps[i], Sum(ssps));
      exact - 0.5 <= Allocation(ssps, total)[i] as real <= exact + 0.5
  {
  }

  /** `[80, 20]` over 1000.00 allocates 800.00 and 200.00. */
  lemma AllocationEightyTwenty()
    ensures Allocation([8000, 2000], 100000) == [80000, 20000]
  {
    var front := Shares([8000], 100000, 10000);
    assert Share(100000, 8000, 10000) == 80000.0;
    RoundWhole(80000);
    RoundWhole(20000);
    assert front == [80000];
    assert Sum([8000, 2000]) == 10000 by {
      assert [8000, 2000][..1] == [8000];
      assert [8000][..0] == [];
    }
    assert [8000, 2000][..1] == [8000];
  }
}
