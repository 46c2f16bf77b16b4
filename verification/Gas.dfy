/** The gas a transaction has left, in the source's 64-bit unsigned arithmetic. */
module Gas {

  const TWO_63: nat := 0x8000_0000_0000_0000
  const TWO_64: nat := 0x1_0000_0000_0000_0000

  newtype uint64 = x: int | 0 <= x < TWO_64

  /** SubtractGas as a step: what is left, and whether the charge was accepted. */
  function Charge(left: uint64, used: uint64): (uint64, bool) {
    if left as int >= TWO_63 then (left, false)           // negative as a signed number
    else
      var rest := ((left as int - used as int) % TWO_64) as uint64;
      (rest, rest <= left)
  }

  class GasMeter {
    var gasRemaining: uint64

    constructor (limit: uint64)
      ensures gasRemaining == limit
    {
      gasRemaining := limit;
    }

    method SubtractGas(gasUsed: uint64) returns (ok: bool)
      modifies this
      ensures (gasRemaining, ok) == Charge(old(gasRemaining), gasUsed)
    {
      var oldGas := gasRemaining;
      if oldGas as int >= TWO_63 {
        return false;
      }
      gasRemaining := ((gasRemaining as int - gasUsed as int) % TWO_64) as uint64;
      return gasRemaining <= oldGas;
    }
  }

  /** One charge is accepted exactly when the meter is not negative and covers it. */
  lemma ChargeAccepted(left: uint64, used: uint64)
    ensures Charge(left, used).1 <==> left as int < 0x8000_0000_0000_0000 && used <= left
    ensures Charge(left, used).1 ==> Charge(left, used).0 == left - used
    ensures left as int < 0x8000_0000_0000_0000 && used > left ==>
      Charge(left, used).0 as int == left as int - used as int + 0x1_0000_0000_0000_0000
  {
    var d := left as int - used as int;
    if d >= 0 {
      assert d % TWO_64 == d;
    } else {
      assert d % TWO_64 == d + TWO_64;
    }
  }

  /** The gas left after a run of charges. */
  function LeftAfter(limit: uint64, charges: seq<uint64>): uint64 {
    if charges == [] then limit
    else Charge(LeftAfter(limit, charges[..|charges| - 1]), charges[|charges| - 1]).0
  }

  /** Whether the i-th charge of a run is accepted. */
  predicate Accepted(limit: uint64, charges: seq<uint64>, i: nat)
    requires i < |charges|
  {
    Charge(LeftAfter(limit, charges[..i]), charges[i]).1
  }

  function Sum(charges: seq<uint64>): nat {
    if charges == [] then 0 else Sum(charges[..|charges| - 1]) + charges[|charges| - 1] as nat
  }

  predicate AllAccepted(limit: uint64, charges: seq<uint64>) {
    forall i :: 0 <= i < |charges| ==> Accepted(limit, charges, i)
  }

  lemma AcceptedPrefix(limit: uint64, charges: seq<uint64>, n: nat)
    requires n <= |charges|
    ensures forall i :: 0 <= i < n ==> Accepted(limit, charges[..n], i) == Accepted(limit, charges, i)
  {
    forall i | 0 <= i < n ensures Accepted(limit, charges[..n], i) == Accepted(limit, charges, i) {
      assert charges[..n][..i] == charges[..i];
    }
  }

  /** As long as every charge is accepted, what is left is the limit minus their sum. */
  lemma {:induction false} LeftIsLimitMinusSum(limit: uint64, charges: seq<uint64>)
    requires AllAccepted(limit, charges)
    ensures Sum(charges) <= limit as int && LeftAfter(limit, charges) as int == limit as int - Sum(charges)
  {
    if charges != [] {
      var n := |charges| - 1;
      AcceptedPrefix(limit, charges, n);
      LeftIsLimitMinusSum(limit, charges[..n]);
      assert Accepted(limit, charges, n);
      ChargeAccepted(LeftAfter(limit, charges[..n]), charges[n]);
    }
  }

  lemma {:induction false} NegativeStays(limit: uint64, charges: seq<uint64>, n: nat)
    requires n <= |charges| && LeftAfter(limit, charges[..n]) as int >= TWO_63
    ensures LeftAfter(limit, charges) as int >= TWO_63
    ensures forall i :: n <= i < |charges| ==> !Accepted(limit, charges, i)
    decreases |charges|
  {
    if n < |charges| {
      var m := |charges| - 1;
      assert charges[..m][..n] == charges[..n];
      NegativeStays(limit, charges[..m], n);
      forall i | n <= i < m ensures !Accepted(limit, charges, i) {
        assert charges[..m][..i] == charges[..i];
        assert !Accepted(limit, charges[..m], i);
      }
    } else {
      assert charges[..n] == charges;
    }
  }

  /**
   * Whole runs: with a limit below 2^63 and charges of at most 2^63, what is left up to the first failure
   * is the limit minus the charges, and from the first failure on every charge fails.
   */
  lemma GasRun(limit: uint64, charges: seq<uint64>, first: nat)
    requires limit as int < TWO_63 && forall i :: 0 <= i < |charges| ==> charges[i] as int <= TWO_63
    requires first < |charges| && !Accepted(limit, charges, first)
    requires forall i :: 0 <= i < first ==> Accepted(limit, charges, i)
    ensures LeftAfter(limit, charges[..first]) as int == limit as int - Sum(charges[..first])
    ensures forall i :: first <= i < |charges| ==> !Accepted(limit, charges, i)
  {
    AcceptedPrefix(limit, charges, first);
    LeftIsLimitMinusSum(limit, charges[..first]);
    ChargeAccepted(LeftAfter(limit, charges[..first]), charges[first]);
    assert charges[..first + 1][..first] == charges[..first];
    NegativeStays(limit, charges, first + 1);
  }

  /**
   * The failure of one charge is final exactly when the charge exceeds what is left by at most 2^63: a
   * larger one wraps round to a positive remainder, from which later charges are accepted again.
   */
  lemma FailureIsFinal(left: uint64, used: uint64)
    requires left as int < TWO_63 && !Charge(left, used).1
    ensures (forall later: seq<uint64>, i :: 0 <= i < |later| ==> !Accepted(Charge(left, used).0, later, i))
       <==> used as int <= left as int + TWO_63
  {
    ChargeAccepted(left, used);
    var rest := Charge(left, used).0;
    if used as int <= left as int + TWO_63 {
      forall later: seq<uint64>, i | 0 <= i < |later| ensures !Accepted(rest, later, i) {
        assert later[..0] == [];
        NegativeStays(rest, later, 0);
      }
    } else {
      var later: seq<uint64> := [0];
      assert later[..0] == [];
      ChargeAccepted(rest, 0);
      assert Accepted(rest, later, 0);
    }
  }
}
