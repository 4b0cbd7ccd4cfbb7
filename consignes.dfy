/**
 * The returnable-bottle counters for the SOBRAGA brewery: loose empty bottles and full
 * crates, where twelve empties are exchanged for one full crate.
 */
module Consignes {
  const BottlesPerCrate: int := 12

  datatype CrateField = SobragaEmpties | SobragaFull

  /** `Math.max(0, value + delta)`. */
  function Bump(value: int, delta: int): (r: int)
    ensures r >= 0
    ensures r >= value + delta
    ensures value + delta >= 0 ==> r == value + delta
    ensures value + delta < 0 ==> r == 0
  {
    if value + delta > 0 then value + delta else 0
  }

  /** `Math.floor(sobragaEmpties / 12)`: the number of whole crates the empties make up. */
  function CrateEquivalent(empties: int): (n: int)
    ensures BottlesPerCrate * n <= empties < BottlesPerCrate * (n + 1)
  {
    empties / BottlesPerCrate
  }

  /** What the counters are worth in bottles: loose empties plus twelve per full crate. */
  function Bottles(empties: int, full: int): int
  {
    empties + BottlesPerCrate * full
  }

  /** The `crates` state. */
  class CrateStock {
    var sobragaEmpties: int
    var sobragaFull: int

    ghost predicate Valid()
      reads this
    {
      sobragaEmpties >= 0 && sobragaFull >= 0
    }

    constructor ()
      ensures Valid() && sobragaEmpties == 0 && sobragaFull == 0
    {
      sobragaEmpties, sobragaFull := 0, 0;
    }

    /** `updateCrates(field, delta)`: only the named counter moves, and never below zero. */
    method UpdateCrates(field: CrateField, delta: int)
      requires Valid()
      modifies this
      ensures Valid()
      ensures field == SobragaEmpties ==>
                sobragaEmpties == Bump(old(sobragaEmpties), delta) && sobragaFull == old(sobragaFull)
      ensures field == SobragaFull ==>
                sobragaFull == Bump(old(sobragaFull), delta) && sobragaEmpties == old(sobragaEmpties)
    {
      match field
      case SobragaEmpties => sobragaEmpties := Bump(sobragaEmpties, delta);
      case SobragaFull => sobragaFull := Bump(sobragaFull, delta);
    }

    /** `handleExchange`: twelve empties for one full crate, refused with fewer than twelve. */
    method HandleExchange() returns (exchanged: bool)
      requires Valid()
      modifies this
      ensures Valid()
      ensures exchanged <==> old(sobragaEmpties) >= BottlesPerCrate
      ensures exchanged ==> sobragaEmpties == old(sobragaEmpties) - BottlesPerCrate
                            && sobragaFull == old(sobragaFull) + 1
      ensures !exchanged ==> sobragaEmpties == old(sobragaEmpties) && sobragaFull == old(sobragaFull)
      ensures Bottles(sobragaEmpties, sobragaFull) == Bottles(old(sobragaEmpties), old(sobragaFull))
      ensures CrateEquivalent(sobragaEmpties) + sobragaFull
              == CrateEquivalent(old(sobragaEmpties)) + old(sobragaFull)
    {
      exchanged := sobragaEmpties >= BottlesPerCrate;
      if exchanged {
        ExchangeKeepsCrates(sobragaEmpties);
        sobragaEmpties, sobragaFull := sobragaEmpties - BottlesPerCrate, sobragaFull + 1;
      }
    }
  }

  /** Taking twelve empties off lowers the crate equivalent by exactly one. */
  lemma ExchangeKeepsCrates(e: int)
    ensures CrateEquivalent(e - BottlesPerCrate) == CrateEquivalent(e) - 1
  {
    var n, m := CrateEquivalent(e), CrateEquivalent(e - BottlesPerCrate);
    assert BottlesPerCrate * (m + 1) <= e < BottlesPerCrate * (m + 2);
    assert BottlesPerCrate * n <= e < BottlesPerCrate * (n + 1);
  }
}
