/** Dated rate histories and the fixed rates of the platform, in basis points. */
module Rates {
  import opened Outcomes

  /** `effectiveFrom` is the instant, in milliseconds, of midnight IST on the effective date. */
  datatype DatedRate = DatedRate(rateBp: nat, effectiveFrom: int)

  const PLATFORM_COMMISSION_BP: nat := 1_500
  const GST_BP: nat := 1_800
  const SURGE_MULTIPLIER_MIN_BP: int := 10_000
  const SURGE_MULTIPLIER_MAX_BP: int := 30_000
  const VALET_BASE_FEE_PAISE: int := 5_000
  const VALET_PER_KM_PAISE: int := 1_000

  predicate InForce(row: DatedRate, at: int)
  {
    row.effectiveFrom <= at
  }

  function Applicable(history: seq<DatedRate>, at: int): seq<DatedRate>
  {
    if history == [] then []
    else
      var last := history[|history| - 1];
      Applicable(history[..|history| - 1], at) + (if InForce(last, at) then [last] else [])
  }

  function RateAt(history: seq<DatedRate>, at: int): Outcome<nat>
  {
    var applicable := Applicable(history, at);
    if applicable == [] then Thrown(NoRateInForce) else Ok(applicable[|applicable| - 1].rateBp)
  }

  ghost predicate DateSorted(history: seq<DatedRate>)
  {
    forall i, j :: 0 <= i < j < |history| ==> history[i].effectiveFrom <= history[j].effectiveFrom
  }

  /** Row `k` is in force and no row in force took effect after it. */
  ghost predicate IsLatest(history: seq<DatedRate>, at: int, k: nat)
  {
    && k < |history| && InForce(history[k], at)
    && (forall j :: 0 <= j < |history| && history[j].effectiveFrom > history[k].effectiveFrom ==>
          !InForce(history[j], at))
  }

  /** The answer is the last row listed among those in force (`k == -1` when there is none). */
  lemma {:induction false} RateAtIsLastListed(history: seq<DatedRate>, at: int) returns (k: int)
    ensures -1 <= k < |history|
    ensures forall j :: k < j < |history| ==> history[j].effectiveFrom > at
    ensures if k == -1 then RateAt(history, at) == Thrown(NoRateInForce)
            else InForce(history[k], at) && RateAt(history, at) == Ok(history[k].rateBp)
  {
    if history == [] {
      k := -1;
    } else if InForce(history[|history| - 1], at) {
      k := |history| - 1;
    } else {
      var n := |history| - 1;
      k := RateAtIsLastListed(history[..n], at);
      forall j | k < j < |history|
        ensures history[j].effectiveFrom > at
      {
        assert j < n ==> history[..n][j].effectiveFrom > at;
      }
    }
  }

  /** On a date-sorted history the answer is the latest rate in force; it throws when there is none. */
  lemma RateAtIsLatest(history: seq<DatedRate>, at: int)
    requires DateSorted(history)
    ensures RateAt(history, at).Thrown? <==> forall j :: 0 <= j < |history| ==> !InForce(history[j], at)
    ensures RateAt(history, at).Ok? ==>
      exists k: nat :: IsLatest(history, at, k) && history[k].rateBp == RateAt(history, at).value
  {
    var k := RateAtIsLastListed(history, at);
    if k >= 0 {
      assert IsLatest(history, at, k);
    }
  }

  /** Adding a row changes no answer before its own date, and is the answer from then on. */
  lemma AppendedRateIsPrompt(history: seq<DatedRate>, row: DatedRate, at: int)
    ensures RateAt(history + [row], at) == if at < row.effectiveFrom then RateAt(history, at) else Ok(row.rateBp)
  {
    assert (history + [row])[..|history|] == history;
  }
}
