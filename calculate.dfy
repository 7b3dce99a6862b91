/** The irrigation water-budget calculation `calc_irrigation`
    (src/calculate.py). The pure functions below define each column of the
    returned table; the method `CalcIrrigation` computes the same table the
    way the Python code does, by rewriting the columns of a copied frame step by
    step, and is proved to return exactly the table the functions define. */
module Calculate {
  import opened Series

  /** The status flag of a month: the strings 'drought' and 'safe' of `calc_irrigation`. */
  datatype Alert = Drought | Safe

  /** The reference-evapotranspiration table handed to the calculator:
      one row per month, with the columns `month` and `ET0`. */
  datatype Climate = Climate(month: seq<int>, et0: seq<real>)

  /** The returned table: the input rows, in the input order, with `ET0`
      rewritten and the columns `ETa`, `irrigation`, `SW1` and `alert` added. */
  datatype Frame = Frame(
    month: seq<int>,
    et0: seq<real>,
    eta: seq<real>,
    irrigation: seq<real>,
    sw1: seq<real>,
    alert: seq<Alert>)

  /** The scalar arguments of `calc_irrigation`; the pair `irrigation_months`
      is split into `mStart` and `mEnd`. */
  datatype Params = Params(
    pNDVI: real,
    rain: real,
    mWinter: real,
    mStart: int,
    mEnd: int,
    irrigationFactor: real,
    conversionFactor: real)

  /** What the calculation needs of its table: the two columns line up, and
      there is a month-7 row, whose first occurrence the redistribution reads. */
  predicate WellFormed(c: Climate)
  {
    |c.month| == |c.et0| && 7 in c.month
  }

  /** The table the data provider always produces: months 1..12 in ascending order. */
  predicate IsCalendar(month: seq<int>)
  {
    |month| == 12 && forall i :: 0 <= i < 12 ==> month[i] == i + 1
  }

  /** Rain stored in the soil, 80% of the season's rain in display units,
      plus the winter irrigation. */
  function EffectiveRain(p: Params): real
  {
    p.rain * p.conversionFactor * 0.8 + p.mWinter
  }

  /** Membership of `range(m_start, m_end + 1)`. */
  predicate InIrrigationMonths(m: int, p: Params)
  {
    p.mStart <= m <= p.mEnd
  }

  /** A month has crop demand when it is in the growing season 3..10
      (`range(3, 11)`) or among the irrigation months. */
  predicate IsActive(m: int, p: Params)
  {
    3 <= m <= 10 || InIrrigationMonths(m, p)
  }

  /** `len(range(m_start, m_end + 1))`. */
  function IrrigationMonthCount(p: Params): nat
  {
    if p.mStart <= p.mEnd then p.mEnd - p.mStart + 1 else 0
  }

  /** `ET0` with the rows of inactive months set to zero. */
  function MaskInactive(month: seq<int>, et0: seq<real>, p: Params): (r: seq<real>)
    requires |month| == |et0|
    ensures |r| == |et0|
  {
    seq(|et0|, i requires 0 <= i < |et0| => if IsActive(month[i], p) then et0[i] else 0.0)
  }

  /** The rewritten `ET0` column: masked, then converted to the display unit. */
  function AdjustedEt0(c: Climate, p: Params): (r: seq<real>)
    requires |c.month| == |c.et0|
    ensures |r| == |c.et0|
  {
    Scale(MaskInactive(c.month, c.et0, p), p.conversionFactor)
  }

  /** The `ETa` column: `ET0 * pNDVI / 0.7` row by row. */
  function ActualEt(et0: seq<real>, pNDVI: real): (r: seq<real>)
    ensures |r| == |et0|
  {
    seq(|et0|, i requires 0 <= i < |et0| => et0[i] * pNDVI / 0.7)
  }

  /** `ETa` of the months outside the irrigation months, and zero elsewhere. */
  function OffRangeColumn(month: seq<int>, eta: seq<real>, p: Params): (r: seq<real>)
    requires |month| == |eta|
    ensures |r| == |eta|
  {
    seq(|eta|, i requires 0 <= i < |eta| => if InIrrigationMonths(month[i], p) then 0.0 else eta[i])
  }

  /** The soil water index: the effective rain left after the months outside
      the irrigation months and a reserve of 50 (millimetres, in display
      units), shared evenly among the irrigation months. */
  function Swi(month: seq<int>, eta: seq<real>, p: Params): real
    requires |month| == |eta|
    requires IrrigationMonthCount(p) > 0
  {
    (EffectiveRain(p) - Sum(OffRangeColumn(month, eta, p)) - 50.0 * p.conversionFactor)
      / IrrigationMonthCount(p) as real
  }

  /** Clipping from below at zero (`.clip(lower=0)`). */
  function Clip(x: real): real
  {
    if x < 0.0 then 0.0 else x
  }

  /** The `irrigation` column before the factor and the redistribution:
      `ETa - swi` clipped at zero in the irrigation months, zero elsewhere.
      With no irrigation month no row is selected and `swi` is never used. */
  function IrrigationNeed(month: seq<int>, eta: seq<real>, p: Params): (r: seq<real>)
    requires |month| == |eta|
    ensures |r| == |eta|
  {
    seq(|eta|, i requires 0 <= i < |eta| =>
      if InIrrigationMonths(month[i], p) then Clip(eta[i] - Swi(month, eta, p)) else 0.0)
  }

  /** The position of the first row holding month `m` (`.iloc[0]` of a selection). */
  function FirstIndex(month: seq<int>, m: int): (k: nat)
    requires m in month
    ensures k < |month| && month[k] == m
    ensures forall j :: 0 <= j < k ==> month[j] != m
  {
    if month[0] == m then 0 else 1 + FirstIndex(month[1..], m)
  }

  /** The peak-summer redistribution: a fifth of July's irrigation is taken
      from every month-7 row and given, 40% and 60%, to the month-8 and
      month-9 rows. */
  function Redistribute(month: seq<int>, irr: seq<real>): (r: seq<real>)
    requires |month| == |irr| && 7 in month
    ensures |r| == |irr|
  {
    var vst := irr[FirstIndex(month, 7)] * 0.2;
    seq(|irr|, i requires 0 <= i < |irr| =>
      if month[i] == 7 then irr[i] - vst
      else if month[i] == 8 then irr[i] + vst * 0.4
      else if month[i] == 9 then irr[i] + vst * 0.6
      else irr[i])
  }

  /** The `ETa` column of the returned table. */
  function TableEta(c: Climate, p: Params): (r: seq<real>)
    requires |c.month| == |c.et0|
    ensures |r| == |c.et0|
  {
    ActualEt(AdjustedEt0(c, p), p.pNDVI)
  }

  /** The `irrigation` column after the factor, before the redistribution. */
  function FactoredIrrigation(month: seq<int>, eta: seq<real>, p: Params): (r: seq<real>)
    requires |month| == |eta|
    ensures |r| == |eta|
  {
    Scale(IrrigationNeed(month, eta, p), p.irrigationFactor)
  }

  /** The final `irrigation` column. */
  function Irrigation(month: seq<int>, eta: seq<real>, p: Params): (r: seq<real>)
    requires |month| == |eta| && 7 in month
    ensures |r| == |eta|
  {
    Redistribute(month, FactoredIrrigation(month, eta, p))
  }

  /** The `SW1` column: effective rain minus the running total of `ETa` plus
      the running total of irrigation, clipped at zero. */
  function SoilWater(rainEff: real, eta: seq<real>, irr: seq<real>): (r: seq<real>)
    requires |eta| == |irr|
    ensures |r| == |eta|
  {
    seq(|eta|, i requires 0 <= i < |eta| => Clip(rainEff - Sum(eta[..i + 1]) + Sum(irr[..i + 1])))
  }

  /** The `alert` column: drought exactly where `SW1` is zero. */
  function Alerts(sw1: seq<real>): (r: seq<Alert>)
    ensures |r| == |sw1|
  {
    seq(|sw1|, i requires 0 <= i < |sw1| => if sw1[i] == 0.0 then Drought else Safe)
  }

  /** The table `calc_irrigation` returns. It keeps the rows of its input,
      in their order and with their months, and every column has one entry per row. */
  function IrrigationTable(c: Climate, p: Params): (r: Frame)
    requires WellFormed(c)
    ensures r.month == c.month
    ensures |r.et0| == |r.eta| == |r.irrigation| == |r.sw1| == |r.alert| == |c.et0|
  {
    var et0 := AdjustedEt0(c, p);
    var eta := TableEta(c, p);
    var irrigation := Irrigation(c.month, eta, p);
    var sw1 := SoilWater(EffectiveRain(p), eta, irrigation);
    Frame(c.month, et0, eta, irrigation, sw1, Alerts(sw1))
  }

  /** Lines 13-14: the `ET0` of every inactive month is set to zero. */
  method ZeroInactive(month: seq<int>, et0: array<real>, p: Params)
    requires |month| == et0.Length
    modifies et0
    ensures et0[..] == MaskInactive(month, old(et0[..]), p)
  {
    for i := 0 to et0.Length
      invariant forall k :: 0 <= k < i ==> et0[k] == if IsActive(month[k], p) then old(et0[k]) else 0.0
      invariant forall k :: i <= k < et0.Length ==> et0[k] == old(et0[k])
    {
      if !IsActive(month[i], p) {
        et0[i] := 0.0;
      }
    }
  }

  /** Lines 15 and 26: a whole column multiplied by a scalar in place. */
  method ScaleInPlace(col: array<real>, c: real)
    modifies col
    ensures col[..] == Scale(old(col[..]), c)
  {
    for i := 0 to col.Length
      invariant forall k :: 0 <= k < i ==> col[k] == Scale(old(col[..]), c)[k]
      invariant forall k :: i <= k < col.Length ==> col[k] == old(col[k])
    {
      col[i] := col[i] * c;
    }
  }

  /** Line 16: the new `ETa` column. */
  method ActualEtColumn(et0: array<real>, pNDVI: real) returns (eta: array<real>)
    ensures fresh(eta)
    ensures eta[..] == ActualEt(et0[..], pNDVI)
  {
    eta := new real[et0.Length];
    for i := 0 to et0.Length
      invariant forall k :: 0 <= k < i ==> eta[k] == ActualEt(et0[..], pNDVI)[k]
    {
      eta[i] := et0[i] * pNDVI / 0.7;
    }
  }

  /** Lines 19-25: the soil water index and the clipped need of every
      irrigation month, in a new `irrigation` column of zeros. */
  method IrrigationColumn(month: seq<int>, eta: array<real>, p: Params) returns (irrigation: array<real>)
    requires |month| == eta.Length
    ensures fresh(irrigation)
    ensures irrigation[..] == IrrigationNeed(month, eta[..], p)
  {
    irrigation := new real[eta.Length](_ => 0.0);
    if IrrigationMonthCount(p) > 0 {
      var swi := Swi(month, eta[..], p);
      for i := 0 to eta.Length
        invariant forall k :: 0 <= k < i ==> irrigation[k] == IrrigationNeed(month, eta[..], p)[k]
        invariant forall k :: i <= k < eta.Length ==> irrigation[k] == 0.0
      {
        if InIrrigationMonths(month[i], p) {
          irrigation[i] := Clip(eta[i] - swi);
        }
      }
    }
  }

  /** Lines 29-32: the peak-summer redistribution, in place. */
  method RedistributePeak(month: seq<int>, irrigation: array<real>)
    requires |month| == irrigation.Length && 7 in month
    modifies irrigation
    ensures irrigation[..] == Redistribute(month, old(irrigation[..]))
  {
    var vst := irrigation[FirstIndex(month, 7)] * 0.2;
    ghost var before := irrigation[..];
    for i := 0 to irrigation.Length
      invariant forall k :: 0 <= k < i ==> irrigation[k] == Redistribute(month, before)[k]
      invariant forall k :: i <= k < irrigation.Length ==> irrigation[k] == before[k]
    {
      if month[i] == 7 {
        irrigation[i] := irrigation[i] - vst;
      } else if month[i] == 8 {
        irrigation[i] := irrigation[i] + vst * 0.4;
      } else if month[i] == 9 {
        irrigation[i] := irrigation[i] + vst * 0.6;
      }
    }
  }

  /** Line 35: the soil-water balance, accumulated month by month. */
  method RunningBalance(rainEff: real, eta: array<real>, irrigation: array<real>) returns (sw1: array<real>)
    requires eta.Length == irrigation.Length
    ensures fresh(sw1)
    ensures sw1[..] == SoilWater(rainEff, eta[..], irrigation[..])
  {
    sw1 := new real[eta.Length];
    var cumEta, cumIrrigation := 0.0, 0.0;
    for i := 0 to eta.Length
      invariant cumEta == Sum(eta[..i]) && cumIrrigation == Sum(irrigation[..i])
      invariant forall k :: 0 <= k < i ==> sw1[k] == SoilWater(rainEff, eta[..], irrigation[..])[k]
    {
      SumPrefix(eta[..], i);
      SumPrefix(irrigation[..], i);
      assert eta[..][..i + 1] == eta[..i + 1] && eta[..][..i] == eta[..i];
      assert irrigation[..][..i + 1] == irrigation[..i + 1] && irrigation[..][..i] == irrigation[..i];
      cumEta := cumEta + eta[i];
      cumIrrigation := cumIrrigation + irrigation[i];
      sw1[i] := Clip(rainEff - cumEta + cumIrrigation);
    }
  }

  /** Line 36: the `alert` column. */
  method AlertColumn(sw1: array<real>) returns (alert: array<Alert>)
    ensures fresh(alert)
    ensures alert[..] == Alerts(sw1[..])
  {
    alert := new Alert[sw1.Length](_ => Safe);
    for i := 0 to sw1.Length
      invariant forall k :: 0 <= k < i ==> alert[k] == if sw1[k] == 0.0 then Drought else Safe
    {
      alert[i] := if sw1[i] == 0.0 then Drought else Safe;
    }
  }

  /** `calc_irrigation`: copies the table's columns into arrays, rewrites
      them in the order the Python code uses, and returns the resulting table. */
  method CalcIrrigation(
    pNDVI: real,
    rain: real,
    et0: Climate,
    mWinter: real,
    irrigationMonths: (int, int),
    irrigationFactor: real,
    conversionFactor: real)
    returns (df: Frame)
    requires WellFormed(et0)
    ensures df == IrrigationTable(et0, Params(pNDVI, rain, mWinter, irrigationMonths.0,
                                              irrigationMonths.1, irrigationFactor, conversionFactor))
  {
    var p := Params(pNDVI, rain, mWinter, irrigationMonths.0, irrigationMonths.1,
                    irrigationFactor, conversionFactor);
    var n := |et0.et0|;
    var month := et0.month;
    var et0Column := new real[n](i requires 0 <= i < n => et0.et0[i]);
    assert et0Column[..] == et0.et0;
    var rainEff := EffectiveRain(p);
    ZeroInactive(month, et0Column, p);
    ScaleInPlace(et0Column, conversionFactor);
    assert et0Column[..] == AdjustedEt0(et0, p);
    var eta := ActualEtColumn(et0Column, pNDVI);
    assert eta[..] == TableEta(et0, p);
    var irrigation := IrrigationColumn(month, eta, p);
    ScaleInPlace(irrigation, irrigationFactor);
    assert irrigation[..] == FactoredIrrigation(month, eta[..], p);
    RedistributePeak(month, irrigation);
    assert irrigation[..] == Irrigation(month, eta[..], p);
    var sw1 := RunningBalance(rainEff, eta, irrigation);
    var alert := AlertColumn(sw1);
    df := Frame(month, et0Column[..], eta[..], irrigation[..], sw1[..], alert[..]);
  }
}
