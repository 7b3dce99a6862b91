/** What `calc_irrigation` promises about the table it returns, stated and
    proved about the functions of module Calculate (which the method
    `Calculate.CalcIrrigation` is proved to compute). */
module CalculateProperties {
  import opened Series
  import opened Calculate

  /** The same parameters with another irrigation factor. */
  function WithFactor(p: Params, f: real): Params
  {
    p.(irrigationFactor := f)
  }

  /** The same parameters at irrigation factor 1, the app's first run. */
  function UnitFactor(p: Params): Params
  {
    WithFactor(p, 1.0)
  }

  // Row by row, what each column function of module Calculate gives.

  /** For non-negative rain and unit scale the effective rain is at least the
      winter irrigation and at most all the rain in display units plus it. */
  lemma EffectiveRainBounds(p: Params)
    requires p.rain >= 0.0 && p.conversionFactor >= 0.0
    ensures p.mWinter <= EffectiveRain(p) <= p.rain * p.conversionFactor + p.mWinter
  {
    assert p.rain * p.conversionFactor >= 0.0;
  }

  /** An irrigation month is always active, and an irrigation range inside
      the growing season adds no active month. */
  lemma ActiveMonths(m: int, p: Params)
    ensures InIrrigationMonths(m, p) ==> IsActive(m, p)
    ensures 3 <= p.mStart && p.mEnd <= 10 ==> (IsActive(m, p) <==> 3 <= m <= 10)
  {
  }

  /** The month count is zero exactly when the range is empty, every
      irrigation month lies among that many consecutive months from `m_start`
      on, and a range within 1..12 has at most 12 months. */
  lemma IrrigationMonthCountRange(p: Params)
    ensures IrrigationMonthCount(p) == 0 <==> p.mEnd < p.mStart
    ensures forall m :: InIrrigationMonths(m, p) ==> p.mStart <= m < p.mStart + IrrigationMonthCount(p)
    ensures 1 <= p.mStart && p.mEnd <= 12 ==> IrrigationMonthCount(p) <= 12
  {
  }

  /** The mask keeps an active month's `ET0`, zeroes an inactive month's, and
      so keeps a non-negative table non-negative. */
  lemma MaskInactiveRows(month: seq<int>, et0: seq<real>, p: Params)
    requires |month| == |et0|
    ensures forall i :: 0 <= i < |et0| && IsActive(month[i], p) ==> MaskInactive(month, et0, p)[i] == et0[i]
    ensures forall i :: 0 <= i < |et0| && !IsActive(month[i], p) ==> MaskInactive(month, et0, p)[i] == 0.0
    ensures (forall i :: 0 <= i < |et0| ==> et0[i] >= 0.0) ==>
      forall i :: 0 <= i < |et0| ==> MaskInactive(month, et0, p)[i] >= 0.0
  {
  }

  /** The adjusted `ET0` is zero in an inactive month whatever the unit, and a
      non-negative table stays non-negative under a non-negative unit scale. */
  lemma AdjustedEt0Rows(c: Climate, p: Params)
    requires |c.month| == |c.et0|
    ensures forall i :: 0 <= i < |c.et0| && !IsActive(c.month[i], p) ==> AdjustedEt0(c, p)[i] == 0.0
    ensures p.conversionFactor >= 0.0 && (forall i :: 0 <= i < |c.et0| ==> c.et0[i] >= 0.0) ==>
      forall i :: 0 <= i < |c.et0| ==> AdjustedEt0(c, p)[i] >= 0.0
  {
    MaskInactiveRows(c.month, c.et0, p);
    ScaleRows(MaskInactive(c.month, c.et0, p), p.conversionFactor);
  }

  /** `0.7 * ETa` is `pNDVI * ET0` in every row, and non-negative inputs give
      a non-negative `ETa`. */
  lemma ActualEtRows(et0: seq<real>, pNDVI: real)
    ensures forall i :: 0 <= i < |et0| ==> 0.7 * ActualEt(et0, pNDVI)[i] == pNDVI * et0[i]
    ensures pNDVI >= 0.0 && (forall i :: 0 <= i < |et0| ==> et0[i] >= 0.0) ==>
      forall i :: 0 <= i < |et0| ==> ActualEt(et0, pNDVI)[i] >= 0.0
  {
    forall i | 0 <= i < |et0|
      ensures 0.7 * ActualEt(et0, pNDVI)[i] == pNDVI * et0[i]
    {
      assert ActualEt(et0, pNDVI)[i] == et0[i] * pNDVI / 0.7;
    }
    if pNDVI >= 0.0 && (forall i :: 0 <= i < |et0| ==> et0[i] >= 0.0) {
      forall i | 0 <= i < |et0|
        ensures ActualEt(et0, pNDVI)[i] >= 0.0
      {
        assert et0[i] * pNDVI >= 0.0;
      }
    }
  }

  /** The need is never negative and is zero outside the irrigation months;
      inside them it is `ETa - swi` when that is positive and zero otherwise. */
  lemma IrrigationNeedRows(month: seq<int>, eta: seq<real>, p: Params)
    requires |month| == |eta|
    ensures forall i :: 0 <= i < |eta| ==> IrrigationNeed(month, eta, p)[i] >= 0.0
    ensures forall i :: 0 <= i < |eta| && !InIrrigationMonths(month[i], p) ==>
      IrrigationNeed(month, eta, p)[i] == 0.0
    ensures forall i :: 0 <= i < |eta| && InIrrigationMonths(month[i], p) ==>
      IrrigationNeed(month, eta, p)[i] >= eta[i] - Swi(month, eta, p) &&
      (IrrigationNeed(month, eta, p)[i] == 0.0 || IrrigationNeed(month, eta, p)[i] == eta[i] - Swi(month, eta, p))
  {
  }

  /** The factored column sums to the factor times the total need, and a
      non-negative factor leaves no row negative. */
  lemma FactoredIrrigationRows(month: seq<int>, eta: seq<real>, p: Params)
    requires |month| == |eta|
    ensures Sum(FactoredIrrigation(month, eta, p)) == p.irrigationFactor * Sum(IrrigationNeed(month, eta, p))
    ensures p.irrigationFactor >= 0.0 ==>
      forall i :: 0 <= i < |eta| ==> FactoredIrrigation(month, eta, p)[i] >= 0.0
  {
    var need := IrrigationNeed(month, eta, p);
    assert FactoredIrrigation(month, eta, p) == Scale(need, p.irrigationFactor);
    SumScale(need, p.irrigationFactor);
    if p.irrigationFactor >= 0.0 {
      IrrigationNeedRows(month, eta, p);
      ScaleRows(need, p.irrigationFactor);
    }
  }

  /** The redistribution touches only months 7, 8 and 9, leaves the first July
      row with 80% of its value, and changes nothing when that value is 0. */
  lemma RedistributeRows(month: seq<int>, irr: seq<real>)
    requires |month| == |irr| && 7 in month
    ensures forall i :: 0 <= i < |irr| && month[i] != 7 && month[i] != 8 && month[i] != 9 ==>
      Redistribute(month, irr)[i] == irr[i]
    ensures Redistribute(month, irr)[FirstIndex(month, 7)] == 0.8 * irr[FirstIndex(month, 7)]
    ensures irr[FirstIndex(month, 7)] == 0.0 ==> Redistribute(month, irr) == irr
  {
    var r := Redistribute(month, irr);
    if irr[FirstIndex(month, 7)] == 0.0 {
      assert forall i :: 0 <= i < |irr| ==> r[i] == irr[i];
    }
  }

  /** The soil water is never negative: it is the unclipped balance when that
      is positive, and zero otherwise. */
  lemma SoilWaterRows(rainEff: real, eta: seq<real>, irr: seq<real>)
    requires |eta| == |irr|
    ensures forall i :: 0 <= i < |eta| ==> SoilWater(rainEff, eta, irr)[i] >= 0.0
    ensures forall i :: 0 <= i < |eta| ==>
      SoilWater(rainEff, eta, irr)[i] >= rainEff - Sum(eta[..i + 1]) + Sum(irr[..i + 1])
    ensures forall i :: 0 <= i < |eta| && SoilWater(rainEff, eta, irr)[i] > 0.0 ==>
      SoilWater(rainEff, eta, irr)[i] == rainEff - Sum(eta[..i + 1]) + Sum(irr[..i + 1])
  {
  }

  /** A month is in drought exactly when its soil water is zero. */
  lemma AlertsRows(sw1: seq<real>)
    ensures forall i :: 0 <= i < |sw1| ==> (Alerts(sw1)[i] == Drought <==> sw1[i] == 0.0)
  {
  }

  /** Seasonal masking, both ways: an inactive month's `ET0` becomes zero and
      an active month's becomes its input value in display units. */
  lemma SeasonalMasking(c: Climate, p: Params, i: int)
    requires WellFormed(c) && 0 <= i < |c.et0|
    ensures IsActive(c.month[i], p) ==> IrrigationTable(c, p).et0[i] == c.et0[i] * p.conversionFactor
    ensures !IsActive(c.month[i], p) ==> IrrigationTable(c, p).et0[i] == 0.0
  {
    var masked := MaskInactive(c.month, c.et0, p);
    assert IrrigationTable(c, p).et0 == Scale(masked, p.conversionFactor);
    assert IrrigationTable(c, p).et0[i] == masked[i] * p.conversionFactor;
  }

  /** With irrigation months 4..9 on the calendar table, January, February,
      November and December have no `ET0`, and March to October keep theirs. */
  lemma OffSeasonMonths(c: Climate, p: Params)
    requires WellFormed(c) && IsCalendar(c.month)
    requires p.mStart == 4 && p.mEnd == 9
    ensures var r := IrrigationTable(c, p);
      r.et0[0] == 0.0 && r.et0[1] == 0.0 && r.et0[10] == 0.0 && r.et0[11] == 0.0 &&
      forall i :: 2 <= i < 10 ==> r.et0[i] == c.et0[i] * p.conversionFactor
  {
  }

  /** Actual ET is adjusted ET scaled by the vegetation factor over 0.7, in
      every row; it is never negative when ET0, the vegetation factor and the
      unit scale are not. */
  lemma ActualEtFormula(c: Climate, p: Params, i: int)
    requires WellFormed(c) && 0 <= i < |c.et0|
    ensures var r := IrrigationTable(c, p);
      r.eta[i] == r.et0[i] * p.pNDVI / 0.7
    ensures var r := IrrigationTable(c, p);
      c.et0[i] >= 0.0 && p.pNDVI >= 0.0 && p.conversionFactor >= 0.0 ==>
        r.et0[i] >= 0.0 && r.eta[i] >= 0.0
  {
    var r := IrrigationTable(c, p);
    var adjusted := AdjustedEt0(c, p);
    TableColumns(c, p);
    assert r.et0 == adjusted;
    assert r.eta == ActualEt(adjusted, p.pNDVI);
    assert r.eta[i] == adjusted[i] * p.pNDVI / 0.7;
    if c.et0[i] >= 0.0 && p.pNDVI >= 0.0 && p.conversionFactor >= 0.0 {
      assert r.et0[i] >= 0.0 by {
        if IsActive(c.month[i], p) {
          assert r.et0[i] == c.et0[i] * p.conversionFactor;
        }
      }
      assert r.et0[i] * p.pNDVI >= 0.0;
    }
  }

  /** The `ETa` and `irrigation` columns of the table, by their definitions. */
  lemma TableColumns(c: Climate, p: Params)
    requires WellFormed(c)
    ensures IrrigationTable(c, p).eta == TableEta(c, p)
    ensures IrrigationTable(c, p).irrigation == Irrigation(c.month, TableEta(c, p), p)
  {
  }

  /** The soil water index shares the water left evenly: one index per
      irrigation month adds back up to the effective rain (80% of the rain in
      display units plus the winter irrigation) less the `ETa` of the other
      months and the reserve of 50. */
  lemma SwiShare(month: seq<int>, eta: seq<real>, p: Params)
    requires |month| == |eta| && p.mStart <= p.mEnd
    ensures Swi(month, eta, p) * (p.mEnd - p.mStart + 1) as real ==
            p.rain * p.conversionFactor * 0.8 + p.mWinter - Sum(OffRangeColumn(month, eta, p))
            - 50.0 * p.conversionFactor
  {
    var k := IrrigationMonthCount(p) as real;
    assert k == (p.mEnd - p.mStart + 1) as real;
    var left := EffectiveRain(p) - Sum(OffRangeColumn(month, eta, p)) - 50.0 * p.conversionFactor;
    assert Swi(month, eta, p) == left / k;
    assert left / k * k == left;
  }

  /** The irrigation before the redistribution: in an irrigation month it is
      the factor times `ETa - swi` clipped at zero; in any other month it is zero. */
  lemma IrrigationBeforeRedistribution(c: Climate, p: Params, i: int)
    requires WellFormed(c) && 0 <= i < |c.et0|
    ensures var eta := TableEta(c, p);
      var pre := FactoredIrrigation(c.month, eta, p);
      (InIrrigationMonths(c.month[i], p) ==>
        IrrigationMonthCount(p) > 0 &&
        pre[i] == p.irrigationFactor * Clip(eta[i] - Swi(c.month, eta, p))) &&
      (!InIrrigationMonths(c.month[i], p) ==> pre[i] == 0.0)
  {
    var eta := TableEta(c, p);
    var need := IrrigationNeed(c.month, eta, p);
    assert FactoredIrrigation(c.month, eta, p)[i] == need[i] * p.irrigationFactor;
  }

  /** When every month is an irrigation month nothing is off the range, and
      the soil water index is the effective rain less the reserve over twelve. */
  lemma FullYearSwi(c: Climate, p: Params)
    requires WellFormed(c) && IsCalendar(c.month)
    requires p.mStart == 1 && p.mEnd == 12
    ensures var eta := IrrigationTable(c, p).eta;
      Sum(OffRangeColumn(c.month, eta, p)) == 0.0 &&
      Swi(c.month, eta, p) == (EffectiveRain(p) - 50.0 * p.conversionFactor) / 12.0
  {
    var eta := IrrigationTable(c, p).eta;
    SumZeros(OffRangeColumn(c.month, eta, p));
  }

  /** On the calendar table the month-7 row is the seventh. */
  lemma JulyIndex(month: seq<int>)
    requires IsCalendar(month)
    ensures 7 in month && FirstIndex(month, 7) == 6
  {
    assert month[6] == 7;
  }

  /** The redistribution on the calendar table: July keeps 80% of its
      irrigation, August gains 40% and September 60% of the fifth taken
      away, every other month is unchanged, and no water is created or lost,
      over July to September nor over the year. */
  lemma {:induction false} RedistributionCalendar(month: seq<int>, irr: seq<real>)
    requires IsCalendar(month) && |irr| == 12
    ensures 7 in month
    ensures var r := Redistribute(month, irr);
      var vst := 0.2 * irr[6];
      r[6] == 0.8 * irr[6] && r[7] == irr[7] + 0.4 * vst && r[8] == irr[8] + 0.6 * vst &&
      (forall i :: 0 <= i < 12 && i != 6 && i != 7 && i != 8 ==> r[i] == irr[i]) &&
      r[6] + r[7] + r[8] == irr[6] + irr[7] + irr[8] &&
      Sum(r) == Sum(irr)
  {
    JulyIndex(month);
    var r := Redistribute(month, irr);
    var s1 := irr[6 := r[6]];
    var s2 := s1[7 := r[7]];
    var s3 := s2[8 := r[8]];
    assert r == s3;
    SumUpdate(irr, 6, r[6]);
    SumUpdate(s1, 7, r[7]);
    SumUpdate(s2, 8, r[8]);
  }

  /** The redistribution commutes with scaling the column. */
  lemma RedistributeScale(month: seq<int>, s: seq<real>, c: real)
    requires |month| == |s| && 7 in month
    ensures Redistribute(month, Scale(s, c)) == Scale(Redistribute(month, s), c)
  {
    var k := FirstIndex(month, 7);
    var vst := s[k] * 0.2;
    var vstScaled := Scale(s, c)[k] * 0.2;
    assert vstScaled == vst * c;
    forall i | 0 <= i < |s|
      ensures Redistribute(month, Scale(s, c))[i] == Scale(Redistribute(month, s), c)[i]
    {
      if month[i] == 7 {
        assert (s[i] - vst) * c == s[i] * c - vst * c;
      } else if month[i] == 8 {
        assert (s[i] + vst * 0.4) * c == s[i] * c + vst * c * 0.4;
      } else if month[i] == 9 {
        assert (s[i] + vst * 0.6) * c == s[i] * c + vst * c * 0.6;
      }
    }
  }

  /** The irrigation factor changes neither `ETa` nor the clipped need. */
  lemma FactorOnlyScalesNeed(c: Climate, p: Params, f: real)
    requires WellFormed(c)
    ensures TableEta(c, WithFactor(p, f)) == TableEta(c, p)
    ensures var eta := TableEta(c, p);
      IrrigationNeed(c.month, eta, WithFactor(p, f)) == IrrigationNeed(c.month, eta, p)
  {
    var q := WithFactor(p, f);
    assert MaskInactive(c.month, c.et0, q) == MaskInactive(c.month, c.et0, p);
    var eta := TableEta(c, p);
    assert OffRangeColumn(c.month, eta, q) == OffRangeColumn(c.month, eta, p);
    assert EffectiveRain(q) == EffectiveRain(p);
    assert IrrigationMonthCount(q) == IrrigationMonthCount(p);
    if IrrigationMonthCount(p) > 0 {
      SwiCongruent(c.month, eta, q, p);
    }
    forall i | 0 <= i < |eta|
      ensures IrrigationNeed(c.month, eta, q)[i] == IrrigationNeed(c.month, eta, p)[i]
    {
    }
  }

  /** The soil water index depends on the parameters only through the
      effective rain, the off-range `ETa`, the unit scale and the month count. */
  lemma SwiCongruent(month: seq<int>, eta: seq<real>, p: Params, q: Params)
    requires |month| == |eta| && IrrigationMonthCount(p) > 0
    requires EffectiveRain(p) == EffectiveRain(q)
    requires OffRangeColumn(month, eta, p) == OffRangeColumn(month, eta, q)
    requires p.conversionFactor == q.conversionFactor
    requires IrrigationMonthCount(p) == IrrigationMonthCount(q)
    ensures Swi(month, eta, p) == Swi(month, eta, q)
  {
  }

  /** The final irrigation is linear in the irrigation factor: every month is
      the factor times its irrigation at factor 1. */
  lemma IrrigationLinear(c: Climate, p: Params)
    requires WellFormed(c)
    ensures IrrigationTable(c, p).irrigation ==
            Scale(IrrigationTable(c, UnitFactor(p)).irrigation, p.irrigationFactor)
  {
    var p1 := UnitFactor(p);
    TableColumns(c, p);
    TableColumns(c, p1);
    FactorOnlyScalesNeed(c, p, 1.0);
    var eta := TableEta(c, p);
    var need := IrrigationNeed(c.month, eta, p);
    assert FactoredIrrigation(c.month, eta, p1) == need by {
      assert IrrigationNeed(c.month, eta, p1) == need;
      assert forall i :: 0 <= i < |need| ==> Scale(need, 1.0)[i] == need[i];
    }
    var one := Irrigation(c.month, eta, p1);
    assert one == Redistribute(c.month, need);
    RedistributeScale(c.month, need, p.irrigationFactor);
  }

  /** The app's `total_irrigation`: the sum of the returned `irrigation` column. */
  function TotalIrrigation(c: Climate, p: Params): real
    requires WellFormed(c)
  {
    Sum(IrrigationTable(c, p).irrigation)
  }

  /** On the calendar table the total irrigation is the factor times the
      total clipped need, and so it is not negative under a non-negative factor. */
  lemma TotalIrrigationCalendar(c: Climate, p: Params)
    requires WellFormed(c) && IsCalendar(c.month)
    ensures TotalIrrigation(c, p) == p.irrigationFactor * Sum(IrrigationNeed(c.month, TableEta(c, p), p))
    ensures p.irrigationFactor >= 0.0 ==> TotalIrrigation(c, p) >= 0.0
  {
    var eta := TableEta(c, p);
    var need := IrrigationNeed(c.month, eta, p);
    TableColumns(c, p);
    AnnualTotalConserved(c, p);
    FactoredIrrigationRows(c.month, eta, p);
    if p.irrigationFactor >= 0.0 {
      IrrigationNeedRows(c.month, eta, p);
      SumNonNegative(need);
      assert p.irrigationFactor * Sum(need) >= 0.0;
    }
  }

  /** The annual total of irrigation is linear in the irrigation factor. */
  lemma TotalLinear(c: Climate, p: Params)
    requires WellFormed(c)
    ensures TotalIrrigation(c, p) == p.irrigationFactor * TotalIrrigation(c, UnitFactor(p))
  {
    var one := IrrigationTable(c, UnitFactor(p)).irrigation;
    IrrigationLinear(c, p);
    SumScale(one, p.irrigationFactor);
    calc {
      TotalIrrigation(c, p);
      Sum(IrrigationTable(c, p).irrigation);
      Sum(Scale(one, p.irrigationFactor));
      p.irrigationFactor * Sum(one);
      p.irrigationFactor * TotalIrrigation(c, UnitFactor(p));
    }
  }

  /** With a non-negative factor no month's final irrigation is negative. */
  lemma IrrigationNonNegative(c: Climate, p: Params)
    requires WellFormed(c) && IsCalendar(c.month)
    requires p.irrigationFactor >= 0.0
    ensures forall i :: 0 <= i < 12 ==> IrrigationTable(c, p).irrigation[i] >= 0.0
  {
    var eta := IrrigationTable(c, p).eta;
    var pre := FactoredIrrigation(c.month, eta, p);
    forall i | 0 <= i < 12
      ensures pre[i] >= 0.0
    {
      assert IrrigationNeed(c.month, eta, p)[i] >= 0.0;
    }
    RedistributionCalendar(c.month, pre);
  }

  /** On the calendar table the redistribution leaves the annual total of
      irrigation as the factor made it. */
  lemma AnnualTotalConserved(c: Climate, p: Params)
    requires WellFormed(c) && IsCalendar(c.month)
    ensures var eta := IrrigationTable(c, p).eta;
      Sum(IrrigationTable(c, p).irrigation) == Sum(FactoredIrrigation(c.month, eta, p))
  {
    var eta := IrrigationTable(c, p).eta;
    RedistributionCalendar(c.month, FactoredIrrigation(c.month, eta, p));
  }

  /** When July is not an irrigation month it has no irrigation to move, and
      the redistribution changes nothing. */
  lemma RedistributionNoOpWithoutJuly(c: Climate, p: Params)
    requires WellFormed(c) && IsCalendar(c.month)
    requires !InIrrigationMonths(7, p)
    ensures var eta := IrrigationTable(c, p).eta;
      IrrigationTable(c, p).irrigation == FactoredIrrigation(c.month, eta, p)
  {
    var eta := IrrigationTable(c, p).eta;
    var pre := FactoredIrrigation(c.month, eta, p);
    assert pre[6] == 0.0;
    RedistributionCalendar(c.month, pre);
  }

  /** With irrigation months 3..7, August and September are outside the
      range and have no need of their own, yet receive 8% and 12% of July's
      irrigation. */
  lemma LateSummerReceivesJulyWater(c: Climate, p: Params)
    requires WellFormed(c) && IsCalendar(c.month)
    requires p.mStart == 3 && p.mEnd == 7
    ensures var eta := IrrigationTable(c, p).eta;
      var pre := FactoredIrrigation(c.month, eta, p);
      var r := IrrigationTable(c, p).irrigation;
      pre[7] == 0.0 && pre[8] == 0.0 && r[7] == 0.08 * pre[6] && r[8] == 0.12 * pre[6]
  {
    var eta := IrrigationTable(c, p).eta;
    var pre := FactoredIrrigation(c.month, eta, p);
    assert pre[7] == 0.0 && pre[8] == 0.0;
    RedistributionCalendar(c.month, pre);
  }

  /** The soil-water balance of a month is the effective rain less the `ETa`
      and plus the irrigation of that month and all before it, clipped at
      zero; the alert is drought exactly when that sum is not positive. */
  lemma BalanceAndAlert(c: Climate, p: Params, i: int)
    requires WellFormed(c) && 0 <= i < |c.et0|
    ensures var r := IrrigationTable(c, p);
      var balance := EffectiveRain(p) - Sum(r.eta[..i + 1]) + Sum(r.irrigation[..i + 1]);
      r.sw1[i] >= 0.0 &&
      (balance > 0.0 ==> r.sw1[i] == balance) &&
      (balance <= 0.0 ==> r.sw1[i] == 0.0) &&
      (r.alert[i] == Drought <==> balance <= 0.0) &&
      (r.alert[i] == Safe <==> r.sw1[i] > 0.0)
  {
  }

  /** The unclipped balance is a running total: the first month starts from the
      effective rain, and each later month adds its irrigation and removes its `ETa`. */
  lemma BalanceRunningTotal(c: Climate, p: Params, i: int)
    requires WellFormed(c) && 0 <= i < |c.et0|
    ensures var r := IrrigationTable(c, p);
      var rainEff := EffectiveRain(p);
      var balance := rainEff - Sum(r.eta[..i + 1]) + Sum(r.irrigation[..i + 1]);
      (i == 0 ==> balance == rainEff - r.eta[0] + r.irrigation[0]) &&
      (i > 0 ==> balance == rainEff - Sum(r.eta[..i]) + Sum(r.irrigation[..i]) - r.eta[i] + r.irrigation[i])
  {
    var r := IrrigationTable(c, p);
    SumPrefix(r.eta, i);
    SumPrefix(r.irrigation, i);
  }

  /** The water-allocation rescaling of the app: with the total `T` of the
      irrigation at factor 1 positive, recomputing at factor `allocation / T`
      gives exactly `allocation` as the new total. */
  lemma AllocationRescaling(c: Climate, p: Params, allocation: real)
    requires WellFormed(c)
    requires TotalIrrigation(c, UnitFactor(p)) > 0.0
    ensures var total := TotalIrrigation(c, UnitFactor(p));
      TotalIrrigation(c, WithFactor(p, allocation / total)) == allocation
  {
    var total := TotalIrrigation(c, UnitFactor(p));
    var q := WithFactor(p, allocation / total);
    assert UnitFactor(q) == UnitFactor(p);
    TotalLinear(c, q);
    Rescale(total, allocation);
  }

  /** Multiplying back by the total undoes the division of the factor. */
  lemma Rescale(total: real, allocation: real)
    requires total > 0.0
    ensures allocation / total * total == allocation
  {
  }

  /** The inputs of a worked example: every month has an ET0 of 100 mm, the
      vegetation factor is 0.5, there is no rain nor winter irrigation, the
      irrigation months are 3..10, and factor and unit scale are 1. */
  predicate ExampleInputs(c: Climate, p: Params)
  {
    IsCalendar(c.month) && |c.et0| == 12 &&
    (forall i :: 0 <= i < 12 ==> c.et0[i] == 100.0) &&
    p == Params(0.5, 0.0, 0.0, 3, 10, 1.0, 1.0)
  }

  /** In the worked example the active months 3..10 use 500/7 mm and the others none. */
  lemma ExampleEta(c: Climate, p: Params)
    requires ExampleInputs(c, p)
    ensures WellFormed(c)
    ensures forall i :: 0 <= i < 12 ==> TableEta(c, p)[i] == if 2 <= i < 10 then 500.0 / 7.0 else 0.0
  {
    assert c.month[6] == 7;
    forall i | 0 <= i < 12
      ensures TableEta(c, p)[i] == if 2 <= i < 10 then 500.0 / 7.0 else 0.0
    {
      assert AdjustedEt0(c, p)[i] == if 2 <= i < 10 then 100.0 else 0.0;
    }
  }

  /** In the worked example the index is -50/8 = -6.25, so each irrigation
      month needs 6.25 mm more than it uses. */
  lemma ExampleNeed(c: Climate, p: Params)
    requires ExampleInputs(c, p)
    ensures WellFormed(c)
    ensures var pre := FactoredIrrigation(c.month, TableEta(c, p), p);
      forall i :: 0 <= i < 12 ==> pre[i] == if 2 <= i < 10 then 500.0 / 7.0 + 6.25 else 0.0
  {
    ExampleEta(c, p);
    var eta := TableEta(c, p);
    var off := OffRangeColumn(c.month, eta, p);
    assert forall i :: 0 <= i < 12 ==> off[i] == 0.0;
    SumZeros(off);
    SwiShare(c.month, eta, p);
    assert Swi(c.month, eta, p) == -6.25;
    forall i | 0 <= i < 12
      ensures FactoredIrrigation(c.month, eta, p)[i] == if 2 <= i < 10 then 500.0 / 7.0 + 6.25 else 0.0
    {
      IrrigationBeforeRedistribution(c, p, i);
    }
  }

  /** In the worked example July hands a fifth of its irrigation on. */
  lemma ExampleIrrigation(c: Climate, p: Params)
    requires ExampleInputs(c, p)
    ensures WellFormed(c)
    ensures var irr := Irrigation(c.month, TableEta(c, p), p);
      irr[0] == 0.0 && irr[1] == 0.0 && irr[2] == 500.0 / 7.0 + 6.25 &&
      irr[6] == 0.8 * (500.0 / 7.0 + 6.25)
  {
    ExampleNeed(c, p);
    RedistributionCalendar(c.month, FactoredIrrigation(c.month, TableEta(c, p), p));
  }

  /** In the worked example the running totals of `ETa` and irrigation are
      0 after January, and 500/7 and 500/7 + 6.25 after March. */
  lemma ExampleRunningTotals(c: Climate, p: Params)
    requires ExampleInputs(c, p)
    ensures WellFormed(c)
    ensures var eta := TableEta(c, p);
      var irr := Irrigation(c.month, eta, p);
      Sum(eta[..1]) == 0.0 && Sum(irr[..1]) == 0.0 &&
      Sum(eta[..3]) == 500.0 / 7.0 && Sum(irr[..3]) == 500.0 / 7.0 + 6.25
  {
    ExampleEta(c, p);
    ExampleIrrigation(c, p);
    var eta := TableEta(c, p);
    var irr := Irrigation(c.month, eta, p);
    assert eta[0] == 0.0 && eta[1] == 0.0 && eta[2] == 500.0 / 7.0;
    SumPrefix(eta, 0);
    SumPrefix(irr, 0);
    SumPrefix(eta, 1);
    SumPrefix(irr, 1);
    SumPrefix(eta, 2);
    SumPrefix(irr, 2);
    assert eta[..0] == [] && irr[..0] == [];
  }

  /** In the worked example January starts in drought, and by March the soil
      holds 6.25 mm and is safe. */
  lemma ExampleBalance(c: Climate, p: Params)
    requires ExampleInputs(c, p)
    ensures WellFormed(c)
    ensures var r := IrrigationTable(c, p);
      r.sw1[0] == 0.0 && r.alert[0] == Drought &&
      r.sw1[2] == 6.25 && r.alert[2] == Safe
  {
    ExampleRunningTotals(c, p);
    TableColumns(c, p);
    var eta := TableEta(c, p);
    var irr := Irrigation(c.month, eta, p);
    var sw1 := SoilWater(EffectiveRain(p), eta, irr);
    assert EffectiveRain(p) == 0.0;
    assert sw1[0] == 0.0 && sw1[2] == 6.25;
    assert IrrigationTable(c, p).sw1 == sw1;
  }
}
