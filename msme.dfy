/** The two rules of frontend/src/components/MSMEDashboard.tsx that are not
    rendering or requests: the ROI calculator and the dispatch of messages
    arriving on the dashboard's WebSocket. `JSON.parse` is a parameter that
    reduces a raw message to the fields the dispatcher reads. */
module Msme {
  import opened Common

  // ---------------------------------------------------------------------
  // ROI calculator
  // ---------------------------------------------------------------------

  datatype RoiInputs = RoiInputs(monthlyDefectCost: real, qualityInvestment: real, expectedSavings: real)

  datatype RoiResult = RoiResult(roi: real, paybackPeriod: real, annualSavings: real, netBenefit: real)

  /** The figures the form starts with. */
  const DefaultRoiInputs := RoiInputs(50000.0, 25000.0, 75000.0)

  /** `calculateROI`: `None` is the alert for a field that is not positive
      (the previous result stays); otherwise a year of the expected monthly
      savings, the benefit net of the investment, the ROI in percent and the
      payback in months, the last two rounded to two decimals. */
  function CalculateRoi(inputs: RoiInputs): (r: Option<RoiResult>)
    ensures r.None? <==>
      inputs.monthlyDefectCost <= 0.0 || inputs.qualityInvestment <= 0.0 || inputs.expectedSavings <= 0.0
    ensures r.Some? ==>
      && r.value.annualSavings == 12.0 * inputs.expectedSavings
      && r.value.netBenefit == r.value.annualSavings - inputs.qualityInvestment
  {
    if inputs.monthlyDefectCost <= 0.0 || inputs.qualityInvestment <= 0.0 || inputs.expectedSavings <= 0.0 then None
    else
      var annualSavings := inputs.expectedSavings * 12.0;
      var netBenefit := annualSavings - inputs.qualityInvestment;
      var roi := (netBenefit / inputs.qualityInvestment) * 100.0;
      var paybackPeriod := inputs.qualityInvestment / inputs.expectedSavings;
      Some(RoiResult(RoundTo2(roi), RoundTo2(paybackPeriod), annualSavings, netBenefit))
  }

  /** The shown ROI and payback are whole hundredths within half a hundredth
      of the exact ratios, which (`RoundTo2Unique`) makes them exactly the
      ratios rounded to two decimals, halves up. */
  lemma RoiRounding(inputs: RoiInputs)
    requires CalculateRoi(inputs).Some?
    ensures var r := CalculateRoi(inputs).value;
      var exactRoi := r.netBenefit / inputs.qualityInvestment * 100.0;
      var exactPayback := inputs.qualityInvestment / inputs.expectedSavings;
      && exactRoi - 0.005 < r.roi <= exactRoi + 0.005
      && exactPayback - 0.005 < r.paybackPeriod <= exactPayback + 0.005
      && (r.roi * 100.0).Floor as real == r.roi * 100.0
      && (r.paybackPeriod * 100.0).Floor as real == r.paybackPeriod * 100.0
  {
  }

  /** The ROI has the sign of the net benefit (a loss too small to show
      rounds to 0), and the payback is never negative. */
  lemma RoiSigns(inputs: RoiInputs)
    requires CalculateRoi(inputs).Some?
    ensures var r := CalculateRoi(inputs).value;
      && (r.netBenefit >= 0.0 ==> r.roi >= 0.0)
      && (r.netBenefit < 0.0 ==> r.roi <= 0.0)
      && r.paybackPeriod >= 0.0
  {
    var q, e := inputs.qualityInvestment, inputs.expectedSavings;
    var net := e * 12.0 - q;
    var exactRoi := (net / q) * 100.0;
    if net >= 0.0 {
      QuotientSign(net, q);
      RoundTo2NonNegative(exactRoi);
    } else {
      QuotientSign(net, q);
      RoundTo2NonPositive(exactRoi);
    }
    QuotientSign(q, e);
    RoundTo2NonNegative(q / e);
  }

  lemma QuotientSign(a: real, b: real)
    requires b > 0.0
    ensures a >= 0.0 ==> a / b >= 0.0
    ensures a < 0.0 ==> a / b < 0.0
  {
  }

  lemma RoundTo2NonNegative(x: real)
    requires x >= 0.0
    ensures RoundTo2(x) >= 0.0
  {
    assert RoundHalfUp(x * 100.0) >= 0;
  }

  lemma RoundTo2NonPositive(x: real)
    requires x <= 0.0
    ensures RoundTo2(x) <= 0.0
  {
    assert RoundHalfUp(x * 100.0) <= 0;
  }

  /** The monthly defect cost is checked but enters no figure: any two
      positive values give the same result. */
  lemma DefectCostIrrelevant(inputs: RoiInputs, otherCost: real)
    requires inputs.monthlyDefectCost > 0.0 && otherCost > 0.0
    ensures CalculateRoi(inputs) == CalculateRoi(inputs.(monthlyDefectCost := otherCost))
  {
  }

  /** The default figures give a yearly saving of 900000, a net benefit of
      875000, an ROI of 3500 % and a payback of 0.33 months. */
  lemma DefaultRoi()
    ensures CalculateRoi(DefaultRoiInputs) == Some(RoiResult(3500.0, 0.33, 900000.0, 875000.0))
  {
    assert (875000.0 / 25000.0) * 100.0 == 3500.0;
    assert 3500.0 == 350000.0 / 100.0;
    RoundTo2Keeps(350000);
    assert 25000.0 / 75000.0 * 100.0 == 100.0 / 3.0;
    assert RoundHalfUp(100.0 / 3.0) == 33;
  }

  // ---------------------------------------------------------------------
  // WebSocket dispatch
  // ---------------------------------------------------------------------

  /** What `JSON.parse` makes of a raw message, reduced to the fields the
      dispatcher reads. `Unparsable` is a parse error or a value whose
      fields cannot be read (`null`). A field that is absent or not of the
      tested kind is `None`; `data` holds the metrics object when it is
      truthy, `message` and `importedRows` their values when present. */
  datatype Parsed =
    | Unparsable
    | Fields(kind: Option<string>, data: Option<string>, success: bool, message: Option<string>, importedRows: Option<int>)

  datatype ImportStatus = ImportStatus(success: bool, message: string, importedRows: int)

  /** The state change one message asks for. */
  datatype FeedEffect = SetMetrics(metrics: string) | SetStatus(status: ImportStatus) | NoEffect

  const MetricsUpdatedText := "Real-time ERP metrics updated!"

  /** A JavaScript value that tests truthy: a present, non-empty string. */
  predicate Truthy(s: Option<string>) {
    s.Some? && s.value != ""
  }

  /** The branches of `onmessage` after the log append. */
  function Dispatch(p: Parsed): (e: FeedEffect)
    ensures e.SetMetrics? <==> p.Fields? && p.kind == Some("erp_metrics_update") && p.data.Some?
    ensures e.SetStatus? <==> p.Fields? && p.kind == Some("import_status_update") && Truthy(p.message)
    ensures e.SetMetrics? ==> e.metrics == p.data.value
    ensures e.SetStatus? ==>
      e.status == ImportStatus(p.success, p.message.value, if p.importedRows.Some? then p.importedRows.value else 0)
  {
    match p
    case Unparsable => NoEffect
    case Fields(kind, data, success, message, importedRows) =>
      if kind == Some("erp_metrics_update") && data.Some? then SetMetrics(data.value)
      else if kind == Some("import_status_update") && Truthy(message) then
        SetStatus(ImportStatus(success, message.value, importedRows.GetOr(0)))
      else NoEffect
  }

  class MsmeDashboard {
    var wsMessages: seq<string>
    var erpMetrics: Option<string>
    var importStatus: Option<ImportStatus>
    var roiInputs: RoiInputs
    var roiResult: Option<RoiResult>

    constructor()
      ensures wsMessages == [] && erpMetrics.None? && importStatus.None?
      ensures roiInputs == DefaultRoiInputs && roiResult.None?
    {
      wsMessages := [];
      erpMetrics := None;
      importStatus := None;
      roiInputs := DefaultRoiInputs;
      roiResult := None;
    }

    /** `websocket.onmessage`: the raw text is always appended to the log;
        a metrics update replaces the metrics and reports success with no
        rows, an import update replaces the status, and anything else
        (including text that is not JSON) changes nothing more. */
    method OnMessage(raw: string, parse: string -> Parsed)
      modifies this
      ensures wsMessages == old(wsMessages) + [raw]
      ensures roiInputs == old(roiInputs) && roiResult == old(roiResult)
      ensures match Dispatch(parse(raw))
        case SetMetrics(m) =>
          erpMetrics == Some(m) && importStatus == Some(ImportStatus(true, MetricsUpdatedText, 0))
        case SetStatus(s) =>
          erpMetrics == old(erpMetrics) && importStatus == Some(s)
        case NoEffect =>
          erpMetrics == old(erpMetrics) && importStatus == old(importStatus)
    {
      wsMessages := wsMessages + [raw];
      match Dispatch(parse(raw))
      case SetMetrics(m) =>
        erpMetrics := Some(m);
        importStatus := Some(ImportStatus(true, MetricsUpdatedText, 0));
      case SetStatus(s) =>
        importStatus := Some(s);
      case NoEffect =>
    }

    /** One of the three number fields edited; the others are kept. */
    method SetRoiInputs(inputs: RoiInputs)
      modifies this
      ensures roiInputs == inputs && roiResult == old(roiResult)
      ensures wsMessages == old(wsMessages) && erpMetrics == old(erpMetrics) && importStatus == old(importStatus)
    {
      roiInputs := inputs;
    }

    /** The calculate button: a result replaces the shown one, rejected
        inputs leave it as it was. */
    method CalculateRoiClicked()
      modifies this
      ensures CalculateRoi(roiInputs).Some? ==> roiResult == CalculateRoi(roiInputs)
      ensures CalculateRoi(roiInputs).None? ==> roiResult == old(roiResult)
      ensures roiInputs == old(roiInputs)
      ensures wsMessages == old(wsMessages) && erpMetrics == old(erpMetrics) && importStatus == old(importStatus)
    {
      var r := CalculateRoi(roiInputs);
      if r.Some? {
        roiResult := r;
      }
    }
  }
}
