/**
 * The festival planner report: the records the model's answer is validated into, the unwrapping of
 * an `InventoryPlan` envelope, and the post-processing of each festival's date against today's date.
 * The model call and the record validation are inputs.
 */
module Planner {
  import opened Wrappers
  import opened Text
  import opened Json
  import opened Calendar

  datatype Festival = Festival(
    id: int, name: string, date: string, daysLeft: int, urgency: string, items: seq<string>,
    expectedSales: string, preparation: string, color: string)

  datatype RecommendedProduct = RecommendedProduct(
    id: int, name: string, demand: string, profit: string, units: string, trend: string,
    yourPrice: string, stockLevel: string, urgency: string)

  datatype LocalDemand = LocalDemand(
    id: int, area: string, product: string, demand: string, distance: string, avgSpend: string,
    shoppers: int, peakHours: string)

  datatype AvoidProduct = AvoidProduct(
    id: int, name: string, reason: string, suggestion: string, returnRate: string, impact: string,
    lossAmount: string)

  datatype AIRecommendation = AIRecommendation(
    id: int, product: string, action: string, priority: string, reason: string, confidence: string,
    potentialRevenue: string)

  datatype PlannerResponse = PlannerResponse(
    upcomingFestivals: seq<Festival>, topProductsToStock: seq<RecommendedProduct>,
    nearbyDemand: seq<LocalDemand>, avoidProducts: seq<AvoidProduct>,
    aiRecommendations: seq<AIRecommendation>)

  /** The value to validate: the `InventoryPlan` entry of a dictionary that has one, else the value itself. */
  function Unwrap(raw: Value): (v: Value)
    ensures raw.VObj? && HasKey(raw.fields, "InventoryPlan") ==> Some(v) == Get(raw.fields, "InventoryPlan")
    ensures !(raw.VObj? && HasKey(raw.fields, "InventoryPlan")) ==> v == raw
  {
    if raw.VObj? && HasKey(raw.fields, "InventoryPlan") then GetOr(raw.fields, "InventoryPlan", VNull) else raw
  }

  /**
   * One festival after post-processing: a date that parses as `%Y-%m-%d` is rewritten in long form
   * with the days left until it; any other festival is kept as it was.
   */
  function PostProcessFestival(f: Festival, today: Date): (g: Festival)
    requires ValidDate(today)
    ensures g.(date := f.date, daysLeft := f.daysLeft) == f
    ensures ParseIsoDate(f.date).None? ==> g == f
    ensures ParseIsoDate(f.date).Some? ==> var d := ParseIsoDate(f.date).value;
      && g.daysLeft == DaysBetween(d, today)
      && (g.daysLeft < 0 <==> Precedes(d, today))
      && g.date == MonthName(d.month) + " " + f.date[8..] + ", " + f.date[..4]
  {
    match ParseIsoDate(f.date)
    case None => f
    case Some(d) =>
      DaysBetweenProperties(d, today);
      FormatLongOfParsed(f.date);
      f.(date := FormatLong(d), daysLeft := DaysBetween(d, today))
  }

  /** The festivals after the loop: one result per festival, in the same order. */
  function ProcessedFestivals(festivals: seq<Festival>, today: Date): (r: seq<Festival>)
    requires ValidDate(today)
    ensures |r| == |festivals|
  {
    seq(|festivals|, i requires 0 <= i < |festivals| => PostProcessFestival(festivals[i], today))
  }

  /** The loop over `response.upcomingFestivals`, appending each processed festival. */
  method PostProcessFestivals(festivals: seq<Festival>, today: Date) returns (updated: seq<Festival>)
    requires ValidDate(today)
    ensures updated == ProcessedFestivals(festivals, today)
  {
    updated := [];
    for i := 0 to |festivals|
      invariant updated == ProcessedFestivals(festivals[..i], today)
    {
      var festival := festivals[i];
      var parsed := ParseIsoDate(festival.date);
      match parsed {
        case Some(d) =>
          var daysLeft := DaysBetween(d, today);
          var formatted := FormatLong(d);
          festival := festival.(date := formatted, daysLeft := daysLeft);
        case None =>
      }
      assert festivals[..i + 1] == festivals[..i] + [festivals[i]];
      updated := updated + [festival];
    }
    assert festivals[..|festivals|] == festivals;
  }

  /** A long-form date is at least twelve characters, so it never parses as `%Y-%m-%d`. */
  lemma LongFormIsNotIso(d: Date)
    requires ValidDate(d)
    ensures ParseIsoDate(FormatLong(d)).None?
  {
    assert |MonthName(d.month)| >= 3;
  }

  /** Post-processing a festival a second time changes nothing more. */
  lemma PostProcessOnce(f: Festival, today: Date)
    requires ValidDate(today)
    ensures PostProcessFestival(PostProcessFestival(f, today), today) == PostProcessFestival(f, today)
  {
    if ParseIsoDate(f.date).Some? {
      LongFormIsNotIso(ParseIsoDate(f.date).value);
    }
  }

  /** `daysLeft` before and after: a festival dated today gets 0, one dated tomorrow 1. */
  lemma DaysLeftAnchors(f: Festival, today: Date)
    requires ValidDate(today) && today != Date(9999, 12, 31)
    ensures f.date == FormatIso(today) ==> PostProcessFestival(f, today).daysLeft == 0
    ensures f.date == FormatIso(NextDay(today)) ==> PostProcessFestival(f, today).daysLeft == 1
  {
    ParseFormatIso(today);
    ParseFormatIso(NextDay(today));
    NextDayOrdinal(today);
  }

  const NotConfigured: HttpError := HttpError(500, "Groq API model is not configured.")

  function ReportError(e: string): HttpError {
    HttpError(500, "Error generating planner report: " + e)
  }

  /**
   * get_full_planner_report. `chain` is what the prompt, model and parser chain returned (or the
   * exception text), `validate` stands for `PlannerResponse.model_validate`.
   */
  method GetFullPlannerReport(modelConfigured: bool, chain: Result<Value, string>,
                              validate: Value -> Result<PlannerResponse, string>, today: Date)
    returns (r: Result<PlannerResponse, HttpError>)
    requires ValidDate(today)
    ensures !modelConfigured ==> r == Err(NotConfigured)
    ensures modelConfigured && chain.Err? ==> r == Err(ReportError(chain.error))
    ensures modelConfigured && chain.Ok? && validate(Unwrap(chain.value)).Err? ==>
      r == Err(ReportError(validate(Unwrap(chain.value)).error))
    ensures modelConfigured && chain.Ok? && validate(Unwrap(chain.value)).Ok? ==>
      var v := validate(Unwrap(chain.value)).value;
      r == Ok(v.(upcomingFestivals := ProcessedFestivals(v.upcomingFestivals, today)))
  {
    if !modelConfigured {
      return Err(NotConfigured);
    }
    match chain {
      case Err(e) =>
        return Err(ReportError(e));
      case Ok(raw) =>
        var clean := raw;
        if raw.VObj? && HasKey(raw.fields, "InventoryPlan") {
          clean := GetOr(raw.fields, "InventoryPlan", VNull);
        }
        match validate(clean) {
          case Err(e) =>
            return Err(ReportError(e));
          case Ok(response) =>
            var updated := PostProcessFestivals(response.upcomingFestivals, today);
            return Ok(response.(upcomingFestivals := updated));
        }
    }
  }

  /** The report keeps every collection except the festivals as validated, and the festivals' number and order. */
  lemma ReportShape(v: PlannerResponse, today: Date)
    requires ValidDate(today)
    ensures var out := v.(upcomingFestivals := ProcessedFestivals(v.upcomingFestivals, today));
      && |out.upcomingFestivals| == |v.upcomingFestivals|
      && (forall i | 0 <= i < |v.upcomingFestivals| ::
            out.upcomingFestivals[i].id == v.upcomingFestivals[i].id
            && out.upcomingFestivals[i].name == v.upcomingFestivals[i].name)
      && out.topProductsToStock == v.topProductsToStock
      && out.nearbyDemand == v.nearbyDemand
      && out.avoidProducts == v.avoidProducts
      && out.aiRecommendations == v.aiRecommendations
  {
  }
}
