/**
 * The pure helpers of the quote editor: converting between hours, minutes and
 * seconds and decimal hours, the form's validity rules, the material-mass
 * summary, and building the saved quote and putting it into the quote list.
 */
module QuoteForm {
  import opened Wrappers
  import Calculations

  type ExtraCost = Calculations.ExtraCost

  datatype TariffType = Peak | OffPeak | Mixed

  /**
   * Quote statuses. The editor creates drafts. The dashboard counts quotes whose status is
   * `accepted`, and an unused status handler's message names `accepted` and `canceled`;
   * both are kept so that a stored quote with either status keeps it through an edit.
   */
  datatype QuoteStatus = Draft | Finalized | Accepted | Canceled

  /** One part of a quote; `materialGrams` is `None` when the entered value does not parse as a number (NaN). */
  datatype Part = Part(id: string, materialId: string, materialGrams: Option<real>)

  /** The values of the editor form; the optional fields may be left empty. */
  datatype FormValues = FormValues(
    name: string,
    clientName: Option<string>,
    parts: seq<Part>,
    machineId: string,
    designCost: Option<real>,
    tariffType: TariffType,
    peakHours: Option<real>,
    printHours: Option<real>,
    printMinutes: Option<real>,
    printSeconds: Option<real>,
    laborHours: Option<real>,
    laborMinutes: Option<real>,
    extraCosts: Option<seq<ExtraCost>>,
    notes: Option<string>)

  /** A quote as the editor saves it. */
  datatype Quote = Quote(
    id: string,
    status: QuoteStatus,
    createdAt: string,
    name: string,
    clientName: string,
    parts: seq<Part>,
    machineId: string,
    designCost: real,
    printHours: real,
    tariffType: TariffType,
    peakHours: Option<real>,
    laborHours: real,
    extraCosts: seq<ExtraCost>,
    notes: string)

  datatype PrintTime = PrintTime(hours: int, minutes: int, seconds: int)

  datatype LaborTime = LaborTime(hours: int, minutes: int)

  // ---------------------------------------------------------------------------
  // Time fields and decimal hours

  /** Print hours, minutes and seconds as decimal hours; empty fields count as 0. */
  function DecimalPrintHours(h: Option<real>, m: Option<real>, s: Option<real>): real {
    OrZero(h) + OrZero(m) / 60.0 + OrZero(s) / 3600.0
  }

  /** Labour hours and minutes as decimal hours; empty fields count as 0. */
  function DecimalLaborHours(h: Option<real>, m: Option<real>): real {
    OrZero(h) + OrZero(m) / 60.0
  }

  /** `Math.round`: the nearest integer, halves rounded up. */
  function Round(x: real): (r: int)
    ensures r as real - 0.5 <= x < r as real + 0.5
  {
    (x + 0.5).Floor
  }

  /** Loading a quote: its stored decimal print hours split into whole hours, minutes and rounded seconds. */
  function SplitPrintHours(stored: Option<real>): (r: PrintTime)
    ensures r.hours as real <= OrZero(stored) < r.hours as real + 1.0
    ensures r.minutes as real <= (OrZero(stored) - r.hours as real) * 60.0 < r.minutes as real + 1.0
    ensures r.seconds == Round(((OrZero(stored) - r.hours as real) * 60.0 - r.minutes as real) * 60.0)
    ensures OrZero(stored) >= 0.0 ==> r.hours >= 0 && 0 <= r.minutes <= 59 && 0 <= r.seconds <= 60
  {
    var total := OrZero(stored);
    var hours := total.Floor;
    var minutes := ((total - hours as real) * 60.0).Floor;
    var seconds := Round(((total - hours as real) * 60.0 - minutes as real) * 60.0);
    PrintTime(hours, minutes, seconds)
  }

  /** Loading a quote: its stored decimal labour hours split into whole hours and rounded minutes. */
  function SplitLaborHours(stored: Option<real>): (r: LaborTime)
    ensures r.hours as real <= OrZero(stored) < r.hours as real + 1.0
    ensures r.minutes == Round((OrZero(stored) - r.hours as real) * 60.0)
    ensures OrZero(stored) >= 0.0 ==> r.hours >= 0 && 0 <= r.minutes <= 60
  {
    var total := OrZero(stored);
    var hours := total.Floor;
    LaborTime(hours, Round((total - hours as real) * 60.0))
  }

  /** `x.Floor` is the integer `n` when `x` lies in `[n, n + 1)`. */
  lemma FloorOf(x: real, n: int)
    requires n as real <= x < n as real + 1.0
    ensures x.Floor == n
  {
  }

  /** Whole hours, minutes and seconds saved as decimal hours load back as the same fields. */
  lemma PrintRoundTrip(h: int, m: int, s: int)
    requires 0 <= m < 60 && 0 <= s < 60
    ensures SplitPrintHours(Some(DecimalPrintHours(Some(h as real), Some(m as real), Some(s as real))))
            == PrintTime(h, m, s)
  {
    var t := DecimalPrintHours(Some(h as real), Some(m as real), Some(s as real));
    var frac := m as real / 60.0 + s as real / 3600.0;
    assert t - h as real == frac;
    assert 0.0 <= frac < 1.0;
    FloorOf(t, h);
    assert frac * 60.0 == m as real + s as real / 60.0;
    FloorOf(frac * 60.0, m);
    assert (frac * 60.0 - m as real) * 60.0 == s as real;
    FloorOf(s as real + 0.5, s);
  }

  /** Whole labour hours and minutes saved as decimal hours load back as the same fields. */
  lemma LaborRoundTrip(h: int, m: int)
    requires 0 <= m < 60
    ensures SplitLaborHours(Some(DecimalLaborHours(Some(h as real), Some(m as real)))) == LaborTime(h, m)
  {
  }

  /** Rounding lets the seconds field reach 60: 59.75 seconds load as 0 h 0 min 60 s. */
  lemma SecondsMayReachSixty()
    ensures SplitPrintHours(Some(59.75 / 3600.0)) == PrintTime(0, 0, 60)
  {
  }

  // ---------------------------------------------------------------------------
  // Validity rules of the form

  predicate PartValid(p: Part) {
    |p.materialId| >= 1 && p.materialGrams.Some? && p.materialGrams.value >= 0.0
  }

  predicate ExtraCostValid(e: ExtraCost) {
    |e.description| >= 1 && e.amount >= 0.0
  }

  /** The whole-form refinement: the raw hours + minutes + seconds sum must be positive. */
  predicate PrintTimeEntered(v: FormValues) {
    OrZero(v.printHours) + OrZero(v.printMinutes) + OrZero(v.printSeconds) > 0.0
  }

  /** The quote schema: name of two characters or more, at least one valid part, a machine, valid extras, some print time. */
  predicate IsValid(v: FormValues) {
    && |v.name| >= 2
    && |v.parts| >= 1
    && (forall i | 0 <= i < |v.parts| :: PartValid(v.parts[i]))
    && |v.machineId| >= 1
    && (v.extraCosts.Some? ==> forall i | 0 <= i < |v.extraCosts.value| :: ExtraCostValid(v.extraCosts.value[i]))
    && PrintTimeEntered(v)
  }

  /** With non-negative time fields the raw-sum rule means the decimal print time is positive. */
  lemma NonNegativeTimeIsPositive(v: FormValues)
    requires OrZero(v.printHours) >= 0.0 && OrZero(v.printMinutes) >= 0.0 && OrZero(v.printSeconds) >= 0.0
    ensures PrintTimeEntered(v) <==> DecimalPrintHours(v.printHours, v.printMinutes, v.printSeconds) > 0.0
  {
  }

  /** The time fields have no lower bound, so a valid form can still carry a negative decimal print time. */
  lemma ValidFormWithNegativeTime()
    ensures exists v :: IsValid(v) && DecimalPrintHours(v.printHours, v.printMinutes, v.printSeconds) < 0.0
  {
    var v := FormValues("ab", None, [Part("p", "m", Some(1.0))], "x", None, OffPeak, None,
                        Some(-1.0), Some(2.0), None, None, None, None, None);
    assert PartValid(v.parts[0]);
    assert IsValid(v);
    assert DecimalPrintHours(v.printHours, v.printMinutes, v.printSeconds) == -1.0 + 2.0 / 60.0;
  }

  // ---------------------------------------------------------------------------
  // The editor's call into the cost engine

  /**
   * The input the editor hands to the engine, restricted to the fields the
   * engine reads: it passes parts instead of a material id and grams.
   */
  function EngineInput(v: FormValues): (q: Calculations.CostInput)
    ensures q.materialId.None? && q.materialGrams.None?
    ensures q.machineId == Some(v.machineId) && q.extraCosts == v.extraCosts
    ensures q.printHours == Some(DecimalPrintHours(v.printHours, v.printMinutes, v.printSeconds))
  {
    Calculations.CostInput(None, None, Some(v.machineId),
                           Some(DecimalPrintHours(v.printHours, v.printMinutes, v.printSeconds)), v.extraCosts)
  }

  /** Whatever the form holds, the engine as written returns no breakdown for the editor's call. */
  lemma EditorGetsNoBreakdown(v: FormValues, materials: seq<Calculations.Material>, machines: seq<Calculations.Machine>,
                              settings: Calculations.Settings)
    ensures Calculations.CalculateCosts(EngineInput(v), materials, machines, settings).None?
  {
  }

  // ---------------------------------------------------------------------------
  // Material summary

  /** The parsed grams of one part, NaN contributing 0. */
  function PartGrams(p: Part): real {
    OrZero(p.materialGrams)
  }

  /** The `reduce` summing the grams of all parts from the left. */
  function TotalGrams(parts: seq<Part>): real {
    if |parts| == 0 then 0.0 else TotalGrams(parts[..|parts| - 1]) + PartGrams(parts[|parts| - 1])
  }

  /** The grams of two part lists one after the other add up. */
  lemma {:induction false} TotalGramsAppend(a: seq<Part>, b: seq<Part>)
    ensures TotalGrams(a + b) == TotalGrams(a) + TotalGrams(b)
  {
    if |b| == 0 {
      assert a + b == a;
    } else {
      var b' := b[..|b| - 1];
      assert (a + b)[..|a + b| - 1] == a + b';
      TotalGramsAppend(a, b');
    }
  }

  /** A part whose grams do not parse leaves the total where it was, wherever it stands. */
  lemma UnparsedPartIgnored(a: seq<Part>, p: Part, b: seq<Part>)
    requires p.materialGrams.None?
    ensures TotalGrams(a + [p] + b) == TotalGrams(a + b)
  {
    TotalGramsAppend(a + [p], b);
    TotalGramsAppend(a, [p]);
    TotalGramsAppend(a, b);
    assert TotalGrams([p]) == 0.0 by {
      assert [p][..0] == [];
    }
  }

  /** The grams of the parts of a valid form add up to a non-negative total. */
  lemma {:induction false} ValidPartsNonNegative(parts: seq<Part>)
    requires forall i | 0 <= i < |parts| :: PartValid(parts[i])
    ensures TotalGrams(parts) >= 0.0
  {
    if |parts| > 0 {
      ValidPartsNonNegative(parts[..|parts| - 1]);
      assert PartValid(parts[|parts| - 1]);
    }
  }

  /**
   * What a valid form guarantees the saved quote: with non-negative time fields
   * the print time is positive, every saved extra cost is non-negative, and so
   * are the material summary's grams total and the extra-cost total.
   */
  lemma ValidFormFeedsEngine(v: FormValues, editing: Option<Quote>, newId: string, now: string)
    requires IsValid(v)
    requires OrZero(v.printHours) >= 0.0 && OrZero(v.printMinutes) >= 0.0 && OrZero(v.printSeconds) >= 0.0
    ensures BuildQuote(v, editing, newId, now).printHours > 0.0
    ensures TotalGrams(v.parts) >= 0.0
    ensures Calculations.ExtraTotal(v.extraCosts.GetOr([])) >= 0.0
    ensures forall i | 0 <= i < |BuildQuote(v, editing, newId, now).extraCosts| ::
      BuildQuote(v, editing, newId, now).extraCosts[i].amount >= 0.0
  {
    NonNegativeTimeIsPositive(v);
    ValidPartsNonNegative(v.parts);
    var extras := v.extraCosts.GetOr([]);
    assert forall i | 0 <= i < |extras| :: extras[i].amount >= 0.0 by {
      if v.extraCosts.Some? {
        assert forall i | 0 <= i < |extras| :: ExtraCostValid(extras[i]);
      }
    }
    Calculations.ExtraTotalNonNegative(extras);
  }

  // ---------------------------------------------------------------------------
  // Saving

  /**
   * The quote saved on submit. An edited quote keeps its id, status and creation
   * time (an empty id or creation time is replaced like a missing one); a new
   * quote takes `newId` and `now` and starts as a draft.
   */
  function BuildQuote(data: FormValues, editing: Option<Quote>, newId: string, now: string): (r: Quote)
    ensures editing.Some? && editing.value.id != "" ==> r.id == editing.value.id
    ensures editing.Some? ==> r.status == editing.value.status
    ensures editing.Some? && editing.value.createdAt != "" ==> r.createdAt == editing.value.createdAt
    ensures editing.Some? && editing.value.id == "" ==> r.id == newId
    ensures editing.Some? && editing.value.createdAt == "" ==> r.createdAt == now
    ensures editing.None? ==> r.id == newId && r.status == Draft && r.createdAt == now
    ensures r.name == data.name && r.parts == data.parts && r.machineId == data.machineId
    ensures r.tariffType == data.tariffType && r.peakHours == data.peakHours
    ensures r.clientName == if data.clientName.Some? then data.clientName.value else ""
    ensures r.notes == if data.notes.Some? then data.notes.value else ""
    ensures r.extraCosts == if data.extraCosts.Some? then data.extraCosts.value else []
    ensures r.designCost == OrZero(data.designCost)
    ensures r.printHours == DecimalPrintHours(data.printHours, data.printMinutes, data.printSeconds)
    ensures r.laborHours == DecimalLaborHours(data.laborHours, data.laborMinutes)
  {
    Quote(
      id := if editing.Some? && editing.value.id != "" then editing.value.id else newId,
      status := if editing.Some? then editing.value.status else Draft,
      createdAt := if editing.Some? && editing.value.createdAt != "" then editing.value.createdAt else now,
      name := data.name,
      clientName := data.clientName.GetOr(""),
      parts := data.parts,
      machineId := data.machineId,
      designCost := OrZero(data.designCost),
      printHours := DecimalPrintHours(data.printHours, data.printMinutes, data.printSeconds),
      tariffType := data.tariffType,
      peakHours := data.peakHours,
      laborHours := DecimalLaborHours(data.laborHours, data.laborMinutes),
      extraCosts := data.extraCosts.GetOr([]),
      notes := data.notes.GetOr(""))
  }

  /** Stores the saved quote: an edit replaces the entries carrying the edited quote's id, a new quote goes first. */
  function SaveQuote(quotes: seq<Quote>, editing: Option<Quote>, saved: Quote): (r: seq<Quote>)
    ensures editing.Some? ==> |r| == |quotes|
    ensures editing.Some? ==> forall i | 0 <= i < |quotes| ::
      (quotes[i].id == editing.value.id ==> r[i] == saved) && (quotes[i].id != editing.value.id ==> r[i] == quotes[i])
    ensures editing.None? ==> |r| == |quotes| + 1 && r[0] == saved && r[1..] == quotes
  {
    if editing.Some? then
      seq(|quotes|, i requires 0 <= i < |quotes| => if quotes[i].id == editing.value.id then saved else quotes[i])
    else
      [saved] + quotes
  }

  function QuoteId(q: Quote): string { q.id }

  /** Looking up a quote by id in the stored list (the first one carrying it). */
  function Lookup(quotes: seq<Quote>, id: string): Option<Quote> {
    Calculations.Find(quotes, QuoteId, Some(id))
  }

  /**
   * After saving, looking up the saved quote's id finds it, provided that for an
   * edit the id was in the list; lookups of every other id are unaffected.
   */
  lemma SaveThenLookup(quotes: seq<Quote>, editing: Option<Quote>, saved: Quote, other: string)
    requires editing.Some? ==> saved.id == editing.value.id && exists i | 0 <= i < |quotes| :: quotes[i].id == saved.id
    requires other != saved.id
    ensures Lookup(SaveQuote(quotes, editing, saved), saved.id) == Some(saved)
    ensures Lookup(SaveQuote(quotes, editing, saved), other) == Lookup(quotes, other)
  {
  }
}
