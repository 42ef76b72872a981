/**
  The pricing engine: for every selected model, the cost of one run over
  all prompts (two LLM passes plus the web search calls), and of a month of
  runs at the chosen frequency; then the totals over the selection.
  Amounts are exact real numbers.
 */
module Pricing {
  import opened Catalog
  import opened Selection

  /** The share of prompts that use web search, as set on the 0..100 slider. */
  type Percent = w: int | 0 <= w <= 100

  /** The four token costs of one run of one model. */
  datatype CostBreakdown = CostBreakdown(
    pass1Input: real, pass1Output: real, pass2Input: real, pass2Output: real)

  /** The cost of one selected model. */
  datatype Calculation = Calculation(
    modelKey: ModelKey,
    model: ModelDefinition,
    pass1Total: real,
    pass2Total: real,
    webSearchTotal: real,
    totalPerRun: real,
    totalMonthly: real,
    breakdown: CostBreakdown)

  /**
    The cost of one run, and of `runsPerMonth` runs, of the table entry
    `model` stored under `modelKey`, over `promptCount` prompts.
   */
  function CalculateFor(modelKey: ModelKey, model: ModelDefinition, promptCount: nat,
                        webSearchPercent: Percent, runsPerMonth: nat): (c: Calculation)
    ensures c.modelKey == modelKey && c.model == model
  {
    var prompts := promptCount as real;

    var pass1InputCost := (prompts * AvgTokens.pass1Input / 1000000.0) * model.input;
    var pass1OutputCost := (prompts * AvgTokens.pass1Output / 1000000.0) * model.output;
    var pass1Total := pass1InputCost + pass1OutputCost;

    var pass2InputCost := (prompts * AvgTokens.pass2Input / 1000000.0) * model.pass2Input;
    var pass2OutputCost := (prompts * AvgTokens.pass2Output / 1000000.0) * model.pass2Output;
    var pass2Total := pass2InputCost + pass2OutputCost;

    var webSearchCalls := prompts * (webSearchPercent as real / 100.0);
    var webSearchTotal := (webSearchCalls / 1000.0) * model.webSearchCost;

    var totalPerRun := pass1Total + pass2Total + webSearchTotal;
    var totalMonthly := totalPerRun * runsPerMonth as real;

    Calculation(modelKey, model, pass1Total, pass2Total, webSearchTotal, totalPerRun, totalMonthly,
      CostBreakdown(pass1InputCost, pass1OutputCost, pass2InputCost, pass2OutputCost))
  }

  /** The cost of model `k`, priced from its entry in the table. */
  function Calculate(promptCount: nat, webSearchPercent: Percent, runsPerMonth: nat, k: ModelKey): (c: Calculation)
    ensures c.modelKey == k && c.model == Models(k) && c.model.provider == ProviderOf(k)
  {
    CalculateFor(k, Models(k), promptCount, webSearchPercent, runsPerMonth)
  }

  /** One calculation per selected key, in selection order, at the frequency's runs per month. */
  function Calculations(selected: seq<ModelKey>, promptCount: nat, webSearchPercent: Percent,
                        frequency: FrequencyKey): (cs: seq<Calculation>)
    ensures |cs| == |selected|
    ensures forall i :: 0 <= i < |cs| ==> cs[i].modelKey == selected[i]
  {
    var runsPerMonth := Frequencies(frequency).runsPerMonth;
    seq(|selected|, i requires 0 <= i < |selected| =>
      Calculate(promptCount, webSearchPercent, runsPerMonth, selected[i]))
  }

  /**
    Every calculation of `cs` has a non-negative run cost, written as a
    recursion from the end like the sums below (see RunCostsNonNegativeAll
    for the quantified form).
   */
  predicate RunCostsNonNegative(cs: seq<Calculation>)
    decreases |cs|
  {
    cs == [] || (RunCostsNonNegative(cs[..|cs| - 1]) && cs[|cs| - 1].totalPerRun >= 0.0)
  }

  /**
    Every calculation of `cs` has a non-negative monthly cost (see
    MonthlyCostsNonNegativeAll for the quantified form).
   */
  predicate MonthlyCostsNonNegative(cs: seq<Calculation>)
    decreases |cs|
  {
    cs == [] || (MonthlyCostsNonNegative(cs[..|cs| - 1]) && cs[|cs| - 1].totalMonthly >= 0.0)
  }

  lemma {:induction false} RunCostsNonNegativeAll(cs: seq<Calculation>)
    ensures RunCostsNonNegative(cs) <==> forall i :: 0 <= i < |cs| ==> cs[i].totalPerRun >= 0.0
    decreases |cs|
  {
    if cs != [] {
      var front := cs[..|cs| - 1];
      assert forall i :: 0 <= i < |front| ==> front[i] == cs[i];
      RunCostsNonNegativeAll(front);
    }
  }

  lemma {:induction false} MonthlyCostsNonNegativeAll(cs: seq<Calculation>)
    ensures MonthlyCostsNonNegative(cs) <==> forall i :: 0 <= i < |cs| ==> cs[i].totalMonthly >= 0.0
    decreases |cs|
  {
    if cs != [] {
      var front := cs[..|cs| - 1];
      assert forall i :: 0 <= i < |front| ==> front[i] == cs[i];
      MonthlyCostsNonNegativeAll(front);
    }
  }

  /** The per-run total over the calculations, summed from the left: a sum of non-negatives is non-negative. */
  function GrandTotalPerRun(cs: seq<Calculation>): (r: real)
    ensures RunCostsNonNegative(cs) ==> r >= 0.0
    decreases |cs|
  {
    if cs == [] then 0.0 else GrandTotalPerRun(cs[..|cs| - 1]) + cs[|cs| - 1].totalPerRun
  }

  /** The monthly total over the calculations, summed from the left: a sum of non-negatives is non-negative. */
  function GrandTotalMonthly(cs: seq<Calculation>): (r: real)
    ensures MonthlyCostsNonNegative(cs) ==> r >= 0.0
    decreases |cs|
  {
    if cs == [] then 0.0 else GrandTotalMonthly(cs[..|cs| - 1]) + cs[|cs| - 1].totalMonthly
  }

  // ---------------------------------------------------------------------
  // Per-model costs

  /** Dollars per prompt for the first pass of `m`. */
  function Pass1PerPrompt(m: ModelDefinition): (r: real) {
    (AvgTokens.pass1Input * m.input + AvgTokens.pass1Output * m.output) / 1000000.0
  }

  /** Dollars per prompt for the second pass of `m`: only its second-pass prices enter. */
  function Pass2PerPrompt(m: ModelDefinition): (r: real) {
    (AvgTokens.pass2Input * m.pass2Input + AvgTokens.pass2Output * m.pass2Output) / 1000000.0
  }

  /** Dollars per prompt for web search, billed per thousand calls. */
  function WebSearchPerPrompt(m: ModelDefinition, webSearchPercent: Percent): (r: real) {
    (webSearchPercent as real / 100.0) * m.webSearchCost / 1000.0
  }

  /**
    Every cost is the prompt count times a per-prompt price; the run total
    is the sum of the three passes and the monthly total is that many runs.
   */
  lemma CostIsPerPromptPrice(k: ModelKey, m: ModelDefinition, promptCount: nat,
                             webSearchPercent: Percent, runsPerMonth: nat)
    ensures var c := CalculateFor(k, m, promptCount, webSearchPercent, runsPerMonth);
      var p := promptCount as real;
      && c.pass1Total == p * Pass1PerPrompt(m)
      && c.pass2Total == p * Pass2PerPrompt(m)
      && c.webSearchTotal == p * WebSearchPerPrompt(m, webSearchPercent)
      && c.totalPerRun == c.pass1Total + c.pass2Total + c.webSearchTotal
      && c.totalMonthly == c.totalPerRun * runsPerMonth as real
      && c.pass1Total == c.breakdown.pass1Input + c.breakdown.pass1Output
      && c.pass2Total == c.breakdown.pass2Input + c.breakdown.pass2Output
  {
  }

  /** Every cost is additive in the prompt count. */
  lemma CostIsAdditive(k: ModelKey, m: ModelDefinition, p: nat, q: nat,
                       webSearchPercent: Percent, runsPerMonth: nat)
    ensures var cp := CalculateFor(k, m, p, webSearchPercent, runsPerMonth);
      var cq := CalculateFor(k, m, q, webSearchPercent, runsPerMonth);
      var c := CalculateFor(k, m, p + q, webSearchPercent, runsPerMonth);
      && c.pass1Total == cp.pass1Total + cq.pass1Total
      && c.pass2Total == cp.pass2Total + cq.pass2Total
      && c.webSearchTotal == cp.webSearchTotal + cq.webSearchTotal
      && c.totalPerRun == cp.totalPerRun + cq.totalPerRun
      && c.totalMonthly == cp.totalMonthly + cq.totalMonthly
  {
  }

  /** Every cost is the prompt count times the cost of a single prompt. */
  lemma CostIsProportional(k: ModelKey, m: ModelDefinition, p: nat,
                           webSearchPercent: Percent, runsPerMonth: nat)
    ensures var c1 := CalculateFor(k, m, 1, webSearchPercent, runsPerMonth);
      var c := CalculateFor(k, m, p, webSearchPercent, runsPerMonth);
      && c.pass1Total == p as real * c1.pass1Total
      && c.pass2Total == p as real * c1.pass2Total
      && c.webSearchTotal == p as real * c1.webSearchTotal
      && c.totalPerRun == p as real * c1.totalPerRun
      && c.totalMonthly == p as real * c1.totalMonthly
  {
  }

  /** No prompts cost nothing. */
  lemma ZeroPromptsCostNothing(k: ModelKey, m: ModelDefinition, webSearchPercent: Percent, runsPerMonth: nat)
    ensures var c := CalculateFor(k, m, 0, webSearchPercent, runsPerMonth);
      && c.breakdown == CostBreakdown(0.0, 0.0, 0.0, 0.0)
      && c.pass1Total == 0.0 && c.pass2Total == 0.0 && c.webSearchTotal == 0.0
      && c.totalPerRun == 0.0 && c.totalMonthly == 0.0
  {
  }

  /** Without web search there is no web search cost, exactly, and the run is the two passes. */
  lemma NoWebSearchCostsNothing(k: ModelKey, m: ModelDefinition, promptCount: nat, runsPerMonth: nat)
    ensures var c := CalculateFor(k, m, promptCount, 0, runsPerMonth);
      c.webSearchTotal == 0.0 && c.totalPerRun == c.pass1Total + c.pass2Total
  {
  }

  /**
    With web search on every prompt there is one call per prompt; any
    other share costs no more than that.
   */
  lemma WebSearchAtMostOneCallPerPrompt(k: ModelKey, m: ModelDefinition, promptCount: nat,
                                        webSearchPercent: Percent, runsPerMonth: nat)
    requires m.webSearchCost >= 0.0
    ensures CalculateFor(k, m, promptCount, 100, runsPerMonth).webSearchTotal
         == (promptCount as real / 1000.0) * m.webSearchCost
    ensures CalculateFor(k, m, promptCount, webSearchPercent, runsPerMonth).webSearchTotal
         <= CalculateFor(k, m, promptCount, 100, runsPerMonth).webSearchTotal
  {
    var calls := promptCount as real * (webSearchPercent as real / 100.0);
    MulMonotone(promptCount as real, webSearchPercent as real / 100.0, 1.0);
    MulMonotone(m.webSearchCost, calls / 1000.0, promptCount as real / 1000.0);
  }

  lemma MulMonotone(a: real, x: real, y: real)
    requires a >= 0.0 && x <= y
    ensures a * x <= a * y && x * a <= y * a
  {
  }

  lemma MulNonNegative(a: real, b: real)
    requires a >= 0.0 && b >= 0.0
    ensures a * b >= 0.0
  {
  }

  lemma MulDistributes(a: real, b: real, x: real)
    ensures (a + b) * x == a * x + b * x
  {
  }

  /** With non-negative prices, every cost is non-negative. */
  lemma CostsAreNonNegative(k: ModelKey, m: ModelDefinition, promptCount: nat,
                            webSearchPercent: Percent, runsPerMonth: nat)
    requires PricesNonNegative(m)
    ensures var c := CalculateFor(k, m, promptCount, webSearchPercent, runsPerMonth);
      && c.breakdown.pass1Input >= 0.0 && c.breakdown.pass1Output >= 0.0
      && c.breakdown.pass2Input >= 0.0 && c.breakdown.pass2Output >= 0.0
      && c.pass1Total >= 0.0 && c.pass2Total >= 0.0 && c.webSearchTotal >= 0.0
      && c.totalPerRun >= 0.0 && c.totalMonthly >= 0.0
  {
    var p := promptCount as real;
    var c := CalculateFor(k, m, promptCount, webSearchPercent, runsPerMonth);
    MulNonNegative(p * AvgTokens.pass1Input / 1000000.0, m.input);
    MulNonNegative(p * AvgTokens.pass1Output / 1000000.0, m.output);
    MulNonNegative(p * AvgTokens.pass2Input / 1000000.0, m.pass2Input);
    MulNonNegative(p * AvgTokens.pass2Output / 1000000.0, m.pass2Output);
    MulNonNegative(p, webSearchPercent as real / 100.0);
    MulNonNegative(p * (webSearchPercent as real / 100.0) / 1000.0, m.webSearchCost);
    MulNonNegative(c.totalPerRun, runsPerMonth as real);
  }

  /**
    The second pass is priced from the second-pass prices alone, and the
    first pass from the first-pass prices alone.
   */
  lemma PassesUseTheirOwnPrices(k1: ModelKey, m1: ModelDefinition, k2: ModelKey, m2: ModelDefinition,
                                promptCount: nat, webSearchPercent: Percent, runsPerMonth: nat)
    ensures var c1 := CalculateFor(k1, m1, promptCount, webSearchPercent, runsPerMonth);
      var c2 := CalculateFor(k2, m2, promptCount, webSearchPercent, runsPerMonth);
      && (m1.pass2Input == m2.pass2Input && m1.pass2Output == m2.pass2Output
          ==> c1.pass2Total == c2.pass2Total)
      && (m1.input == m2.input && m1.output == m2.output
          ==> c1.pass1Total == c2.pass1Total)
      && (m1.webSearchCost == m2.webSearchCost
          ==> c1.webSearchTotal == c2.webSearchTotal)
  {
    CostIsPerPromptPrice(k1, m1, promptCount, webSearchPercent, runsPerMonth);
    CostIsPerPromptPrice(k2, m2, promptCount, webSearchPercent, runsPerMonth);
  }

  /**
    Models that hand their second pass to the same model pay the same for
    it, and that is what the second-pass model pays for its own second pass.
   */
  lemma SamePass2ModelSamePass2Cost(promptCount: nat, webSearchPercent: Percent, runsPerMonth: nat,
                                    k1: ModelKey, k2: ModelKey)
    requires Models(k1).pass2Model == Models(k2).pass2Model
    ensures Calculate(promptCount, webSearchPercent, runsPerMonth, k1).pass2Total
         == Calculate(promptCount, webSearchPercent, runsPerMonth, k2).pass2Total
    ensures Calculate(promptCount, webSearchPercent, runsPerMonth, k1).pass2Total
         == Calculate(promptCount, webSearchPercent, runsPerMonth, Models(k1).pass2Model).pass2Total
  {
    Pass2ModelIsConsistent(k1);
    Pass2ModelIsConsistent(k2);
    var k3 := Models(k1).pass2Model;
    PassesUseTheirOwnPrices(k1, Models(k1), k2, Models(k2), promptCount, webSearchPercent, runsPerMonth);
    PassesUseTheirOwnPrices(k1, Models(k1), k3, Models(k3), promptCount, webSearchPercent, runsPerMonth);
  }

  // ---------------------------------------------------------------------
  // Totals

  lemma {:induction false} GrandTotalsAppend(a: seq<Calculation>, b: seq<Calculation>)
    ensures GrandTotalPerRun(a + b) == GrandTotalPerRun(a) + GrandTotalPerRun(b)
    ensures GrandTotalMonthly(a + b) == GrandTotalMonthly(a) + GrandTotalMonthly(b)
    decreases |b|
  {
    if b == [] {
      assert a + b == a;
    } else {
      var b' := b[..|b| - 1];
      assert (a + b)[..|a + b| - 1] == a + b';
      GrandTotalsAppend(a, b');
    }
  }

  lemma CalculationsAppend(a: seq<ModelKey>, b: seq<ModelKey>, promptCount: nat,
                           webSearchPercent: Percent, frequency: FrequencyKey)
    ensures Calculations(a + b, promptCount, webSearchPercent, frequency)
         == Calculations(a, promptCount, webSearchPercent, frequency)
          + Calculations(b, promptCount, webSearchPercent, frequency)
  {
    var ca := Calculations(a, promptCount, webSearchPercent, frequency);
    var cb := Calculations(b, promptCount, webSearchPercent, frequency);
    var c := Calculations(a + b, promptCount, webSearchPercent, frequency);
    forall i | 0 <= i < |c| ensures c[i] == (ca + cb)[i] {
      if i < |a| { assert (a + b)[i] == a[i]; } else { assert (a + b)[i] == b[i - |a|]; }
    }
  }

  /** An empty selection costs nothing. */
  lemma EmptySelectionCostsNothing(promptCount: nat, webSearchPercent: Percent, frequency: FrequencyKey)
    ensures var cs := Calculations([], promptCount, webSearchPercent, frequency);
      cs == [] && GrandTotalPerRun(cs) == 0.0 && GrandTotalMonthly(cs) == 0.0
  {
  }

  /** The monthly cost of `c` is `runsPerMonth` runs. */
  predicate MonthlyIsRuns(c: Calculation, runsPerMonth: real) {
    c.totalMonthly == c.totalPerRun * runsPerMonth
  }

  lemma {:induction false} GrandTotalMonthlyScales(cs: seq<Calculation>, runsPerMonth: real)
    requires forall i :: 0 <= i < |cs| ==> MonthlyIsRuns(cs[i], runsPerMonth)
    ensures GrandTotalMonthly(cs) == GrandTotalPerRun(cs) * runsPerMonth
    decreases |cs|
  {
    if cs != [] {
      var front := cs[..|cs| - 1];
      var last := cs[|cs| - 1];
      assert forall i :: 0 <= i < |front| ==> front[i] == cs[i];
      GrandTotalMonthlyScales(front, runsPerMonth);
      assert MonthlyIsRuns(last, runsPerMonth);
      var perRun := GrandTotalPerRun(front);
      var monthly := GrandTotalMonthly(front);
      assert GrandTotalPerRun(cs) == perRun + last.totalPerRun;
      assert GrandTotalMonthly(cs) == monthly + last.totalMonthly;
      MulDistributes(perRun, last.totalPerRun, runsPerMonth);
    }
  }

  lemma CalculationsMonthlyIsRuns(selected: seq<ModelKey>, promptCount: nat,
                                  webSearchPercent: Percent, frequency: FrequencyKey)
    ensures var cs := Calculations(selected, promptCount, webSearchPercent, frequency);
      forall i :: 0 <= i < |cs| ==> MonthlyIsRuns(cs[i], Frequencies(frequency).runsPerMonth as real)
  {
    var runsPerMonth := Frequencies(frequency).runsPerMonth;
    var cs := Calculations(selected, promptCount, webSearchPercent, frequency);
    forall i | 0 <= i < |cs| ensures MonthlyIsRuns(cs[i], runsPerMonth as real) {
      var k := selected[i];
      assert cs[i] == CalculateFor(k, Models(k), promptCount, webSearchPercent, runsPerMonth);
      CostIsPerPromptPrice(k, Models(k), promptCount, webSearchPercent, runsPerMonth);
    }
  }

  /** The monthly grand total is the per-run grand total times the runs per month. */
  lemma GrandTotalMonthlyIsRunsTimesPerRun(selected: seq<ModelKey>, promptCount: nat,
                                           webSearchPercent: Percent, frequency: FrequencyKey)
    ensures var cs := Calculations(selected, promptCount, webSearchPercent, frequency);
      GrandTotalMonthly(cs) == GrandTotalPerRun(cs) * Frequencies(frequency).runsPerMonth as real
  {
    CalculationsMonthlyIsRuns(selected, promptCount, webSearchPercent, frequency);
    GrandTotalMonthlyScales(Calculations(selected, promptCount, webSearchPercent, frequency),
      Frequencies(frequency).runsPerMonth as real);
  }

  /** The grand totals are non-negative. */
  lemma {:induction false} GrandTotalsAreNonNegative(selected: seq<ModelKey>, promptCount: nat,
                                                     webSearchPercent: Percent, frequency: FrequencyKey)
    ensures var cs := Calculations(selected, promptCount, webSearchPercent, frequency);
      GrandTotalPerRun(cs) >= 0.0 && GrandTotalMonthly(cs) >= 0.0
    decreases |selected|
  {
    if selected != [] {
      var n := |selected|;
      var front := selected[..n - 1];
      assert selected == front + [selected[n - 1]];
      CalculationsAppend(front, [selected[n - 1]], promptCount, webSearchPercent, frequency);
      var cs := Calculations(selected, promptCount, webSearchPercent, frequency);
      assert cs[..n - 1] == Calculations(front, promptCount, webSearchPercent, frequency);
      GrandTotalsAreNonNegative(front, promptCount, webSearchPercent, frequency);
      CostsAreNonNegative(selected[n - 1], Models(selected[n - 1]), promptCount, webSearchPercent,
        Frequencies(frequency).runsPerMonth);
    }
  }

  /** With no prompts, any selection costs nothing. */
  lemma {:induction false} ZeroPromptsGrandTotals(selected: seq<ModelKey>, webSearchPercent: Percent, frequency: FrequencyKey)
    ensures var cs := Calculations(selected, 0, webSearchPercent, frequency);
      GrandTotalPerRun(cs) == 0.0 && GrandTotalMonthly(cs) == 0.0
    decreases |selected|
  {
    if selected != [] {
      var n := |selected|;
      var front := selected[..n - 1];
      assert selected == front + [selected[n - 1]];
      CalculationsAppend(front, [selected[n - 1]], 0, webSearchPercent, frequency);
      var cs := Calculations(selected, 0, webSearchPercent, frequency);
      assert cs[..n - 1] == Calculations(front, 0, webSearchPercent, frequency);
      ZeroPromptsGrandTotals(front, webSearchPercent, frequency);
      ZeroPromptsCostNothing(selected[n - 1], Models(selected[n - 1]), webSearchPercent,
        Frequencies(frequency).runsPerMonth);
    }
  }

  // ---------------------------------------------------------------------
  // Totals across a click

  /** The per-run cost of model `k` at the given inputs. */
  function RunCost(promptCount: nat, webSearchPercent: Percent, frequency: FrequencyKey, k: ModelKey): (r: real) {
    Calculate(promptCount, webSearchPercent, Frequencies(frequency).runsPerMonth, k).totalPerRun
  }

  /** The per-run grand total of a selection at the given inputs. */
  function SelectionCost(selected: seq<ModelKey>, promptCount: nat, webSearchPercent: Percent,
                         frequency: FrequencyKey): (r: real) {
    GrandTotalPerRun(Calculations(selected, promptCount, webSearchPercent, frequency))
  }

  /** Cutting position `i` out of a selection takes that model's cost off the total. */
  lemma SelectionCostWithout(s: seq<ModelKey>, i: nat, promptCount: nat, webSearchPercent: Percent,
                             frequency: FrequencyKey)
    requires i < |s|
    ensures SelectionCost(s[..i] + s[i + 1..], promptCount, webSearchPercent, frequency)
         == SelectionCost(s, promptCount, webSearchPercent, frequency)
          - RunCost(promptCount, webSearchPercent, frequency, s[i])
  {
    var a, b := s[..i], s[i + 1..];
    assert s == a + [s[i]] + b;
    CalculationsAppend(a + [s[i]], b, promptCount, webSearchPercent, frequency);
    CalculationsAppend(a, [s[i]], promptCount, webSearchPercent, frequency);
    CalculationsAppend(a, b, promptCount, webSearchPercent, frequency);
    var ca := Calculations(a, promptCount, webSearchPercent, frequency);
    var ck := Calculations([s[i]], promptCount, webSearchPercent, frequency);
    var cb := Calculations(b, promptCount, webSearchPercent, frequency);
    GrandTotalsAppend(ca + ck, cb);
    GrandTotalsAppend(ca, ck);
    GrandTotalsAppend(ca, cb);
    assert ck[..0] == [];
  }

  /** Clicking a key of a provider with nothing selected adds that model's cost to the total. */
  lemma ToggleNewProviderAddsCost(prev: seq<ModelKey>, k: ModelKey, promptCount: nat,
                                  webSearchPercent: Percent, frequency: FrequencyKey)
    requires forall m :: m in prev ==> ProviderOf(m) != ProviderOf(k)
    ensures SelectionCost(Toggle(prev, k), promptCount, webSearchPercent, frequency)
         == SelectionCost(prev, promptCount, webSearchPercent, frequency)
          + RunCost(promptCount, webSearchPercent, frequency, k)
  {
    ToggleNewProviderGrows(prev, k);
    CalculationsAppend(prev, [k], promptCount, webSearchPercent, frequency);
    var cs := Calculations(prev + [k], promptCount, webSearchPercent, frequency);
    assert cs[..|cs| - 1] == Calculations(prev, promptCount, webSearchPercent, frequency);
  }

  /** Deselecting a key of a duplicate-free selection takes its cost off the total. */
  lemma ToggleDeselectRemovesCost(prev: seq<ModelKey>, k: ModelKey, promptCount: nat,
                                  webSearchPercent: Percent, frequency: FrequencyKey)
    requires Distinct(prev) && k in prev
    ensures SelectionCost(Toggle(prev, k), promptCount, webSearchPercent, frequency)
         == SelectionCost(prev, promptCount, webSearchPercent, frequency)
          - RunCost(promptCount, webSearchPercent, frequency, k)
  {
    var i :| 0 <= i < |prev| && prev[i] == k;
    ToggleDeselect(prev, k, i);
    SelectionCostWithout(prev, i, promptCount, webSearchPercent, frequency);
  }

  /** Replacing the selected model of a provider swaps the two models' costs in the total. */
  lemma ToggleReplaceSwapsCost(prev: seq<ModelKey>, k: ModelKey, i: nat, promptCount: nat,
                               webSearchPercent: Percent, frequency: FrequencyKey)
    requires OnePerProvider(prev)
    requires i < |prev| && prev[i] != k && ProviderOf(prev[i]) == ProviderOf(k)
    ensures SelectionCost(Toggle(prev, k), promptCount, webSearchPercent, frequency)
         == SelectionCost(prev, promptCount, webSearchPercent, frequency)
          - RunCost(promptCount, webSearchPercent, frequency, prev[i])
          + RunCost(promptCount, webSearchPercent, frequency, k)
  {
    ToggleReplace(prev, k, i);
    var rest := prev[..i] + prev[i + 1..];
    SelectionCostWithout(prev, i, promptCount, webSearchPercent, frequency);
    CalculationsAppend(rest, [k], promptCount, webSearchPercent, frequency);
    var cs := Calculations(rest + [k], promptCount, webSearchPercent, frequency);
    assert cs[..|cs| - 1] == Calculations(rest, promptCount, webSearchPercent, frequency);
  }

  // ---------------------------------------------------------------------
  // The initial state

  /**
    The page's initial inputs: GPT-5 Nano alone, 100 prompts, web search on
    every prompt, weekly refresh.
   */
  lemma InitialEstimate()
    ensures var cs := Calculations(InitialSelection, 100, 100, Weekly);
      && |cs| == 1
      && cs[0].breakdown == CostBreakdown(0.00025, 0.02, 0.015, 0.02)
      && cs[0].pass1Total == 0.02025
      && cs[0].pass2Total == 0.035
      && cs[0].webSearchTotal == 1.0
      && cs[0].totalPerRun == 1.05525
      && cs[0].totalMonthly == 4.221
      && GrandTotalPerRun(cs) == 1.05525
      && GrandTotalMonthly(cs) == 4.221
  {
    var cs := Calculations(InitialSelection, 100, 100, Weekly);
    assert cs[..0] == [];
  }
}
