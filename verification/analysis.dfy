/** Token, cost and benchmark bookkeeping of the text analysis tool
    (`week1_project/text_analysis_tool/utils/analysis_feature.py`).
    Tokenizers and clocks are parameters; floats are reals, so the cost and
    rate arithmetic is exact here. */
module Analysis {
  import opened Wrappers
  import opened Text
  import opened Seqs
  import opened PlaceModels

  /** A word tokenizer (`nltk.word_tokenize`). */
  type Tokenize = string -> seq<string>

  /** Prices per million tokens. */
  datatype Rates = Rates(input: real, output: real)

  const GeminiRates: Rates := Rates(1.25, 10.00)

  const GptRates: Rates := Rates(1.25, 10.00)

  const Unsupported: string := "Unsupported model name for cost analysis."

  datatype CostAnalyzer = CostAnalyzer(modelName: string, rates: Rates)

  /** `CostAnalyzer(model_name)`: Gemini rates for a name mentioning
      "gemini", else GPT rates for one mentioning "gpt", else an error. */
  function NewCostAnalyzer(modelName: string): (r: Result<CostAnalyzer, string>)
    ensures r.Err? <==> !Contains(Lower(modelName), "gemini") && !Contains(Lower(modelName), "gpt")
    ensures r.Err? ==> r.error == Unsupported
    ensures r.Ok? ==> r.value.modelName == Lower(modelName)
    ensures r.Ok? && Contains(Lower(modelName), "gemini") ==> r.value.rates == GeminiRates
    ensures r.Ok? && !Contains(Lower(modelName), "gemini") ==> r.value.rates == GptRates
  {
    var name := Lower(modelName);
    if Contains(name, "gemini") then Ok(CostAnalyzer(name, GeminiRates))
    else if Contains(name, "gpt") then Ok(CostAnalyzer(name, GptRates))
    else Err(Unsupported)
  }

  /** `len(word_tokenize(text)) if text else 0`. */
  function TokenCount(text: string, tokenize: Tokenize): (n: nat)
    ensures text == [] ==> n == 0
    ensures text != [] ==> n == |tokenize(text)|
  {
    if text == [] then 0 else |tokenize(text)|
  }

  datatype CostReport = CostReport(inputTokens: nat, outputTokens: nat, totalCost: real)

  function Cost(tokens: nat, rate: real): real {
    (tokens as real / 1000000.0) * rate
  }

  /** `analyze_text_and_cost(input_text, output_text)`. */
  function AnalyzeTextAndCost(c: CostAnalyzer, input: string, output: string, tokenize: Tokenize): (r: CostReport)
    ensures r.inputTokens == TokenCount(input, tokenize) && r.outputTokens == TokenCount(output, tokenize)
    ensures r.totalCost * 1000000.0 == r.inputTokens as real * c.rates.input + r.outputTokens as real * c.rates.output
  {
    var inputCount := TokenCount(input, tokenize);
    var outputCount := TokenCount(output, tokenize);
    CostReport(inputCount, outputCount, Cost(inputCount, c.rates.input) + Cost(outputCount, c.rates.output))
  }

  /** Both families are priced alike, so the estimate does not depend on
      which supported model was named; it is zero for two empty texts and
      never negative. */
  lemma CostIndependentOfFamily(a: string, b: string, input: string, output: string, tokenize: Tokenize)
    requires NewCostAnalyzer(a).Ok? && NewCostAnalyzer(b).Ok?
    ensures AnalyzeTextAndCost(NewCostAnalyzer(a).value, input, output, tokenize).totalCost
         == AnalyzeTextAndCost(NewCostAnalyzer(b).value, input, output, tokenize).totalCost
    ensures AnalyzeTextAndCost(NewCostAnalyzer(a).value, input, output, tokenize).totalCost >= 0.0
    ensures AnalyzeTextAndCost(NewCostAnalyzer(a).value, "", "", tokenize).totalCost == 0.0
  {
  }

  /** The two sides are priced separately: the estimate for a pair is the
      estimate for the input alone plus the one for the output alone, and
      with a supported model more input tokens never cost less. */
  lemma CostSplitsBySide(name: string, input: string, more: string, output: string, tokenize: Tokenize)
    requires NewCostAnalyzer(name).Ok?
    requires TokenCount(input, tokenize) <= TokenCount(more, tokenize)
    ensures var c := NewCostAnalyzer(name).value;
            AnalyzeTextAndCost(c, input, output, tokenize).totalCost
              == AnalyzeTextAndCost(c, input, "", tokenize).totalCost + AnalyzeTextAndCost(c, "", output, tokenize).totalCost
    ensures var c := NewCostAnalyzer(name).value;
            AnalyzeTextAndCost(c, input, output, tokenize).totalCost <= AnalyzeTextAndCost(c, more, output, tokenize).totalCost
  {
    var c := NewCostAnalyzer(name).value;
    assert c.rates.input == 1.25;
    var a := TokenCount(input, tokenize) as real;
    var m := TokenCount(more, tokenize) as real;
    assert Cost(TokenCount(input, tokenize), c.rates.input) == a / 1000000.0 * 1.25;
    assert Cost(TokenCount(more, tokenize), c.rates.input) == m / 1000000.0 * 1.25;
  }

  // ---------------------------------------------------------------------
  // TextAnalyzer.analyze

  datatype Analysis = Analysis(modelName: string, tokenCount: Option<nat>, tokens: Option<seq<string>>, error: Option<string>)

  /** `TextAnalyzer(model_name).analyze(text)`, with the loaded tokenizer,
      which may raise, as a parameter. */
  function Analyze(modelName: string, text: string, tokenize: string -> Result<seq<string>, string>): (r: Analysis)
    ensures r.modelName == modelName
    ensures text == [] ==> r == Analysis(modelName, Some(0), Some([]), Some("Input text is empty."))
    ensures r.error.None? <==> text != [] && tokenize(text).Ok?
    ensures r.error.None? ==> r.tokens == Some(tokenize(text).value) && r.tokenCount == Some(|r.tokens.value|)
    ensures text != [] && tokenize(text).Err? ==>
              r.tokenCount.None? && r.tokens.None? && r.error == Some("Error during tokenization: " + tokenize(text).error)
  {
    if text == [] then Analysis(modelName, Some(0), Some([]), Some("Input text is empty."))
    else
      match tokenize(text)
      case Ok(tokens) => Analysis(modelName, Some(|tokens|), Some(tokens), None)
      case Err(e) => Analysis(modelName, None, None, Some("Error during tokenization: " + e))
  }

  /** The analyzer and the cost estimate count alike: with a tokenizer that
      does not fail and splits as the estimate's does, the analysis reports
      the estimate's count, the empty text included. */
  lemma AnalyzeAgreesWithTokenCount(modelName: string, text: string, tokenize: string -> Result<seq<string>, string>,
                                    words: Tokenize)
    requires text == [] || tokenize(text) == Ok(words(text))
    ensures Analyze(modelName, text, tokenize).tokenCount == Some(TokenCount(text, words))
  {
  }

  // ---------------------------------------------------------------------
  // ModelBenchmark

  /** The benchmark's fields; a time of 0 means the timer was not used. */
  datatype Benchmark = Benchmark(model: string, start: real, end: real, inputTokens: nat, outputTokens: nat)

  function NewBenchmark(model: string): (b: Benchmark)
    ensures b.model == model
    ensures b.start == 0.0 && b.end == 0.0 && b.inputTokens == 0 && b.outputTokens == 0
  {
    Benchmark(model, 0.0, 0.0, 0, 0)
  }

  /** `start_timer()` at clock reading `now`: nothing else changes. */
  function StartTimer(b: Benchmark, now: real): (r: Benchmark)
    ensures r.start == now
    ensures r.model == b.model && r.end == b.end && r.inputTokens == b.inputTokens && r.outputTokens == b.outputTokens
  {
    b.(start := now)
  }

  /** `stop_timer()` at clock reading `now`: nothing else changes. */
  function StopTimer(b: Benchmark, now: real): (r: Benchmark)
    ensures r.end == now
    ensures r.model == b.model && r.start == b.start && r.inputTokens == b.inputTokens && r.outputTokens == b.outputTokens
  {
    b.(end := now)
  }

  function RecordTokenCounts(b: Benchmark, input: string, output: string, tokenize: Tokenize): (r: Benchmark)
    ensures r.inputTokens == TokenCount(input, tokenize) && r.outputTokens == TokenCount(output, tokenize)
    ensures r.model == b.model && r.start == b.start && r.end == b.end
  {
    b.(inputTokens := TokenCount(input, tokenize), outputTokens := TokenCount(output, tokenize))
  }

  datatype Metrics = Metrics(
    model: string,
    totalTime: real,
    inputTokens: nat,
    outputTokens: nat,
    tokensPerSecond: real,
    inputTokensPerSecond: real,
    outputTokensPerSecond: real,
    latency: real)

  const NotCompleted: string := "Benchmark not completed. Call start_timer() and stop_timer() first."

  function PerSecond(count: nat, time: real): real {
    if time > 0.0 then count as real / time else 0.0
  }

  /** `get_metrics()`: rates per second over the measured time, or zero when
      that time is not positive. */
  function GetMetrics(b: Benchmark): (r: Result<Metrics, string>)
    ensures r.Err? <==> b.start == 0.0 || b.end == 0.0
    ensures r.Err? ==> r.error == NotCompleted
    ensures r.Ok? ==>
              && r.value.model == b.model
              && r.value.totalTime == b.end - b.start == r.value.latency
              && r.value.inputTokens == b.inputTokens && r.value.outputTokens == b.outputTokens
    ensures r.Ok? && r.value.totalTime > 0.0 ==>
              && r.value.tokensPerSecond * r.value.totalTime == (b.inputTokens + b.outputTokens) as real
              && r.value.inputTokensPerSecond * r.value.totalTime == b.inputTokens as real
              && r.value.outputTokensPerSecond * r.value.totalTime == b.outputTokens as real
    ensures r.Ok? && r.value.totalTime <= 0.0 ==>
              r.value.tokensPerSecond == r.value.inputTokensPerSecond == r.value.outputTokensPerSecond == 0.0
  {
    if b.start == 0.0 || b.end == 0.0 then Err(NotCompleted)
    else
      var total := b.end - b.start;
      Ok(Metrics(b.model, total, b.inputTokens, b.outputTokens,
                 PerSecond(b.inputTokens + b.outputTokens, total),
                 PerSecond(b.inputTokens, total), PerSecond(b.outputTokens, total), total))
  }

  /** The overall rate is the sum of the input and output rates. */
  lemma RatesAdd(b: Benchmark)
    requires GetMetrics(b).Ok?
    ensures var m := GetMetrics(b).value;
            m.tokensPerSecond == m.inputTokensPerSecond + m.outputTokensPerSecond
  {
    var total := b.end - b.start;
    if total > 0.0 {
      assert (b.inputTokens + b.outputTokens) as real / total
          == b.inputTokens as real / total + b.outputTokens as real / total;
    }
  }

  /** Starting and stopping the timer at nonzero clock readings is enough
      for metrics; skipping either is not. */
  lemma TimedRunCompletes(model: string, t0: real, t1: real, input: string, output: string, tokenize: Tokenize)
    ensures var b := StopTimer(StartTimer(RecordTokenCounts(NewBenchmark(model), input, output, tokenize), t0), t1);
            GetMetrics(b).Ok? <==> t0 != 0.0 && t1 != 0.0
    ensures GetMetrics(StopTimer(NewBenchmark(model), t1)).Err?
  {
  }

  // ---------------------------------------------------------------------
  // compare_benchmarks

  function TotalTime(m: Metrics): real {
    m.totalTime
  }

  const Rule: string := "============================================================"

  /** " (x% slower)" after every entry but the fastest. */
  function SpeedDiff(idx: nat, m: Metrics, fastest: real, fixed: FixedPoint): string
    requires idx == 1 || fastest != 0.0
  {
    if idx > 1 then " (" + fixed(((m.totalTime / fastest) - 1.0) * 100.0, 1) + "% slower)" else ""
  }

  /** The six report lines of entry number `idx`. */
  function EntryLines(idx: nat, m: Metrics, fastest: real, fixed: FixedPoint): (lines: seq<string>)
    requires idx == 1 || fastest != 0.0
    ensures |lines| == 6
    ensures lines[0] == "\n" + NatToString(idx) + ". " + m.model + ":"
    ensures lines[1] == "   Total Time: " + fixed(m.totalTime, 4) + "s" + SpeedDiff(idx, m, fastest, fixed)
    ensures lines[2] == "   Input Tokens: " + NatToString(m.inputTokens)
    ensures lines[3] == "   Output Tokens: " + NatToString(m.outputTokens)
    ensures lines[4] == "   Tokens/Second: " + fixed(m.tokensPerSecond, 2)
    ensures lines[5] == "   Latency: " + fixed(m.latency, 4) + "s"
  {
    [ "\n" + NatToString(idx) + ". " + m.model + ":",
      "   Total Time: " + fixed(m.totalTime, 4) + "s" + SpeedDiff(idx, m, fastest, fixed),
      "   Input Tokens: " + NatToString(m.inputTokens),
      "   Output Tokens: " + NatToString(m.outputTokens),
      "   Tokens/Second: " + fixed(m.tokensPerSecond, 2),
      "   Latency: " + fixed(m.latency, 4) + "s"]
  }

  /** The number and both token counts can be read back from an entry's
      lines: each is printed in full, in decimal. */
  lemma EntryLinesReadBack(idx: nat, m: Metrics, fastest: real, fixed: FixedPoint)
    requires idx == 1 || fastest != 0.0
    ensures var lines := EntryLines(idx, m, fastest, fixed);
            var number := lines[0][1..1 + |NatToString(idx)|];
            var input := lines[2][|"   Input Tokens: "|..];
            var output := lines[3][|"   Output Tokens: "|..];
            && AllDigits(number) && ParseDigits(number) == idx
            && AllDigits(input) && ParseDigits(input) == m.inputTokens
            && AllDigits(output) && ParseDigits(output) == m.outputTokens
  {
    var lines := EntryLines(idx, m, fastest, fixed);
    assert lines[0][1..1 + |NatToString(idx)|] == NatToString(idx);
    assert lines[2][|"   Input Tokens: "|..] == NatToString(m.inputTokens);
    assert lines[3][|"   Output Tokens: "|..] == NatToString(m.outputTokens);
    ParseNatToString(idx);
    ParseNatToString(m.inputTokens);
    ParseNatToString(m.outputTokens);
  }

  /** Behind a six-line head, the six-line groups of the rest sit one group
      further on. */
  lemma BlockShift(head: seq<string>, rest: seq<string>)
    requires |head| == 6
    ensures (head + rest)[..6] == head
    ensures forall j :: 0 <= j && 6 * j + 6 <= |rest| ==> (head + rest)[6 * (j + 1)..6 * (j + 1) + 6] == rest[6 * j..6 * j + 6]
  {
  }

  /** The entries' lines one after another, six per entry from `from` on. */
  function EntryBlock(sorted: seq<Metrics>, fastest: real, fixed: FixedPoint, from: nat): (lines: seq<string>)
    requires from <= |sorted|
    requires |sorted| <= 1 || fastest != 0.0
    ensures |lines| == 6 * (|sorted| - from)
    ensures forall k :: from <= k < |sorted| ==>
              lines[6 * (k - from)..6 * (k - from) + 6] == EntryLines(k + 1, sorted[k], fastest, fixed)
    decreases |sorted| - from
  {
    if from == |sorted| then []
    else
      var head := EntryLines(from + 1, sorted[from], fastest, fixed);
      var rest := EntryBlock(sorted, fastest, fixed, from + 1);
      BlockShift(head, rest);
      head + rest
  }

  function ReportLines(sorted: seq<Metrics>, fixed: FixedPoint): (lines: seq<string>)
    requires sorted != [] && (|sorted| == 1 || sorted[0].totalTime != 0.0)
  {
    ["\n" + Rule, "MODEL PERFORMANCE COMPARISON", Rule]
    + EntryBlock(sorted, sorted[0].totalTime, fixed, 0)
    + ["\n" + Rule]
  }

  const NothingToCompare: string := "No benchmark results to compare."

  /** `compare_benchmarks(benchmarks)`. The slowdown divides by the fastest
      time, so a fastest time of zero with more than one entry raises. */
  function CompareBenchmarks(benchmarks: seq<Metrics>, fixed: FixedPoint): (r: Result<string, string>)
    ensures benchmarks == [] ==> r == Ok(NothingToCompare)
    ensures r.Err? <==> |benchmarks| > 1 && SortBy(benchmarks, TotalTime)[0].totalTime == 0.0
  {
    if benchmarks == [] then Ok(NothingToCompare)
    else
      var sorted := SortBy(benchmarks, TotalTime);
      if |sorted| > 1 && sorted[0].totalTime == 0.0 then Err("ZeroDivisionError")
      else Ok(Join(ReportLines(sorted, fixed), "\n"))
  }

  /** Where each entry's number and time sit in the report lines. */
  lemma ReportLinesLayout(sorted: seq<Metrics>, fixed: FixedPoint)
    requires sorted != [] && (|sorted| == 1 || sorted[0].totalTime != 0.0)
    ensures var lines := ReportLines(sorted, fixed);
            && |lines| == 6 * |sorted| + 4
            && lines[1] == "MODEL PERFORMANCE COMPARISON"
            && forall k :: 0 <= k < |sorted| ==>
                 && lines[3 + 6 * k] == "\n" + NatToString(k + 1) + ". " + sorted[k].model + ":"
                 && lines[4 + 6 * k] == "   Total Time: " + fixed(sorted[k].totalTime, 4) + "s"
                                        + SpeedDiff(k + 1, sorted[k], sorted[0].totalTime, fixed)
  {
    var block := EntryBlock(sorted, sorted[0].totalTime, fixed, 0);
    var lines := ReportLines(sorted, fixed);
    forall k | 0 <= k < |sorted|
      ensures lines[3 + 6 * k] == "\n" + NatToString(k + 1) + ". " + sorted[k].model + ":"
      ensures lines[4 + 6 * k] == "   Total Time: " + fixed(sorted[k].totalTime, 4) + "s"
                                  + SpeedDiff(k + 1, sorted[k], sorted[0].totalTime, fixed)
    {
      var entry := block[6 * k..6 * k + 6];
      assert entry == EntryLines(k + 1, sorted[k], sorted[0].totalTime, fixed);
      assert lines[3 + 6 * k] == block[6 * k] == entry[0];
      assert lines[4 + 6 * k] == block[6 * k + 1] == entry[1];
    }
  }

  /** The report's layout: three heading lines, six lines per entry in
      ascending order of total time (ties in input order), numbered from 1,
      where only the entries after the fastest carry a slowdown. */
  lemma ReportLayout(benchmarks: seq<Metrics>, fixed: FixedPoint)
    requires benchmarks != []
    requires var sorted := SortBy(benchmarks, TotalTime); |sorted| == 1 || sorted[0].totalTime != 0.0
    ensures var sorted := SortBy(benchmarks, TotalTime);
            var lines := ReportLines(sorted, fixed);
            && CompareBenchmarks(benchmarks, fixed) == Ok(Join(lines, "\n"))
            && multiset(sorted) == multiset(benchmarks)
            && SortedBy(sorted, TotalTime) && SameOrderPerKey(sorted, benchmarks, TotalTime)
            && |lines| == 6 * |benchmarks| + 4
            && lines[1] == "MODEL PERFORMANCE COMPARISON"
            && forall k :: 0 <= k < |sorted| ==>
                 && lines[3 + 6 * k] == "\n" + NatToString(k + 1) + ". " + sorted[k].model + ":"
                 && lines[4 + 6 * k] == "   Total Time: " + fixed(sorted[k].totalTime, 4) + "s"
                                        + SpeedDiff(k + 1, sorted[k], sorted[0].totalTime, fixed)
                 && (SpeedDiff(k + 1, sorted[k], sorted[0].totalTime, fixed) == "" <==> k == 0)
  {
    var sorted := SortBy(benchmarks, TotalTime);
    SortBySorted(benchmarks, TotalTime);
    SortByStable(benchmarks, TotalTime);
    ReportLinesLayout(sorted, fixed);
  }

  /** Two runs where the faster took no measurable time make the report
      raise instead of printing. */
  lemma ZeroTimeRaises(a: Metrics, b: Metrics, fixed: FixedPoint)
    requires a.totalTime == 0.0 && b.totalTime > 0.0
    ensures CompareBenchmarks([b, a], fixed).Err?
  {
    SortBySorted([b, a], TotalTime);
    var sorted := SortBy([b, a], TotalTime);
    assert multiset(sorted) == multiset([b, a]);
    assert a in multiset(sorted);
  }
}
