/**
 * The usage accumulator: running totals of prompt tokens, completion
 * tokens and calls, and a cost derived from them and from the prices
 * the settings hold at the moment the cost is asked for.
 *
 * Python's floats are modelled as exact reals; `round(cost, 2)` and the
 * text summary are left out.
 */
module TokenTracker {
  import opened Wrappers
  import opened Settings

  /** Sum of the prompt-token arguments of a run of updates. */
  function PromptTotal(updates: seq<(int, int)>): int {
    if updates == [] then 0 else PromptTotal(updates[..|updates| - 1]) + updates[|updates| - 1].0
  }

  /** Sum of the completion-token arguments of a run of updates. */
  function CompletionTotal(updates: seq<(int, int)>): int {
    if updates == [] then 0 else CompletionTotal(updates[..|updates| - 1]) + updates[|updates| - 1].1
  }

  /** The totals of two runs of updates, one after the other, add up. */
  lemma {:induction false} TotalsOfConcatenation(a: seq<(int, int)>, b: seq<(int, int)>)
    ensures PromptTotal(a + b) == PromptTotal(a) + PromptTotal(b)
    ensures CompletionTotal(a + b) == CompletionTotal(a) + CompletionTotal(b)
    decreases |b|
  {
    if b != [] {
      var b' := b[..|b| - 1];
      assert (a + b)[..|a + b| - 1] == a + b';
      assert (a + b)[|a + b| - 1] == b[|b| - 1];
      TotalsOfConcatenation(a, b');
    } else {
      assert a + b == a;
    }
  }

  /** `update` itself does not check its arguments, but non-negative arguments keep the totals non-negative. */
  lemma {:induction false} TotalsNonNegative(updates: seq<(int, int)>)
    requires forall i :: 0 <= i < |updates| ==> updates[i].0 >= 0 && updates[i].1 >= 0
    ensures PromptTotal(updates) >= 0 && CompletionTotal(updates) >= 0
  {
    if updates != [] {
      TotalsNonNegative(updates[..|updates| - 1]);
    }
  }

  /**
   * `calculate_cost` over a settings table: `input / 1e6 * input price +
   * output / 1e6 * output price`, with the prices read from `cfg`. `None`
   * stands for the `TypeError` raised when a price is not a number.
   */
  function Cost(cfg: map<Key, Value>, inputTokens: int, outputTokens: int): (cost: Option<real>)
    ensures cost.Some? <==>
      Number(Setting(cfg, InputPricePerMillion)).Some? && Number(Setting(cfg, OutputPricePerMillion)).Some?
    ensures cost.Some? && inputTokens == 0 && outputTokens == 0 ==> cost.value == 0.0
  {
    match (Number(Setting(cfg, InputPricePerMillion)), Number(Setting(cfg, OutputPricePerMillion)))
    case (Some(inputPrice), Some(outputPrice)) =>
      Some(inputTokens as real / 1000000.0 * inputPrice + outputTokens as real / 1000000.0 * outputPrice)
    case _ => None
  }

  /** Cost is additive over runs of updates: the cost of all of them is the sum of the costs of the parts. */
  lemma CostOfConcatenation(cfg: map<Key, Value>, a: seq<(int, int)>, b: seq<(int, int)>)
    requires Cost(cfg, 0, 0).Some?
    ensures Cost(cfg, PromptTotal(a + b), CompletionTotal(a + b)).value
         == Cost(cfg, PromptTotal(a), CompletionTotal(a)).value + Cost(cfg, PromptTotal(b), CompletionTotal(b)).value
  {
    TotalsOfConcatenation(a, b);
  }

  /**
   * The cost is read at call time: changing the input price alone, with
   * the same counters and no update in between, changes the cost whenever
   * input tokens have been counted.
   */
  lemma CostFollowsInputPrice(cfg: map<Key, Value>, inputTokens: int, outputTokens: int, price: real)
    requires inputTokens > 0
    requires Cost(cfg, inputTokens, outputTokens).Some?
    requires Number(Setting(cfg, InputPricePerMillion)) != Some(price)
    ensures Cost(cfg[InputPricePerMillion := Real(price)], inputTokens, outputTokens).Some?
    ensures Cost(cfg[InputPricePerMillion := Real(price)], inputTokens, outputTokens) != Cost(cfg, inputTokens, outputTokens)
  {
    var cfg' := cfg[InputPricePerMillion := Real(price)];
    var was := Number(Setting(cfg, InputPricePerMillion)).value;
    var out := Number(Setting(cfg, OutputPricePerMillion)).value;
    var scale := inputTokens as real / 1000000.0;
    assert scale > 0.0;
    assert Cost(cfg, inputTokens, outputTokens).value == scale * was + outputTokens as real / 1000000.0 * out;
    assert Cost(cfg', inputTokens, outputTokens).value == scale * price + outputTokens as real / 1000000.0 * out;
    assert was != price;
    assert scale * was - scale * price == scale * (was - price);
    assert scale * (was - price) != 0.0;
  }

  /** `get_usage_dict`, without the rounding of the cost. */
  datatype UsageDict = UsageDict(inputTokens: int, outputTokens: int, totalTokens: int, callCount: int, cost: real)

  class TokenUsage {
    var inputTokens: int
    var outputTokens: int
    var callCount: int
    /** The arguments of every `update` since construction or the last `reset`, oldest first. */
    ghost var updates: seq<(int, int)>

    /** Each counter is what the recorded updates add up to. */
    ghost predicate Valid()
      reads this
    {
      && inputTokens == PromptTotal(updates)
      && outputTokens == CompletionTotal(updates)
      && callCount == |updates|
    }

    /** `TokenUsage()`: all three counters start at zero. */
    constructor ()
      ensures Valid() && updates == []
      ensures inputTokens == 0 && outputTokens == 0 && callCount == 0
    {
      inputTokens, outputTokens, callCount := 0, 0, 0;
      updates := [];
    }

    /** `update`: add both arguments to the totals and count one more call. */
    method Update(promptTokens: int, completionTokens: int)
      requires Valid()
      modifies this
      ensures Valid() && updates == old(updates) + [(promptTokens, completionTokens)]
      ensures inputTokens == old(inputTokens) + promptTokens
      ensures outputTokens == old(outputTokens) + completionTokens
      ensures callCount == old(callCount) + 1
    {
      inputTokens := inputTokens + promptTokens;
      outputTokens := outputTokens + completionTokens;
      callCount := callCount + 1;
      updates := updates + [(promptTokens, completionTokens)];
    }

    /** `reset`: all three counters back to zero. */
    method Reset()
      modifies this
      ensures Valid() && updates == []
      ensures inputTokens == 0 && outputTokens == 0 && callCount == 0
    {
      inputTokens, outputTokens, callCount := 0, 0, 0;
      updates := [];
    }

    /** `calculate_cost`, reading the prices `config` holds now. */
    function CalculateCost(config: Config): (cost: Option<real>)
      reads this, config
      ensures Valid() ==> cost == Cost(config.entries, PromptTotal(updates), CompletionTotal(updates))
      ensures cost.Some? <==>
        Number(config.Read(InputPricePerMillion)).Some? && Number(config.Read(OutputPricePerMillion)).Some?
      ensures Valid() && updates == [] && cost.Some? ==> cost.value == 0.0
    {
      Cost(config.entries, inputTokens, outputTokens)
    }

    /** `get_usage_dict`; `None` where computing the cost raises. */
    function GetUsageDict(config: Config): (d: Option<UsageDict>)
      reads this, config
      ensures d.Some? <==> CalculateCost(config).Some?
      ensures Valid() && d.Some? ==>
        && d.value.inputTokens == PromptTotal(updates)
        && d.value.outputTokens == CompletionTotal(updates)
        && d.value.totalTokens == PromptTotal(updates) + CompletionTotal(updates)
        && d.value.callCount == |updates|
        && d.value.cost == CalculateCost(config).value
    {
      match CalculateCost(config)
      case Some(cost) => Some(UsageDict(inputTokens, outputTokens, inputTokens + outputTokens, callCount, cost))
      case None => None
    }
  }
}
