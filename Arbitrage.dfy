/**
  One polling cycle of the bot up to the transaction it would submit: quote
  every ladder amount, rank the answers, compile the top candidates and take
  the first bundle. Quote requests, fee estimation, submission and waiting for
  the receipt are I/O and stay outside; the answers to the quote requests are
  an input, one per ladder amount.
*/
module Arbitrage {
  import opened Wrappers
  import opened Quotes
  import opened Config
  import opened Ranking
  import opened RouteCompiler

  /** The ladder of the clamped configuration. */
  function Ladder(env: Env): (amounts: seq<nat>)
    ensures |amounts| == Clamp(env).maxPowerOf2 - Clamp(env).minPowerOf2 >= 1
  {
    AmountLadder(Clamp(env).minPowerOf2, Clamp(env).maxPowerOf2)
  }

  /** The ranked candidates of one cycle under the clamped configuration. */
  function Ranked(env: Env, quotes: seq<Option<Quote>>): seq<Candidate>
    requires |quotes| == |Ladder(env)|
  {
    Rank(Ladder(env), quotes, Clamp(env).minProfit, Clamp(env).numTopQuotes)
  }

  /**
    The bundle one cycle submits: `None` when nothing is profitable, the first
    ranked candidate's calls otherwise; a failure when any ranked candidate
    has a route shape the compiler refuses.
  */
  function PlanCycle(env: Env, ctx: Context, quotes: seq<Option<Quote>>): (r: Result<Option<Compiled>, CompileError>)
    requires |quotes| == |Ladder(env)|
    ensures r.Failure? <==>
      exists i :: 0 <= i < |Ranked(env, quotes)| && RejectedShape(Ranked(env, quotes)[i].quote.splits)
    ensures r.Success? ==> (r.value.Some? <==> Ranked(env, quotes) != [])
    ensures r.Success? && r.value.Some? ==> r.value.value.candidate == Ranked(env, quotes)[0]
    ensures r.Success? && r.value.Some? ==>
      Compile(ctx, r.value.value.candidate) == Success(r.value.value) &&
      r.value.value.candidate.profit > Clamp(env).minProfit
  {
    var ranked := Ranked(env, quotes);
    RankSurvivors(Ladder(env), quotes, Clamp(env).minProfit, Clamp(env).numTopQuotes);
    match CompileAll(ctx, ranked)
    case Failure(e) => Failure(e)
    case Success(bundles) =>
      if |bundles| > 0 then
        assert ranked[0] in ranked;
        Success(Some(bundles[0]))
      else Success(None)
  }

  /** A quote of the cycle whose profit clears the threshold. */
  predicate ProfitableQuote(env: Env, quotes: seq<Option<Quote>>, i: nat)
    requires |quotes| == |Ladder(env)|
  {
    i < |quotes| && quotes[i].Some? && quotes[i].value.total - Ladder(env)[i] > Clamp(env).minProfit
  }

  /** The submitted candidate earns at least as much as every quote of the cycle. */
  lemma PlanCycleTakesTheBest(env: Env, ctx: Context, quotes: seq<Option<Quote>>, i: nat)
    requires |quotes| == |Ladder(env)|
    ensures (PlanCycle(env, ctx, quotes).Success? && PlanCycle(env, ctx, quotes).value.Some? &&
             ProfitableQuote(env, quotes, i)) ==>
        quotes[i].value.total - Ladder(env)[i] <= PlanCycle(env, ctx, quotes).value.value.candidate.profit
  {
    if !(PlanCycle(env, ctx, quotes).Success? && PlanCycle(env, ctx, quotes).value.Some? &&
      ProfitableQuote(env, quotes, i)) {
      return;
    }
    var amounts := Ladder(env);
    var s := Clamp(env);
    var ranked := Ranked(env, quotes);
    RankSurvivors(amounts, quotes, s.minProfit, s.numTopQuotes);
    RankKeepsBest(amounts, quotes, s.minProfit, s.numTopQuotes, i);
    var d := Candidate(amounts[i], quotes[i].value, quotes[i].value.total - amounts[i]);
    var top := PlanCycle(env, ctx, quotes).value.value;
    assert top.candidate == ranked[0];
    if d in ranked {
      var k :| 0 <= k < |ranked| && ranked[k] == d;
      if k > 0 {
        assert ranked[0].profit >= ranked[k].profit;
      }
    } else {
      assert ranked[0] in ranked;
    }
  }

  /** A cycle submits nothing exactly when no quote clears the threshold. */
  lemma PlanCycleIdleIffNothingProfitable(env: Env, ctx: Context, quotes: seq<Option<Quote>>)
    requires |quotes| == |Ladder(env)|
    ensures PlanCycle(env, ctx, quotes) == Success(None) <==>
      forall i :: 0 <= i < |quotes| ==> !ProfitableQuote(env, quotes, i)
  {
    var amounts := Ladder(env);
    var s := Clamp(env);
    var ranked := Ranked(env, quotes);
    RankSurvivors(amounts, quotes, s.minProfit, s.numTopQuotes);
    if ranked == [] {
      assert PlanCycle(env, ctx, quotes) == Success(None);
      forall i | 0 <= i < |quotes| ensures !ProfitableQuote(env, quotes, i) {
        if quotes[i].Some? {
          RankKeepsBest(amounts, quotes, s.minProfit, s.numTopQuotes, i);
        }
      }
    } else {
      assert PlanCycle(env, ctx, quotes) != Success(None);
      var c := ranked[0];
      assert c in ranked;
      var i :| 0 <= i < |amounts| && amounts[i] == c.amount && quotes[i] == Some(c.quote);
      assert ProfitableQuote(env, quotes, i);
    }
  }

  /**
    While the clamped minimum exponent is below 128, every ladder amount is
    below `2^128`: it is its own low 128-bit word, with a zero high word.
  */
  lemma LadderAmountsFitLowWord(env: Env)
    requires Clamp(env).minPowerOf2 < 128
    ensures forall a :: a in Ladder(env) ==> LowWord(a) == a && HighWord(a) == 0
  {
    var s := Clamp(env);
    assert s.maxPowerOf2 <= 128;
    LadderStrictlyAscending(s.minPowerOf2, s.maxPowerOf2);
    Pow2Of128();
    forall a | a in Ladder(env) ensures a < U128 {
      var i :| 0 <= i < |Ladder(env)| && Ladder(env)[i] == a;
      Pow2StrictlyIncreasing(s.minPowerOf2 + i, 128);
    }
  }

  /**
    The submitted transfer sends the input amount to the router as a `u256`
    whose low word is the amount and whose high word is the literal zero.
  */
  lemma CycleTransferIsU256(env: Env, ctx: Context, quotes: seq<Option<Quote>>)
    requires |quotes| == |Ladder(env)| && Clamp(env).minPowerOf2 < 128
    requires PlanCycle(env, ctx, quotes).Success? && PlanCycle(env, ctx, quotes).value.Some?
    ensures var x := PlanCycle(env, ctx, quotes).value.value;
      x.calls[0] == Invoke(ctx.baseToken, Transfer, [ctx.router, LowWord(x.candidate.amount), HighWord(x.candidate.amount)])
  {
    var x := PlanCycle(env, ctx, quotes).value.value;
    var ranked := Ranked(env, quotes);
    RankSurvivors(Ladder(env), quotes, Clamp(env).minProfit, Clamp(env).numTopQuotes);
    assert x.candidate == ranked[0] && ranked[0] in ranked;
    var i :| 0 <= i < |Ladder(env)| && Ladder(env)[i] == x.candidate.amount && quotes[i] == Some(x.candidate.quote);
    LadderAmountsFitLowWord(env);
    assert Ladder(env)[i] in Ladder(env);
  }

  /**
    From a minimum exponent of 128 the transfer is no longer a `u256`: the
    ladder is the single amount `2^128`, whose words are `(0, 1)`, yet the
    submitted transfer carries `[router, 2^128, 0]`.
  */
  lemma TransferPast128IsNotU256(env: Env, ctx: Context, quotes: seq<Option<Quote>>)
    requires env.minPowerOf2 == 128 && |quotes| == |Ladder(env)|
    ensures Ladder(env) == [Pow2(128)]
    ensures LowWord(Pow2(128)) == 0 && HighWord(Pow2(128)) == 1
    ensures PlanCycle(env, ctx, quotes).Success? && PlanCycle(env, ctx, quotes).value.Some? ==>
      var x := PlanCycle(env, ctx, quotes).value.value;
      x.calls[0].calldata == [ctx.router, Pow2(128), 0] &&
      x.calls[0].calldata != [ctx.router, LowWord(x.candidate.amount), HighWord(x.candidate.amount)]
  {
    Pow2Of128();
    assert Ladder(env) == [Pow2(128)];
    if PlanCycle(env, ctx, quotes).Success? && PlanCycle(env, ctx, quotes).value.Some? {
      var x := PlanCycle(env, ctx, quotes).value.value;
      var ranked := Ranked(env, quotes);
      RankSurvivors(Ladder(env), quotes, Clamp(env).minProfit, Clamp(env).numTopQuotes);
      assert x.candidate == ranked[0] && ranked[0] in ranked;
      assert x.candidate.amount == Pow2(128);
    }
  }

  lemma ScenarioLadder(env: Env)
    requires env.minPowerOf2 == 32 && env.maxPowerOf2 == 34
    ensures Ladder(env) == [Pow2(32), Pow2(33)]
  {
    var amounts := Ladder(env);
    assert |amounts| == 2 && amounts[0] == Pow2(32) && amounts[1] == 2 * Pow2(32);
  }

  lemma ScenarioRank(first: seq<Split>, second: seq<Split>, topN: nat)
    requires topN >= 1
    ensures var quotes := [Some(Quote(Pow2(32) + 10, first)), Some(Quote(Pow2(33) - 5, second))];
      Rank([Pow2(32), Pow2(33)], quotes, 0, topN) == [Candidate(Pow2(32), Quote(Pow2(32) + 10, first), 10)]
  {
    var quotes := [Some(Quote(Pow2(32) + 10, first)), Some(Quote(Pow2(33) - 5, second))];
    var slots := Sweep([Pow2(32), Pow2(33)], quotes);
    var c := Candidate(Pow2(32), Quote(Pow2(32) + 10, first), 10);
    assert slots == [Some(c), Some(Candidate(Pow2(33), Quote(Pow2(33) - 5, second), -5))];
    assert slots[1..][1..] == [];
    assert Profitable(slots, 0) == [c];
    assert SortByProfit([c]) == [c];
  }

  /**
    The end-to-end scenario of a two-amount ladder `[2^32, 2^33]` with quoted
    totals `2^32 + 10` and `2^33 - 5` and a zero threshold: only the first
    amount is profitable and it is the sole ranked candidate.
  */
  lemma TwoAmountScenario(env: Env, first: seq<Split>, second: seq<Split>)
    requires env.minPowerOf2 == 32 && env.maxPowerOf2 == 34 && env.minProfit == 0
    ensures Ladder(env) == [Pow2(32), Pow2(33)]
    ensures Ranked(env, [Some(Quote(Pow2(32) + 10, first)), Some(Quote(Pow2(33) - 5, second))])
      == [Candidate(Pow2(32), Quote(Pow2(32) + 10, first), 10)]
  {
    var quotes := [Some(Quote(Pow2(32) + 10, first)), Some(Quote(Pow2(33) - 5, second))];
    ScenarioLadder(env);
    ScenarioRank(first, second, Clamp(env).numTopQuotes);
    assert Ranked(env, quotes) == Rank([Pow2(32), Pow2(33)], quotes, 0, Clamp(env).numTopQuotes);
  }
}
