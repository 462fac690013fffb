/**
  The route compiler: turns a ranked candidate's quote into the three calls
  of one transaction -- fund the router with `transfer`, run the swap
  (`multihop_swap` for one split, `multi_multihop_swap` for several), then
  `clear_minimum` of the base token. Swap calldata is a flat list of words.
*/
module RouteCompiler {
  import opened Wrappers
  import opened Quotes
  import opened Ranking

  /** `2^128`: a Cairo `u256` is sent as two 128-bit words, low word first. */
  const U128: nat := 0x1_0000_0000_0000_0000_0000_0000_0000_0000

  /** `sqrt_ratio_limit % 2n ** 128n` */
  function LowWord(x: nat): (low: Word)
    ensures low < U128
    ensures x < U128 ==> low == x
  {
    x % U128
  }

  /** `sqrt_ratio_limit >> 128n` */
  function HighWord(x: nat): (high: Word)
    ensures high <= x
    ensures high * U128 <= x < (high + 1) * U128
  {
    x / U128
  }

  /** The two words put back together give the value; both fit 128 bits when the value fits 256. */
  lemma U256Words(x: nat)
    ensures LowWord(x) + HighWord(x) * U128 == x
    ensures x < U128 * U128 ==> HighWord(x) < U128
  {
  }

  /** The eight words of one hop; `token0` always comes first. */
  function EncodeHop(node: RouteNode): (words: seq<Word>)
    ensures |words| == 8
    ensures words[0] == node.poolKey.token0 && words[1] == node.poolKey.token1
  {
    [node.poolKey.token0, node.poolKey.token1, node.poolKey.fee, node.poolKey.tickSpacing,
     node.poolKey.extension, LowWord(node.sqrtRatioLimit), HighWord(node.sqrtRatioLimit), node.skipAhead]
  }

  /** The hops' words one after the other: the reference layout of a route. */
  function HopWords(route: seq<RouteNode>): (words: seq<Word>)
    ensures |words| == 8 * |route|
  {
    if route == [] then [] else EncodeHop(route[0]) + HopWords(route[1..])
  }

  /** Hop `i` of a route sits at words `8i .. 8i+8`. */
  lemma {:induction false} HopWordsAt(route: seq<RouteNode>, i: nat)
    requires i < |route|
    ensures HopWords(route)[8 * i .. 8 * i + 8] == EncodeHop(route[i])
  {
    if i > 0 {
      HopWordsAt(route[1..], i - 1);
      assert HopWords(route)[8 * i .. 8 * i + 8] == HopWords(route[1..])[8 * (i - 1) .. 8 * (i - 1) + 8];
    }
  }

  /** The accumulator of the hop reducer: the running token and the words so far. */
  datatype Memo = Memo(token: Word, encoded: seq<Word>)

  /** One step of the hop reducer. */
  function Step(memo: Memo, node: RouteNode): (next: Memo)
    ensures next.token == node.poolKey.token0 || next.token == node.poolKey.token1
    ensures |next.encoded| == |memo.encoded| + 8
  {
    var isToken1 := memo.token == node.poolKey.token1;
    Memo(if isToken1 then node.poolKey.token0 else node.poolKey.token1, memo.encoded + EncodeHop(node))
  }

  /**
    When the running token is one side of a pool with two distinct tokens, the
    step leaves through the other side.
  */
  lemma StepCrossesPool(memo: Memo, node: RouteNode)
    requires memo.token == node.poolKey.token0 || memo.token == node.poolKey.token1
    requires node.poolKey.token0 != node.poolKey.token1
    ensures Step(memo, node).token != memo.token
  {
  }

  /**
    The hop reducer (`route.reduce(step, {token: base, encoded: []})`). The
    words it emits are the reference layout whatever the running token is, and
    the running token ends on a side of the last pool.
  */
  function FoldRoute(memo: Memo, route: seq<RouteNode>): (out: Memo)
    ensures out.encoded == memo.encoded + HopWords(route)
    ensures route == [] ==> out.token == memo.token
    ensures route != [] ==>
      out.token == route[|route| - 1].poolKey.token0 || out.token == route[|route| - 1].poolKey.token1
    decreases |route|
  {
    if route == [] then memo
    else
      var next := Step(memo, route[0]);
      assert next.encoded == memo.encoded + EncodeHop(route[0]);
      FoldRoute(next, route[1..])
  }

  /**
    A three-hop cycle from base token 5: through pool (3, 5), where the base
    token is `token1`, then pool (3, 7), then pool (5, 7) back to 5. The running
    token goes 5, 3, 7, 5, while every hop is still emitted `token0` first.
  */
  lemma ThreeHopWalk(fee: Word, limit: nat)
    ensures var hop := (t0: Word, t1: Word) => RouteNode(PoolKey(t0, t1, fee, 1, 0), limit, 0);
      var route := [hop(3, 5), hop(3, 7), hop(5, 7)];
      && FoldRoute(Memo(5, []), route[..1]).token == 3
      && FoldRoute(Memo(5, []), route[..2]).token == 7
      && FoldRoute(Memo(5, []), route).token == 5
      && FoldRoute(Memo(5, []), route).encoded[0..2] == [3, 5]
      && FoldRoute(Memo(5, []), route).encoded[8..10] == [3, 7]
      && FoldRoute(Memo(5, []), route).encoded[16..18] == [5, 7]
  {
    var hop := (t0: Word, t1: Word) => RouteNode(PoolKey(t0, t1, fee, 1, 0), limit, 0);
    var route := [hop(3, 5), hop(3, 7), hop(5, 7)];
    assert route[..1][1..] == [] && route[..2][1..] == route[1..2] && route[1..2][1..] == [];
    assert route[1..][1..] == route[2..] && route[2..][1..] == [];
    var m1 := Step(Memo(5, []), route[0]);
    var m2 := Step(m1, route[1]);
    var m3 := Step(m2, route[2]);
    assert m1.token == 3 && m2.token == 7 && m3.token == 5;
    assert FoldRoute(Memo(5, []), route) == FoldRoute(m1, route[1..]) == FoldRoute(m2, route[2..]) == m3;
    HopWordsAt(route, 0);
    HopWordsAt(route, 1);
    HopWordsAt(route, 2);
  }

  /**
    The words of one split, which are also the whole `multihop_swap` calldata:
    hop count, hops, then `base, specifiedAmount, 0`.
  */
  function SplitWords(base: Word, split: Split): (words: seq<Word>)
    ensures words == [|split.route|] + HopWords(split.route) + [base, split.specifiedAmount, 0]
    ensures |words| == 8 * |split.route| + 4
  {
    [|split.route|] + FoldRoute(Memo(base, []), split.route).encoded + [base, split.specifiedAmount, 0]
  }

  /** Total words of a list of splits: `Σ (8 h_i + 4)`. */
  function TotalWords(splits: seq<Split>): nat
  {
    if splits == [] then 0 else 8 * |splits[0].route| + 4 + TotalWords(splits[1..])
  }

  /** The splits' words one after the other, unwrapped: the reference layout. */
  function SplitsWords(base: Word, splits: seq<Split>): (words: seq<Word>)
    ensures |words| == TotalWords(splits)
  {
    if splits == [] then [] else SplitWords(base, splits[0]) + SplitsWords(base, splits[1..])
  }

  /** The split reducer (`splits.reduce((memo, split) => memo.concat(...), [])`). */
  function FoldSplits(memo: seq<Word>, base: Word, splits: seq<Split>): (out: seq<Word>)
    ensures out == memo + SplitsWords(base, splits)
    decreases |splits|
  {
    if splits == [] then memo
    else
      var words := SplitWords(base, splits[0]);
      var rest := SplitsWords(base, splits[1..]);
      assert SplitsWords(base, splits) == words + rest;
      assert (memo + words) + rest == memo + (words + rest);
      FoldSplits(memo + words, base, splits[1..])
  }

  /** `multi_multihop_swap` calldata: the split count, then every split's words. */
  function MultiMultihopCalldata(base: Word, splits: seq<Split>): (words: seq<Word>)
    ensures |words| == 1 + TotalWords(splits)
    ensures words[0] == |splits| && words[1..] == SplitsWords(base, splits)
  {
    [|splits|] + FoldSplits([], base, splits)
  }

  datatype Entrypoint = Transfer | MultihopSwap | MultiMultihopSwap

  /**
    A call of the bundle. `clear_minimum` is kept as the record of its
    arguments (the router's ABI encoding of them is not modelled).
  */
  datatype Call =
    | Invoke(contractAddress: Word, entrypoint: Entrypoint, calldata: seq<Word>)
    | ClearMinimum(contractAddress: Word, token: Word, minimum: nat)

  /** The base token being arbitraged and the router contract's address. */
  datatype Context = Context(baseToken: Word, router: Word)

  datatype CompileError = UnexpectedNumberOfSplits | UnexpectedSingleHopRoute

  /** A ranked candidate with the calls that execute it. */
  datatype Compiled = Compiled(candidate: Candidate, calls: seq<Call>)

  /** The shapes the compiler refuses: no split, or one split whose route has one hop. */
  predicate RejectedShape(splits: seq<Split>)
    ensures |splits| == 0 ==> RejectedShape(splits)
    ensures |splits| >= 2 ==> !RejectedShape(splits)
    ensures |splits| == 1 ==> (RejectedShape(splits) <==> |splits[0].route| == 1)
  {
    |splits| == 0 || (|splits| == 1 && |splits[0].route| == 1)
  }

  /**
    Compiles one ranked candidate. The transfer funds the router with the
    input amount (high word zero) and `clear_minimum` asks for at least the
    input amount back, not the quoted total.
  */
  function Compile(ctx: Context, c: Candidate): (r: Result<Compiled, CompileError>)
    ensures r.Failure? <==> RejectedShape(c.quote.splits)
    ensures r.Failure? ==>
      r.error == if |c.quote.splits| == 0 then UnexpectedNumberOfSplits else UnexpectedSingleHopRoute
    ensures r.Success? ==> r.value.candidate == c && |r.value.calls| == 3
    ensures r.Success? ==> r.value.calls[0] == Invoke(ctx.baseToken, Transfer, [ctx.router, c.amount, 0])
    ensures r.Success? ==> r.value.calls[1].Invoke? && r.value.calls[1].contractAddress == ctx.router
    ensures r.Success? ==> (r.value.calls[1].entrypoint == MultihopSwap <==> |c.quote.splits| == 1)
    ensures r.Success? ==> r.value.calls[2] == ClearMinimum(ctx.router, ctx.baseToken, c.amount)
    ensures r.Success? && |c.quote.splits| == 1 ==>
      r.value.calls[1].calldata == SplitWords(ctx.baseToken, c.quote.splits[0])
    ensures r.Success? && |c.quote.splits| == 1 ==>
      |r.value.calls[1].calldata| == 8 * |c.quote.splits[0].route| + 4
    ensures r.Success? && |c.quote.splits| > 1 ==>
      r.value.calls[1].calldata == MultiMultihopCalldata(ctx.baseToken, c.quote.splits)
    ensures r.Success? && |c.quote.splits| > 1 ==>
      |r.value.calls[1].calldata| == 1 + TotalWords(c.quote.splits)
  {
    var splits := c.quote.splits;
    if |splits| == 0 then Failure(UnexpectedNumberOfSplits)
    else
      var transfer := Invoke(ctx.baseToken, Transfer, [ctx.router, c.amount, 0]);
      var clearProfits := ClearMinimum(ctx.router, ctx.baseToken, c.amount);
      if |splits| == 1 then
        if |splits[0].route| == 1 then Failure(UnexpectedSingleHopRoute)
        else
          var swap := Invoke(ctx.router, MultihopSwap, SplitWords(ctx.baseToken, splits[0]));
          Success(Compiled(c, [transfer, swap, clearProfits]))
      else
        var swap := Invoke(ctx.router, MultiMultihopSwap, MultiMultihopCalldata(ctx.baseToken, splits));
        Success(Compiled(c, [transfer, swap, clearProfits]))
  }

  /** The index of the first candidate with a refused route shape, or `|ranked|` when there is none. */
  function FirstRejected(ranked: seq<Candidate>): (k: nat)
    ensures k <= |ranked|
    ensures k < |ranked| ==> RejectedShape(ranked[k].quote.splits)
    ensures forall j :: 0 <= j < k ==> !RejectedShape(ranked[j].quote.splits)
    decreases |ranked|
  {
    if ranked == [] then 0
    else if RejectedShape(ranked[0].quote.splits) then 0
    else 1 + FirstRejected(ranked[1..])
  }

  /**
    Compiles every ranked candidate in order (`ranked.map(...)`); the first
    candidate that fails aborts the whole list, whatever the others are.
  */
  function CompileAll(ctx: Context, ranked: seq<Candidate>): (r: Result<seq<Compiled>, CompileError>)
    ensures r.Success? <==> FirstRejected(ranked) == |ranked|
    ensures r.Success? ==> |r.value| == |ranked|
    ensures r.Success? ==> forall i :: 0 <= i < |ranked| ==> Compile(ctx, ranked[i]) == Success(r.value[i])
    ensures r.Failure? ==> Compile(ctx, ranked[FirstRejected(ranked)]) == Failure(r.error)
    decreases |ranked|
  {
    if ranked == [] then Success([])
    else
      match Compile(ctx, ranked[0])
      case Failure(e) => Failure(e)
      case Success(first) =>
        match CompileAll(ctx, ranked[1..])
        case Failure(e) =>
          assert ranked[1 + FirstRejected(ranked[1..])] == ranked[1..][FirstRejected(ranked[1..])];
          Failure(e)
        case Success(rest) =>
          assert forall i :: 1 <= i < |ranked| ==> ranked[i] == ranked[1..][i - 1];
          Success([first] + rest)
  }
}
