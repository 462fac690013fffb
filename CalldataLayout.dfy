/**
  How the router reads the flat swap calldata back: the embedded hop and
  split counts delimit every hop and every split. Decoding what the compiler
  emits recovers the quote's splits exactly.
*/
module CalldataLayout {
  import opened Wrappers
  import opened Quotes
  import opened Ranking
  import opened RouteCompiler

  /** One hop from its eight words; the price limit is rebuilt from its two 128-bit words. */
  function DecodeHop(words: seq<Word>): (node: RouteNode)
    requires |words| >= 8
    ensures node.poolKey.token0 == words[0] && node.poolKey.token1 == words[1]
  {
    RouteNode(PoolKey(words[0], words[1], words[2], words[3], words[4]), words[5] + words[6] * U128, words[7])
  }

  lemma HopRoundTrip(node: RouteNode)
    ensures DecodeHop(EncodeHop(node)) == node
  {
    U256Words(node.sqrtRatioLimit);
  }

  /** Reads `count` hops off the front of `words`, returning them with the words left over. */
  function DecodeHops(words: seq<Word>, count: nat): (r: Option<(seq<RouteNode>, seq<Word>)>)
    ensures r.Some? ==> |r.value.0| == count && |words| == 8 * count + |r.value.1|
    decreases count
  {
    if count == 0 then Some(([], words))
    else if |words| < 8 then None
    else
      match DecodeHops(words[8..], count - 1)
      case None => None
      case Some((route, tail)) => Some(([DecodeHop(words[..8])] + route, tail))
  }

  /** Reads one split: its hop count, its hops, then the base token, the specified amount and a zero. */
  function DecodeSplit(base: Word, words: seq<Word>): (r: Option<(Split, seq<Word>)>)
    ensures r.Some? ==> |words| == 8 * |r.value.0.route| + 4 + |r.value.1|
  {
    if |words| == 0 then None
    else
      match DecodeHops(words[1..], words[0])
      case None => None
      case Some((route, tail)) =>
        if |tail| >= 3 && tail[0] == base && tail[2] == 0 then Some((Split(tail[1], route), tail[3..]))
        else None
  }

  /** Reads `count` splits one after the other. */
  function DecodeSplits(base: Word, words: seq<Word>, count: nat): (r: Option<(seq<Split>, seq<Word>)>)
    ensures r.Some? ==> |r.value.0| == count && |words| == TotalWords(r.value.0) + |r.value.1|
    decreases count
  {
    if count == 0 then Some(([], words))
    else
      match DecodeSplit(base, words)
      case None => None
      case Some((split, rest)) =>
        match DecodeSplits(base, rest, count - 1)
        case None => None
        case Some((splits, tail)) => Some(([split] + splits, tail))
  }

  /** The splits a swap call carries, read according to its entry point; nothing is left over. */
  function DecodeSwap(base: Word, call: Call): Option<seq<Split>>
  {
    match call
    case ClearMinimum(_, _, _) => None
    case Invoke(_, entrypoint, words) =>
      match entrypoint
      case Transfer => None
      case MultihopSwap =>
        (match DecodeSplit(base, words)
         case Some((split, tail)) => if tail == [] then Some([split]) else None
         case None => None)
      case MultiMultihopSwap =>
        if |words| == 0 then None
        else
          match DecodeSplits(base, words[1..], words[0])
          case Some((splits, tail)) => if tail == [] then Some(splits) else None
          case None => None
  }

  lemma {:induction false} HopsRoundTrip(route: seq<RouteNode>, tail: seq<Word>)
    ensures DecodeHops(HopWords(route) + tail, |route|) == Some((route, tail))
  {
    if route != [] {
      var words := HopWords(route) + tail;
      assert words[..8] == EncodeHop(route[0]);
      assert words[8..] == HopWords(route[1..]) + tail;
      HopsRoundTrip(route[1..], tail);
      HopRoundTrip(route[0]);
      assert [route[0]] + route[1..] == route;
    } else {
      assert HopWords(route) + tail == tail;
    }
  }

  lemma SplitRoundTrip(base: Word, split: Split, tail: seq<Word>)
    ensures DecodeSplit(base, SplitWords(base, split) + tail) == Some((split, tail))
  {
    var suffix := [base, split.specifiedAmount, 0] + tail;
    var words := SplitWords(base, split) + tail;
    assert words == [|split.route|] + (HopWords(split.route) + suffix);
    assert words[1..] == HopWords(split.route) + suffix;
    HopsRoundTrip(split.route, suffix);
    assert suffix[3..] == tail;
  }

  lemma {:induction false} SplitsRoundTrip(base: Word, splits: seq<Split>, tail: seq<Word>)
    ensures DecodeSplits(base, SplitsWords(base, splits) + tail, |splits|) == Some((splits, tail))
  {
    if splits != [] {
      var rest := SplitsWords(base, splits[1..]) + tail;
      var words := SplitsWords(base, splits) + tail;
      assert SplitsWords(base, splits) == SplitWords(base, splits[0]) + SplitsWords(base, splits[1..]);
      assert words == SplitWords(base, splits[0]) + rest;
      SplitRoundTrip(base, splits[0], rest);
      assert DecodeSplit(base, words) == Some((splits[0], rest));
      SplitsRoundTrip(base, splits[1..], tail);
      assert DecodeSplits(base, rest, |splits| - 1) == Some((splits[1..], tail));
      assert [splits[0]] + splits[1..] == splits;
    } else {
      assert SplitsWords(base, splits) + tail == tail;
    }
  }

  /** The `multi_multihop_swap` calldata of any list of splits decodes to that list. */
  lemma MultiMultihopRoundTrip(base: Word, splits: seq<Split>)
    ensures |MultiMultihopCalldata(base, splits)| > 0
    ensures DecodeSplits(base, MultiMultihopCalldata(base, splits)[1..], |splits|) == Some((splits, []))
  {
    SplitsRoundTrip(base, splits, []);
    assert SplitsWords(base, splits) + [] == SplitsWords(base, splits);
  }

  /** The swap call of every compiled bundle carries exactly the quote's splits. */
  lemma CompileRoundTrip(ctx: Context, c: Candidate)
    requires Compile(ctx, c).Success?
    ensures DecodeSwap(ctx.baseToken, Compile(ctx, c).value.calls[1]) == Some(c.quote.splits)
  {
    var splits := c.quote.splits;
    if |splits| == 1 {
      SplitRoundTrip(ctx.baseToken, splits[0], []);
      assert SplitWords(ctx.baseToken, splits[0]) + [] == SplitWords(ctx.baseToken, splits[0]);
      assert [splits[0]] == splits;
    } else {
      MultiMultihopRoundTrip(ctx.baseToken, splits);
    }
  }
}
