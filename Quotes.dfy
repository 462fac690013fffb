/**
  The quote returned by the Ekubo quoting service for a round trip of the base
  token, as the bot reads it. Every hexadecimal or decimal string of the JSON
  response is a number here: a Starknet calldata word is a `Word`.
*/
module Quotes {

  /** One calldata word (a felt); token addresses and fees are words too. */
  type Word = nat

  /** The pool a hop goes through; `token0` and `token1` as the AMM orders them. */
  datatype PoolKey = PoolKey(token0: Word, token1: Word, fee: Word, tickSpacing: nat, extension: Word)

  /** One hop of a route: the pool, a 256-bit price limit and an opaque hint. */
  datatype RouteNode = RouteNode(poolKey: PoolKey, sqrtRatioLimit: nat, skipAhead: Word)

  /** One parallel path of a quote: the exact input sent down it and its hops. */
  datatype Split = Split(specifiedAmount: nat, route: seq<RouteNode>)

  /** A quote: the total amount the round trip returns and its splits, in order. */
  datatype Quote = Quote(total: int, splits: seq<Split>)
}
