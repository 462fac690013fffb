/**
  The profit ranker of one polling cycle: every ladder amount paired with its
  quote (or with nothing when the quote request failed), the on-paper profit
  `total - amount`, the filter `profit > minProfit`, a stable sort by
  descending profit, and the cut to the best `topN`.
*/
module Ranking {
  import opened Wrappers
  import opened Quotes

  /** An amount with its quote and on-paper profit (gas is not accounted for). */
  datatype Candidate = Candidate(amount: nat, quote: Quote, profit: int)

  /**
    The fan-out over the ladder: one slot per amount, in ladder order, empty
    exactly when no quote came back for that amount.
  */
  function Sweep(amounts: seq<nat>, quotes: seq<Option<Quote>>): (slots: seq<Option<Candidate>>)
    requires |quotes| == |amounts|
    ensures |slots| == |amounts|
    ensures forall i :: 0 <= i < |slots| ==> (slots[i].Some? <==> quotes[i].Some?)
    ensures forall i :: 0 <= i < |slots| && slots[i].Some? ==>
      slots[i].value.amount == amounts[i] && slots[i].value.quote == quotes[i].value &&
      slots[i].value.profit == quotes[i].value.total - amounts[i]
  {
    seq(|amounts|, i requires 0 <= i < |amounts| =>
      match quotes[i]
      case None => None
      case Some(q) => Some(Candidate(amounts[i], q, q.total - amounts[i])))
  }

  predicate Survives(slot: Option<Candidate>, minProfit: int) {
    slot.Some? && slot.value.profit > minProfit
  }

  /** The filter: the candidates of the slots that hold a quote with profit above the threshold, in slot order. */
  function Profitable(slots: seq<Option<Candidate>>, minProfit: int): (kept: seq<Candidate>)
    ensures |kept| <= |slots|
    ensures forall c :: c in kept ==> Some(c) in slots && c.profit > minProfit
    ensures forall i :: 0 <= i < |slots| && Survives(slots[i], minProfit) ==> slots[i].value in kept
  {
    if slots == [] then []
    else (if Survives(slots[0], minProfit) then [slots[0].value] else []) + Profitable(slots[1..], minProfit)
  }

  /** The candidates of `s` whose profit is exactly `p`, in the order of `s`. */
  function Ties(s: seq<Candidate>, p: int): (t: seq<Candidate>)
    ensures forall c :: c in t ==> c in s && c.profit == p
    ensures forall c :: c in s && c.profit == p ==> c in t
  {
    if s == [] then []
    else (if s[0].profit == p then [s[0]] else []) + Ties(s[1..], p)
  }

  predicate SortedByProfit(s: seq<Candidate>) {
    forall i, j :: 0 <= i < j < |s| ==> s[i].profit >= s[j].profit
  }

  /** Inserts `c` in front of the first candidate whose profit is not above its own. */
  function Insert(c: Candidate, s: seq<Candidate>): (r: seq<Candidate>)
    ensures multiset(r) == multiset(s) + multiset{c}
  {
    if s == [] || s[0].profit <= c.profit then [c] + s
    else
      assert s == [s[0]] + s[1..];
      [s[0]] + Insert(c, s[1..])
  }

  lemma {:induction false} InsertSorted(c: Candidate, s: seq<Candidate>)
    requires SortedByProfit(s)
    ensures SortedByProfit(Insert(c, s))
  {
    if s == [] || s[0].profit <= c.profit {
    } else {
      var rest := Insert(c, s[1..]);
      InsertSorted(c, s[1..]);
      forall j | 0 <= j < |rest| ensures s[0].profit >= rest[j].profit {
        assert rest[j] in multiset(rest);
        if rest[j] != c {
          assert rest[j] in multiset(s[1..]);
          var k :| 0 <= k < |s[1..]| && s[1..][k] == rest[j];
          assert s[k + 1] == rest[j];
        }
      }
      var r := [s[0]] + rest;
      assert Insert(c, s) == r;
      forall i, j | 0 <= i < j < |r| ensures r[i].profit >= r[j].profit {
        if i > 0 {
          assert r[i] == rest[i - 1] && r[j] == rest[j - 1];
        } else {
          assert r[j] == rest[j - 1];
        }
      }
    }
  }

  /**
    The comparator `(a, b) => Number(b.profit - a.profit)` under the stable
    `Array.prototype.sort`: descending by profit, equal profits in input order.
  */
  function SortByProfit(s: seq<Candidate>): (r: seq<Candidate>)
    ensures multiset(r) == multiset(s)
    ensures SortedByProfit(r)
  {
    if s == [] then []
    else
      assert s == [s[0]] + s[1..];
      InsertSorted(s[0], SortByProfit(s[1..]));
      Insert(s[0], SortByProfit(s[1..]))
  }

  /** `slice(0, n)`. */
  function TopN(s: seq<Candidate>, n: nat): (r: seq<Candidate>)
    ensures |r| == if |s| < n then |s| else n
    ensures r == s[..|r|]
  {
    if |s| <= n then s else s[..n]
  }

  /** The ranker's output for one cycle. */
  function Rank(amounts: seq<nat>, quotes: seq<Option<Quote>>, minProfit: int, topN: nat): (ranked: seq<Candidate>)
    requires |quotes| == |amounts|
    ensures |ranked| <= topN
    ensures SortedByProfit(ranked)
  {
    TopN(SortByProfit(Profitable(Sweep(amounts, quotes), minProfit)), topN)
  }
  /** Inserting `c` puts it in front of every candidate with the same profit. */
  lemma {:induction false} InsertTies(c: Candidate, s: seq<Candidate>, p: int)
    ensures Ties(Insert(c, s), p) == if c.profit == p then [c] + Ties(s, p) else Ties(s, p)
  {
    if s == [] || s[0].profit <= c.profit {
      assert ([c] + s)[1..] == s;
    } else {
      InsertTies(c, s[1..], p);
      assert ([s[0]] + Insert(c, s[1..]))[1..] == Insert(c, s[1..]);
    }
  }

  /** The sort is stable: for every profit, the candidates with that profit keep their input order. */
  lemma {:induction false} SortByProfitStable(s: seq<Candidate>, p: int)
    ensures Ties(SortByProfit(s), p) == Ties(s, p)
  {
    if s != [] {
      SortByProfitStable(s[1..], p);
      InsertTies(s[0], SortByProfit(s[1..]), p);
    }
  }

  lemma SortedHeadIsMax(s: seq<Candidate>, x: Candidate)
    requires SortedByProfit(s) && x in s
    ensures s[0].profit >= x.profit
  {
    var k :| 0 <= k < |s| && s[k] == x;
    if k > 0 {
      assert s[0].profit >= s[k].profit;
    }
  }

  /** Of two sorted orders with the same groups of equal profits, the heads agree. */
  lemma {:induction false} SortedHeadsAgree(a: seq<Candidate>, b: seq<Candidate>)
    requires SortedByProfit(a) && SortedByProfit(b) && a != [] && b != []
    requires Ties(a, a[0].profit) == Ties(b, a[0].profit)
    requires Ties(a, b[0].profit) == Ties(b, b[0].profit)
    ensures a[0] == b[0]
  {
    var p, q := a[0].profit, b[0].profit;
    assert a[0] in Ties(a, p);
    SortedHeadIsMax(b, a[0]);
    assert b[0] in Ties(b, q);
    SortedHeadIsMax(a, b[0]);
    assert Ties(a, p)[0] == a[0];
    assert Ties(b, p)[0] == b[0];
  }

  lemma {:induction false} TailTies(a: seq<Candidate>, b: seq<Candidate>, r: int)
    requires a != [] && b != [] && a[0] == b[0]
    requires Ties(a, r) == Ties(b, r)
    ensures Ties(a[1..], r) == Ties(b[1..], r)
  {
    var ta, tb := Ties(a[1..], r), Ties(b[1..], r);
    if a[0].profit == r {
      assert Ties(a, r) == [a[0]] + ta;
      assert Ties(b, r) == [a[0]] + tb;
      assert ta == ([a[0]] + ta)[1..] == ([a[0]] + tb)[1..] == tb;
    } else {
      assert Ties(a, r) == ta;
      assert Ties(b, r) == tb;
    }
  }

  /** A non-empty order has a non-empty group at its head's profit; the empty order has none. */
  lemma SameTiesSameEmptiness(a: seq<Candidate>, b: seq<Candidate>)
    requires a != [] && Ties(a, a[0].profit) == Ties(b, a[0].profit)
    ensures b != []
  {
    assert a[0] in Ties(a, a[0].profit);
  }

  /**
    Two orders sorted by descending profit that agree on the order of every
    group of equal profits are the same order.
  */
  lemma {:induction false} StableOrderUnique(a: seq<Candidate>, b: seq<Candidate>)
    requires SortedByProfit(a) && SortedByProfit(b)
    requires forall p :: Ties(a, p) == Ties(b, p)
    ensures a == b
  {
    if a != [] {
      assert Ties(a, a[0].profit) == Ties(b, a[0].profit);
      SameTiesSameEmptiness(a, b);
      assert Ties(a, b[0].profit) == Ties(b, b[0].profit);
      SortedHeadsAgree(a, b);
      forall r ensures Ties(a[1..], r) == Ties(b[1..], r) {
        TailTies(a, b, r);
      }
      StableOrderUnique(a[1..], b[1..]);
      assert a == [a[0]] + a[1..];
      assert b == [b[0]] + b[1..];
    }
  }

  /**
    `SortByProfit` is THE stable descending sort: any order of the same
    candidates that is sorted by descending profit and keeps every group of
    equal profits in input order is `SortByProfit(s)`.
  */
  lemma SortByProfitIsTheStableSort(s: seq<Candidate>, r: seq<Candidate>)
    requires SortedByProfit(r)
    requires forall p :: Ties(r, p) == Ties(s, p)
    ensures r == SortByProfit(s)
  {
    forall p ensures Ties(r, p) == Ties(SortByProfit(s), p) {
      SortByProfitStable(s, p);
    }
    StableOrderUnique(r, SortByProfit(s));
  }

  /**
    What one cycle ranks: at most `topN` candidates, sorted by descending
    profit, each taken from a returned quote at its own ladder amount with
    profit `total - amount` strictly above the threshold.
  */
  lemma RankSurvivors(amounts: seq<nat>, quotes: seq<Option<Quote>>, minProfit: int, topN: nat)
    requires |quotes| == |amounts|
    ensures |Rank(amounts, quotes, minProfit, topN)| <= topN
    ensures SortedByProfit(Rank(amounts, quotes, minProfit, topN))
    ensures forall c :: c in Rank(amounts, quotes, minProfit, topN) ==>
      c.profit > minProfit && c.profit == c.quote.total - c.amount &&
      exists i :: 0 <= i < |amounts| && amounts[i] == c.amount && quotes[i] == Some(c.quote)
  {
    var slots := Sweep(amounts, quotes);
    var sorted := SortByProfit(Profitable(slots, minProfit));
    var ranked := Rank(amounts, quotes, minProfit, topN);
    forall c | c in ranked
      ensures c.profit > minProfit && c.profit == c.quote.total - c.amount
      ensures exists i :: 0 <= i < |amounts| && amounts[i] == c.amount && quotes[i] == Some(c.quote)
    {
      assert c in sorted;
      assert c in multiset(sorted);
      assert c in Profitable(slots, minProfit);
      var i :| 0 <= i < |slots| && slots[i] == Some(c);
      assert amounts[i] == c.amount && quotes[i] == Some(c.quote);
    }
  }

  /**
    The ranker keeps the best. A quote at or below the threshold is never
    ranked; a quote above it that did not make the cut earns no more than any
    ranked candidate, and is only left out when all `topN` places are taken.
  */
  lemma RankKeepsBest(amounts: seq<nat>, quotes: seq<Option<Quote>>, minProfit: int, topN: nat, i: nat)
    requires |quotes| == |amounts| && i < |amounts| && quotes[i].Some?
    ensures var d := Candidate(amounts[i], quotes[i].value, quotes[i].value.total - amounts[i]);
      d.profit <= minProfit ==> d !in Rank(amounts, quotes, minProfit, topN)
    ensures var d := Candidate(amounts[i], quotes[i].value, quotes[i].value.total - amounts[i]);
      var ranked := Rank(amounts, quotes, minProfit, topN);
      d.profit > minProfit && d !in ranked ==>
        |ranked| == topN && forall c :: c in ranked ==> d.profit <= c.profit
  {
    RankSurvivors(amounts, quotes, minProfit, topN);
    var slots := Sweep(amounts, quotes);
    var sorted := SortByProfit(Profitable(slots, minProfit));
    var ranked := Rank(amounts, quotes, minProfit, topN);
    var d := slots[i].value;
    if d.profit > minProfit && d !in ranked {
      assert Survives(slots[i], minProfit);
      assert d in multiset(sorted);
      var k :| 0 <= k < |sorted| && sorted[k] == d;
      assert k >= |ranked|;
      forall c | c in ranked ensures d.profit <= c.profit {
        var j :| 0 <= j < |ranked| && ranked[j] == c;
        assert sorted[j] == c;
      }
    }
  }

  predicate AscendingAmounts(s: seq<Candidate>) {
    forall i, j :: 0 <= i < j < |s| ==> s[i].amount < s[j].amount
  }

  predicate TiesByAmount(s: seq<Candidate>) {
    forall i, j :: 0 <= i < j < |s| && s[i].profit == s[j].profit ==> s[i].amount < s[j].amount
  }

  lemma {:induction false} ProfitableAscending(slots: seq<Option<Candidate>>, minProfit: int)
    requires forall i, j :: 0 <= i < j < |slots| && slots[i].Some? && slots[j].Some? ==>
      slots[i].value.amount < slots[j].value.amount
    ensures AscendingAmounts(Profitable(slots, minProfit))
  {
    if slots != [] {
      ProfitableAscending(slots[1..], minProfit);
      var rest := Profitable(slots[1..], minProfit);
      if Survives(slots[0], minProfit) {
        forall c | c in rest ensures slots[0].value.amount < c.amount {
          var k :| 0 <= k < |slots[1..]| && slots[1..][k] == Some(c);
          assert slots[k + 1] == Some(c);
        }
        var kept := [slots[0].value] + rest;
        forall i, j | 0 <= i < j < |kept| ensures kept[i].amount < kept[j].amount {
          assert kept[j] in rest;
        }
      }
    }
  }

  lemma {:induction false} InsertTiesByAmount(c: Candidate, s: seq<Candidate>)
    requires TiesByAmount(s)
    requires forall d :: d in s ==> c.amount < d.amount
    ensures TiesByAmount(Insert(c, s))
  {
    if s == [] || s[0].profit <= c.profit {
      var r := [c] + s;
      forall i, j | 0 <= i < j < |r| && r[i].profit == r[j].profit ensures r[i].amount < r[j].amount {
        assert r[j] == s[j - 1];
        if i > 0 { assert r[i] == s[i - 1]; }
      }
    } else {
      var rest := Insert(c, s[1..]);
      InsertTiesByAmount(c, s[1..]);
      var r := [s[0]] + rest;
      forall i, j | 0 <= i < j < |r| && r[i].profit == r[j].profit ensures r[i].amount < r[j].amount {
        if i > 0 {
          assert r[i] == rest[i - 1] && r[j] == rest[j - 1];
        } else {
          assert r[j] == rest[j - 1];
          assert r[j] in multiset(rest);
          assert r[j] != c;
          assert r[j] in multiset(s[1..]);
          var k :| 0 <= k < |s[1..]| && s[1..][k] == r[j];
          assert s[k + 1] == r[j];
        }
      }
    }
  }

  lemma {:induction false} SortKeepsAmountOrder(s: seq<Candidate>)
    requires AscendingAmounts(s)
    ensures TiesByAmount(SortByProfit(s))
  {
    if s != [] {
      SortKeepsAmountOrder(s[1..]);
      forall d | d in SortByProfit(s[1..]) ensures s[0].amount < d.amount {
        assert d in multiset(SortByProfit(s[1..]));
        var k :| 0 <= k < |s[1..]| && s[1..][k] == d;
        assert s[k + 1] == d;
      }
      InsertTiesByAmount(s[0], SortByProfit(s[1..]));
    }
  }

  /**
    With the ladder's strictly ascending amounts, ranked candidates of equal
    profit appear smaller amount first.
  */
  lemma RankTiesKeepLadderOrder(amounts: seq<nat>, quotes: seq<Option<Quote>>, minProfit: int, topN: nat)
    requires |quotes| == |amounts|
    requires forall i, j :: 0 <= i < j < |amounts| ==> amounts[i] < amounts[j]
    ensures TiesByAmount(Rank(amounts, quotes, minProfit, topN))
  {
    var slots := Sweep(amounts, quotes);
    ProfitableAscending(slots, minProfit);
    SortKeepsAmountOrder(Profitable(slots, minProfit));
  }

  /**
    The tie-break at the cut: a profitable quote that did not make it loses
    only to candidates earning more, or earning the same at a smaller ladder
    amount.
  */
  lemma RankTieBreakBySmallerAmount(amounts: seq<nat>, quotes: seq<Option<Quote>>, minProfit: int, topN: nat, i: nat)
    requires |quotes| == |amounts| && i < |amounts| && quotes[i].Some?
    requires forall a, b :: 0 <= a < b < |amounts| ==> amounts[a] < amounts[b]
    ensures var d := Candidate(amounts[i], quotes[i].value, quotes[i].value.total - amounts[i]);
      var ranked := Rank(amounts, quotes, minProfit, topN);
      d.profit > minProfit && d !in ranked ==>
        forall c :: c in ranked && c.profit == d.profit ==> c.amount < d.amount
  {
    var slots := Sweep(amounts, quotes);
    var sorted := SortByProfit(Profitable(slots, minProfit));
    var ranked := Rank(amounts, quotes, minProfit, topN);
    var d := slots[i].value;
    if d.profit > minProfit && d !in ranked {
      ProfitableAscending(slots, minProfit);
      SortKeepsAmountOrder(Profitable(slots, minProfit));
      assert Survives(slots[i], minProfit);
      assert d in multiset(sorted);
      var k :| 0 <= k < |sorted| && sorted[k] == d;
      assert k >= |ranked|;
      forall c | c in ranked && c.profit == d.profit ensures c.amount < d.amount {
        var j :| 0 <= j < |ranked| && ranked[j] == c;
        assert sorted[j] == c;
      }
    }
  }
}
