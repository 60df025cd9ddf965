/** Candidate pairs of monthly_pair_testing.py: symbols with too few price rows in the window
    are dropped (lines 97-102), and every 2-combination of the surviving symbols, in input
    order, becomes a pair named "symbol_1-symbol_2" (lines 150, 189-190). */
module PairUniverse {
  import opened Ledger

  /** The fewest price rows a symbol needs to stay in the universe. */
  const MinRows: nat := 30

  /** A price row of the window; only its symbol matters to the filter. */
  datatype PriceRow = PriceRow(symbol: string, timestamp: int, close: real)

  /** `value_counts('symbol')` for one symbol. */
  function Count(rows: seq<PriceRow>, symbol: string): (n: nat)
    ensures n <= |rows|
    ensures n == 0 <==> forall k :: 0 <= k < |rows| ==> rows[k].symbol != symbol
  {
    if rows == [] then 0
    else (if rows[0].symbol == symbol then 1 else 0) + Count(rows[1..], symbol)
  }

  /** The rows of `rows` whose symbol occurs at least `MinRows` times in `all`, in their order. */
  function KeepFrequent(all: seq<PriceRow>, rows: seq<PriceRow>): seq<PriceRow> {
    if rows == [] then []
    else (if Count(all, rows[0].symbol) >= MinRows then [rows[0]] else []) + KeepFrequent(all, rows[1..])
  }

  /** `df3[df3['symbol'].isin(mask.index[mask])]` with `mask = days_by_symbol >= 30`. */
  function FrequentRows(rows: seq<PriceRow>): seq<PriceRow> {
    KeepFrequent(rows, rows)
  }

  /** The filter keeps exactly the rows whose symbol has at least 30 rows. */
  lemma {:induction false} KeepFrequentMembers(all: seq<PriceRow>, rows: seq<PriceRow>)
    ensures forall r :: r in KeepFrequent(all, rows) <==> r in rows && Count(all, r.symbol) >= MinRows
  {
    if rows != [] {
      KeepFrequentMembers(all, rows[1..]);
      assert rows == [rows[0]] + rows[1..];
    }
  }

  /** The filter drops whole symbols: a surviving symbol keeps all its rows, any other keeps
      none. */
  lemma {:induction false} KeepFrequentCounts(all: seq<PriceRow>, rows: seq<PriceRow>, symbol: string)
    ensures Count(all, symbol) >= MinRows ==> Count(KeepFrequent(all, rows), symbol) == Count(rows, symbol)
    ensures Count(all, symbol) < MinRows ==> Count(KeepFrequent(all, rows), symbol) == 0
  {
    if rows != [] {
      KeepFrequentCounts(all, rows[1..], symbol);
      var head := if Count(all, rows[0].symbol) >= MinRows then [rows[0]] else [];
      CountAppend(head, KeepFrequent(all, rows[1..]), symbol);
    }
  }

  lemma {:induction false} CountAppend(a: seq<PriceRow>, b: seq<PriceRow>, symbol: string)
    ensures Count(a + b, symbol) == Count(a, symbol) + Count(b, symbol)
  {
    if a != [] {
      assert (a + b)[0] == a[0];
      assert (a + b)[1..] == a[1..] + b;
      CountAppend(a[1..], b, symbol);
      assert Count(a + b, symbol) == (if a[0].symbol == symbol then 1 else 0) + Count(a[1..] + b, symbol);
    } else {
      assert a + b == b;
    }
  }

  /** Every symbol left after filtering has at least 30 rows, counted on the filtered rows. */
  lemma FrequentRowsSurvivors(rows: seq<PriceRow>, symbol: string)
    requires symbol in set r | r in FrequentRows(rows) :: r.symbol
    ensures Count(FrequentRows(rows), symbol) >= MinRows
  {
    KeepFrequentMembers(rows, rows);
    KeepFrequentCounts(rows, rows, symbol);
  }

  /** The index pairs `(i, j)` with `lo <= i < j < n` in the order `itertools.combinations`
      yields them. */
  function IndexPairs(lo: nat, n: nat): (ps: seq<(nat, nat)>)
    ensures forall k :: 0 <= k < |ps| ==> lo <= ps[k].0 < ps[k].1 < n
    decreases n - lo
  {
    if lo >= n then []
    else Row(lo, n) + IndexPairs(lo + 1, n)
  }

  /** The pairs `(lo, j)` for `lo < j < n`. */
  function Row(lo: nat, n: nat): (row: seq<(nat, nat)>)
    requires lo < n
    ensures |row| == n - lo - 1
    ensures forall k :: 0 <= k < |row| ==> row[k] == (lo, lo + 1 + k)
  {
    seq(n - lo - 1, k requires 0 <= k < n - lo - 1 => (lo, lo + 1 + k))
  }

  /** Lexicographic order on index pairs. */
  predicate LexLess(p: (nat, nat), q: (nat, nat)) {
    p.0 < q.0 || (p.0 == q.0 && p.1 < q.1)
  }

  predicate LexSorted(ps: seq<(nat, nat)>) {
    forall a, b :: 0 <= a < b < |ps| ==> LexLess(ps[a], ps[b])
  }

  /** Every pair `(i, j)` with `lo <= i < j < n` is listed. */
  lemma {:induction false} IndexPairsComplete(lo: nat, n: nat, i: nat, j: nat)
    requires lo <= i < j < n
    ensures (i, j) in IndexPairs(lo, n)
    decreases n - lo
  {
    assert IndexPairs(lo, n) == Row(lo, n) + IndexPairs(lo + 1, n);
    if i == lo {
      assert Row(lo, n)[j - lo - 1] == (i, j);
    } else {
      IndexPairsComplete(lo + 1, n, i, j);
    }
  }

  /** The pairs come in strictly increasing lexicographic order, so each occurs once. */
  lemma {:induction false} IndexPairsSorted(lo: nat, n: nat)
    ensures LexSorted(IndexPairs(lo, n))
    decreases n - lo
  {
    if lo < n {
      IndexPairsSorted(lo + 1, n);
      var row := Row(lo, n);
      var rest := IndexPairs(lo + 1, n);
      var ps := IndexPairs(lo, n);
      assert ps == row + rest;
      forall a, b | 0 <= a < b < |ps|
        ensures LexLess(ps[a], ps[b])
      {
        if b < |row| {
          assert ps[a] == row[a] == (lo, lo + 1 + a);
          assert ps[b] == row[b] == (lo, lo + 1 + b);
        } else if a < |row| {
          assert ps[a] == row[a] == (lo, lo + 1 + a);
          assert ps[b] == rest[b - |row|];
          assert lo + 1 <= rest[b - |row|].0;
        } else {
          assert ps[a] == rest[a - |row|] && ps[b] == rest[b - |row|];
          assert LexLess(rest[a - |row|], rest[b - |row|]);
        }
      }
    }
  }

  /** There are (n-lo)(n-lo-1)/2 pairs. */
  lemma {:induction false} IndexPairsLength(lo: nat, n: nat)
    requires lo <= n
    ensures 2 * |IndexPairs(lo, n)| == (n - lo) * (n - lo - 1)
    decreases n - lo
  {
    if lo < n {
      IndexPairsLength(lo + 1, n);
      var m := n - lo - 1;
      assert 2 * |IndexPairs(lo, n)| == 2 * m + m * (m - 1);
      assert 2 * m + m * (m - 1) == (m + 1) * m;
    }
  }

  /** `list(combinations(symbols, 2))`. */
  function Combinations(symbols: seq<string>): seq<(string, string)> {
    var ps := IndexPairs(0, |symbols|);
    seq(|ps|, k requires 0 <= k < |ps| => (symbols[ps[k].0], symbols[ps[k].1]))
  }

  /** A symbol pair is a candidate exactly when its first symbol comes earlier in the input than
      its second; there are n(n-1)/2 candidates. */
  lemma CombinationsMembers(symbols: seq<string>)
    ensures var cs := Combinations(symbols);
      && 2 * |cs| == |symbols| * (|symbols| - 1)
      && (forall a, b :: (a, b) in cs <==> exists i, j :: 0 <= i < j < |symbols| && symbols[i] == a && symbols[j] == b)
  {
    IndexPairsLength(0, |symbols|);
    var ps := IndexPairs(0, |symbols|);
    var cs := Combinations(symbols);
    forall a, b | exists i, j :: 0 <= i < j < |symbols| && symbols[i] == a && symbols[j] == b
      ensures (a, b) in cs
    {
      var i, j :| 0 <= i < j < |symbols| && symbols[i] == a && symbols[j] == b;
      IndexPairsComplete(0, |symbols|, i, j);
      var k :| 0 <= k < |ps| && ps[k] == (i, j);
      assert cs[k] == (a, b);
    }
  }

  /** With distinct symbols every unordered pair of different symbols appears exactly once: in one
      orientation and at one position. */
  lemma CombinationsUnique(symbols: seq<string>)
    requires forall i, j :: 0 <= i < j < |symbols| ==> symbols[i] != symbols[j]
    ensures var cs := Combinations(symbols);
      && (forall a, b :: 0 <= a < b < |cs| ==> cs[a] != cs[b])
      && (forall a, b :: (a, b) in cs ==> (b, a) !in cs)
  {
    IndexPairsSorted(0, |symbols|);
    CombinationsMembers(symbols);
    var ps := IndexPairs(0, |symbols|);
    var cs := Combinations(symbols);
    forall a, b | 0 <= a < b < |cs|
      ensures cs[a] != cs[b]
    {
      assert |cs| == |ps|;
      assert cs[a] == (symbols[ps[a].0], symbols[ps[a].1]);
      assert cs[b] == (symbols[ps[b].0], symbols[ps[b].1]);
      assert LexLess(ps[a], ps[b]);
    }
    forall a, b | (a, b) in cs
      ensures (b, a) !in cs
    {
      var i, j :| 0 <= i < j < |symbols| && symbols[i] == a && symbols[j] == b;
      forall i', j' | 0 <= i' < j' < |symbols| && symbols[i'] == b
        ensures symbols[j'] != a
      {
        assert i' == j;
        assert j' != i;
      }
    }
  }

  /** The names `f'{a}-{b}'` of a list of symbol pairs. */
  function NamesOf(cs: seq<(string, string)>): seq<string> {
    seq(|cs|, k requires 0 <= k < |cs| => PairName(cs[k].0, cs[k].1))
  }

  /** `name` joins a symbol and a later one. */
  predicate LaterPairName(name: string, symbols: seq<string>) {
    exists i, j :: 0 <= i < j < |symbols| && name == PairName(symbols[i], symbols[j])
  }

  /** Every name joins a symbol and a later one. */
  predicate NamesLaterPairs(names: seq<string>, symbols: seq<string>) {
    forall k :: 0 <= k < |names| ==> LaterPairName(names[k], symbols)
  }

  /** Every symbol joined with every later one is among the names. */
  predicate NamesEveryPair(names: seq<string>, symbols: seq<string>) {
    forall i, j :: 0 <= i < j < |symbols| ==> PairName(symbols[i], symbols[j]) in names
  }

  lemma NamesOfCombinationsSound(symbols: seq<string>)
    ensures NamesLaterPairs(NamesOf(Combinations(symbols)), symbols)
  {
    var ps := IndexPairs(0, |symbols|);
    var cs := Combinations(symbols);
    var names := NamesOf(cs);
    forall k | 0 <= k < |names|
      ensures LaterPairName(names[k], symbols)
    {
      var i, j := ps[k].0, ps[k].1;
      assert cs[k] == (symbols[i], symbols[j]);
      assert 0 <= i < j < |symbols| && names[k] == PairName(symbols[i], symbols[j]);
    }
  }

  lemma NamesOfCombinationsComplete(symbols: seq<string>)
    ensures NamesEveryPair(NamesOf(Combinations(symbols)), symbols)
  {
    CombinationsMembers(symbols);
    var cs := Combinations(symbols);
    var names := NamesOf(cs);
    forall i, j | 0 <= i < j < |symbols|
      ensures PairName(symbols[i], symbols[j]) in names
    {
      assert (symbols[i], symbols[j]) in cs;
      var k :| 0 <= k < |cs| && cs[k] == (symbols[i], symbols[j]);
      assert names[k] == PairName(symbols[i], symbols[j]);
    }
  }

  /** The names of the candidate pairs, `f'{symbol_1}-{symbol_2}'`: n(n-1)/2 of them, each naming
      a symbol and a later one, and every such pair named. */
  function PairNames(symbols: seq<string>): (names: seq<string>)
    ensures 2 * |names| == |symbols| * (|symbols| - 1)
    ensures NamesLaterPairs(names, symbols)
    ensures NamesEveryPair(names, symbols)
  {
    CombinationsMembers(symbols);
    NamesOfCombinationsSound(symbols);
    NamesOfCombinationsComplete(symbols);
    NamesOf(Combinations(symbols))
  }

  /** Distinct symbols without a dash give distinct pair names, so no two candidates share a
      name. */
  lemma PairNamesDistinct(symbols: seq<string>)
    requires forall i, j :: 0 <= i < j < |symbols| ==> symbols[i] != symbols[j]
    requires forall i :: 0 <= i < |symbols| ==> '-' !in symbols[i]
    ensures var names := PairNames(symbols);
      forall a, b :: 0 <= a < b < |names| ==> names[a] != names[b]
  {
    CombinationsUnique(symbols);
    var ps := IndexPairs(0, |symbols|);
    var cs := Combinations(symbols);
    var names := PairNames(symbols);
    forall a, b | 0 <= a < b < |names|
      ensures names[a] != names[b]
    {
      assert cs[a] == (symbols[ps[a].0], symbols[ps[a].1]);
      assert cs[b] == (symbols[ps[b].0], symbols[ps[b].1]);
      if names[a] == names[b] {
        PairNameInjective(cs[a].0, cs[a].1, cs[b].0, cs[b].1);
      }
    }
  }

  /** Symbols without a dash are recovered from their pair name. */
  lemma PairNameInjective(a: string, b: string, c: string, d: string)
    requires '-' !in a && '-' !in c
    requires PairName(a, b) == PairName(c, d)
    ensures a == c && b == d
  {
    DashAfterFirst(a, b);
    DashAfterFirst(c, d);
    assert |a| == |c|;
    {
      assert a == PairName(a, b)[..|a|];
      assert c == PairName(c, d)[..|c|];
      assert b == PairName(a, b)[|a| + 1..];
      assert d == PairName(c, d)[|c| + 1..];
    }
  }

  /** In a pair name the first symbol is followed by the first dash. */
  lemma DashAfterFirst(a: string, b: string)
    requires '-' !in a
    ensures PairName(a, b)[|a|] == '-'
    ensures forall k :: 0 <= k < |a| ==> PairName(a, b)[k] == a[k] != '-'
  {
  }

  /** `combinations(['A', 'B', 'C'], 2)` is AB, AC, BC. */
  lemma CombinationsExample()
    ensures Combinations(["A", "B", "C"]) == [("A", "B"), ("A", "C"), ("B", "C")]
  {
    assert Row(1, 3) == [(1, 2)];
    assert Row(0, 3) == [(0, 1), (0, 2)];
    assert IndexPairs(1, 3) == [(1, 2)] + IndexPairs(2, 3) == [(1, 2)];
    var ps := IndexPairs(0, 3);
    assert ps == [(0, 1), (0, 2)] + [(1, 2)];
    var cs := Combinations(["A", "B", "C"]);
    assert |cs| == 3 && cs[0] == ("A", "B") && cs[1] == ("A", "C") && cs[2] == ("B", "C");
  }
}
