/** The per-session history of simulations: a snapshot of each run is put
    at the front of a list unless an equal snapshot is already in it, and
    the five front entries are shown. */
module SimulationHistory {
  import opened Profitability

  /** 10 to the power n. */
  function Pow10(n: nat): (p: real)
    ensures p >= 1.0
  {
    if n == 0 then 1.0 else 10.0 * Pow10(n - 1)
  }

  /** Nearest integer to y; a tie goes to the even neighbour. */
  function RoundHalfEven(y: real): (n: int)
    ensures -0.5 <= n as real - y <= 0.5
    ensures (n as real - y == 0.5 || y - n as real == 0.5) ==> n % 2 == 0
  {
    var f := y.Floor;
    var frac := y - f as real;
    if frac < 0.5 then f
    else if frac > 0.5 then f + 1
    else if f % 2 == 0 then f
    else f + 1
  }

  /** The factor 10^digits that moves the last kept decimal digit to the
      units place. Not a second definition: it is Pow10 under a
      non-recursive name, so that the solver can match it inside the
      products of RoundTo's contract. */
  function DecimalScale(digits: nat): (p: real)
    ensures p >= 1.0
  {
    Pow10(digits)
  }

  /** x rounded to the given number of decimal digits, ties to even: the
      result lies on the grid of multiples of 10^-digits, at the grid point
      RoundHalfEven picks for x, hence within half a grid step of x. */
  function RoundTo(x: real, digits: nat): (r: real)
    ensures r * DecimalScale(digits) == RoundHalfEven(x * DecimalScale(digits)) as real
    ensures -0.5 <= (r - x) * DecimalScale(digits) <= 0.5
  {
    var n := RoundHalfEven(x * DecimalScale(digits));
    QuotientTimesDivisor(n as real, DecimalScale(digits));
    n as real / DecimalScale(digits)
  }

  /** A value that already has at most the given number of decimals is
      left as it is. */
  lemma RoundToKeepsExact(x: real, k: int, digits: nat)
    requires x * DecimalScale(digits) == k as real
    ensures RoundTo(x, digits) == x
  {
    var p, r := DecimalScale(digits), RoundTo(x, digits);
    RoundHalfEvenOfInteger(k);
    assert RoundTo(x, digits) * DecimalScale(digits) == RoundHalfEven(x * DecimalScale(digits)) as real;
    assert r * p == k as real;
    CancelFactor(r, x, p);
  }

  lemma CancelFactor(a: real, b: real, p: real)
    requires p > 0.0 && a * p == b * p
    ensures a == b
  {
    assert (a - b) * p == 0.0;
  }

  lemma RoundHalfEvenOfInteger(k: int)
    ensures RoundHalfEven(k as real) == k
  {
    assert (k as real).Floor == k;
  }

  lemma QuotientTimesDivisor(q: real, p: real)
    requires p != 0.0
    ensures (q / p) * p == q
  {
  }

  /** The break-even estimate as stored: units rounded to one decimal,
      the sentinel kept. */
  function RoundBreakEven(b: BreakEven): (r: BreakEven)
    ensures r.NotProfitable? <==> b.NotProfitable?
    ensures r.Units? ==> r.units == RoundTo(b.units, 1)
    ensures r.Units? ==> -0.5 <= (r.units - b.units) * 10.0 <= 0.5
  {
    match b
    case NotProfitable => NotProfitable
    case Units(u) => Units(RoundTo(u, 1))
  }

  /** One entry of the history: price, total cost, profit, the margin
      rounded to two decimals and the break-even rounded to one. */
  datatype Snapshot = Snapshot(
    sellPrice: real,
    totalCost: real,
    profit: real,
    margin: real,
    breakEven: BreakEven)

  /** The snapshot of one run of the calculation. */
  function TakeSnapshot(i: Inputs): (s: Snapshot)
    ensures s.sellPrice == i.sellPrice
    ensures s.totalCost == Compute(i).totalCost && s.profit == Compute(i).profit
    ensures s.margin == RoundTo(Compute(i).margin, 2)
    ensures s.breakEven == RoundBreakEven(Compute(i).breakEven)
    ensures s.profit + s.totalCost == i.sellPrice
    ensures -0.5 <= (s.margin - Compute(i).margin) * 100.0 <= 0.5
    ensures s.breakEven.NotProfitable? <==> s.profit <= 0.0
  {
    var o := Compute(i);
    Snapshot(i.sellPrice, o.totalCost, o.profit, RoundTo(o.margin, 2), RoundBreakEven(o.breakEven))
  }

  /** How many entries the history display shows. */
  const DisplayLimit: nat := 5

  /** No snapshot occurs twice. */
  predicate NoDuplicates(h: seq<Snapshot>)
  {
    forall i, j :: 0 <= i < j < |h| ==> h[i] != h[j]
  }

  /** The history after offering it one snapshot: unchanged when an equal
      snapshot is anywhere in it, otherwise the snapshot goes in front. */
  function Inserted(h: seq<Snapshot>, s: Snapshot): (r: seq<Snapshot>)
    ensures s in r
    ensures |r| == if s in h then |h| else |h| + 1
  {
    if s in h then h else [s] + h
  }

  lemma InsertedShape(h: seq<Snapshot>, s: Snapshot)
    ensures s in Inserted(h, s)
    ensures s in h ==> Inserted(h, s) == h
    ensures s !in h ==> Inserted(h, s)[0] == s && Inserted(h, s)[1..] == h
  {
  }

  /** Offering the same snapshot twice is the same as offering it once. */
  lemma InsertedIdempotent(h: seq<Snapshot>, s: Snapshot)
    ensures Inserted(Inserted(h, s), s) == Inserted(h, s)
  {
  }

  lemma InsertedKeepsNoDuplicates(h: seq<Snapshot>, s: Snapshot)
    requires NoDuplicates(h)
    ensures NoDuplicates(Inserted(h, s))
  {
  }

  /** The history built from the empty list by offering it the snapshots
      of successive runs, oldest first. */
  function HistoryAfter(runs: seq<Snapshot>): (h: seq<Snapshot>)
    ensures |h| <= |runs|
    ensures runs != [] ==> runs[|runs| - 1] in h
  {
    if runs == [] then [] else Inserted(HistoryAfter(runs[..|runs| - 1]), runs[|runs| - 1])
  }

  /** Index of the run that first produced s. */
  function FirstSeen(runs: seq<Snapshot>, s: Snapshot): (k: nat)
    requires s in runs
    ensures k < |runs| && runs[k] == s && s !in runs[..k]
  {
    var n := |runs| - 1;
    if s in runs[..n] then FirstSeen(runs[..n], s) else n
  }

  /** A history built from the empty list never holds two equal snapshots. */
  lemma {:induction false} HistoryAfterNoDuplicates(runs: seq<Snapshot>)
    ensures NoDuplicates(HistoryAfter(runs))
  {
    if runs != [] {
      var prev := runs[..|runs| - 1];
      HistoryAfterNoDuplicates(prev);
      InsertedKeepsNoDuplicates(HistoryAfter(prev), runs[|runs| - 1]);
    }
  }

  /** The history holds exactly the snapshots of the runs so far. */
  lemma {:induction false} HistoryAfterMembers(runs: seq<Snapshot>)
    ensures forall s :: s in HistoryAfter(runs) <==> s in runs
  {
    if runs != [] {
      var prev := runs[..|runs| - 1];
      HistoryAfterMembers(prev);
      assert runs == prev + [runs[|runs| - 1]];
    }
  }

  /** Every entry of h comes from runs, and an entry nearer the front was
      first produced by a later run than any entry behind it. */
  ghost predicate NewestFirst(runs: seq<Snapshot>, h: seq<Snapshot>)
  {
    (forall k :: 0 <= k < |h| ==> h[k] in runs) &&
    (forall i, j :: 0 <= i < j < |h| ==> FirstSeen(runs, h[j]) < FirstSeen(runs, h[i]))
  }

  /** A later run does not move the first sighting of an earlier snapshot. */
  lemma FirstSeenKept(prev: seq<Snapshot>, x: Snapshot, y: Snapshot)
    requires y in prev
    ensures y in prev + [x] && FirstSeen(prev + [x], y) == FirstSeen(prev, y)
  {
    assert (prev + [x])[..|prev|] == prev;
  }

  lemma NewestFirstKept(prev: seq<Snapshot>, x: Snapshot, h: seq<Snapshot>)
    requires NewestFirst(prev, h)
    ensures NewestFirst(prev + [x], h)
  {
    forall i, j | 0 <= i < j < |h|
      ensures h[i] in prev + [x] && h[j] in prev + [x]
      ensures FirstSeen(prev + [x], h[j]) < FirstSeen(prev + [x], h[i])
    {
      FirstSeenKept(prev, x, h[i]);
      FirstSeenKept(prev, x, h[j]);
    }
  }

  lemma NewestFirstPrepend(prev: seq<Snapshot>, x: Snapshot, h: seq<Snapshot>)
    requires NewestFirst(prev, h) && x !in prev
    requires forall y :: y in h ==> y in prev
    ensures NewestFirst(prev + [x], [x] + h)
  {
    var runs := prev + [x];
    var h' := [x] + h;
    NewestFirstKept(prev, x, h);
    assert runs[..|prev|] == prev;
    assert FirstSeen(runs, x) == |prev|;
    forall i, j | 0 <= i < j < |h'|
      ensures h'[i] in runs && h'[j] in runs
      ensures FirstSeen(runs, h'[j]) < FirstSeen(runs, h'[i])
    {
      assert h'[j] == h[j - 1];
      if i > 0 {
        assert h'[i] == h[i - 1];
      } else {
        FirstSeenKept(prev, x, h[j - 1]);
      }
    }
  }

  /** The history is ordered newest first. */
  lemma {:induction false} HistoryNewestFirst(runs: seq<Snapshot>)
    ensures NewestFirst(runs, HistoryAfter(runs))
  {
    if runs == [] {
      assert HistoryAfter(runs) == [];
    } else {
      var prev, x := runs[..|runs| - 1], runs[|runs| - 1];
      assert runs == prev + [x];
      HistoryNewestFirst(prev);
      HistoryAfterMembers(prev);
      if x in HistoryAfter(prev) {
        NewestFirstKept(prev, x, HistoryAfter(prev));
      } else {
        NewestFirstPrepend(prev, x, HistoryAfter(prev));
      }
    }
  }

  /** One more run extends the history by the dedup-prepend, and the
      result still has no duplicates and is newest first. */
  lemma HistoryAfterStep(runs: seq<Snapshot>, s: Snapshot)
    ensures HistoryAfter(runs + [s]) == Inserted(HistoryAfter(runs), s)
    ensures NoDuplicates(HistoryAfter(runs + [s]))
    ensures NewestFirst(runs + [s], HistoryAfter(runs + [s]))
  {
    assert (runs + [s])[..|runs|] == runs;
    HistoryAfterNoDuplicates(runs + [s]);
    HistoryNewestFirst(runs + [s]);
  }

  /** The state one browser session keeps between runs of the page. */
  class Session {
    /** The stored history, most recent first. */
    var history: seq<Snapshot>
    /** The snapshots of every run so far, oldest first. */
    ghost var runs: seq<Snapshot>

    ghost predicate Valid()
      reads this
    {
      history == HistoryAfter(runs)
    }

    /** A new session starts with an empty history. */
    constructor ()
      ensures Valid() && history == [] && runs == []
    {
      history := [];
      runs := [];
    }

    /** Offers one snapshot to the history. */
    method Record(s: Snapshot)
      requires Valid()
      modifies this
      ensures Valid() && runs == old(runs) + [s]
      ensures history == Inserted(old(history), s)
      ensures s !in old(history) ==> history[0] == s && history[1..] == old(history)
      ensures s in history && NoDuplicates(history) && NewestFirst(runs, history)
    {
      ghost var next := HistoryAfter(runs + [s]);
      HistoryAfterStep(runs, s);
      assert next == Inserted(history, s);
      InsertedShape(history, s);
      if s !in history {
        history := [s] + history;
      }
      assert history == next;
      runs := runs + [s];
    }

    /** One run of the page: compute the outcome of the inputs and record
        its snapshot. */
    method Simulate(i: Inputs) returns (o: Outcome)
      requires Valid()
      modifies this
      ensures o == Compute(i)
      ensures Valid() && runs == old(runs) + [TakeSnapshot(i)]
      ensures history == Inserted(old(history), TakeSnapshot(i))
      ensures NoDuplicates(history) && NewestFirst(runs, history)
    {
      o := Compute(i);
      Record(TakeSnapshot(i));
    }

    /** The entries shown under the history heading: the front of the
        history, at most DisplayLimit of them. */
    function Recent(): (d: seq<Snapshot>)
      reads this
      ensures |d| <= DisplayLimit && d <= history
      ensures |history| >= DisplayLimit ==> |d| == DisplayLimit
      ensures |history| < DisplayLimit ==> d == history
    {
      if |history| <= DisplayLimit then history else history[..DisplayLimit]
    }
  }
}
