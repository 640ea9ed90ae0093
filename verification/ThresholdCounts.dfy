/** The evaluation in plain numbers: what is counted, what the rates are of, and what the sweep prefers. */
module ThresholdCounts {
  import opened Wrappers
  import opened ThresholdSweep
  import opened ThresholdCalibration

  // ----- The counts -----

  /** What an evaluated query can be counted as. */
  datatype Kind = Known | Unknown | Identified | Misidentified | Rejected | FalselyAccepted | RankOne

  predicate Is(kind: Kind, metric: Metric, t: int, row: Row) {
    && row.Scored?
    && var accepted := match metric { case Cosine => row.score >= t case L2 => row.score <= t };
       match kind
       case Known => row.known
       case Unknown => !row.known
       case Identified => row.known && row.correct && accepted
       case Misidentified => row.known && !row.correct && accepted
       case Rejected => row.known && !accepted
       case FalselyAccepted => !row.known && accepted
       case RankOne => row.known && row.rank1 == Some(true)
  }

  function CountOf(m: Metrics, kind: Kind): nat {
    match kind
    case Known => m.known
    case Unknown => m.unknown
    case Identified => m.correct
    case Misidentified => m.wrong
    case Rejected => m.rejected
    case FalselyAccepted => m.falseAccepts
    case RankOne => m.rank1
  }

  ghost function Those(rows: seq<Row>, kind: Kind, metric: Metric, t: int): set<nat> {
    set i: nat | i < |rows| && Is(kind, metric, t, rows[i])
  }

  /** Each count is the number of rows of its kind. */
  lemma {:induction false} TallyCounts(rows: seq<Row>, metric: Metric, t: int, kind: Kind)
    ensures CountOf(Tally(rows, metric, t), kind) == |Those(rows, kind, metric, t)|
  {
    if rows == [] {
      assert Those(rows, kind, metric, t) == {};
    } else {
      var n := |rows| - 1;
      TallyCounts(rows[..n], metric, t, kind);
      AddCounts(Tally(rows[..n], metric, t), metric, t, rows[n], kind);
      ThoseGrow(rows, kind, metric, t);
    }
  }

  lemma ThoseGrow(rows: seq<Row>, kind: Kind, metric: Metric, t: int)
    requires rows != []
    ensures |Those(rows, kind, metric, t)| == |Those(rows[..|rows| - 1], kind, metric, t)|
                                              + if Is(kind, metric, t, rows[|rows| - 1]) then 1 else 0
  {
    var n := |rows| - 1;
    var before, all := Those(rows[..n], kind, metric, t), Those(rows, kind, metric, t);
    forall i: nat ensures i in all <==> i in before || (i == n && Is(kind, metric, t, rows[n])) {
      if i < n {
        assert rows[..n][i] == rows[i];
      }
    }
    OneMore(all, before, n, Is(kind, metric, t, rows[n]));
  }

  lemma OneMore(all: set<nat>, before: set<nat>, n: nat, joins: bool)
    requires n !in before && forall i: nat :: i in all <==> i in before || (i == n && joins)
    ensures |all| == |before| + if joins then 1 else 0
  {
    assert all == if joins then before + {n} else before;
  }

  lemma AddCounts(m: Metrics, metric: Metric, t: int, row: Row, kind: Kind)
    ensures CountOf(Add(m, metric, t, row), kind) == CountOf(m, kind) + if Is(kind, metric, t, row) then 1 else 0
  {
  }

  /** The average precisions of the known queries, in order. */
  function KnownPrecisions(rows: seq<Row>): seq<real> {
    if rows == [] then []
    else
      var n := |rows| - 1;
      KnownPrecisions(rows[..n]) +
      if rows[n].Scored? && rows[n].known && rows[n].averagePrecision.Some? then [rows[n].averagePrecision.value]
      else []
  }

  function Sum(s: seq<real>): real {
    if s == [] then 0.0 else Sum(s[..|s| - 1]) + s[|s| - 1]
  }

  lemma {:induction false} TallyPrecisions(rows: seq<Row>, metric: Metric, t: int)
    ensures Tally(rows, metric, t).precisions == Sum(KnownPrecisions(rows))
  {
    if rows != [] {
      var n := |rows| - 1;
      var before, all := KnownPrecisions(rows[..n]), KnownPrecisions(rows);
      TallyPrecisions(rows[..n], metric, t);
      if all != before {
        assert all[..|all| - 1] == before;
      }
    }
  }

  // ----- The rates -----

  /** The rate is absent over nothing, and otherwise the count divided by the total. */
  ghost predicate IsRate(rate: Option<real>, count: real, total: nat) {
    if total == 0 then rate == None else rate.Some? && rate.value * total as real == count
  }

  lemma QuotientIsRate(count: real, total: nat)
    requires total > 0
    ensures IsRate(Some(count / total as real), count, total)
  {
  }

  /** Which count each rate is of, and over which queries. */
  lemma RatesSay(m: Metrics)
    ensures var r := RatesOf(m);
            && IsRate(r.rank1, m.rank1 as real, m.known) && IsRate(r.meanPrecision, m.precisions, m.known)
            && IsRate(r.identified, m.correct as real, m.known) && IsRate(r.misidentified, m.wrong as real, m.known)
            && IsRate(r.rejected, m.rejected as real, m.known)
            && IsRate(r.missed, (m.wrong + m.rejected) as real, m.known)
            && IsRate(r.falseAccepted, m.falseAccepts as real, m.unknown)
  {
    if m.known > 0 {
      QuotientIsRate(m.rank1 as real, m.known);
      QuotientIsRate(m.precisions, m.known);
      QuotientIsRate(m.correct as real, m.known);
      QuotientIsRate(m.wrong as real, m.known);
      QuotientIsRate(m.rejected as real, m.known);
      QuotientIsRate((m.wrong + m.rejected) as real, m.known);
    }
    if m.unknown > 0 {
      QuotientIsRate(m.falseAccepts as real, m.unknown);
    }
  }

  // ----- The choice -----

  /** In counts: more identified, then fewer misidentified, then fewer accepted by mistake, then the smaller cosine
      threshold and the larger L2 threshold. */
  predicate Preferred(metric: Metric, a: Metrics, t: int, b: Metrics, u: int) {
    if a.correct != b.correct then a.correct > b.correct
    else if a.wrong != b.wrong then a.wrong < b.wrong
    else if a.falseAccepts != b.falseAccepts then a.falseAccepts < b.falseAccepts
    else if metric.Cosine? then t < u
    else t > u
  }

  lemma SameOrder(a: nat, b: nat, n: nat)
    requires n > 0
    ensures a < b <==> a as real / n as real < b as real / n as real
    ensures a == b <==> a as real / n as real == b as real / n as real
  {
    var d := n as real;
    var p, q := a as real / d, b as real / d;
    assert p * d == a as real && q * d == b as real;
    assert p < q ==> p * d < q * d;
    assert p > q ==> p * d > q * d;
  }

  /** The order on rates is the order on counts. */
  lemma BetterInCounts(a: Metrics, b: Metrics, metric: Metric, t: int, u: int)
    requires Calibratable(a) && a.known == b.known && a.unknown == b.unknown
    ensures Better(QualityOf(a, metric, t), QualityOf(b, metric, u)) <==> Preferred(metric, a, t, b, u)
  {
    SameOrder(a.correct, b.correct, a.known);
    SameOrder(b.correct, a.correct, a.known);
    SameOrder(a.wrong, b.wrong, a.known);
    SameOrder(b.wrong, a.wrong, a.known);
    SameOrder(a.falseAccepts, b.falseAccepts, a.unknown);
    SameOrder(b.falseAccepts, a.falseAccepts, a.unknown);
  }

  /** The false accepts stay within the target. */
  predicate InTarget(m: Metrics, target: real) {
    m.falseAccepts as real <= target * m.unknown as real
  }

  lemma MeetsInCounts(rows: seq<Row>, metric: Metric, t: int, target: real)
    requires Tally(rows, metric, t).unknown > 0
    ensures Meets(rows, metric, t, target) <==> ValidThreshold(metric, t) && InTarget(Tally(rows, metric, t), target)
  {
    RateInTarget(Tally(rows, metric, t), target);
  }

  lemma RateInTarget(m: Metrics, target: real)
    requires m.unknown > 0
    ensures m.falseAccepts as real / m.unknown as real <= target <==> InTarget(m, target)
  {
    var rate := m.falseAccepts as real / m.unknown as real;
    QuotientIsRate(m.falseAccepts as real, m.unknown);
    RateWithin(m.falseAccepts as real, m.unknown as real, target, rate);
  }

  lemma RateWithin(count: real, total: real, target: real, rate: real)
    requires total > 0.0 && rate * total == count
    ensures rate <= target <==> count <= target * total
  {
    assert (target - rate) * total == target * total - count;
  }

  /** The threshold found keeps to the target, and of all valid ones that do, none is preferred in counts, but perhaps
      an L2 threshold beyond every score at a target of 1. */
  lemma ChosenInCounts(rows: seq<Row>, metric: Metric, target: real, t: int, u: int)
    requires Calibratable(Tally(rows, metric, t)) && BestOf(rows, metric, target, t)
    ensures ValidThreshold(metric, t) && InTarget(Tally(rows, metric, t), target)
    ensures (&& ValidThreshold(metric, u) && InTarget(Tally(rows, metric, u), target)
             && (metric.Cosine? || target < 1.0 || BelowSomeScore(rows, u))) ==>
              !Preferred(metric, Tally(rows, metric, u), u, Tally(rows, metric, t), t)
  {
    KnownUnknownFixed(rows, metric, t, u);
    MeetsInCounts(rows, metric, t, target);
    MeetsInCounts(rows, metric, u, target);
    BetterInCounts(Tally(rows, metric, u), Tally(rows, metric, t), metric, u, t);
  }
}
