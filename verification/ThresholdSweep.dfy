/**
 Open-set identification at a threshold, and the choice of a threshold on calibration rows.
 A finite double is represented by its position in the order of the finite doubles, so that the next
 larger double is the next integer.
 */
module ThresholdSweep {
  import opened Wrappers

  datatype Metric = Cosine | L2

  /** Positions of 0.0, 1.0 and the largest finite double. */
  const ZERO := 0
  const ONE := 0x3FF0_0000_0000_0000
  const LARGEST := 0x7FEF_FFFF_FFFF_FFFF

  /** A finite double. A threshold may be any position; those beyond the largest stand for infinity. */
  type Double = x: int | -LARGEST <= x <= LARGEST

  /** One query: left out of the evaluation, or scored against the gallery. */
  datatype Row =
    | Skipped(id: string, identity: string)
    | Scored(id: string, identity: string, camera: string, known: bool, candidate: string, score: Double,
             correct: bool, rank1: Option<bool>, averagePrecision: Option<real>)

  datatype Prediction = Prediction(row: Row, accepted: bool, predictedIdentity: Option<string>)

  datatype Metrics = Metrics(
    queries: nat,
    known: nat,
    unknown: nat,
    correct: nat,
    wrong: nat,
    rejected: nat,
    falseAccepts: nat,
    rank1: nat,
    precisions: real)

  datatype Error =
    | BadThreshold | BadTarget | NothingToCalibrate | TargetCannotBeMet

  predicate ValidThreshold(metric: Metric, t: int) {
    if metric.Cosine? then -ONE <= t <= ONE else ZERO <= t <= LARGEST
  }

  predicate Accepts(metric: Metric, t: int, score: int) {
    if metric.Cosine? then t <= score else score <= t
  }

  function Add(m: Metrics, metric: Metric, t: int, row: Row): Metrics {
    if row.Skipped? then m.(queries := m.queries + 1)
    else
      var yes := Accepts(metric, t, row.score);
      if row.known
      then m.(queries := m.queries + 1, known := m.known + 1,
              correct := m.correct + (if yes && row.correct then 1 else 0),
              wrong := m.wrong + (if yes && !row.correct then 1 else 0),
              rejected := m.rejected + (if yes then 0 else 1),
              rank1 := m.rank1 + (if row.rank1 == Some(true) then 1 else 0),
              precisions := m.precisions + (if row.averagePrecision.Some? then row.averagePrecision.value else 0.0))
      else m.(queries := m.queries + 1, unknown := m.unknown + 1,
              falseAccepts := m.falseAccepts + (if yes then 1 else 0))
  }

  /** The counts over all rows. */
  function Tally(rows: seq<Row>, metric: Metric, t: int): (m: Metrics)
    ensures m.queries == |rows| && m.known + m.unknown <= m.queries
    ensures m.correct + m.wrong + m.rejected == m.known && m.falseAccepts <= m.unknown && m.rank1 <= m.known
  {
    if rows == [] then Metrics(0, 0, 0, 0, 0, 0, 0, 0, 0.0)
    else Add(Tally(rows[..|rows| - 1], metric, t), metric, t, rows[|rows| - 1])
  }

  function Rate(count: nat, total: nat): Option<real> {
    if total == 0 then None else Some(count as real / total as real)
  }

  /** The reported rates; a rate over nothing is absent. */
  datatype Rates = Rates(
    rank1: Option<real>,
    meanPrecision: Option<real>,
    identified: Option<real>,
    misidentified: Option<real>,
    rejected: Option<real>,
    missed: Option<real>,
    falseAccepted: Option<real>)

  function RatesOf(m: Metrics): Rates {
    Rates(
      Rate(m.rank1, m.known),
      if m.known == 0 then None else Some(m.precisions / m.known as real),
      Rate(m.correct, m.known),
      Rate(m.wrong, m.known),
      Rate(m.rejected, m.known),
      Rate(m.wrong + m.rejected, m.known),
      Rate(m.falseAccepts, m.unknown))
  }

  lemma FractionsAddUp(a: nat, b: nat, c: nat, n: nat)
    requires 0 < n == a + b + c
    ensures a as real / n as real + b as real / n as real + c as real / n as real == 1.0
    ensures (b + c) as real / n as real == 1.0 - a as real / n as real
  {
    var d := n as real;
    assert a as real + b as real + c as real == d;
    QuotientsAddUp(a as real, b as real, c as real, d, a as real / d, b as real / d, c as real / d);
  }

  lemma QuotientsAddUp(a: real, b: real, c: real, d: real, p: real, q: real, r: real)
    requires 0.0 < d == a + b + c && p * d == a && q * d == b && r * d == c
    ensures p + q + r == 1.0 && (b + c) / d == q + r
  {
    assert (p + q + r) * d == d;
    assert (q + r) * d == b + c;
  }

  /** The known queries are identified, misidentified or rejected, and missed means one of the last two; rates are there
      exactly when there is something to rate. */
  lemma RatesAddUp(rows: seq<Row>, metric: Metric, t: int)
    ensures var m := Tally(rows, metric, t);
            var r := RatesOf(m);
            && (r.identified.Some? <==> m.known > 0) && (r.falseAccepted.Some? <==> m.unknown > 0)
            && (m.known > 0 ==>
                  && r.identified.value + r.misidentified.value + r.rejected.value == 1.0
                  && r.missed.value == 1.0 - r.identified.value)
  {
    var m := Tally(rows, metric, t);
    if m.known > 0 {
      FractionsAddUp(m.correct, m.wrong, m.rejected, m.known);
    }
  }

  // ----- The candidate thresholds -----

  function Neighbour(metric: Metric, score: int): int {
    if metric.Cosine? then score + 1 else score - 1
  }

  ghost predicate HasScore(rows: seq<Row>, score: int) {
    exists i :: 0 <= i < |rows| && rows[i].Scored? && rows[i].score == score
  }

  ghost predicate Candidate(rows: seq<Row>, metric: Metric, t: int) {
    || HasScore(rows, t)
    || (exists score :: HasScore(rows, score) && t == Neighbour(metric, score))
    || (if metric.Cosine? then t in {-ONE, ONE} else t == ZERO)
  }

  // ----- Quality of an operating point -----

  datatype Quality = Quality(identified: real, misidentified: real, accepted: real, tieBreak: int)

  /** Python's order on the tuples (identified, -misidentified, -accepted, tie-break). */
  predicate Better(a: Quality, b: Quality) {
    || a.identified > b.identified
    || (a.identified == b.identified &&
        (|| a.misidentified < b.misidentified
         || (a.misidentified == b.misidentified &&
             (|| a.accepted < b.accepted
              || (a.accepted == b.accepted && a.tieBreak > b.tieBreak)))))
  }

  predicate Calibratable(m: Metrics) {
    m.known > 0 && m.unknown > 0
  }

  function QualityOf(m: Metrics, metric: Metric, t: int): Quality
    requires Calibratable(m)
  {
    Quality(m.correct as real / m.known as real,
            m.wrong as real / m.known as real,
            m.falseAccepts as real / m.unknown as real,
            if metric.Cosine? then -t else t)
  }

  lemma {:induction false} KnownUnknownFixed(rows: seq<Row>, metric: Metric, t: int, u: int)
    ensures Tally(rows, metric, t).known == Tally(rows, metric, u).known
    ensures Tally(rows, metric, t).unknown == Tally(rows, metric, u).unknown
  {
    if rows != [] {
      KnownUnknownFixed(rows[..|rows| - 1], metric, t, u);
    }
  }

  ghost predicate Meets(rows: seq<Row>, metric: Metric, t: int, target: real) {
    var m := Tally(rows, metric, t);
    && ValidThreshold(metric, t)
    && m.unknown > 0 && m.falseAccepts as real / m.unknown as real <= target
  }

  // ----- No threshold is lost by sweeping only the candidates -----

  /** The two thresholds accept the same scores of the rows. */
  ghost predicate SameAccepts(rows: seq<Row>, metric: Metric, t: int, u: int) {
    forall i :: 0 <= i < |rows| && rows[i].Scored? ==>
      (Accepts(metric, t, rows[i].score) <==> Accepts(metric, u, rows[i].score))
  }

  lemma SameAcceptsSameAdd(m: Metrics, metric: Metric, t: int, u: int, row: Row)
    requires row.Scored? ==> (Accepts(metric, t, row.score) <==> Accepts(metric, u, row.score))
    ensures Add(m, metric, t, row) == Add(m, metric, u, row)
  {
  }

  lemma {:induction false} SameAcceptsSameTally(rows: seq<Row>, metric: Metric, t: int, u: int)
    requires SameAccepts(rows, metric, t, u)
    ensures Tally(rows, metric, t) == Tally(rows, metric, u)
  {
    if rows != [] {
      var n := |rows| - 1;
      SameAcceptsSameTally(rows[..n], metric, t, u);
      SameAcceptsSameAdd(Tally(rows[..n], metric, t), metric, t, u, rows[n]);
    }
  }

  /** The score nearest to `t` among those it does not accept, if there is one. */
  lemma {:induction false} NearestRefused(rows: seq<Row>, metric: Metric, t: int) returns (nearest: Option<int>)
    ensures nearest.Some? ==> HasScore(rows, nearest.value) && !Accepts(metric, t, nearest.value)
    ensures forall i :: 0 <= i < |rows| && rows[i].Scored? && !Accepts(metric, t, rows[i].score) ==>
              nearest.Some? &&
              (if metric.Cosine? then rows[i].score <= nearest.value else nearest.value <= rows[i].score)
  {
    nearest := None;
    for k := 0 to |rows|
      invariant nearest.Some? ==> HasScore(rows, nearest.value) && !Accepts(metric, t, nearest.value)
      invariant forall i :: 0 <= i < k && rows[i].Scored? && !Accepts(metric, t, rows[i].score) ==>
                  nearest.Some? &&
                  (if metric.Cosine? then rows[i].score <= nearest.value else nearest.value <= rows[i].score)
    {
      if rows[k].Scored? && !Accepts(metric, t, rows[k].score) &&
         (nearest.None? || (if metric.Cosine? then nearest.value < rows[k].score else rows[k].score < nearest.value))
      {
        nearest := Some(rows[k].score);
      }
    }
  }

  lemma {:induction false} LargestScore(rows: seq<Row>) returns (largest: Option<int>)
    ensures largest.Some? ==> HasScore(rows, largest.value)
    ensures forall i :: 0 <= i < |rows| && rows[i].Scored? ==> largest.Some? && rows[i].score <= largest.value
  {
    largest := None;
    for k := 0 to |rows|
      invariant largest.Some? ==> HasScore(rows, largest.value)
      invariant forall i :: 0 <= i < k && rows[i].Scored? ==> largest.Some? && rows[i].score <= largest.value
    {
      if rows[k].Scored? && (largest.None? || largest.value < rows[k].score) {
        largest := Some(rows[k].score);
      }
    }
  }

  ghost predicate BelowSomeScore(rows: seq<Row>, t: int) {
    t <= ZERO || exists i :: 0 <= i < |rows| && rows[i].Scored? && t <= rows[i].score
  }

  /** For every valid threshold some valid candidate accepts the same rows; it is at least as good in
      the tie-break too, except for an L2 threshold beyond every score. */
  lemma CandidateFor(rows: seq<Row>, metric: Metric, t: int) returns (c: int)
    requires ValidThreshold(metric, t)
    ensures Candidate(rows, metric, c) && ValidThreshold(metric, c)
    ensures SameAccepts(rows, metric, t, c)
    ensures metric.Cosine? ==> c <= t
    ensures metric.L2? && BelowSomeScore(rows, t) ==> t <= c
  {
    var nearest := NearestRefused(rows, metric, t);
    if metric.Cosine? {
      c := if nearest.Some? && -ONE <= nearest.value + 1 then Neighbour(metric, nearest.value) else -ONE;
    } else if nearest.Some? {
      c := Neighbour(metric, nearest.value);
    } else {
      var largest := LargestScore(rows);
      c := if largest.Some? && ZERO <= largest.value then largest.value else ZERO;
    }
  }
}
