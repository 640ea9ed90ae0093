/** The two loops of the evaluation: counting at a threshold, and sweeping the candidates. */
module ThresholdCalibration {
  import opened Wrappers
  import opened ThresholdSweep

  /** The rows that were evaluated, in order. */
  function Evaluated(rows: seq<Row>): seq<Row> {
    if rows == [] then []
    else
      var n := |rows| - 1;
      Evaluated(rows[..n]) + if rows[n].Scored? then [rows[n]] else []
  }

  /** One prediction for each evaluated row, in order, naming the candidate exactly when it is accepted. */
  ghost predicate PredictionsOk(rows: seq<Row>, metric: Metric, t: int, predictions: seq<Prediction>) {
    && |predictions| == |Evaluated(rows)|
    && forall i :: 0 <= i < |predictions| ==>
         && predictions[i].row == Evaluated(rows)[i] && predictions[i].row.Scored?
         && (predictions[i].accepted <==> Accepts(metric, t, predictions[i].row.score))
         && predictions[i].predictedIdentity
            == (if predictions[i].accepted then Some(predictions[i].row.candidate) else None)
  }

  datatype Summary = Summary(metrics: Metrics, rates: Rates, predictions: seq<Prediction>)

  method Summarize(rows: seq<Row>, metric: Metric, t: int) returns (r: Result<Summary, Error>)
    ensures r.Failure? <==> !ValidThreshold(metric, t)
    ensures r.Success? <==> (if metric.Cosine? then -ONE <= t <= ONE else ZERO <= t <= LARGEST)
    ensures r.Failure? ==> r.error == BadThreshold
    ensures r.Success? ==>
              && r.value.metrics == Tally(rows, metric, t) && r.value.rates == RatesOf(r.value.metrics)
              && PredictionsOk(rows, metric, t, r.value.predictions)
  {
    if !ValidThreshold(metric, t) {
      return Failure(BadThreshold);
    }
    var predictions: seq<Prediction> := [];
    var m := Metrics(0, 0, 0, 0, 0, 0, 0, 0, 0.0);
    for i := 0 to |rows|
      invariant m == Tally(rows[..i], metric, t)
      invariant PredictionsOk(rows[..i], metric, t, predictions)
    {
      assert rows[..i + 1][..i] == rows[..i];
      m := Add(m, metric, t, rows[i]);
      if rows[i].Scored? {
        var accepted := Accepts(metric, t, rows[i].score);
        predictions := predictions +
          [Prediction(rows[i], accepted, if accepted then Some(rows[i].candidate) else None)];
      }
    }
    assert rows[..|rows|] == rows;
    return Success(Summary(m, RatesOf(m), predictions));
  }

  lemma HasElement(s: set<int>)
    requires s != {}
    ensures exists x :: x in s
  {
    assert (forall x :: x !in s) ==> s == {};
  }

  lemma {:induction false} HasMinimum(s: set<int>)
    requires s != {}
    ensures exists x :: x in s && forall y :: y in s ==> x <= y
  {
    HasElement(s);
    var x :| x in s;
    var rest := s - {x};
    if rest != {} {
      HasMinimum(rest);
      var y :| y in rest && forall z :: z in rest ==> y <= z;
      var least := if x < y then x else y;
      assert forall z :: z in s ==> z == x || z in rest;
      assert least in s && forall z :: z in s ==> least <= z;
    } else {
      assert forall z :: z in s ==> z == x || z in rest;
    }
  }

  method Sorted(s: set<int>) returns (q: seq<int>)
    ensures forall x :: x in q <==> x in s
    ensures forall i, j :: 0 <= i < j < |q| ==> q[i] < q[j]
  {
    q := [];
    var rest := s;
    while rest != {}
      invariant forall x :: x in s <==> x in q || x in rest
      invariant forall i, j :: 0 <= i < j < |q| ==> q[i] < q[j]
      invariant forall i, y :: 0 <= i < |q| && y in rest ==> q[i] < y
      decreases |rest|
    {
      HasMinimum(rest);
      var x :| x in rest && forall y :: y in rest ==> x <= y;
      q := q + [x];
      rest := rest - {x};
    }
  }

  /** `t` meets the target and no valid threshold that meets it has better rates; among those with the same rates it
      wins the tie-break. For L2, which favours the largest threshold, a target of 1 leaves out those beyond the
      largest score. */
  ghost predicate BestOf(rows: seq<Row>, metric: Metric, target: real, t: int)
    requires Calibratable(Tally(rows, metric, t))
  {
    && Meets(rows, metric, t, target)
    && forall u :: Meets(rows, metric, u, target) ==>
         && Calibratable(Tally(rows, metric, u))
         && !BetterRates(QualityOf(Tally(rows, metric, u), metric, u), QualityOf(Tally(rows, metric, t), metric, t))
         && (metric.Cosine? || target < 1.0 || BelowSomeScore(rows, u) ==>
               !Better(QualityOf(Tally(rows, metric, u), metric, u), QualityOf(Tally(rows, metric, t), metric, t)))
  }

  /** The lexicographic order on the rates alone. */
  predicate BetterRates(a: Quality, b: Quality) {
    Better(a.(tieBreak := 0), b.(tieBreak := 0))
  }

  /** The same, over the candidates seen so far. */
  ghost predicate BestSoFar(rows: seq<Row>, metric: Metric, target: real, seen: seq<int>, best: Option<int>)
    requires Calibratable(Tally(rows, metric, 0))
  {
    KnownUnknownFixedAll(rows, metric);
    if best.None? then forall c :: c in seen ==> !Meets(rows, metric, c, target)
    else
      && best.value in seen && Meets(rows, metric, best.value, target)
      && forall c :: c in seen && Meets(rows, metric, c, target) ==>
           !Better(QualityOf(Tally(rows, metric, c), metric, c),
                   QualityOf(Tally(rows, metric, best.value), metric, best.value))
  }

  lemma KnownUnknownFixedAll(rows: seq<Row>, metric: Metric)
    ensures forall t :: Tally(rows, metric, t).known == Tally(rows, metric, 0).known
                     && Tally(rows, metric, t).unknown == Tally(rows, metric, 0).unknown
  {
    forall t
      ensures Tally(rows, metric, t).known == Tally(rows, metric, 0).known
      ensures Tally(rows, metric, t).unknown == Tally(rows, metric, 0).unknown
    {
      KnownUnknownFixed(rows, metric, t, 0);
    }
  }

  ghost function Consider(rows: seq<Row>, metric: Metric, target: real, best: Option<int>, t: int): Option<int>
    requires Calibratable(Tally(rows, metric, 0))
  {
    KnownUnknownFixedAll(rows, metric);
    if !Meets(rows, metric, t, target) then best
    else if best.None? || Better(QualityOf(Tally(rows, metric, t), metric, t),
                                 QualityOf(Tally(rows, metric, best.value), metric, best.value))
    then Some(t)
    else best
  }

  lemma ConsiderKeepsBest(rows: seq<Row>, metric: Metric, target: real, seen: seq<int>, best: Option<int>, t: int)
    requires Calibratable(Tally(rows, metric, 0))
    requires BestSoFar(rows, metric, target, seen, best)
    ensures BestSoFar(rows, metric, target, seen + [t], Consider(rows, metric, target, best, t))
  {
    KnownUnknownFixedAll(rows, metric);
    var next := Consider(rows, metric, target, best, t);
    forall c | c in seen + [t] && Meets(rows, metric, c, target)
      ensures next.Some? && !Better(QualityOf(Tally(rows, metric, c), metric, c),
                                    QualityOf(Tally(rows, metric, next.value), metric, next.value))
    {
      assert c in seen || c == t;
    }
  }

  ghost predicate AcceptsAll(rows: seq<Row>, t: int) {
    forall i :: 0 <= i < |rows| && rows[i].Scored? ==> rows[i].score <= t
  }

  lemma {:induction false} AcceptsAllUnknown(rows: seq<Row>, t: int)
    requires AcceptsAll(rows, t)
    ensures Tally(rows, L2, t).falseAccepts == Tally(rows, L2, t).unknown
  {
    if rows != [] {
      AcceptsAllUnknown(rows[..|rows| - 1], t);
    }
  }

  /** A threshold that accepts every score accepts every unknown query, which only a target of 1 allows. */
  lemma AcceptsAllMeets(rows: seq<Row>, t: int, target: real)
    requires AcceptsAll(rows, t) && Meets(rows, L2, t, target)
    ensures target >= 1.0
  {
    AcceptsAllUnknown(rows, t);
    WholeRate(Tally(rows, L2, t).unknown);
  }

  lemma WholeRate(n: nat)
    requires n > 0
    ensures n as real / n as real == 1.0
  {
    var d := n as real;
    assert 1.0 * d == d;
  }

  /** Sweeping the candidates is enough. */
  lemma SweepCovers(rows: seq<Row>, metric: Metric, target: real, seen: seq<int>, best: Option<int>)
    requires Calibratable(Tally(rows, metric, 0))
    requires forall c :: Candidate(rows, metric, c) ==> c in seen
    requires BestSoFar(rows, metric, target, seen, best)
    ensures best.None? ==> forall t :: !Meets(rows, metric, t, target)
    ensures best.Some? ==>
              Calibratable(Tally(rows, metric, best.value)) && BestOf(rows, metric, target, best.value)
  {
    KnownUnknownFixedAll(rows, metric);
    forall t | Meets(rows, metric, t, target)
      ensures best.Some?
      ensures Calibratable(Tally(rows, metric, t))
      ensures !BetterRates(QualityOf(Tally(rows, metric, t), metric, t),
                           QualityOf(Tally(rows, metric, best.value), metric, best.value))
      ensures metric.Cosine? || target < 1.0 || BelowSomeScore(rows, t) ==>
                !Better(QualityOf(Tally(rows, metric, t), metric, t),
                        QualityOf(Tally(rows, metric, best.value), metric, best.value))
    {
      if metric.L2? && !BelowSomeScore(rows, t) {
        AcceptsAllMeets(rows, t, target);
      }
      var c := CandidateFor(rows, metric, t);
      SameAcceptsSameTally(rows, metric, t, c);
      assert Meets(rows, metric, c, target);
      assert c in seen;
    }
  }

  /** The scores, their neighbours on the refusing side, and the ends of the valid range, ascending. */
  method Candidates(rows: seq<Row>, metric: Metric) returns (order: seq<int>)
    ensures forall c :: Candidate(rows, metric, c) <==> c in order
  {
    var scores: set<int> := set i | 0 <= i < |rows| && rows[i].Scored? :: rows[i].score;
    var candidates := scores + (set x | x in scores :: Neighbour(metric, x));
    candidates := candidates + (if metric.Cosine? then {-ONE, ONE} else {ZERO});
    order := Sorted(candidates);
  }

  /** Each error in its case, and otherwise the best of all valid thresholds with its counts. */
  ghost predicate CalibrationOutcome(rows: seq<Row>, metric: Metric, target: real, r: Result<(int, Metrics), Error>) {
    if !(0.0 <= target <= 1.0) then r == Failure(BadTarget)
    else if !Calibratable(Tally(rows, metric, 0)) then r == Failure(NothingToCalibrate)
    else if forall t :: !Meets(rows, metric, t, target) then r == Failure(TargetCannotBeMet)
    else && r.Success?
         && r.value.1 == Tally(rows, metric, r.value.0)
         && Calibratable(r.value.1) && BestOf(rows, metric, target, r.value.0)
         && Candidate(rows, metric, r.value.0)
  }

  method CalibrateThreshold(rows: seq<Row>, metric: Metric, target: real)
    returns (r: Result<(int, Metrics), Error>)
    ensures CalibrationOutcome(rows, metric, target, r)
  {
    if !(0.0 <= target <= 1.0) {
      return Failure(BadTarget);
    }
    var anyKnown, anyUnknown := CountKinds(rows, metric);
    if !anyKnown || !anyUnknown {
      return Failure(NothingToCalibrate);
    }
    var order := Candidates(rows, metric);
    KnownUnknownFixedAll(rows, metric);
    var best: Option<(Quality, int, Metrics)> := None;
    for i := 0 to |order|
      invariant best.Some? ==>
                  && best.value.2 == Tally(rows, metric, best.value.1)
                  && best.value.0 == QualityOf(best.value.2, metric, best.value.1)
      invariant BestSoFar(rows, metric, target, order[..i], if best.None? then None else Some(best.value.1))
    {
      var t := order[i];
      assert order[..i + 1] == order[..i] + [t];
      ConsiderKeepsBest(rows, metric, target, order[..i], if best.None? then None else Some(best.value.1), t);
      if !ValidThreshold(metric, t) {
        continue;
      }
      var summary := Summarize(rows, metric, t);
      var m := summary.value.metrics;
      if summary.value.rates.falseAccepted.value > target {
        continue;
      }
      var quality := QualityOf(m, metric, t);
      if best.None? || Better(quality, best.value.0) {
        best := Some((quality, t, m));
      }
    }
    assert order[..|order|] == order;
    SweepCovers(rows, metric, target, order, if best.None? then None else Some(best.value.1));
    if best.None? {
      return Failure(TargetCannotBeMet);
    }
    return Success((best.value.1, best.value.2));
  }

  /** Whether some evaluated query is known, and whether some is unknown. */
  method CountKinds(rows: seq<Row>, metric: Metric) returns (anyKnown: bool, anyUnknown: bool)
    ensures anyKnown <==> Tally(rows, metric, 0).known > 0
    ensures anyUnknown <==> Tally(rows, metric, 0).unknown > 0
  {
    anyKnown, anyUnknown := false, false;
    for i := 0 to |rows|
      invariant anyKnown <==> Tally(rows[..i], metric, 0).known > 0
      invariant anyUnknown <==> Tally(rows[..i], metric, 0).unknown > 0
    {
      assert rows[..i + 1][..i] == rows[..i];
      if rows[i].Scored? {
        anyKnown := anyKnown || rows[i].known;
        anyUnknown := anyUnknown || !rows[i].known;
      }
    }
    assert rows[..|rows|] == rows;
  }
}
