/** Where the tie-break of the sweep stops short: for L2 it favours the largest threshold, and none beyond the scores is
    a candidate. */
module ThresholdTieBreak {
  import opened Wrappers
  import opened ThresholdSweep
  import opened ThresholdCalibration

  /** Threshold u meets the target and beats t on the whole order, tie-break included. */
  ghost predicate Beats(rows: seq<Row>, target: real, u: int, t: int)
    requires Calibratable(Tally(rows, L2, t))
  {
    && Meets(rows, L2, u, target) && Calibratable(Tally(rows, L2, u))
    && Better(QualityOf(Tally(rows, L2, u), L2, u), QualityOf(Tally(rows, L2, t), L2, t))
  }

  ghost predicate IsBeaten(rows: seq<Row>, target: real, t: int)
    requires Calibratable(Tally(rows, L2, t))
  {
    exists u :: Beats(rows, target, u, t)
  }

  /** The largest score of the evaluated rows. */
  ghost predicate IsTop(rows: seq<Row>, top: int) {
    HasScore(rows, top) && AcceptsAll(rows, top)
  }

  /** A query in the gallery whose right candidate has this score. */
  ghost predicate CorrectAt(rows: seq<Row>, score: int) {
    exists i :: 0 <= i < |rows| && rows[i].Scored? && rows[i].known && rows[i].correct && rows[i].score == score
  }

  // ----- The counts grow with an L2 threshold -----

  lemma {:induction false} CountsGrow(rows: seq<Row>, t: int, u: int)
    requires t <= u
    ensures Tally(rows, L2, t).correct <= Tally(rows, L2, u).correct
    ensures Tally(rows, L2, t).wrong <= Tally(rows, L2, u).wrong
    ensures Tally(rows, L2, t).falseAccepts <= Tally(rows, L2, u).falseAccepts
  {
    if rows != [] {
      CountsGrow(rows[..|rows| - 1], t, u);
    }
  }

  /** More right identifications, or more wrong acceptances. */
  predicate Grew(a: Metrics, b: Metrics, right: bool) {
    if right then a.correct < b.correct else a.wrong + a.falseAccepts < b.wrong + b.falseAccepts
  }

  predicate Between(t: int, row: Row, u: int) {
    row.Scored? && t < row.score <= u
  }

  predicate Right(row: Row) {
    row.Scored? && row.known && row.correct
  }

  lemma AddGrows(a: Metrics, b: Metrics, t: int, u: int, row: Row, right: bool)
    requires t <= u && a.correct <= b.correct && a.wrong <= b.wrong && a.falseAccepts <= b.falseAccepts
    ensures Grew(a, b, right) ==> Grew(Add(a, L2, t, row), Add(b, L2, u, row), right)
    ensures Between(t, row, u) && right == Right(row) ==> Grew(Add(a, L2, t, row), Add(b, L2, u, row), right)
  {
  }

  /** A row between the two thresholds makes a difference. */
  lemma {:induction false} CountsGrowAt(rows: seq<Row>, t: int, u: int, i: nat)
    requires i < |rows| && Between(t, rows[i], u)
    ensures Grew(Tally(rows, L2, t), Tally(rows, L2, u), Right(rows[i]))
  {
    var n := |rows| - 1;
    CountsGrow(rows[..n], t, u);
    AddGrows(Tally(rows[..n], L2, t), Tally(rows[..n], L2, u), t, u, rows[n], Right(rows[i]));
    if i < n {
      CountsGrowAt(rows[..n], t, u, i);
    }
  }

  lemma {:induction false} SameCorrect(rows: seq<Row>, t: int, u: int)
    requires t <= u
    requires forall i :: 0 <= i < |rows| && rows[i].Scored? && rows[i].known && rows[i].correct ==>
               !(t < rows[i].score <= u)
    ensures Tally(rows, L2, t).correct == Tally(rows, L2, u).correct
  {
    if rows != [] {
      SameCorrect(rows[..|rows| - 1], t, u);
    }
  }

  lemma Less(a: nat, b: nat, n: nat)
    requires n > 0
    ensures a < b ==> a as real / n as real < b as real / n as real
    ensures a <= b ==> a as real / n as real <= b as real / n as real
  {
    var d := n as real;
    var p, q := a as real / d, b as real / d;
    assert p * d == a as real && q * d == b as real;
    if p >= q { assert p * d >= q * d; }
    if p > q { assert p * d > q * d; }
  }

  /** More correct identifications are better, and so are fewer wrong acceptances at no fewer correct ones. */
  lemma CountsDecide(rows: seq<Row>, u: int, t: int)
    requires Calibratable(Tally(rows, L2, t)) && Calibratable(Tally(rows, L2, u))
    requires
      var a, b := Tally(rows, L2, u), Tally(rows, L2, t);
      || a.correct > b.correct
      || (a.correct == b.correct && a.wrong <= b.wrong && a.falseAccepts <= b.falseAccepts
          && a.wrong + a.falseAccepts < b.wrong + b.falseAccepts)
    ensures BetterRates(QualityOf(Tally(rows, L2, u), L2, u), QualityOf(Tally(rows, L2, t), L2, t))
  {
    var a, b := Tally(rows, L2, u), Tally(rows, L2, t);
    KnownUnknownFixed(rows, L2, u, t);
    Less(b.correct, a.correct, a.known);
    Less(a.wrong, b.wrong, a.known);
    Less(a.falseAccepts, b.falseAccepts, a.unknown);
  }

  lemma AnyMeetsOne(rows: seq<Row>, u: int)
    requires ValidThreshold(L2, u) && Tally(rows, L2, u).unknown > 0
    ensures Meets(rows, L2, u, 1.0)
  {
    var m := Tally(rows, L2, u);
    Less(m.falseAccepts, m.unknown, m.unknown);
    WholeRate(m.unknown);
  }

  // ----- When the threshold found accepts every score -----

  lemma CorrectTopIsAccepted(rows: seq<Row>, t: int, top: int)
    requires Calibratable(Tally(rows, L2, t)) && BestOf(rows, L2, 1.0, t)
    requires IsTop(rows, top) && (top <= ZERO || CorrectAt(rows, top))
    ensures AcceptsAll(rows, t)
  {
    if ZERO < top && t < top {
      var i: nat :| i < |rows| && rows[i].Scored? && rows[i].known && rows[i].correct && rows[i].score == top;
      CountsGrowAt(rows, t, top, i);
      KnownUnknownFixed(rows, L2, t, top);
      AnyMeetsOne(rows, top);
      CountsDecide(rows, top, t);
      assert false;
    }
  }

  lemma BelowOtherTop(rows: seq<Row>, t: int, top: int)
    requires Calibratable(Tally(rows, L2, t)) && Tally(rows, L2, t) == Tally(rows, L2, top)
    requires HasScore(rows, top) && !CorrectAt(rows, top)
    ensures Calibratable(Tally(rows, L2, top - 1))
    ensures BetterRates(QualityOf(Tally(rows, L2, top - 1), L2, top - 1), QualityOf(Tally(rows, L2, t), L2, t))
  {
    var i: nat :| i < |rows| && rows[i].Scored? && rows[i].score == top;
    assert !Right(rows[i]);
    CountsGrow(rows, top - 1, top);
    CountsGrowAt(rows, top - 1, top, i);
    SameCorrect(rows, top - 1, top);
    KnownUnknownFixed(rows, L2, top - 1, top);
    CountsDecide(rows, top - 1, t);
  }

  lemma OtherTopIsBeaten(rows: seq<Row>, t: int, top: int)
    requires Calibratable(Tally(rows, L2, t)) && AcceptsAll(rows, t)
    requires IsTop(rows, top) && ZERO < top && !CorrectAt(rows, top)
    ensures Meets(rows, L2, top - 1, 1.0) && Calibratable(Tally(rows, L2, top - 1))
    ensures BetterRates(QualityOf(Tally(rows, L2, top - 1), L2, top - 1), QualityOf(Tally(rows, L2, t), L2, t))
  {
    SameAcceptsSameTally(rows, L2, t, top);
    BelowOtherTop(rows, t, top);
    AnyMeetsOne(rows, top - 1);
  }

  lemma NotBeatenOnRates(rows: seq<Row>, target: real, t: int, u: int)
    requires Calibratable(Tally(rows, L2, t)) && BestOf(rows, L2, target, t) && Meets(rows, L2, u, target)
    ensures Calibratable(Tally(rows, L2, u))
    ensures !BetterRates(QualityOf(Tally(rows, L2, u), L2, u), QualityOf(Tally(rows, L2, t), L2, t))
  {
  }

  lemma OtherTopIsRefused(rows: seq<Row>, t: int, top: int)
    requires Calibratable(Tally(rows, L2, t)) && BestOf(rows, L2, 1.0, t)
    requires IsTop(rows, top) && ZERO < top && !CorrectAt(rows, top)
    ensures !AcceptsAll(rows, t)
  {
    if AcceptsAll(rows, t) {
      OtherTopIsBeaten(rows, t, top);
      NotBeatenOnRates(rows, 1.0, t, top - 1);
      assert false;
    }
  }

  /** The threshold found accepts every score exactly for a target of 1 at which the largest score is a right one, or no
      valid threshold refuses anything. */
  lemma AcceptsAllExactlyWhen(rows: seq<Row>, target: real, t: int, top: int)
    requires Calibratable(Tally(rows, L2, t)) && BestOf(rows, L2, target, t) && target <= 1.0 && IsTop(rows, top)
    ensures AcceptsAll(rows, t) <==> target == 1.0 && (top <= ZERO || CorrectAt(rows, top))
  {
    if AcceptsAll(rows, t) {
      AcceptsAllMeets(rows, t, target);
      if ZERO < top && !CorrectAt(rows, top) {
        OtherTopIsRefused(rows, t, top);
      }
    } else if target == 1.0 && (top <= ZERO || CorrectAt(rows, top)) {
      CorrectTopIsAccepted(rows, t, top);
    }
  }

  // ----- When another threshold would win the tie-break -----

  lemma NextBeats(rows: seq<Row>, target: real, t: int)
    requires Calibratable(Tally(rows, L2, t)) && Meets(rows, L2, t, target) && AcceptsAll(rows, t) && t < LARGEST
    ensures Beats(rows, target, t + 1, t)
  {
    SameAcceptsSameTally(rows, L2, t, t + 1);
  }

  lemma NothingBeats(rows: seq<Row>, target: real, t: int, u: int)
    requires Calibratable(Tally(rows, L2, t)) && BestOf(rows, L2, target, t) && !(AcceptsAll(rows, t) && t < LARGEST)
    ensures !Beats(rows, target, u, t)
  {
    var largest := LargestScore(rows);
    if !AcceptsAll(rows, t) && Meets(rows, L2, u, target) && !BelowSomeScore(rows, u) {
      SameAcceptsSameTally(rows, L2, u, largest.value);
      assert Meets(rows, L2, largest.value, target);
    }
  }

  /** For L2 the threshold that `CalibrateThreshold` returns (a candidate, and best) is beaten on the whole order,
      tie-break included, exactly when the target is 1, the largest score is a right one or not positive, and a double
      is left above it. */
  lemma L2TieBreakIsOpenAtTheEnd(rows: seq<Row>, target: real, t: int, top: int)
    requires Calibratable(Tally(rows, L2, t)) && BestOf(rows, L2, target, t) && target <= 1.0 && IsTop(rows, top)
    requires Candidate(rows, L2, t)
    ensures IsBeaten(rows, target, t) <==> target == 1.0 && top < LARGEST && (top <= ZERO || CorrectAt(rows, top))
  {
    AcceptsAllExactlyWhen(rows, target, t, top);
    assert t <= top || t == ZERO;
    if AcceptsAll(rows, t) && t < LARGEST {
      NextBeats(rows, target, t);
    } else {
      forall u ensures !Beats(rows, target, u, t) {
        NothingBeats(rows, target, t, u);
      }
    }
  }
}
