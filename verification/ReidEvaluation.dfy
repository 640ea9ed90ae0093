/** Scoring a manifest, and the whole way from a manifest to a calibrated threshold. */
module ReidEvaluation {
  import opened Wrappers
  import opened ThresholdSweep
  import opened ThresholdCalibration
  import opened GalleryRanking
  import GalleryMatches

  ghost predicate AllSome(rows: seq<Row>, options: seq<Option<Row>>) {
    |rows| == |options| && forall i :: 0 <= i < |rows| ==> options[i] == Some(rows[i])
  }

  /** Every query has its row. */
  ghost predicate CanScore(samples: seq<Sample>, split: string, gallery: seq<Sample>, model: Model, crossCamera: bool) {
    exists rows :: AllSome(rows, RowsFor(samples, split, gallery, model, crossCamera))
  }

  ghost predicate ScoresOf(samples: seq<Sample>, split: string, model: Model, crossCamera: bool, rows: seq<Row>) {
    AllSome(rows, RowsFor(samples, split, Gallery(samples), model, crossCamera))
  }

  predicate Passes(x: Sample, model: Model, seen: set<string>, dimensions: Option<nat>) {
    && FieldsOk(x) && x.id !in seen && x.split in SPLITS && x.embedding != []
    && model.finite(x.embedding) && SameDimension(x, dimensions) && NormOk(model, x.embedding)
  }

  /** The checks of one sample, in the order they are made; the error names the first that fails. */
  method CheckSample(x: Sample, model: Model, seen: set<string>, dimensions: Option<nat>)
    returns (e: Option<ScoreError>)
    ensures e.None? <==> Passes(x, model, seen, dimensions)
    ensures e == Some(MissingField) <==>
              || (forall c :: c in x.id ==> c in " \t\n\r") || (forall c :: c in x.identity ==> c in " \t\n\r")
              || (forall c :: c in x.camera ==> c in " \t\n\r")
    ensures e.Some? ==> match e.value
                        case MissingField => !FieldsOk(x)
                        case DuplicateId => FieldsOk(x) && x.id in seen
                        case BadSplit => FieldsOk(x) && x.id !in seen && x.split !in {"gallery", "calibration", "test"}
                        case BadEmbedding =>
                          && FieldsOk(x) && x.id !in seen && x.split in SPLITS
                          && (x.embedding == [] || !model.finite(x.embedding))
                        case MixedDimensions =>
                          && FieldsOk(x) && x.id !in seen && x.split in SPLITS && x.embedding != []
                          && model.finite(x.embedding) && !SameDimension(x, dimensions)
                        case BadNorm =>
                          && FieldsOk(x) && x.id !in seen && x.split in SPLITS && x.embedding != []
                          && model.finite(x.embedding) && SameDimension(x, dimensions)
                          && model.metric.Cosine? && !model.normal(x.embedding)
                        case _ => false
  {
    if !FieldsOk(x) {
      return Some(MissingField);
    }
    if x.id in seen {
      return Some(DuplicateId);
    }
    if x.split !in SPLITS {
      return Some(BadSplit);
    }
    if x.embedding == [] || !model.finite(x.embedding) {
      return Some(BadEmbedding);
    }
    if dimensions.Some? && dimensions.value != |x.embedding| {
      return Some(MixedDimensions);
    }
    if model.metric.Cosine? && !model.normal(x.embedding) {
      return Some(BadNorm);
    }
    return None;
  }

  predicate SameDimension(x: Sample, dimensions: Option<nat>) {
    dimensions.Some? ==> dimensions.value == |x.embedding|
  }

  /** What the loop over the samples remembers of those it has passed. */
  ghost predicate Remembers(seen: set<string>, dimensions: Option<nat>, passed: seq<Sample>) {
    && (forall id :: id in seen <==> exists j :: 0 <= j < |passed| && passed[j].id == id)
    && (dimensions.None? <==> passed == [])
    && (dimensions.Some? ==> forall j :: 0 <= j < |passed| ==> |passed[j].embedding| == dimensions.value)
  }

  lemma PassingKeepsWellFormed(passed: seq<Sample>, x: Sample, model: Model, seen: set<string>, dimensions: Option<nat>)
    requires WellFormed(passed, model) && Remembers(seen, dimensions, passed) && Passes(x, model, seen, dimensions)
    ensures WellFormed(passed + [x], model)
  {
    assert passed != [] ==> passed[0] in passed;
    forall y | y in passed ensures |y.embedding| == |x.embedding| {
      var j :| 0 <= j < |passed| && passed[j] == y;
    }
  }

  lemma FailingBreaksWellFormed(samples: seq<Sample>, i: nat, model: Model, seen: set<string>, dimensions: Option<nat>)
    requires i < |samples| && Remembers(seen, dimensions, samples[..i])
    requires !Passes(samples[i], model, seen, dimensions)
    ensures !WellFormed(samples, model)
  {
    assert samples[i] in samples;
    assert i > 0 ==> samples[0] in samples && samples[..i][0] == samples[0];
    if samples[i].id in seen {
      var j :| 0 <= j < |samples[..i]| && samples[..i][j].id == samples[i].id;
      assert samples[j].id == samples[i].id;
    }
  }

  lemma RemembersOneMore(passed: seq<Sample>, x: Sample, seen: set<string>, dimensions: Option<nat>)
    requires Remembers(seen, dimensions, passed) && SameDimension(x, dimensions)
    ensures Remembers(seen + {x.id}, Some(|x.embedding|), passed + [x])
  {
    var longer := passed + [x];
    assert longer[|passed|] == x && forall j :: 0 <= j < |passed| ==> longer[j] == passed[j];
  }

  method Validate(samples: seq<Sample>, model: Model) returns (e: Option<ScoreError>)
    ensures e.None? <==> WellFormed(samples, model)
    ensures e.Some? ==> e.value in {MissingField, DuplicateId, BadSplit, BadEmbedding, MixedDimensions, BadNorm}
  {
    var seen: set<string> := {};
    var dimensions: Option<nat> := None;
    for i := 0 to |samples|
      invariant WellFormed(samples[..i], model) && Remembers(seen, dimensions, samples[..i])
    {
      var x := samples[i];
      assert samples[..i + 1] == samples[..i] + [x];
      e := CheckSample(x, model, seen, dimensions);
      if e.Some? {
        FailingBreaksWellFormed(samples, i, model, seen, dimensions);
        return;
      }
      PassingKeepsWellFormed(samples[..i], x, model, seen, dimensions);
      RemembersOneMore(samples[..i], x, seen, dimensions);
      seen := seen + {x.id};
      dimensions := Some(|x.embedding|);
    }
    assert samples[..|samples|] == samples;
    return None;
  }

  /** The rows of the queries in manifest order; none when some score is not finite. */
  method ScoreAll(samples: seq<Sample>, split: string, gallery: seq<Sample>, model: Model, crossCamera: bool)
    returns (r: Option<seq<Row>>)
    ensures r.Some? ==> AllSome(r.value, RowsFor(samples, split, gallery, model, crossCamera))
    ensures r.None? ==> !CanScore(samples, split, gallery, model, crossCamera)
  {
    var rows: seq<Row> := [];
    for i := 0 to |samples|
      invariant AllSome(rows, RowsFor(samples[..i], split, gallery, model, crossCamera))
    {
      assert samples[..i + 1][..i] == samples[..i];
      var query := samples[i];
      if query.split == split {
        var row := RowOf(query, gallery, model, crossCamera);
        if row.None? {
          OneNotFinite(samples, i, split, gallery, model, crossCamera);
          return None;
        }
        rows := rows + [row.value];
      }
    }
    assert samples[..|samples|] == samples;
    return Some(rows);
  }

  ghost predicate SomethingToEvaluate(samples: seq<Sample>, split: string) {
    Gallery(samples) != [] && exists x :: x in samples && x.split == split
  }

  ghost predicate Scorable(samples: seq<Sample>, split: string, model: Model, crossCamera: bool) {
    && split in {"calibration", "test"} && WellFormed(samples, model) && SomethingToEvaluate(samples, split)
    && CanScore(samples, split, Gallery(samples), model, crossCamera)
  }

  method ScoreQueries(samples: seq<Sample>, split: string, model: Model, crossCamera: bool)
    returns (r: Result<seq<Row>, ScoreError>)
    ensures r.Success? <==> Scorable(samples, split, model, crossCamera)
    ensures r.Success? ==> ScoresOf(samples, split, model, crossCamera, r.value)
    ensures r.Failure? ==> match r.error
                           case BadSplitChoice => split !in {"calibration", "test"}
                           case NothingToEvaluate =>
                             && split in {"calibration", "test"} && WellFormed(samples, model)
                             && !SomethingToEvaluate(samples, split)
                           case NonFiniteScore =>
                             && split in {"calibration", "test"} && WellFormed(samples, model)
                             && SomethingToEvaluate(samples, split)
                             && !CanScore(samples, split, Gallery(samples), model, crossCamera)
                           case _ => split in {"calibration", "test"} && !WellFormed(samples, model)
  {
    if split !in {"calibration", "test"} {
      return Failure(BadSplitChoice);
    }
    var invalid := Validate(samples, model);
    if invalid.Some? {
      return Failure(invalid.value);
    }
    var gallery := Gallery(samples);
    if gallery == [] || !exists x :: x in samples && x.split == split {
      return Failure(NothingToEvaluate);
    }
    var rows := ScoreAll(samples, split, gallery, model, crossCamera);
    if rows.None? {
      return Failure(NonFiniteScore);
    }
    assert ScoresOf(samples, split, model, crossCamera, rows.value);
    return Success(rows.value);
  }

  /** In terms of cameras, tracks and scores: the rows say what they should of every query of the split, and there are
      none exactly when a query that is not skipped may be matched with a sample without a finite score. */
  lemma ScoresSay(samples: seq<Sample>, split: string, model: Model, crossCamera: bool)
    ensures forall rows :: ScoresOf(samples, split, model, crossCamera, rows) ==>
              GalleryMatches.RowsSay(samples, split, Gallery(samples), model, crossCamera, rows)
    ensures CanScore(samples, split, Gallery(samples), model, crossCamera)
       <==> !GalleryMatches.SomeScoreNotFinite(samples, split, Gallery(samples), model, crossCamera)
  {
    forall rows | ScoresOf(samples, split, model, crossCamera, rows)
      ensures GalleryMatches.RowsSay(samples, split, Gallery(samples), model, crossCamera, rows)
    {
      GalleryMatches.RowsAreRight(samples, split, Gallery(samples), model, crossCamera, rows);
    }
    CanScoreUnlessNotFinite(samples, split, Gallery(samples), model, crossCamera);
    if GalleryMatches.SomeScoreNotFinite(samples, split, Gallery(samples), model, crossCamera) {
      NotFiniteMeansMissing(samples, split, Gallery(samples), model, crossCamera);
    }
  }

  lemma NotFiniteMeansMissing(samples: seq<Sample>, split: string, gallery: seq<Sample>, model: Model,
                              crossCamera: bool)
    requires GalleryMatches.SomeScoreNotFinite(samples, split, gallery, model, crossCamera)
    ensures !CanScore(samples, split, gallery, model, crossCamera)
  {
    var q, x :| q in samples && x in gallery && q.split == split
                && !GalleryMatches.NothingToRank(q, gallery, crossCamera)
                && GalleryMatches.MayMatch(q, x, crossCamera) && model.score(x.embedding, q.embedding).None?;
    GalleryMatches.SkippedExactlyWhen(q, gallery, model, crossCamera);
    var i: nat :| i < |samples| && samples[i] == q;
    OneNotFinite(samples, i, split, gallery, model, crossCamera);
  }

  lemma {:induction false} CanScoreUnlessNotFinite(samples: seq<Sample>, split: string, gallery: seq<Sample>,
                                                   model: Model, crossCamera: bool)
    ensures CanScore(samples, split, gallery, model, crossCamera)
         || GalleryMatches.SomeScoreNotFinite(samples, split, gallery, model, crossCamera)
  {
    var options := RowsFor(samples, split, gallery, model, crossCamera);
    var at := GalleryMatches.RowsInOrder(samples, split, gallery, model, crossCamera);
    if k: nat :| k < |options| && options[k].None? {
      GalleryMatches.RowMissing(samples, samples[at[k]], gallery, model, crossCamera);
    } else {
      var rows := AllSomeOfOptions(options);
    }
  }

  lemma OneNotFinite(samples: seq<Sample>, i: nat, split: string, gallery: seq<Sample>, model: Model, crossCamera: bool)
    requires i < |samples| && samples[i].split == split
    requires RowOf(samples[i], gallery, model, crossCamera).None?
    ensures !CanScore(samples, split, gallery, model, crossCamera)
  {
    var before, after := samples[..i], samples[i + 1..];
    assert samples == before + ([samples[i]] + after);
    RowsForSplits(before, [samples[i]] + after, split, gallery, model, crossCamera);
    RowsForSplits([samples[i]], after, split, gallery, model, crossCamera);
    var all := RowsFor(samples, split, gallery, model, crossCamera);
    assert RowsFor([samples[i]], split, gallery, model, crossCamera) == [None];
    assert all[|RowsFor(before, split, gallery, model, crossCamera)|] == None;
  }

  // ----- From manifest order to the chosen threshold -----

  lemma {:induction false} CountSome(rows: seq<Row>, options: seq<Option<Row>>, x: Row)
    requires AllSome(rows, options)
    ensures multiset(rows)[x] == multiset(options)[Some(x)]
  {
    if rows != [] {
      var n := |rows| - 1;
      CountSome(rows[..n], options[..n], x);
      assert rows == rows[..n] + [rows[n]];
      assert options == options[..n] + [options[n]];
    }
  }

  lemma RowsPermuted(a: seq<Row>, optionsA: seq<Option<Row>>, b: seq<Row>, optionsB: seq<Option<Row>>)
    requires AllSome(a, optionsA) && AllSome(b, optionsB) && multiset(optionsA) == multiset(optionsB)
    ensures multiset(a) == multiset(b)
  {
    forall x ensures multiset(a)[x] == multiset(b)[x] {
      CountSome(a, optionsA, x);
      CountSome(b, optionsB, x);
    }
  }

  lemma AddCommutes(m: Metrics, metric: Metric, t: int, x: Row, y: Row)
    ensures Add(Add(m, metric, t, x), metric, t, y) == Add(Add(m, metric, t, y), metric, t, x)
  {
  }

  lemma WithoutLast(rows: seq<Row>, j: nat)
    requires j < |rows| - 1
    ensures var less, n := Without(rows, j), |rows| - 1;
            |less| == n && less[..n - 1] == Without(rows[..n], j) && less[n - 1] == rows[n]
  {
  }

  lemma TallyLast(rows: seq<Row>, metric: Metric, t: int)
    requires rows != []
    ensures Tally(rows, metric, t) == Add(Tally(rows[..|rows| - 1], metric, t), metric, t, rows[|rows| - 1])
  {
  }

  lemma {:induction false} TallyWithout(rows: seq<Row>, j: nat, metric: Metric, t: int)
    requires j < |rows|
    ensures Tally(rows, metric, t) == Add(Tally(Without(rows, j), metric, t), metric, t, rows[j])
    decreases |rows|
  {
    var n := |rows| - 1;
    TallyLast(rows, metric, t);
    if j == n {
      assert Without(rows, j) == rows[..n];
    } else {
      WithoutLast(rows, j);
      TallyLast(Without(rows, j), metric, t);
      TallyWithout(rows[..n], j, metric, t);
      AddCommutes(Tally(Without(rows[..n], j), metric, t), metric, t, rows[j], rows[n]);
    }
  }

  /** The counts do not depend on the order of the rows. */
  lemma {:induction false} TallyPermuted(a: seq<Row>, b: seq<Row>, metric: Metric, t: int)
    requires multiset(a) == multiset(b)
    ensures Tally(a, metric, t) == Tally(b, metric, t)
    decreases |a|
  {
    if a == [] {
      assert |multiset(b)| == |b|;
      assert b == [];
    } else {
      SameMembers(a, b);
      assert a[0] in b;
      var j: nat :| j < |b| && b[j] == a[0];
      WithoutCounts(a, 0);
      WithoutCounts(b, j);
      TallyPermuted(Without(a, 0), Without(b, j), metric, t);
      TallyWithout(a, 0, metric, t);
      TallyWithout(b, j, metric, t);
    }
  }

  /** A sweep result: best, and one of the candidates. */
  ghost predicate Chosen(rows: seq<Row>, metric: Metric, target: real, t: int) {
    Calibratable(Tally(rows, metric, t)) && BestOf(rows, metric, target, t) && Candidate(rows, metric, t)
  }

  /** At most one threshold can be the outcome of a sweep. */
  lemma ChosenUnique(rows: seq<Row>, metric: Metric, target: real, t: int, u: int)
    requires Chosen(rows, metric, target, t) && Chosen(rows, metric, target, u)
    ensures t == u
  {
    CandidateBelowScore(rows, metric, t);
    CandidateBelowScore(rows, metric, u);
    assert Meets(rows, metric, t, target) && Meets(rows, metric, u, target);
  }

  lemma CandidateBelowScore(rows: seq<Row>, metric: Metric, t: int)
    requires Candidate(rows, metric, t)
    ensures metric.L2? ==> BelowSomeScore(rows, t)
  {
  }

  lemma BelowSomeScorePermuted(a: seq<Row>, b: seq<Row>, u: int)
    requires multiset(a) == multiset(b) && BelowSomeScore(b, u)
    ensures BelowSomeScore(a, u)
  {
    if u > ZERO {
      var i :| 0 <= i < |b| && b[i].Scored? && u <= b[i].score;
      HasScorePermuted(b, a, b[i].score);
      var k :| 0 <= k < |a| && a[k].Scored? && a[k].score == b[i].score;
    }
  }

  lemma BestPermuted(a: seq<Row>, b: seq<Row>, metric: Metric, target: real, t: int)
    requires multiset(a) == multiset(b)
    requires Calibratable(Tally(a, metric, t)) && BestOf(a, metric, target, t)
    ensures Calibratable(Tally(b, metric, t)) && BestOf(b, metric, target, t)
  {
    TallyPermuted(a, b, metric, t);
    forall u | Meets(b, metric, u, target)
      ensures Calibratable(Tally(b, metric, u))
      ensures !BetterRates(QualityOf(Tally(b, metric, u), metric, u), QualityOf(Tally(b, metric, t), metric, t))
      ensures metric.Cosine? || target < 1.0 || BelowSomeScore(b, u) ==>
                !Better(QualityOf(Tally(b, metric, u), metric, u), QualityOf(Tally(b, metric, t), metric, t))
    {
      TallyPermuted(a, b, metric, u);
      assert Meets(a, metric, u, target);
      if BelowSomeScore(b, u) {
        BelowSomeScorePermuted(a, b, u);
      }
    }
  }

  lemma CandidatePermuted(a: seq<Row>, b: seq<Row>, metric: Metric, t: int)
    requires multiset(a) == multiset(b) && Candidate(a, metric, t)
    ensures Candidate(b, metric, t)
  {
    forall s | HasScore(a, s) ensures HasScore(b, s) {
      HasScorePermuted(a, b, s);
    }
  }

  lemma HasScorePermuted(a: seq<Row>, b: seq<Row>, s: int)
    requires multiset(a) == multiset(b) && HasScore(a, s)
    ensures HasScore(b, s)
  {
    SameMembers(a, b);
    var i :| 0 <= i < |a| && a[i].Scored? && a[i].score == s;
    assert a[i] in b;
  }

  /** Nor does the outcome of the sweep depend on the order of the rows, its errors included. */
  lemma OutcomePermuted(a: seq<Row>, b: seq<Row>, metric: Metric, target: real,
                        r: Result<(int, Metrics), Error>, s: Result<(int, Metrics), Error>)
    requires multiset(a) == multiset(b)
    requires CalibrationOutcome(a, metric, target, r) && CalibrationOutcome(b, metric, target, s)
    ensures r == s
  {
    TallyPermuted(a, b, metric, 0);
    forall t ensures Meets(a, metric, t, target) <==> Meets(b, metric, t, target) {
      TallyPermuted(a, b, metric, t);
    }
    if r.Success? && s.Success? {
      var t, u := r.value.0, s.value.0;
      BestPermuted(a, b, metric, target, t);
      CandidatePermuted(a, b, metric, t);
      ChosenUnique(b, metric, target, t, u);
      TallyPermuted(a, b, metric, t);
    }
  }

  lemma AllSomeOfOptions(options: seq<Option<Row>>) returns (rows: seq<Row>)
    requires forall i :: 0 <= i < |options| ==> options[i].Some?
    ensures AllSome(rows, options)
  {
    rows := seq(|options|, i requires 0 <= i < |options| => options[i].value);
  }

  lemma AllSomePermuted(rows: seq<Row>, options: seq<Option<Row>>, others: seq<Option<Row>>) returns (again: seq<Row>)
    requires AllSome(rows, options) && multiset(options) == multiset(others)
    ensures AllSome(again, others)
  {
    SameMembers(options, others);
    forall i | 0 <= i < |others| ensures others[i].Some? {
      assert others[i] in others;
      var k :| 0 <= k < |options| && options[k] == others[i];
    }
    again := AllSomeOfOptions(others);
  }

  lemma ScorablePermuted(a: seq<Sample>, b: seq<Sample>, split: string, model: Model, crossCamera: bool)
    requires multiset(a) == multiset(b) && Scorable(a, split, model, crossCamera)
    ensures Scorable(b, split, model, crossCamera)
  {
    ManifestOrderIrrelevant(a, b, split, model, crossCamera);
    SameMembers(a, b);
    GalleryPermuted(a, b);
    var rows :| AllSome(rows, RowsFor(a, split, Gallery(a), model, crossCamera));
    var again := AllSomePermuted(rows, RowsFor(a, split, Gallery(a), model, crossCamera),
                                 RowsFor(b, split, Gallery(b), model, crossCamera));
    assert ScoresOf(b, split, model, crossCamera, again);
  }

  /** Permuting the manifest does not change whether it can be scored. */
  lemma ScoringIgnoresManifestOrder(a: seq<Sample>, b: seq<Sample>, split: string, model: Model, crossCamera: bool)
    requires multiset(a) == multiset(b)
    ensures Scorable(a, split, model, crossCamera) <==> Scorable(b, split, model, crossCamera)
  {
    if Scorable(a, split, model, crossCamera) {
      ScorablePermuted(a, b, split, model, crossCamera);
    }
    if Scorable(b, split, model, crossCamera) {
      ScorablePermuted(b, a, split, model, crossCamera);
    }
  }

  /** Nor does it change what calibration on its scores returns: the same threshold and counts, or the same error. */
  lemma CalibrationIgnoresManifestOrder(
      a: seq<Sample>, b: seq<Sample>, model: Model, crossCamera: bool, target: real, rowsA: seq<Row>, rowsB: seq<Row>,
      r: Result<(int, Metrics), Error>, s: Result<(int, Metrics), Error>)
    requires multiset(a) == multiset(b) && Scorable(a, "calibration", model, crossCamera)
    requires ScoresOf(a, "calibration", model, crossCamera, rowsA)
    requires ScoresOf(b, "calibration", model, crossCamera, rowsB)
    requires CalibrationOutcome(rowsA, model.metric, target, r) && CalibrationOutcome(rowsB, model.metric, target, s)
    ensures r == s
  {
    ManifestOrderIrrelevant(a, b, "calibration", model, crossCamera);
    RowsPermuted(rowsA, RowsFor(a, "calibration", Gallery(a), model, crossCamera),
                 rowsB, RowsFor(b, "calibration", Gallery(b), model, crossCamera));
    OutcomePermuted(rowsA, rowsB, model.metric, target, r, s);
  }
}
