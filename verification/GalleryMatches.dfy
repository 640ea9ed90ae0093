/** What the row of a query says about the gallery, from cameras, tracks and scores alone. */
module GalleryMatches {
  import opened Wrappers
  import opened ThresholdSweep
  import opened GalleryRanking

  /** A sample from another camera may always be matched; one from the query's own camera only without the cross-camera
      restriction, and not when both are of one named track. */
  predicate MayMatch(q: Sample, x: Sample, crossCamera: bool) {
    if x.camera != q.camera then true
    else !crossCamera && (q.trackId == None || q.trackId == Some("") || x.trackId != q.trackId)
  }

  lemma EligibleMayMatch(q: Sample, x: Sample, crossCamera: bool)
    ensures Eligible(q, x, crossCamera) <==> MayMatch(q, x, crossCamera)
  {
  }

  /** Score s ranks before score t. */
  predicate Beats(metric: Metric, s: int, t: int) {
    if metric.Cosine? then s > t else s < t
  }

  ghost predicate Ascending(at: seq<nat>) {
    forall a: nat, b: nat :: a < b < |at| ==> at[a] < at[b]
  }

  /** `at` lists the gallery positions of the samples that may be matched, in order. */
  ghost predicate PositionsOf(q: Sample, gallery: seq<Sample>, crossCamera: bool, at: seq<nat>) {
    && Ascending(at) && (forall a: nat :: a < |at| ==> at[a] < |gallery|)
    && forall i: nat :: i < |gallery| ==> (i in at <==> MayMatch(q, gallery[i], crossCamera))
  }

  /** Entry by entry, the samples at the listed positions. */
  ghost predicate PicksOut(at: seq<nat>, gallery: seq<Sample>, picked: seq<Sample>) {
    |at| == |picked| && forall a: nat :: a < |at| ==> at[a] < |gallery| && picked[a] == gallery[at[a]]
  }

  lemma {:induction false} EligiblePositions(q: Sample, gallery: seq<Sample>, crossCamera: bool)
    returns (at: seq<nat>)
    ensures PositionsOf(q, gallery, crossCamera, at) && PicksOut(at, gallery, EligibleOf(q, gallery, crossCamera))
  {
    at := [];
    if gallery != [] {
      var rest := EligiblePositions(q, gallery[1..], crossCamera);
      EligibleMayMatch(q, gallery[0], crossCamera);
      at := (if MayMatch(q, gallery[0], crossCamera) then [0] else []) + Shifted(rest);
      OneMorePosition(q, gallery, crossCamera, rest, at);
      PicksOutShifted(rest, gallery, EligibleOf(q, gallery[1..], crossCamera));
    }
  }

  lemma PicksOutShifted(at: seq<nat>, gallery: seq<Sample>, picked: seq<Sample>)
    requires gallery != [] && PicksOut(at, gallery[1..], picked)
    ensures PicksOut(Shifted(at), gallery, picked) && PicksOut([0] + Shifted(at), gallery, [gallery[0]] + picked)
    ensures [] + Shifted(at) == Shifted(at)
  {
  }

  lemma OneMorePosition(q: Sample, gallery: seq<Sample>, crossCamera: bool, rest: seq<nat>, at: seq<nat>)
    requires gallery != [] && PositionsOf(q, gallery[1..], crossCamera, rest)
    requires at == (if MayMatch(q, gallery[0], crossCamera) then [0] else []) + Shifted(rest)
    ensures PositionsOf(q, gallery, crossCamera, at)
  {
    forall i: nat | i < |gallery| ensures i in at <==> MayMatch(q, gallery[i], crossCamera) {
      ShiftedMembers(rest, i);
      if i > 0 {
        assert gallery[i] == gallery[1..][i - 1];
        assert i in at <==> i in Shifted(rest);
      }
    }
  }

  function Shifted(at: seq<nat>): seq<nat> {
    seq(|at|, a requires 0 <= a < |at| => at[a] + 1)
  }

  lemma ShiftedMembers(at: seq<nat>, i: nat)
    ensures i in Shifted(at) <==> i > 0 && i - 1 in at
  {
    if i > 0 && i - 1 in at {
      var a: nat :| a < |at| && at[a] == i - 1;
      assert Shifted(at)[a] == i;
    }
  }

  // ----- Average precision as a mean over the matches -----

  /** The ranks, from 1, of the matches. */
  function MatchRanks(relevant: seq<bool>): (ranks: seq<nat>)
    ensures forall r: nat :: r in ranks <==> 1 <= r <= |relevant| && relevant[r - 1]
    ensures forall a: nat :: a < |ranks| ==> 1 <= ranks[a] <= |relevant|
    ensures Ascending(ranks)
  {
    if relevant == [] then []
    else
      var n := |relevant|;
      MatchRanks(relevant[..n - 1]) + if relevant[n - 1] then [n] else []
  }

  /** The sum, over the matches, of how many matches there are up to it divided by its rank. */
  function RatioSum(ranks: seq<nat>): real
    requires forall a: nat :: a < |ranks| ==> ranks[a] > 0
  {
    if ranks == [] then 0.0
    else
      var n := |ranks|;
      RatioSum(ranks[..n - 1]) + n as real / ranks[n - 1] as real
  }

  lemma {:induction false} PrecisionByRanks(relevant: seq<bool>, n: nat)
    requires n <= |relevant|
    ensures Hits(relevant, n) == |MatchRanks(relevant[..n])|
    ensures PrecisionSum(relevant, n) == RatioSum(MatchRanks(relevant[..n]))
  {
    if n > 0 {
      PrecisionByRanks(relevant, n - 1);
      assert relevant[..n][..n - 1] == relevant[..n - 1];
      var before, ranks := MatchRanks(relevant[..n - 1]), MatchRanks(relevant[..n]);
      if relevant[n - 1] {
        assert ranks == before + [n];
        assert ranks[..|ranks| - 1] == before;
      } else {
        assert ranks == before;
      }
    }
  }

  lemma PrecisionIsMean(relevant: seq<bool>)
    ensures Hits(relevant, |relevant|) == |MatchRanks(relevant)|
    ensures MatchRanks(relevant) != [] ==>
              AveragePrecision(relevant) == RatioSum(MatchRanks(relevant)) / |MatchRanks(relevant)| as real
  {
    PrecisionByRanks(relevant, |relevant|);
    assert relevant[..|relevant|] == relevant;
  }

  // ----- The row of a query -----

  /** A ranking of the gallery positions that may be matched: best score first, ties in gallery order. */
  ghost predicate IsRanking(q: Sample, gallery: seq<Sample>, model: Model, crossCamera: bool, ranking: seq<nat>) {
    && (forall i: nat :: i in ranking <==> i < |gallery| && MayMatch(q, gallery[i], crossCamera))
    && (forall a: nat :: a < |ranking| ==>
          ranking[a] < |gallery| && model.score(gallery[ranking[a]].embedding, q.embedding).Some?)
    && forall a: nat, b: nat :: a < b < |ranking| ==>
         var s := model.score(gallery[ranking[a]].embedding, q.embedding).value;
         var t := model.score(gallery[ranking[b]].embedding, q.embedding).value;
         Beats(model.metric, s, t) || (s == t && ranking[a] < ranking[b])
  }

  /** Which ranks of the ranking hold the query's own identity. */
  function RelevantRanks(q: Sample, gallery: seq<Sample>, ranking: seq<nat>): (r: seq<bool>)
    requires forall a: nat :: a < |ranking| ==> ranking[a] < |gallery|
  {
    seq(|ranking|, a requires 0 <= a < |ranking| => gallery[ranking[a]].identity == q.identity)
  }

  /** Nothing may be matched, or the query's identity is in the gallery but on no sample that may be matched. */
  ghost predicate NothingToRank(q: Sample, gallery: seq<Sample>, crossCamera: bool) {
    || (forall x :: x in gallery ==> !MayMatch(q, x, crossCamera))
    || ((exists x :: x in gallery && x.identity == q.identity)
        && forall x :: x in gallery && x.identity == q.identity ==> !MayMatch(q, x, crossCamera))
  }

  lemma LeftOutExactlyWhen(q: Sample, gallery: seq<Sample>, crossCamera: bool)
    ensures LeftOut(q, gallery, crossCamera) <==> NothingToRank(q, gallery, crossCamera)
  {
    var eligible := EligibleOf(q, gallery, crossCamera);
    forall x ensures x in eligible <==> x in gallery && MayMatch(q, x, crossCamera) {
      EligibleMayMatch(q, x, crossCamera);
    }
    if eligible != [] {
      assert eligible[0] in eligible;
    }
  }

  /** A query is skipped exactly when there is nothing to rank, and is an error exactly when there is but a sample that
      may be matched has no finite score. */
  lemma SkippedExactlyWhen(q: Sample, gallery: seq<Sample>, model: Model, crossCamera: bool)
    ensures var r := RowOf(q, gallery, model, crossCamera);
            && (r == Some(Skipped(q.id, q.identity)) <==> NothingToRank(q, gallery, crossCamera))
            && (r.Some? && r.value.Skipped? ==> r.value == Skipped(q.id, q.identity))
            && (r.None? <==>
                  && !NothingToRank(q, gallery, crossCamera)
                  && exists x :: x in gallery && MayMatch(q, x, crossCamera)
                                 && model.score(x.embedding, q.embedding).None?)
  {
    LeftOutExactlyWhen(q, gallery, crossCamera);
    var eligible := EligibleOf(q, gallery, crossCamera);
    forall x ensures x in eligible <==> x in gallery && MayMatch(q, x, crossCamera) {
      EligibleMayMatch(q, x, crossCamera);
    }
  }

  /** The ranking behind a scored row. */
  lemma RankingOf(q: Sample, gallery: seq<Sample>, model: Model, crossCamera: bool) returns (ranking: seq<nat>)
    requires !LeftOut(q, gallery, crossCamera) && AllFinite(q, EligibleOf(q, gallery, crossCamera), model)
    ensures IsRanking(q, gallery, model, crossCamera, ranking) && ranking != []
    ensures var eligible := EligibleOf(q, gallery, crossCamera);
            var order := StableOrder(Keys(q, eligible, model), |eligible|);
            && |ranking| == |order| == |eligible|
            && Below(order, |eligible|)
            && RelevantIn(q, eligible, order) == RelevantRanks(q, gallery, ranking)
            && gallery[ranking[0]] == eligible[order[0]]
  {
    var eligible := EligibleOf(q, gallery, crossCamera);
    var keys := Keys(q, eligible, model);
    var order := StableOrder(keys, |keys|);
    StableOrderOk(keys, |keys|);
    var at := EligiblePositions(q, gallery, crossCamera);
    ranking := seq(|order|, a requires 0 <= a < |order| => at[order[a]]);
    RankingMembers(order, at, ranking);
    RankedSamples(q, gallery, model, eligible, order, at, ranking);
    RankingSorted(q, gallery, model, eligible, order, at, ranking);
    assert forall i: nat :: i in ranking ==> i < |gallery|;
  }

  lemma RankedSamples(q: Sample, gallery: seq<Sample>, model: Model, eligible: seq<Sample>, order: seq<nat>,
                      at: seq<nat>, ranking: seq<nat>)
    requires AllFinite(q, eligible, model) && Below(order, |eligible|) && |at| == |eligible| && |ranking| == |order|
    requires forall a: nat :: a < |at| ==> at[a] < |gallery| && eligible[a] == gallery[at[a]]
    requires forall a: nat :: a < |order| ==> ranking[a] == at[order[a]]
    ensures forall a: nat :: a < |ranking| ==>
              && ranking[a] < |gallery| && gallery[ranking[a]] == eligible[order[a]]
              && model.score(gallery[ranking[a]].embedding, q.embedding).Some?
    ensures RelevantIn(q, eligible, order) == RelevantRanks(q, gallery, ranking)
  {
    forall a: nat | a < |ranking|
      ensures ranking[a] < |gallery| && gallery[ranking[a]] == eligible[order[a]]
      ensures model.score(gallery[ranking[a]].embedding, q.embedding).Some?
    {
      assert eligible[order[a]] in eligible;
    }
  }

  lemma RankingMembers(order: seq<nat>, at: seq<nat>, ranking: seq<nat>)
    requires Below(order, |at|) && (forall i: nat :: i < |at| ==> i in order)
    requires |ranking| == |order| && forall a: nat :: a < |order| ==> ranking[a] == at[order[a]]
    ensures forall i: nat :: i in ranking <==> i in at
  {
    forall i: nat | i in at ensures i in ranking {
      var k: nat :| k < |at| && at[k] == i;
      assert k in order;
      var a: nat :| a < |order| && order[a] == k;
      assert ranking[a] == i;
    }
  }

  lemma RankingSorted(q: Sample, gallery: seq<Sample>, model: Model, eligible: seq<Sample>, order: seq<nat>,
                      at: seq<nat>, ranking: seq<nat>)
    requires AllFinite(q, eligible, model) && Below(order, |eligible|) && Ranked(Keys(q, eligible, model), order)
    requires |at| == |eligible| && Ascending(at) && |ranking| == |order|
    requires forall a: nat :: a < |order| ==>
               && ranking[a] == at[order[a]] && ranking[a] < |gallery|
               && gallery[ranking[a]] == eligible[order[a]]
               && model.score(gallery[ranking[a]].embedding, q.embedding).Some?
    ensures forall a: nat, b: nat :: a < b < |ranking| ==>
              var s := model.score(gallery[ranking[a]].embedding, q.embedding).value;
              var t := model.score(gallery[ranking[b]].embedding, q.embedding).value;
              Beats(model.metric, s, t) || (s == t && ranking[a] < ranking[b])
  {
    var keys := Keys(q, eligible, model);
    forall a: nat, b: nat | a < b < |ranking|
      ensures var s := model.score(gallery[ranking[a]].embedding, q.embedding).value;
              var t := model.score(gallery[ranking[b]].embedding, q.embedding).value;
              Beats(model.metric, s, t) || (s == t && ranking[a] < ranking[b])
    {
      assert keys[order[a]] < keys[order[b]] || (keys[order[a]] == keys[order[b]] && order[a] < order[b]);
    }
  }

  /** What a scored row says, given the ranking. */
  ghost predicate RowFrom(q: Sample, gallery: seq<Sample>, model: Model, ranking: seq<nat>, row: Row)
    requires forall a: nat :: a < |ranking| ==> ranking[a] < |gallery|
    requires ranking != []
  {
    var best := gallery[ranking[0]];
    var known := exists x :: x in gallery && x.identity == q.identity;
    var ranks := MatchRanks(RelevantRanks(q, gallery, ranking));
    && row.Scored? && row.id == q.id && row.identity == q.identity && row.camera == q.camera
    && row.known == known && row.candidate == best.identity && row.correct == (best.identity == q.identity)
    && model.score(best.embedding, q.embedding) == Some(row.score)
    && row.rank1 == (if known then Some(row.correct) else None)
    && (known ==> |ranks| > 0 && row.averagePrecision == Some(RatioSum(ranks) / |ranks| as real))
    && (!known ==> row.averagePrecision == None)
  }

  /** A scored row has the identity and score of the first of the ranking, and the mean precision over its matches. */
  lemma ScoredRow(q: Sample, gallery: seq<Sample>, model: Model, crossCamera: bool) returns (ranking: seq<nat>)
    requires RowOf(q, gallery, model, crossCamera).Some? && RowOf(q, gallery, model, crossCamera).value.Scored?
    ensures IsRanking(q, gallery, model, crossCamera, ranking) && ranking != []
    ensures RowFrom(q, gallery, model, ranking, RowOf(q, gallery, model, crossCamera).value)
  {
    ranking := RankingOf(q, gallery, model, crossCamera);
    RowMeaning(q, gallery, model, crossCamera);
    PrecisionIsMean(RelevantRanks(q, gallery, ranking));
  }

  /** The matched sample is never from the query's own camera across cameras, nor of the query's own track on its
      camera; and no gallery sample passing both tests has a better score, nor an equal one earlier in the gallery. */
  lemma CandidateIsPermitted(q: Sample, gallery: seq<Sample>, model: Model, crossCamera: bool) returns (b: nat)
    requires RowOf(q, gallery, model, crossCamera).Some? && RowOf(q, gallery, model, crossCamera).value.Scored?
    ensures b < |gallery|
    ensures var row, x := RowOf(q, gallery, model, crossCamera).value, gallery[b];
            && row.candidate == x.identity && model.score(x.embedding, q.embedding) == Some(row.score)
            && (crossCamera ==> x.camera != q.camera)
            && !(x.camera == q.camera && q.trackId.Some? && q.trackId.value != "" && x.trackId == q.trackId)
    ensures var row := RowOf(q, gallery, model, crossCamera).value;
            forall i: nat ::
              (&& i < |gallery| && (crossCamera ==> gallery[i].camera != q.camera)
               && !(gallery[i].camera == q.camera && q.trackId.Some? && q.trackId.value != ""
                    && gallery[i].trackId == q.trackId)) ==>
              var s := model.score(gallery[i].embedding, q.embedding);
              s.Some? && (Beats(model.metric, row.score, s.value) || (row.score == s.value && b <= i))
  {
    var ranking := ScoredRow(q, gallery, model, crossCamera);
    b := ranking[0];
    forall i: nat | i < |gallery| && MayMatch(q, gallery[i], crossCamera)
      ensures var s := model.score(gallery[i].embedding, q.embedding);
              var row := RowOf(q, gallery, model, crossCamera).value;
              s.Some? && (Beats(model.metric, row.score, s.value) || (row.score == s.value && b <= i))
    {
      var a: nat :| a < |ranking| && ranking[a] == i;
      assert a > 0 ==> 0 < a < |ranking|;
    }
  }

  /** What the row of a query has to say: skipped when there is nothing to rank, the outcome of a ranking otherwise. */
  ghost predicate RowSays(q: Sample, gallery: seq<Sample>, model: Model, crossCamera: bool, row: Row) {
    if NothingToRank(q, gallery, crossCamera) then row == Skipped(q.id, q.identity)
    else exists ranking: seq<nat> ::
           && IsRanking(q, gallery, model, crossCamera, ranking) && ranking != []
           && RowFrom(q, gallery, model, ranking, row)
  }

  lemma RowIsRight(q: Sample, gallery: seq<Sample>, model: Model, crossCamera: bool)
    requires RowOf(q, gallery, model, crossCamera).Some?
    ensures RowSays(q, gallery, model, crossCamera, RowOf(q, gallery, model, crossCamera).value)
  {
    SkippedExactlyWhen(q, gallery, model, crossCamera);
    if !NothingToRank(q, gallery, crossCamera) {
      var ranking := ScoredRow(q, gallery, model, crossCamera);
    }
  }

  // ----- All queries -----

  /** The rows are those of the samples of the split, one for each in manifest order. */
  ghost predicate RowsSay(samples: seq<Sample>, split: string, gallery: seq<Sample>, model: Model, crossCamera: bool,
                          rows: seq<Row>)
  {
    exists at: seq<nat> ::
      && Ascending(at) && |at| == |rows|
      && (forall i: nat :: i < |samples| ==> (i in at <==> samples[i].split == split))
      && forall a: nat :: a < |at| ==>
           at[a] < |samples| && RowSays(samples[at[a]], gallery, model, crossCamera, rows[a])
  }

  lemma RowsAreRight(samples: seq<Sample>, split: string, gallery: seq<Sample>, model: Model, crossCamera: bool,
                     rows: seq<Row>)
    requires |rows| == |RowsFor(samples, split, gallery, model, crossCamera)|
    requires forall i :: 0 <= i < |rows| ==> RowsFor(samples, split, gallery, model, crossCamera)[i] == Some(rows[i])
    ensures RowsSay(samples, split, gallery, model, crossCamera, rows)
  {
    var at := RowsInOrder(samples, split, gallery, model, crossCamera);
    forall a: nat | a < |at| ensures RowSays(samples[at[a]], gallery, model, crossCamera, rows[a]) {
      RowIsRight(samples[at[a]], gallery, model, crossCamera);
    }
  }

  /** Some query has something to rank, but a sample it may be matched with has no finite score. */
  ghost predicate SomeScoreNotFinite(samples: seq<Sample>, split: string, gallery: seq<Sample>, model: Model,
                                     crossCamera: bool)
  {
    exists q, x :: q in samples && x in gallery && q.split == split && !NothingToRank(q, gallery, crossCamera)
                   && MayMatch(q, x, crossCamera) && model.score(x.embedding, q.embedding).None?
  }

  lemma RowMissing(samples: seq<Sample>, q: Sample, gallery: seq<Sample>, model: Model, crossCamera: bool)
    requires q in samples && RowOf(q, gallery, model, crossCamera).None?
    ensures SomeScoreNotFinite(samples, q.split, gallery, model, crossCamera)
  {
    SkippedExactlyWhen(q, gallery, model, crossCamera);
  }

  /** There is one row for every sample of the split, in manifest order. */
  lemma {:induction false} RowsInOrder(samples: seq<Sample>, split: string, gallery: seq<Sample>, model: Model,
                                       crossCamera: bool) returns (at: seq<nat>)
    ensures Ascending(at) && (forall a: nat :: a < |at| ==> at[a] < |samples|)
    ensures forall i: nat :: i < |samples| ==> (i in at <==> samples[i].split == split)
    ensures var rows := RowsFor(samples, split, gallery, model, crossCamera);
            && |rows| == |at|
            && forall a: nat :: a < |at| ==> rows[a] == RowOf(samples[at[a]], gallery, model, crossCamera)
  {
    at := [];
    if samples != [] {
      var n := |samples| - 1;
      at := RowsInOrder(samples[..n], split, gallery, model, crossCamera);
      if samples[n].split == split {
        at := at + [n];
      }
    }
  }

  // ----- The order of the gallery -----

  /** The strings agree up to k, where `a` ends or has the smaller character. */
  ghost predicate FirstDifference(a: string, b: string, k: nat) {
    k <= |a| && k < |b| && a[..k] == b[..k] && (k == |a| || a[k] < b[k])
  }

  lemma {:induction false} IdLessDiffers(a: string, b: string) returns (k: nat)
    requires IdLess(a, b)
    ensures FirstDifference(a, b, k)
  {
    k := 0;
    if a != "" && a[0] == b[0] {
      var rest := IdLessDiffers(a[1..], b[1..]);
      k := rest + 1;
      assert a[..k] == [a[0]] + a[1..][..rest] && b[..k] == [b[0]] + b[1..][..rest];
    }
  }

  lemma {:induction false} DiffersIdLess(a: string, b: string, k: nat)
    requires FirstDifference(a, b, k)
    ensures IdLess(a, b)
  {
    if k > 0 {
      assert a[..k][0] == a[0] && b[..k][0] == b[0];
      assert a[1..][..k - 1] == a[..k][1..] && b[1..][..k - 1] == b[..k][1..];
      DiffersIdLess(a[1..], b[1..], k - 1);
    }
  }

  /** The gallery's order is that of the ids' characters, a proper prefix coming first. */
  lemma IdOrderIsLexicographic(a: string, b: string)
    ensures IdLess(a, b) <==> exists k: nat :: FirstDifference(a, b, k)
  {
    if IdLess(a, b) {
      var k := IdLessDiffers(a, b);
    }
    if k: nat :| FirstDifference(a, b, k) {
      DiffersIdLess(a, b, k);
    }
  }
}
