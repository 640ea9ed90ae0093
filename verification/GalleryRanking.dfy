/** Ranking the gallery for each query, and why the order of the manifest does not matter. */
module GalleryRanking {
  import opened Wrappers
  import opened ThresholdSweep

  type Vector = seq<real>

  datatype Sample = Sample(
    id: string, identity: string, camera: string, split: string, trackId: Option<string>, embedding: Vector)

  /** How vectors are judged and compared: `finite` tests the entries, `normal` the norm, and `score` gives the
      similarity or distance of a gallery vector and a query vector, None when it is not finite. */
  datatype Model = Model(
    metric: Metric, finite: Vector -> bool, normal: Vector -> bool, score: (Vector, Vector) -> Option<Double>)

  /** Only the cosine metric asks for a finite, non-zero norm. */
  predicate NormOk(model: Model, v: Vector) {
    model.metric.Cosine? ==> model.normal(v)
  }

  datatype ScoreError =
    | BadSplitChoice | MissingField | DuplicateId | BadSplit | BadEmbedding | MixedDimensions | BadNorm
    | NothingToEvaluate | NonFiniteScore

  // ----- Order of ids -----

  predicate IdLess(a: string, b: string) {
    if b == "" then false
    else if a == "" then true
    else a[0] < b[0] || (a[0] == b[0] && IdLess(a[1..], b[1..]))
  }

  lemma {:induction false} IdLessTotal(a: string, b: string)
    ensures a == b || IdLess(a, b) || IdLess(b, a)
  {
    if a != "" && b != "" && a[0] == b[0] {
      IdLessTotal(a[1..], b[1..]);
      assert a[1..] == b[1..] ==> a == [a[0]] + a[1..] == [b[0]] + b[1..] == b;
    }
  }

  lemma {:induction false} IdLessStrict(a: string, b: string)
    requires IdLess(a, b)
    ensures a != b && !IdLess(b, a)
  {
    if a != "" && a[0] == b[0] {
      IdLessStrict(a[1..], b[1..]);
    }
  }

  lemma {:induction false} IdLessTransitive(a: string, b: string, c: string)
    requires IdLess(a, b) && IdLess(b, c)
    ensures IdLess(a, c)
  {
    if a != "" && a[0] == b[0] && b[0] == c[0] {
      IdLessTransitive(a[1..], b[1..], c[1..]);
    }
  }

  // ----- Validation -----

  const SPLITS: set<string> := {"gallery", "calibration", "test"}

  /** Python's `strip` leaves nothing; only the ASCII white space is considered. */
  predicate Blank(s: string) {
    forall c :: c in s ==> c in " \t\n\r"
  }

  predicate FieldsOk(x: Sample) {
    !Blank(x.id) && !Blank(x.identity) && !Blank(x.camera)
  }

  ghost predicate WellFormed(samples: seq<Sample>, model: Model) {
    && (forall x :: x in samples ==>
          FieldsOk(x) && x.split in SPLITS && x.embedding != [] && model.finite(x.embedding)
          && NormOk(model, x.embedding))
    && (forall x, y :: x in samples && y in samples ==> |x.embedding| == |y.embedding|)
    && DistinctIds(samples)
  }

  ghost predicate DistinctIds(samples: seq<Sample>) {
    forall i, j :: 0 <= i < j < |samples| ==> samples[i].id != samples[j].id
  }

  // ----- The gallery in id order -----

  function InsertById(x: Sample, sorted: seq<Sample>): seq<Sample> {
    if sorted == [] || IdLess(x.id, sorted[0].id) then [x] + sorted
    else [sorted[0]] + InsertById(x, sorted[1..])
  }

  /** `sorted` by id of the gallery samples. */
  function Gallery(samples: seq<Sample>): seq<Sample> {
    if samples == [] then []
    else
      var rest := Gallery(samples[..|samples| - 1]);
      var x := samples[|samples| - 1];
      if x.split == "gallery" then InsertById(x, rest) else rest
  }

  ghost predicate StrictlyById(g: seq<Sample>) {
    forall i, j :: 0 <= i < j < |g| ==> IdLess(g[i].id, g[j].id)
  }

  lemma {:induction false} InsertByIdOk(x: Sample, sorted: seq<Sample>)
    requires StrictlyById(sorted) && forall y :: y in sorted ==> y.id != x.id
    ensures StrictlyById(InsertById(x, sorted))
    ensures forall y :: y in InsertById(x, sorted) <==> y == x || y in sorted
  {
    if sorted != [] {
      if IdLess(x.id, sorted[0].id) {
        forall j | 0 <= j < |sorted| ensures IdLess(x.id, sorted[j].id) {
          if j > 0 {
            IdLessTransitive(x.id, sorted[0].id, sorted[j].id);
          }
        }
      } else {
        IdLessTotal(x.id, sorted[0].id);
        InsertByIdOk(x, sorted[1..]);
        var rest := InsertById(x, sorted[1..]);
        forall j | 0 <= j < |rest| ensures IdLess(sorted[0].id, rest[j].id) {
          assert rest[j] in rest;
        }
      }
    }
  }

  lemma {:induction false} GalleryOk(samples: seq<Sample>)
    requires DistinctIds(samples)
    ensures StrictlyById(Gallery(samples))
    ensures forall y :: y in Gallery(samples) <==> y in samples && y.split == "gallery"
  {
    if samples != [] {
      var prefix, x := samples[..|samples| - 1], samples[|samples| - 1];
      GalleryOk(prefix);
      assert samples == prefix + [x];
      if x.split == "gallery" {
        InsertByIdOk(x, Gallery(prefix));
      }
    }
  }

  /** Two sequences in strict id order with the same members are equal. */
  lemma {:induction false} StrictOrderUnique(a: seq<Sample>, b: seq<Sample>)
    requires StrictlyById(a) && StrictlyById(b)
    requires forall x :: x in a <==> x in b
    ensures a == b
  {
    assert a != [] ==> a[0] in b;
    assert b != [] ==> b[0] in a;
    if a != [] {
      assert a[0] == b[0] by {
        var i :| 0 <= i < |b| && b[i] == a[0];
        var j :| 0 <= j < |a| && a[j] == b[0];
        if i > 0 && j > 0 {
          IdLessStrict(b[0].id, a[0].id);
        }
      }
      forall x ensures x in a[1..] <==> x in b[1..] {
        InTail(a, x);
        InTail(b, x);
      }
      StrictOrderUnique(a[1..], b[1..]);
      assert a == [a[0]] + a[1..] == [b[0]] + b[1..] == b;
    }
  }

  lemma InTail(s: seq<Sample>, x: Sample)
    requires StrictlyById(s) && s != []
    ensures x in s[1..] <==> x in s && x != s[0]
  {
    forall j | 1 <= j < |s| ensures s[j] != s[0] {
      IdLessStrict(s[0].id, s[j].id);
    }
  }

  // ----- One query -----

  /** The sample is a permitted match: not from the query's camera when cross-camera is asked for, and
      never from the query's own track on its own camera. */
  predicate Eligible(q: Sample, x: Sample, crossCamera: bool) {
    && (crossCamera ==> x.camera != q.camera)
    && !(q.trackId.Some? && q.trackId.value != "" && x.trackId == q.trackId && x.camera == q.camera)
  }

  function EligibleOf(q: Sample, gallery: seq<Sample>, crossCamera: bool): (r: seq<Sample>)
    ensures forall x :: x in r <==> x in gallery && Eligible(q, x, crossCamera)
  {
    if gallery == [] then []
    else
      var rest := EligibleOf(q, gallery[1..], crossCamera);
      if Eligible(q, gallery[0], crossCamera) then [gallery[0]] + rest else rest
  }

  predicate KnownIn(q: Sample, xs: seq<Sample>) {
    exists x :: x in xs && x.identity == q.identity
  }

  /** Smaller keys rank first. */
  function Key(metric: Metric, score: int): int {
    if metric.Cosine? then -score else score
  }

  ghost predicate Below(order: seq<nat>, n: nat) {
    forall j :: 0 <= j < |order| ==> order[j] < n
  }

  /** Insert index `k` into a ranking after every index whose key is not larger. */
  function InsertByKey(keys: seq<int>, k: nat, order: seq<nat>): seq<nat>
    requires k < |keys| && Below(order, |keys|)
  {
    if order == [] || keys[k] < keys[order[0]] then [k] + order
    else [order[0]] + InsertByKey(keys, k, order[1..])
  }

  /** The stable `argsort` of the first `n` keys. */
  function StableOrder(keys: seq<int>, n: nat): (order: seq<nat>)
    requires n <= |keys|
    ensures Below(order, n)
  {
    if n == 0 then []
    else
      InsertByKeyMembers(keys, n - 1, StableOrder(keys, n - 1));
      InsertByKey(keys, n - 1, StableOrder(keys, n - 1))
  }

  lemma {:induction false} InsertByKeyMembers(keys: seq<int>, k: nat, order: seq<nat>)
    requires k < |keys| && Below(order, |keys|)
    ensures forall i: nat :: i in InsertByKey(keys, k, order) <==> i == k || i in order
    ensures Below(order, k) ==> Below(InsertByKey(keys, k, order), k + 1)
    ensures |InsertByKey(keys, k, order)| == |order| + 1
  {
    if order != [] {
      InsertByKeyMembers(keys, k, order[1..]);
    }
  }

  /** Ranked by key, and by gallery position among equal keys. */
  ghost predicate Ranked(keys: seq<int>, order: seq<nat>)
    requires Below(order, |keys|)
  {
    forall i, j :: 0 <= i < j < |order| ==>
      keys[order[i]] < keys[order[j]] || (keys[order[i]] == keys[order[j]] && order[i] < order[j])
  }

  lemma {:induction false} InsertByKeyRanked(keys: seq<int>, k: nat, order: seq<nat>)
    requires k < |keys| && Below(order, k) && Ranked(keys, order)
    ensures Below(InsertByKey(keys, k, order), |keys|)
    ensures Ranked(keys, InsertByKey(keys, k, order))
  {
    InsertByKeyMembers(keys, k, order);
    if order != [] && keys[k] >= keys[order[0]] {
      InsertByKeyRanked(keys, k, order[1..]);
      InsertByKeyMembers(keys, k, order[1..]);
      var rest := InsertByKey(keys, k, order[1..]);
      forall j | 0 <= j < |rest|
        ensures keys[order[0]] < keys[rest[j]] || (keys[order[0]] == keys[rest[j]] && order[0] < rest[j])
      {
        assert rest[j] in rest;
      }
    }
  }

  /** The ranking holds every position once, by ascending key, ties by gallery position. */
  lemma {:induction false} StableOrderOk(keys: seq<int>, n: nat)
    requires n <= |keys|
    ensures |StableOrder(keys, n)| == n
    ensures forall i: nat :: i in StableOrder(keys, n) <==> i < n
    ensures Ranked(keys, StableOrder(keys, n))
  {
    if n > 0 {
      StableOrderOk(keys, n - 1);
      InsertByKeyMembers(keys, n - 1, StableOrder(keys, n - 1));
      InsertByKeyRanked(keys, n - 1, StableOrder(keys, n - 1));
    }
  }

  // ----- Average precision -----

  function Hits(relevant: seq<bool>, n: nat): (h: nat)
    requires n <= |relevant|
    ensures h <= n
  {
    if n == 0 then 0 else Hits(relevant, n - 1) + (if relevant[n - 1] then 1 else 0)
  }

  /** The sum, over the relevant ranks, of the precision at that rank. */
  function PrecisionSum(relevant: seq<bool>, n: nat): real
    requires n <= |relevant|
  {
    if n == 0 then 0.0
    else PrecisionSum(relevant, n - 1) +
         (if relevant[n - 1] then Hits(relevant, n) as real / n as real else 0.0)
  }

  function AveragePrecision(relevant: seq<bool>): real
    requires Hits(relevant, |relevant|) > 0
  {
    PrecisionSum(relevant, |relevant|) / Hits(relevant, |relevant|) as real
  }

  /** No irrelevant entry comes before a relevant one among the first `n`. */
  ghost predicate RelevantFirst(relevant: seq<bool>, n: nat)
    requires n <= |relevant|
  {
    forall i, j :: 0 <= i < j < n && relevant[j] ==> relevant[i]
  }

  lemma {:induction false} AllHits(relevant: seq<bool>, n: nat)
    requires n <= |relevant|
    ensures Hits(relevant, n) == n <==> forall i :: 0 <= i < n ==> relevant[i]
  {
    if n > 0 {
      AllHits(relevant, n - 1);
    }
  }

  lemma Fraction(h: nat, n: nat)
    requires h <= n && 0 < n
    ensures 0.0 <= h as real / n as real <= 1.0
    ensures h > 0 ==> h as real / n as real > 0.0
    ensures h as real / n as real == 1.0 <==> h == n
  {
    var q := h as real / n as real;
    assert q * n as real == h as real;
  }

  lemma {:induction false} PrecisionSumBound(relevant: seq<bool>, n: nat)
    requires n <= |relevant|
    ensures 0.0 <= PrecisionSum(relevant, n) <= Hits(relevant, n) as real
    ensures Hits(relevant, n) > 0 ==> PrecisionSum(relevant, n) > 0.0
  {
    if n > 0 {
      PrecisionSumBound(relevant, n - 1);
      Fraction(Hits(relevant, n), n);
    }
  }

  lemma {:induction false} PrecisionSumPerfect(relevant: seq<bool>, n: nat)
    requires n <= |relevant|
    ensures PrecisionSum(relevant, n) == Hits(relevant, n) as real <==> RelevantFirst(relevant, n)
  {
    if n > 0 {
      PrecisionSumBound(relevant, n - 1);
      PrecisionSumPerfect(relevant, n - 1);
      Fraction(Hits(relevant, n), n);
      AllHits(relevant, n);
    }
  }

  /** Average precision lies in (0, 1] and is 1 exactly for a ranking with every match first. */
  lemma AveragePrecisionRange(relevant: seq<bool>)
    requires Hits(relevant, |relevant|) > 0
    ensures 0.0 < AveragePrecision(relevant) <= 1.0
    ensures AveragePrecision(relevant) == 1.0 <==> RelevantFirst(relevant, |relevant|)
  {
    PrecisionSumBound(relevant, |relevant|);
    PrecisionSumPerfect(relevant, |relevant|);
    var sum, h := PrecisionSum(relevant, |relevant|), Hits(relevant, |relevant|) as real;
    RatioRange(sum, h, sum / h);
  }

  lemma RatioRange(sum: real, h: real, q: real)
    requires 0.0 < sum <= h && q * h == sum
    ensures 0.0 < q <= 1.0
    ensures q == 1.0 <==> sum == h
  {
    assert q <= 0.0 ==> q * h <= 0.0;
    assert (1.0 - q) * h == h - sum;
    assert q > 1.0 ==> (1.0 - q) * h < 0.0;
  }

  // ----- Rows -----

  predicate AllFinite(q: Sample, eligible: seq<Sample>, model: Model) {
    forall x :: x in eligible ==> model.score(x.embedding, q.embedding).Some?
  }

  function Keys(q: Sample, eligible: seq<Sample>, model: Model): (keys: seq<int>)
    requires AllFinite(q, eligible, model)
    ensures |keys| == |eligible|
    ensures forall i :: 0 <= i < |keys| ==>
              keys[i] == Key(model.metric, model.score(eligible[i].embedding, q.embedding).value)
  {
    if eligible == [] then []
    else [Key(model.metric, model.score(eligible[0].embedding, q.embedding).value)] +
         Keys(q, eligible[1..], model)
  }

  function RelevantIn(q: Sample, eligible: seq<Sample>, order: seq<nat>): (r: seq<bool>)
    requires Below(order, |eligible|)
    ensures |r| == |order|
    ensures forall i :: 0 <= i < |r| ==> r[i] == (eligible[order[i]].identity == q.identity)
  {
    if order == [] then []
    else [eligible[order[0]].identity == q.identity] + RelevantIn(q, eligible, order[1..])
  }

  predicate LeftOut(q: Sample, gallery: seq<Sample>, crossCamera: bool) {
    var eligible := EligibleOf(q, gallery, crossCamera);
    eligible == [] || (KnownIn(q, gallery) && !KnownIn(q, eligible))
  }

  /** The row of one query, or None when a score is not finite. */
  function RowOf(q: Sample, gallery: seq<Sample>, model: Model, crossCamera: bool): Option<Row> {
    var eligible := EligibleOf(q, gallery, crossCamera);
    if LeftOut(q, gallery, crossCamera) then Some(Skipped(q.id, q.identity))
    else if !AllFinite(q, eligible, model) then None
    else
      var keys := Keys(q, eligible, model);
      var order := StableOrder(keys, |keys|);
      StableOrderOk(keys, |keys|);
      var relevant := RelevantIn(q, eligible, order);
      var known := KnownIn(q, gallery);
      var best := eligible[order[0]];
      Some(Scored(q.id, q.identity, q.camera, known, best.identity,
                  model.score(best.embedding, q.embedding).value,
                  relevant[0],
                  if known then Some(relevant[0]) else None,
                  if known && Hits(relevant, |relevant|) > 0 then Some(AveragePrecision(relevant)) else None))
  }

  lemma {:induction false} SomeHit(relevant: seq<bool>, n: nat, i: nat)
    requires i < n <= |relevant| && relevant[i]
    ensures Hits(relevant, n) > 0
  {
    if i < n - 1 {
      SomeHit(relevant, n - 1, i);
    }
  }

  lemma RelevantSomewhere(q: Sample, eligible: seq<Sample>, order: seq<nat>)
    requires Below(order, |eligible|) && (forall i: nat :: i < |eligible| ==> i in order)
    requires KnownIn(q, eligible)
    ensures Hits(RelevantIn(q, eligible, order), |order|) > 0
  {
    var x :| x in eligible && x.identity == q.identity;
    var at: nat :| at < |eligible| && eligible[at] == x;
    assert at in order;
    var i: nat :| i < |order| && order[i] == at;
    SomeHit(RelevantIn(q, eligible, order), |order|, i);
  }

  /** What the row of an evaluated query says: a known query has a rank-1 verdict and an average
      precision, an unknown one neither, and no unknown query is ever matched correctly. */
  lemma RowMeaning(q: Sample, gallery: seq<Sample>, model: Model, crossCamera: bool)
    requires RowOf(q, gallery, model, crossCamera).Some? && RowOf(q, gallery, model, crossCamera).value.Scored?
    ensures var row := RowOf(q, gallery, model, crossCamera).value;
            && row.known == KnownIn(q, gallery)
            && row.correct == (row.candidate == q.identity)
            && (if row.known
                then row.rank1 == Some(row.correct) && row.averagePrecision.Some? &&
                     0.0 < row.averagePrecision.value <= 1.0
                else row.rank1 == None && row.averagePrecision == None && !row.correct)
  {
    var eligible := EligibleOf(q, gallery, crossCamera);
    var keys := Keys(q, eligible, model);
    var order := StableOrder(keys, |keys|);
    StableOrderOk(keys, |keys|);
    if KnownIn(q, gallery) {
      RelevantSomewhere(q, eligible, order);
      AveragePrecisionRange(RelevantIn(q, eligible, order));
    } else {
      assert eligible[order[0]] in gallery;
    }
  }

  /** The candidate is the best-scored permitted gallery sample, the first in id order among equals. */
  lemma CandidateIsBest(q: Sample, gallery: seq<Sample>, model: Model, crossCamera: bool) returns (b: nat)
    requires RowOf(q, gallery, model, crossCamera).Some? && RowOf(q, gallery, model, crossCamera).value.Scored?
    ensures b < |EligibleOf(q, gallery, crossCamera)|
    ensures IsBest(q, EligibleOf(q, gallery, crossCamera), model, RowOf(q, gallery, model, crossCamera).value, b)
  {
    var eligible := EligibleOf(q, gallery, crossCamera);
    var keys := Keys(q, eligible, model);
    var order := StableOrder(keys, |keys|);
    StableOrderOk(keys, |keys|);
    b := order[0];
    forall i: nat | i < |eligible|
      ensures keys[b] < keys[i] || (keys[b] == keys[i] && b <= i)
    {
      assert i in order;
    }
  }

  /** Entry `b` of the permitted samples gives the row its candidate and score, and none beats it. */
  ghost predicate IsBest(q: Sample, eligible: seq<Sample>, model: Model, row: Row, b: nat)
    requires b < |eligible| && row.Scored?
  {
    && row.candidate == eligible[b].identity
    && model.score(eligible[b].embedding, q.embedding) == Some(row.score)
    && forall i :: 0 <= i < |eligible| ==>
         match model.score(eligible[i].embedding, q.embedding)
         case None => false
         case Some(s) =>
           Key(model.metric, row.score) < Key(model.metric, s) || (row.score == s && b <= i)
  }

  // ----- The manifest order does not matter -----

  lemma WellFormedPermuted(a: seq<Sample>, b: seq<Sample>, model: Model)
    requires multiset(a) == multiset(b) && WellFormed(a, model)
    ensures WellFormed(b, model)
  {
    SameMembers(a, b);
    DistinctPermuted(a, b);
  }

  lemma SameMembers<T>(a: seq<T>, b: seq<T>)
    requires multiset(a) == multiset(b)
    ensures forall x :: x in a <==> x in b
  {
    forall x ensures x in a <==> x in b {
      assert x in multiset(a) <==> x in a;
      assert x in multiset(b) <==> x in b;
    }
  }

  lemma {:induction false} DistinctMeansOnce(a: seq<Sample>, x: Sample)
    requires DistinctIds(a)
    ensures multiset(a)[x] <= 1
  {
    if a != [] {
      DistinctMeansOnce(a[..|a| - 1], x);
      assert a == a[..|a| - 1] + [a[|a| - 1]];
      if x == a[|a| - 1] {
        assert x !in a[..|a| - 1];
      }
    }
  }

  lemma TwiceCounted<T>(b: seq<T>, i: nat, j: nat)
    requires i < j < |b| && b[i] == b[j]
    ensures multiset(b)[b[i]] >= 2
  {
    assert b == b[..i] + [b[i]] + b[i + 1..j] + [b[j]] + b[j + 1..];
  }

  lemma DistinctPermuted(a: seq<Sample>, b: seq<Sample>)
    requires multiset(a) == multiset(b) && DistinctIds(a)
    ensures DistinctIds(b)
  {
    SameMembers(a, b);
    forall i, j | 0 <= i < j < |b| ensures b[i].id != b[j].id {
      DistinctMeansOnce(a, b[i]);
      if b[i] == b[j] {
        TwiceCounted(b, i, j);
      } else {
        assert b[i] in a && b[j] in a;
      }
    }
  }

  lemma GalleryPermuted(a: seq<Sample>, b: seq<Sample>)
    requires multiset(a) == multiset(b) && DistinctIds(a)
    ensures Gallery(a) == Gallery(b)
  {
    SameMembers(a, b);
    DistinctPermuted(a, b);
    GalleryOk(a);
    GalleryOk(b);
    StrictOrderUnique(Gallery(a), Gallery(b));
  }

  /** The rows of the samples of one split, in manifest order, against a fixed gallery. */
  ghost function RowsFor(samples: seq<Sample>, split: string, gallery: seq<Sample>,
      model: Model, crossCamera: bool): seq<Option<Row>>
  {
    if samples == [] then []
    else
      var rest := RowsFor(samples[..|samples| - 1], split, gallery, model, crossCamera);
      var q := samples[|samples| - 1];
      if q.split == split then rest + [RowOf(q, gallery, model, crossCamera)] else rest
  }

  lemma {:induction false} RowsForSplits(u: seq<Sample>, v: seq<Sample>, split: string, gallery: seq<Sample>,
      model: Model, crossCamera: bool)
    ensures RowsFor(u + v, split, gallery, model, crossCamera)
         == RowsFor(u, split, gallery, model, crossCamera) + RowsFor(v, split, gallery, model, crossCamera)
  {
    if v == [] {
      assert u + v == u;
    } else {
      assert (u + v)[..|u + v| - 1] == u + v[..|v| - 1];
      RowsForSplits(u, v[..|v| - 1], split, gallery, model, crossCamera);
    }
  }

  function Without<T>(s: seq<T>, j: nat): seq<T>
    requires j < |s|
  {
    s[..j] + s[j + 1..]
  }

  lemma WithoutCounts<T>(s: seq<T>, j: nat)
    requires j < |s|
    ensures multiset(Without(s, j)) == multiset(s) - multiset{s[j]}
  {
    assert s == s[..j] + [s[j]] + s[j + 1..];
    assert multiset(s) == multiset(Without(s, j)) + multiset{s[j]};
  }

  lemma RowsForWithout(s: seq<Sample>, j: nat, split: string, gallery: seq<Sample>,
      model: Model, crossCamera: bool)
    requires j < |s|
    ensures multiset(RowsFor(s, split, gallery, model, crossCamera))
         == multiset(RowsFor(Without(s, j), split, gallery, model, crossCamera))
            + multiset(RowsFor([s[j]], split, gallery, model, crossCamera))
  {
    assert s == s[..j] + ([s[j]] + s[j + 1..]);
    RowsForSplits(s[..j], [s[j]] + s[j + 1..], split, gallery, model, crossCamera);
    RowsForSplits([s[j]], s[j + 1..], split, gallery, model, crossCamera);
    RowsForSplits(s[..j], s[j + 1..], split, gallery, model, crossCamera);
  }

  lemma {:induction false} RowsForPermuted(a: seq<Sample>, b: seq<Sample>, split: string, gallery: seq<Sample>,
      model: Model, crossCamera: bool)
    requires multiset(a) == multiset(b)
    ensures multiset(RowsFor(a, split, gallery, model, crossCamera))
         == multiset(RowsFor(b, split, gallery, model, crossCamera))
    decreases |a|
  {
    if a == [] {
      assert |multiset(b)| == |b|;
      assert b == [];
    } else {
      SameMembers(a, b);
      assert a[0] in b;
      var j: nat :| j < |b| && b[j] == a[0];
      WithoutCounts(a, 0);
      WithoutCounts(b, j);
      RowsForPermuted(Without(a, 0), Without(b, j), split, gallery, model, crossCamera);
      RowsForWithout(a, 0, split, gallery, model, crossCamera);
      RowsForWithout(b, j, split, gallery, model, crossCamera);
    }
  }

  /** A permuted manifest is as valid as the original, every query keeps its row, and the rows as a
      whole are a permutation. */
  lemma ManifestOrderIrrelevant(a: seq<Sample>, b: seq<Sample>, split: string, model: Model, crossCamera: bool)
    requires multiset(a) == multiset(b)
    ensures WellFormed(a, model) <==> WellFormed(b, model)
    ensures WellFormed(a, model) ==>
              && (forall q :: RowOf(q, Gallery(a), model, crossCamera) == RowOf(q, Gallery(b), model, crossCamera))
              && multiset(RowsFor(a, split, Gallery(a), model, crossCamera))
                 == multiset(RowsFor(b, split, Gallery(b), model, crossCamera))
  {
    if WellFormed(a, model) {
      WellFormedPermuted(a, b, model);
      GalleryPermuted(a, b);
      RowsForPermuted(a, b, split, Gallery(a), model, crossCamera);
    }
    if WellFormed(b, model) {
      WellFormedPermuted(b, a, model);
    }
  }
}
