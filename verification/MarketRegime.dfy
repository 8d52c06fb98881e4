/** Composition of market regimes (market_regime.py): asset evidence in two
    horizons, any number of benchmarks as context, and the choice of a source. */
module MarketRegime {
  import opened Options

  datatype Regime = Bull | Bear | Sideways | UnknownRegime

  /** `strength` is |gradient| / epsilon, so never negative. */
  datatype Decision = Decision(regime: Regime, strength: real, isFresh: bool)
  {
    predicate Valid() {
      strength >= 0.0
    }
  }

  datatype Weights = Weights(assetShort: real, assetLong: real, benchmarkShort: real, benchmarkLong: real)
  {
    function Sum(): real {
      assetShort + assetLong + benchmarkShort + benchmarkLong
    }
  }

  function Abs(x: real): real {
    if x < 0.0 then -x else x
  }

  function Min(x: real, y: real): real {
    if x <= y then x else y
  }

  /** Non-negative and summing to one within the tolerance of the source. */
  predicate ValidWeights(w: Weights) {
    && w.assetShort >= 0.0 && w.assetLong >= 0.0 && w.benchmarkShort >= 0.0 && w.benchmarkLong >= 0.0
    && Abs(w.Sum() - 1.0) <= 0.000000001
  }

  function SignedScore(d: Decision, cap: real): (score: Option<real>)
    requires cap > 0.0 && d.Valid()
    ensures score.Some? ==> -1.0 <= score.value <= 1.0
    ensures score.None? <==> !d.isFresh || d.regime.UnknownRegime?
    ensures score.Some? && score.value > 0.0 ==> d.regime.Bull?
    ensures score.Some? && score.value < 0.0 ==> d.regime.Bear?
  {
    if !d.isFresh || d.regime.UnknownRegime? then None
    else if d.regime.Sideways? then Some(0.0)
    else
      var magnitude := Min(d.strength, cap) / cap;
      Bounded(Min(d.strength, cap), cap);
      Some(if d.regime.Bull? then magnitude else -magnitude)
  }

  lemma Bounded(x: real, cap: real)
    requires cap > 0.0 && 0.0 <= x <= cap
    ensures 0.0 <= x / cap <= 1.0
  {
  }

  /** Running sums over the components seen so far. */
  datatype Sums = Sums(weighted: real, asset: real, confidence: real, assetScores: seq<real>, benchmarkScores: seq<real>)

  /** Every running score is within the weight that produced it, and benchmarks
      never touch the asset's own score. */
  ghost predicate Consistent(t: Sums, spent: real) {
    && 0.0 <= t.confidence <= spent
    && -t.confidence <= t.weighted <= t.confidence
    && -t.confidence <= t.asset <= t.confidence
    && (t.assetScores == [] ==> t.asset == 0.0)
  }

  /** One more component with its score and what the score contributes. */
  function AddScored(t: Sums, score: real, part: real, weight: real, asset: bool): Sums {
    Sums(t.weighted + part,
         if asset then t.asset + part else t.asset,
         t.confidence + weight,
         if asset then t.assetScores + [score] else t.assetScores,
         if asset then t.benchmarkScores else t.benchmarkScores + [score])
  }

  /** A component without a score is passed over. */
  function AddScore(t: Sums, score: Option<real>, weight: real, asset: bool): Sums {
    if score.None? then t else AddScored(t, score.value, weight * score.value, weight, asset)
  }

  function Add(t: Sums, d: Decision, weight: real, cap: real, asset: bool): Sums
    requires cap > 0.0 && d.Valid()
  {
    AddScore(t, SignedScore(d, cap), weight, asset)
  }

  lemma ScaledWithin(weight: real, score: real, part: real)
    requires weight >= 0.0 && -1.0 <= score <= 1.0 && part == weight * score
    ensures -weight <= part <= weight
  {
    assert weight * (1.0 - score) >= 0.0 && weight * (1.0 + score) >= 0.0;
  }

  lemma AddScoredConsistent(t: Sums, spent: real, score: real, part: real, weight: real, asset: bool)
    requires Consistent(t, spent) && -weight <= part <= weight
    ensures Consistent(AddScored(t, score, part, weight, asset), spent + weight)
  {
  }

  lemma AddScoreConsistent(t: Sums, spent: real, score: Option<real>, weight: real, asset: bool)
    requires Consistent(t, spent) && weight >= 0.0 && (score.Some? ==> -1.0 <= score.value <= 1.0)
    ensures Consistent(AddScore(t, score, weight, asset), spent + weight)
    ensures !asset ==>
              AddScore(t, score, weight, asset).asset == t.asset && AddScore(t, score, weight, asset).assetScores == t.assetScores
  {
    if score.Some? {
      var part := weight * score.value;
      ScaledWithin(weight, score.value, part);
      AddScoredConsistent(t, spent, score.value, part, weight, asset);
    }
  }

  lemma AddConsistent(t: Sums, spent: real, d: Decision, weight: real, cap: real, asset: bool)
    requires Consistent(t, spent) && weight >= 0.0 && cap > 0.0 && d.Valid()
    ensures Consistent(Add(t, d, weight, cap, asset), spent + weight)
    ensures !asset ==> Add(t, d, weight, cap, asset).asset == t.asset && Add(t, d, weight, cap, asset).assetScores == t.assetScores
  {
    AddScoreConsistent(t, spent, SignedScore(d, cap), weight, asset);
  }

  // ------------------------------------------------------------------
  // The decision from the sums.
  // ------------------------------------------------------------------

  datatype Composite = Composite(regime: Regime, score: real, confidence: real, conviction: real, actionable: bool, conflict: bool)

  function SumOf(xs: seq<real>): real {
    if xs == [] then 0.0 else SumOf(xs[..|xs| - 1]) + xs[|xs| - 1]
  }

  function Mean(xs: seq<real>): real {
    if xs == [] then 0.0 else SumOf(xs) / (|xs| as real)
  }

  predicate AssetConflict(t: Sums) {
    |t.assetScores| > 1 && ((t.assetScores[0] < 0.0 && t.assetScores[1] > 0.0) || (t.assetScores[0] > 0.0 && t.assetScores[1] < 0.0))
  }

  predicate MarketConflict(t: Sums) {
    t.assetScores != [] && t.benchmarkScores != [] && Mean(t.assetScores) * Mean(t.benchmarkScores) < 0.0
  }

  /** Context may reinforce or veto the asset's direction. */
  function Vetoed(t: Sums): real {
    if Abs(t.asset) <= 0.000000000001 then t.asset
    else if t.weighted * t.asset < 0.0 then 0.0
    else t.weighted
  }

  function Verdict(noAsset: bool, score: real, confidence: real, conflict: bool, threshold: real): Composite {
    var plain := Min(1.0, Abs(score) * confidence);
    Composite(
      if noAsset then UnknownRegime
      else if score > threshold then Bull
      else if score < -threshold then Bear
      else Sideways,
      score, Min(1.0, confidence), if conflict then plain * 0.75 else plain, !noAsset, conflict)
  }

  predicate Conflict(t: Sums) {
    AssetConflict(t) || MarketConflict(t)
  }

  function Decide(t: Sums, threshold: real): Composite {
    Verdict(t.assetScores == [], Vetoed(t), t.confidence, Conflict(t), threshold)
  }

  lemma SameSign(x: real, y: real)
    ensures x > 0.0 && y < 0.0 ==> x * y < 0.0
    ensures x < 0.0 && y > 0.0 ==> x * y < 0.0
  {
  }

  /** A direction is the asset's own: bull only when its weighted score is strictly
      positive, bear only when it is strictly negative, also after the veto. */
  lemma DirectionIsTheAssets(t: Sums, threshold: real)
    requires threshold >= 0.0
    ensures Vetoed(t) > threshold ==> t.asset > 0.0
    ensures Vetoed(t) < -threshold ==> t.asset < 0.0
  {
    SameSign(t.weighted, t.asset);
  }

  lemma VetoedWithin(t: Sums, spent: real)
    requires Consistent(t, spent)
    ensures Abs(Vetoed(t)) <= t.confidence
  {
  }

  lemma Product(a: real, b: real, ab: real, bb: real)
    requires 0.0 <= a <= b && ab == a * b && bb == b * b
    ensures 0.0 <= ab <= bb
  {
    assert (b - a) * b >= 0.0;
  }

  /** The conviction is at most the square of the reported confidence, also where
      the latter was cut to one. */
  lemma VerdictIsBounded(noAsset: bool, score: real, confidence: real, conflict: bool, threshold: real)
    requires Abs(score) <= confidence
    ensures var r := Verdict(noAsset, score, confidence, conflict, threshold);
            r.confidence <= 1.0 && 0.0 <= r.conviction <= r.confidence * r.confidence
  {
    var ab, bb := Abs(score) * confidence, confidence * confidence;
    Product(Abs(score), confidence, ab, bb);
  }

  // ------------------------------------------------------------------
  // The loop over the benchmarks.
  // ------------------------------------------------------------------

  /** One benchmark in two horizons. */
  datatype Benchmark = Benchmark(short: Decision, long: Decision)
  {
    predicate Valid() {
      short.Valid() && long.Valid()
    }
  }

  predicate AllValid(benchmarks: seq<Benchmark>) {
    forall i :: 0 <= i < |benchmarks| ==> benchmarks[i].Valid()
  }

  const NOTHING := Sums(0.0, 0.0, 0.0, [], [])

  function AssetSums(w: Weights, cap: real, short: Decision, long: Decision): Sums
    requires cap > 0.0 && short.Valid() && long.Valid()
  {
    Add(Add(NOTHING, short, w.assetShort, cap, true), long, w.assetLong, cap, true)
  }

  function WithBenchmarks(t: Sums, w: Weights, cap: real, benchmarks: seq<Benchmark>, count: nat): Sums
    requires cap > 0.0 && count > 0 && AllValid(benchmarks)
  {
    if benchmarks == [] then t
    else
      var b := benchmarks[|benchmarks| - 1];
      var before := WithBenchmarks(t, w, cap, benchmarks[..|benchmarks| - 1], count);
      Add(Add(before, b.short, w.benchmarkShort / (count as real), cap, false), b.long, w.benchmarkLong / (count as real), cap, false)
  }

  function Share(total: real, k: nat, count: nat): real
    requires count > 0
  {
    total * (k as real) / (count as real)
  }

  lemma ShareStep(total: real, k: nat, count: nat)
    requires count > 0
    ensures Share(total, k + 1, count) == Share(total, k, count) + total / (count as real)
    ensures Share(total, 0, count) == 0.0
    ensures Share(total, count, count) == total
  {
    var c := count as real;
    assert total * ((k + 1) as real) == total * (k as real) + total;
    assert (total * (k as real) + total) / c == total * (k as real) / c + total / c;
  }

  lemma ShareSign(total: real, count: nat)
    requires count > 0 && total >= 0.0
    ensures total / (count as real) >= 0.0
  {
  }

  /** Any number of benchmarks spends at most the benchmark weights. */
  lemma {:induction false} BenchmarksConsistent(t: Sums, spent: real, w: Weights, cap: real, benchmarks: seq<Benchmark>, count: nat)
    requires Consistent(t, spent) && cap > 0.0 && count > 0 && w.benchmarkShort >= 0.0 && w.benchmarkLong >= 0.0
    requires AllValid(benchmarks)
    ensures var r := WithBenchmarks(t, w, cap, benchmarks, count);
            && Consistent(r, spent + Share(w.benchmarkShort, |benchmarks|, count) + Share(w.benchmarkLong, |benchmarks|, count))
            && r.asset == t.asset && r.assetScores == t.assetScores
  {
    ShareStep(w.benchmarkShort, 0, count);
    ShareStep(w.benchmarkLong, 0, count);
    if benchmarks != [] {
      var n := |benchmarks| - 1;
      var short, long := w.benchmarkShort / (count as real), w.benchmarkLong / (count as real);
      BenchmarksConsistent(t, spent, w, cap, benchmarks[..n], count);
      ShareStep(w.benchmarkShort, n, count);
      ShareStep(w.benchmarkLong, n, count);
      ShareSign(w.benchmarkShort, count);
      ShareSign(w.benchmarkLong, count);
      var before := WithBenchmarks(t, w, cap, benchmarks[..n], count);
      var used := spent + Share(w.benchmarkShort, n, count) + Share(w.benchmarkLong, n, count);
      AddConsistent(before, used, benchmarks[n].short, short, cap, false);
      AddConsistent(Add(before, benchmarks[n].short, short, cap, false), used + short, benchmarks[n].long, long, cap, false);
    }
  }

  function Composed(w: Weights, cap: real, threshold: real, short: Decision, long: Decision, benchmarks: seq<Benchmark>): Composite
    requires cap > 0.0 && short.Valid() && long.Valid() && AllValid(benchmarks)
  {
    Decide(WithBenchmarks(AssetSums(w, cap, short, long), w, cap, benchmarks, if |benchmarks| > 0 then |benchmarks| else 1), threshold)
  }

  predicate ValidSettings(w: Weights, cap: real, threshold: real) {
    ValidWeights(w) && cap > 0.0 && 0.0 <= threshold <= 1.0
  }

  /** Context cannot make or reverse a direction, and conviction is bounded. */
  ghost predicate SoundComposite(result: Composite, asset: real, spent: real) {
    && (result.regime.Bull? ==> asset > 0.0)
    && (result.regime.Bear? ==> asset < 0.0)
    && result.confidence <= 1.0 && 0.0 <= result.conviction <= result.confidence * result.confidence
    && (spent <= 1.0 ==> Abs(result.score) <= result.confidence)
  }

  /** `compose`; None is the error on invalid weights, cap or threshold. */
  method Compose(w: Weights, cap: real, threshold: real, short: Decision, long: Decision, benchmarks: seq<Benchmark>)
    returns (result: Option<Composite>)
    requires short.Valid() && long.Valid() && AllValid(benchmarks)
    ensures result.None? <==> !ValidSettings(w, cap, threshold)
    ensures result.Some? ==> result.value == Composed(w, cap, threshold, short, long, benchmarks)
    ensures result.Some? ==> SoundComposite(result.value, AssetSums(w, cap, short, long).asset, w.Sum())
  {
    if !ValidSettings(w, cap, threshold) {
      return None;
    }
    var sums := Add(NOTHING, short, w.assetShort, cap, true);
    sums := Add(sums, long, w.assetLong, cap, true);
    sums := AddBenchmarks(sums, w, cap, benchmarks, if |benchmarks| > 0 then |benchmarks| else 1);
    ComposedIsSound(w, cap, threshold, short, long, benchmarks);
    return Some(Decide(sums, threshold));
  }

  method AddBenchmarks(assets: Sums, w: Weights, cap: real, benchmarks: seq<Benchmark>, count: nat) returns (sums: Sums)
    requires cap > 0.0 && count > 0 && AllValid(benchmarks)
    ensures sums == WithBenchmarks(assets, w, cap, benchmarks, count)
  {
    sums := assets;
    var short, long := w.benchmarkShort / (count as real), w.benchmarkLong / (count as real);
    var k := 0;
    while k < |benchmarks|
      invariant 0 <= k <= |benchmarks|
      invariant sums == WithBenchmarks(assets, w, cap, benchmarks[..k], count)
    {
      assert benchmarks[..k + 1][..k] == benchmarks[..k];
      sums := Add(sums, benchmarks[k].short, short, cap, false);
      sums := Add(sums, benchmarks[k].long, long, cap, false);
      k := k + 1;
    }
    assert benchmarks[..k] == benchmarks;
  }

  lemma DecideIsSound(t: Sums, spent: real, threshold: real)
    requires Consistent(t, spent) && threshold >= 0.0
    ensures SoundComposite(Decide(t, threshold), t.asset, spent)
  {
    DirectionIsTheAssets(t, threshold);
    VetoedWithin(t, spent);
    VerdictIsBounded(t.assetScores == [], Vetoed(t), t.confidence, Conflict(t), threshold);
  }

  /** Context cannot make or reverse a direction, for any number of benchmarks. */
  lemma ComposedIsSound(w: Weights, cap: real, threshold: real, short: Decision, long: Decision, benchmarks: seq<Benchmark>)
    requires ValidSettings(w, cap, threshold) && short.Valid() && long.Valid() && AllValid(benchmarks)
    ensures SoundComposite(Composed(w, cap, threshold, short, long, benchmarks), AssetSums(w, cap, short, long).asset, w.Sum())
  {
    var count := if |benchmarks| > 0 then |benchmarks| else 1;
    SumsConsistent(w, cap, short, long, benchmarks, count);
    DecideIsSound(WithBenchmarks(AssetSums(w, cap, short, long), w, cap, benchmarks, count), w.Sum(), threshold);
  }

  /** All components together spend at most the sum of the weights. */
  lemma SumsConsistent(w: Weights, cap: real, short: Decision, long: Decision, benchmarks: seq<Benchmark>, count: nat)
    requires w.assetShort >= 0.0 && w.assetLong >= 0.0 && w.benchmarkShort >= 0.0 && w.benchmarkLong >= 0.0 && cap > 0.0
    requires short.Valid() && long.Valid() && AllValid(benchmarks)
    requires count == if |benchmarks| > 0 then |benchmarks| else 1
    ensures var sums := WithBenchmarks(AssetSums(w, cap, short, long), w, cap, benchmarks, count);
            && Consistent(sums, w.Sum()) && sums.asset == AssetSums(w, cap, short, long).asset
            && Abs(sums.asset) <= w.assetShort + w.assetLong
  {
    AddConsistent(NOTHING, 0.0, short, w.assetShort, cap, true);
    AddConsistent(Add(NOTHING, short, w.assetShort, cap, true), w.assetShort, long, w.assetLong, cap, true);
    BenchmarksConsistent(AssetSums(w, cap, short, long), w.assetShort + w.assetLong, w, cap, benchmarks, count);
    ShareStep(w.benchmarkShort, 0, count);
    ShareStep(w.benchmarkLong, 0, count);
    if |benchmarks| > 0 {
      assert Share(w.benchmarkShort, |benchmarks|, count) == w.benchmarkShort;
    }
  }

  // ------------------------------------------------------------------
  // Exactly which weights keep |score| within the reported confidence.
  // ------------------------------------------------------------------

  ghost predicate ScoreWithinConfidence(w: Weights, cap: real, threshold: real)
    requires cap > 0.0
  {
    forall short: Decision, long: Decision, benchmarks: seq<Benchmark> ::
      short.Valid() && long.Valid() && AllValid(benchmarks) ==>
        Abs(Composed(w, cap, threshold, short, long, benchmarks).score) <= Composed(w, cap, threshold, short, long, benchmarks).confidence
  }

  predicate NoAssetWeight(w: Weights) {
    w.assetShort + w.assetLong <= 0.000000000001
  }

  /** The accepted weights may sum to slightly more than one.  Whatever the strength
      cap and the threshold, the bound holds for every input exactly when they do
      not, or when the asset has no weight. */
  lemma BoundHoldsExactly(w: Weights, cap: real, threshold: real)
    requires ValidSettings(w, cap, threshold)
    ensures ScoreWithinConfidence(w, cap, threshold) <==> w.Sum() <= 1.0 || NoAssetWeight(w)
  {
    if w.Sum() <= 1.0 || NoAssetWeight(w) {
      forall short: Decision, long: Decision, benchmarks: seq<Benchmark>
        | short.Valid() && long.Valid() && AllValid(benchmarks)
        ensures Abs(Composed(w, cap, threshold, short, long, benchmarks).score) <= Composed(w, cap, threshold, short, long, benchmarks).confidence
      {
        BoundHolds(w, cap, threshold, short, long, benchmarks);
      }
    } else {
      AllBull(w, cap, threshold);
    }
  }

  lemma BoundHolds(w: Weights, cap: real, threshold: real, short: Decision, long: Decision, benchmarks: seq<Benchmark>)
    requires ValidSettings(w, cap, threshold) && (w.Sum() <= 1.0 || NoAssetWeight(w))
    requires short.Valid() && long.Valid() && AllValid(benchmarks)
    ensures Abs(Composed(w, cap, threshold, short, long, benchmarks).score) <= Composed(w, cap, threshold, short, long, benchmarks).confidence
  {
    var count := if |benchmarks| > 0 then |benchmarks| else 1;
    var sums := WithBenchmarks(AssetSums(w, cap, short, long), w, cap, benchmarks, count);
    SumsConsistent(w, cap, short, long, benchmarks, count);
    VetoedWithin(sums, w.Sum());
  }

  lemma AddFull(t: Sums, d: Decision, weight: real, cap: real, asset: bool)
    requires cap > 0.0 && d == Decision(Bull, cap, true)
    ensures Add(t, d, weight, cap, asset) == AddScored(t, 1.0, weight, weight, asset)
  {
    assert cap / cap == 1.0;
    assert SignedScore(d, cap) == Some(1.0);
    assert weight * 1.0 == weight;
  }

  /** The failing inputs: everything is bull at full strength. */
  lemma AllBull(w: Weights, cap: real, threshold: real)
    requires ValidSettings(w, cap, threshold) && w.Sum() > 1.0 && !NoAssetWeight(w)
    ensures !ScoreWithinConfidence(w, cap, threshold)
  {
    var full := Decision(Bull, cap, true);
    var benchmarks := [Benchmark(full, full)];
    var sums := WithBenchmarks(AssetSums(w, cap, full, full), w, cap, benchmarks, 1);
    AllBullSums(w, cap, full, benchmarks);
    FullScore(w, sums, threshold);
    assert Composed(w, cap, threshold, full, full, benchmarks) == Decide(sums, threshold);
  }

  lemma AllBullSums(w: Weights, cap: real, full: Decision, benchmarks: seq<Benchmark>)
    requires cap > 0.0 && full == Decision(Bull, cap, true) && benchmarks == [Benchmark(full, full)]
    ensures var sums := WithBenchmarks(AssetSums(w, cap, full, full), w, cap, benchmarks, 1);
            sums.weighted == w.Sum() && sums.asset == w.assetShort + w.assetLong && sums.confidence == w.Sum()
  {
    AddFull(NOTHING, full, w.assetShort, cap, true);
    AddFull(Add(NOTHING, full, w.assetShort, cap, true), full, w.assetLong, cap, true);
    var assets := AssetSums(w, cap, full, full);
    assert w.benchmarkShort / (1 as real) == w.benchmarkShort && w.benchmarkLong / (1 as real) == w.benchmarkLong;
    assert benchmarks[..0] == [] && WithBenchmarks(assets, w, cap, benchmarks[..0], 1) == assets;
    AddFull(assets, full, w.benchmarkShort, cap, false);
    AddFull(Add(assets, full, w.benchmarkShort, cap, false), full, w.benchmarkLong, cap, false);
  }

  lemma FullScore(w: Weights, t: Sums, threshold: real)
    requires ValidWeights(w) && w.Sum() > 1.0 && t.weighted == w.Sum() && t.asset == w.assetShort + w.assetLong && t.confidence == w.Sum()
    requires t.asset > 0.000000000001
    ensures Abs(Decide(t, threshold).score) > Decide(t, threshold).confidence
  {
    var product := t.weighted * t.asset;
    assert product > 0.0;
  }

  // ------------------------------------------------------------------
  // Choosing a source.
  // ------------------------------------------------------------------

  datatype Evidence = Evidence(decision: Decision, age: Option<real>, maxAge: Option<real>, continuous: Option<bool>)

  datatype Timing = FreshTiming | Stale | Future | Unbounded | UnknownTiming

  function TemporalState(e: Evidence): Timing {
    if e.age.None? then UnknownTiming
    else if e.age.value < -5.0 then Future
    else if e.maxAge.Some? && e.age.value > e.maxAge.value then Stale
    else if e.maxAge.None? then Unbounded
    else FreshTiming
  }

  predicate Usable(e: Evidence) {
    && e.decision.isFresh && e.continuous != Some(false)
    && (if e.maxAge.Some? then TemporalState(e).FreshTiming? else !TemporalState(e).Future?)
  }

  datatype Resolution = Resolution(decision: Decision, evidence: seq<Evidence>, selected: Option<nat>)

  /** What the constructor of a resolution checks. */
  predicate ValidResolution(r: Resolution) {
    && (r.selected.Some? ==>
          r.selected.value < |r.evidence| && Usable(r.evidence[r.selected.value]) &&
          r.decision == r.evidence[r.selected.value].decision)
    && (r.selected.None? ==> !r.decision.isFresh)
  }

  const UNKNOWN := Decision(UnknownRegime, 0.0, false)

  /** The sources that may be asked: without fallback only the snapshot, or only the
      first provider source when there is no snapshot. */
  function Candidates(snapshot: Option<Evidence>, sources: seq<Evidence>, fallback: bool): seq<Evidence> {
    if snapshot.Some? then [snapshot.value] + (if fallback then sources else [])
    else if fallback || sources == [] then sources
    else sources[..1]
  }

  ghost predicate FirstUsable(all: seq<Evidence>, selected: Option<nat>) {
    && (selected.Some? ==> selected.value < |all| && Usable(all[selected.value]))
    && (forall i :: 0 <= i < (if selected.Some? then selected.value else |all|) && i < |all| ==> !Usable(all[i]))
  }

  /** Without alternates nothing is examined after the selected source. */
  predicate Examined(evidence: seq<Evidence>, all: seq<Evidence>, selected: Option<nat>, alternates: bool) {
    evidence == if selected.Some? && !alternates && selected.value < |all| then all[..selected.value + 1] else all
  }

  /** The first usable candidate decides.  Without one nothing is decided, except
      that a lone snapshot that is not fresh is returned as it is. */
  ghost predicate Resolves(r: Resolution, snapshot: Option<Evidence>, sources: seq<Evidence>, fallback: bool, alternates: bool) {
    var all := Candidates(snapshot, sources, fallback);
    && FirstUsable(all, r.selected)
    && Examined(r.evidence, all, r.selected, alternates)
    && r.decision ==
         if r.selected.Some? then all[r.selected.value].decision
         else if snapshot.Some? && !fallback && !snapshot.value.decision.isFresh then snapshot.value.decision
         else UNKNOWN
  }

  /** Collecting alternates never changes what is selected or decided. */
  lemma AlternatesDoNotDecide(a: Resolution, b: Resolution, snapshot: Option<Evidence>, sources: seq<Evidence>, fallback: bool)
    requires Resolves(a, snapshot, sources, fallback, false) && Resolves(b, snapshot, sources, fallback, true)
    ensures a.selected == b.selected && a.decision == b.decision && a.evidence <= b.evidence
  {
    var all := Candidates(snapshot, sources, fallback);
    if a.selected.Some? && b.selected.Some? {
      assert !(a.selected.value < b.selected.value) && !(b.selected.value < a.selected.value);
    }
  }

  /** The loop over the configured sources, after the evidence of the snapshot. */
  method Examine(former: seq<Evidence>, chosen: Option<nat>, configured: seq<Evidence>, alternates: bool)
    returns (evidence: seq<Evidence>, selected: Option<nat>)
    requires FirstUsable(former, chosen) && (chosen.Some? ==> alternates)
    ensures FirstUsable(former + configured, selected) && Examined(evidence, former + configured, selected, alternates)
  {
    evidence, selected := former, chosen;
    var k := 0;
    while k < |configured|
      invariant 0 <= k <= |configured| && evidence == former + configured[..k]
      invariant FirstUsable(evidence, selected) && (selected.Some? ==> alternates)
    {
      evidence := evidence + [configured[k]];
      assert configured[..k + 1] == configured[..k] + [configured[k]];
      if selected.None? && Usable(configured[k]) {
        selected := Some(|evidence| - 1);
        if !alternates {
          assert former + configured == evidence + configured[k + 1..];
          return;
        }
      }
      k := k + 1;
    }
    assert configured[..k] == configured;
  }

  /** `resolve_with_evidence`: the snapshot first, then the configured sources of
      the provider in order. */
  method Resolve(snapshot: Option<Evidence>, sources: seq<Evidence>, fallback: bool, alternates: bool) returns (r: Resolution)
    ensures ValidResolution(r) && Resolves(r, snapshot, sources, fallback, alternates)
  {
    var evidence: seq<Evidence> := [];
    var selected: Option<nat> := None;
    if snapshot.Some? {
      evidence := [snapshot.value];
      if Usable(snapshot.value) {
        selected := Some(0);
        if !alternates || !fallback {
          return Resolution(snapshot.value.decision, evidence, selected);
        }
      } else if !fallback {
        return Resolution(if snapshot.value.decision.isFresh then UNKNOWN else snapshot.value.decision, evidence, None);
      }
    }
    var configured := if fallback || sources == [] then sources else sources[..1];
    assert evidence + configured == Candidates(snapshot, sources, fallback);
    evidence, selected := Examine(evidence, selected, configured, alternates);
    return Resolution(if selected.Some? then evidence[selected.value].decision else UNKNOWN, evidence, selected);
  }
}
