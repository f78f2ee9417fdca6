/**
 * The stream-quality indicator of the client's statistics panel (script.js):
 * simulated statistics and the four-tier classification drawn from them.
 */
module Quality {

  /** The four indicator tiers, best first. */
  datatype Tier = Excellent | Good | Fair | Poor

  /** The simulated statistics; bitrate is in kbit/s. */
  datatype Stats = Stats(fps: int, latency: int, bitrate: int)

  /** Bar width in percent shown for a tier: a quarter of the bar per step above the worst tier. */
  function Width(t: Tier): (w: nat)
    ensures w == 100 - 25 * Rank(t)
    ensures 25 <= w <= 100 && w % 25 == 0
  {
    match t
    case Excellent => 100
    case Good => 75
    case Fair => 50
    case Poor => 25
  }

  /** Indicator text shown for a tier. */
  function Label(t: Tier): (text: string)
    ensures |text| > 8 && text[..8] == "Kalite: "
  {
    match t
    case Excellent => "Kalite: Mükemmel"
    case Good => "Kalite: İyi"
    case Fair => "Kalite: Orta"
    case Poor => "Kalite: Düşük"
  }

  /** The bar and the text each tell the tier apart: no two tiers look alike. */
  lemma IndicatorIdentifiesTier(t1: Tier, t2: Tier)
    requires t1 != t2
    ensures Width(t1) != Width(t2)
    ensures Label(t1) != Label(t2)
  {
  }

  /** 0 for the best tier, 3 for the worst. */
  function Rank(t: Tier): (k: nat)
    ensures k < 4
  {
    match t
    case Excellent => 0
    case Good => 1
    case Fair => 2
    case Poor => 3
  }

  /**
   * Whether fps and latency clear the thresholds of tier t: frame rate above
   * 25/20/15 and latency below 100/200/300 ms; every sample clears Poor's.
   */
  predicate Meets(t: Tier, fps: int, latency: int)
  {
    match t
    case Excellent => fps > 25 && latency < 100
    case Good => fps > 20 && latency < 200
    case Fair => fps > 15 && latency < 300
    case Poor => true
  }

  /** The if/else-if chain of updateStats. */
  function Classify(fps: int, latency: int): (t: Tier)
    ensures Meets(t, fps, latency)
    ensures t == Excellent <==> fps > 25 && latency < 100
    ensures t == Good <==> !(fps > 25 && latency < 100) && fps > 20 && latency < 200
    ensures t == Fair <==> !(fps > 20 && latency < 200) && fps > 15 && latency < 300
    ensures t == Poor <==> !(fps > 15 && latency < 300)
  {
    if fps > 25 && latency < 100 then Excellent
    else if fps > 20 && latency < 200 then Good
    else if fps > 15 && latency < 300 then Fair
    else Poor
  }

  /** The chosen tier is the best one whose thresholds are met. */
  lemma ClassifyIsBestMet(fps: int, latency: int, t: Tier)
    requires Meets(t, fps, latency)
    ensures Rank(Classify(fps, latency)) <= Rank(t)
  {
  }

  /** Better statistics never give a worse tier. */
  lemma ClassifyMonotone(fps1: int, latency1: int, fps2: int, latency2: int)
    requires fps1 <= fps2 && latency2 <= latency1
    ensures Rank(Classify(fps2, latency2)) <= Rank(Classify(fps1, latency1))
  {
    ClassifyIsBestMet(fps2, latency2, Classify(fps1, latency1));
  }

  /**
   * The simulated statistics: Math.floor(Math.random() * n) + base, with the
   * floored random value passed in as a pick in [0, n).
   */
  function GenerateStats(fpsPick: nat, latencyPick: nat, bitratePick: nat): (s: Stats)
    requires fpsPick < 30 && latencyPick < 200 && bitratePick < 5000
    ensures 20 <= s.fps <= 49 && 50 <= s.latency <= 249 && 2000 <= s.bitrate <= 6999
    ensures s.fps - 20 == fpsPick && s.latency - 50 == latencyPick && s.bitrate - 2000 == bitratePick
  {
    Stats(fpsPick + 20, latencyPick + 50, bitratePick + 2000)
  }

  /** Simulated statistics never fall to the lowest tier. */
  lemma GeneratedStatsNeverPoor(fpsPick: nat, latencyPick: nat, bitratePick: nat)
    requires fpsPick < 30 && latencyPick < 200 && bitratePick < 5000
    ensures Classify(GenerateStats(fpsPick, latencyPick, bitratePick).fps,
                     GenerateStats(fpsPick, latencyPick, bitratePick).latency) != Poor
  {
    var s := GenerateStats(fpsPick, latencyPick, bitratePick);
    ClassifyMonotone(20, 299, s.fps, s.latency);
  }
}
