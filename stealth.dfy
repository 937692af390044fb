/** Bounded-random arithmetic of stealth/stealth.go: the delay range, the
    spoofed fingerprint, and the clamped scrolling loop. Every random draw
    is a parameter whose range is the one `math/rand` guarantees. */
module Stealth {
  import opened Wrappers

  // ---------------------------------------------------------------------
  // RandomDelay
  // ---------------------------------------------------------------------

  /** `RandomDelay`'s delay, in nanoseconds: `min` plus a draw `r` of
      `Int63n(max-min+1)`, which lies in `[0, max-min]`. `Int63n` panics on
      a bound that is not positive, so the caller must pass `max >= min`. */
  function RandomDelay(min: int, max: int, r: int): (d: int)
    requires min <= max
    requires 0 <= r <= max - min
    ensures min <= d <= max
  {
    min + r
  }

  /** Every delay in `[min, max]` is drawn by some `r`. */
  lemma RandomDelayCoversRange(min: int, max: int, d: int)
    requires min <= d <= max
    ensures exists r :: 0 <= r <= max - min && RandomDelay(min, max, r) == d
  {
    var r := d - min;
    assert RandomDelay(min, max, r) == d;
  }

  // ---------------------------------------------------------------------
  // ApplyPageStealth
  // ---------------------------------------------------------------------

  /** The user agents `getRandomUserAgent` picks from. */
  const UserAgents: seq<string> := [
    "Mozilla/5.0 (Windows NT 10.0; Win64; x64) AppleWebKit/537.36 (KHTML, like Gecko) Chrome/120.0.0.0 Safari/537.36",
    "Mozilla/5.0 (Macintosh; Intel Mac OS X 10_15_7) AppleWebKit/537.36 (KHTML, like Gecko) Chrome/120.0.0.0 Safari/537.36",
    "Mozilla/5.0 (Windows NT 10.0; Win64; x64) AppleWebKit/537.36 (KHTML, like Gecko) Edge/120.0.0.0 Safari/537.36",
    "Mozilla/5.0 (Macintosh; Intel Mac OS X 10_15_7) AppleWebKit/605.1.15 (KHTML, like Gecko) Version/16.1 Safari/605.1.15",
    "Mozilla/5.0 (X11; Linux x86_64) AppleWebKit/537.36 (KHTML, like Gecko) Chrome/120.0.0.0 Safari/537.36"
  ]

  /** The platforms `getPlatform` picks from. */
  const Platforms: seq<string> := ["Win32", "MacIntel", "Linux x86_64"]

  const MinWidth: int := 1024
  const WidthSpread: nat := 200
  const MinHeight: int := 768
  const HeightSpread: nat := 150

  /** The draws of one `ApplyPageStealth`: the `rand.Intn` results for the
      user-agent index, the width, the height and the platform index. */
  datatype StealthDraws = StealthDraws(userAgentIndex: int, widthDraw: int, heightDraw: int, platformIndex: int)

  /** Each draw lies in `[0, n)` for the `n` its `Intn` call is given. */
  predicate DrawsInRange(d: StealthDraws) {
    && 0 <= d.userAgentIndex < |UserAgents|
    && 0 <= d.widthDraw < WidthSpread
    && 0 <= d.heightDraw < HeightSpread
    && 0 <= d.platformIndex < |Platforms|
  }

  /** The values the injected script makes the page report. */
  datatype Fingerprint = Fingerprint(userAgent: string, platform: string, width: int, height: int)

  /** A fingerprint the stealth code can produce. */
  predicate Plausible(fp: Fingerprint) {
    && fp.userAgent in UserAgents
    && fp.platform in Platforms
    && 1024 <= fp.width <= 1223
    && 768 <= fp.height <= 917
  }

  datatype StealthError = InjectFailed

  /** `ApplyPageStealth`: the fingerprint it injects, or an error when
      `page.Eval` of the script fails (`evalOk` false). */
  function ApplyPageStealth(d: StealthDraws, evalOk: bool): (r: Result<Fingerprint, StealthError>)
    requires DrawsInRange(d)
    ensures r.Success? <==> evalOk
    ensures r.Failure? ==> r.error == InjectFailed
    ensures r.Success? ==> Plausible(r.value)
  {
    if !evalOk then Failure(InjectFailed)
    else Success(Fingerprint(UserAgents[d.userAgentIndex], Platforms[d.platformIndex],
                             MinWidth + d.widthDraw, MinHeight + d.heightDraw))
  }

  /** Every plausible fingerprint is injected for some draws: the ranges in
      the contract of `ApplyPageStealth` are exact. */
  lemma EveryPlausibleFingerprintReachable(fp: Fingerprint)
    requires Plausible(fp)
    ensures exists d :: DrawsInRange(d) && ApplyPageStealth(d, true) == Success(fp)
  {
    var u :| 0 <= u < |UserAgents| && UserAgents[u] == fp.userAgent;
    var p :| 0 <= p < |Platforms| && Platforms[p] == fp.platform;
    var d := StealthDraws(u, fp.width - MinWidth, fp.height - MinHeight, p);
    assert DrawsInRange(d);
    assert ApplyPageStealth(d, true) == Success(fp);
  }

  // ---------------------------------------------------------------------
  // SimulateHumanScroll
  // ---------------------------------------------------------------------

  /** Pixels per scroll step before the speed factor. */
  const ScrollStep: int := 50

  /** The draws of one loop iteration: the speed factor
      `1.0 + rand.Float64()*0.5`, and whether the `scrollBy` eval succeeds. */
  datatype ScrollDraw = ScrollDraw(speedFactor: real, evalOk: bool)

  /** `1.0 + rand.Float64()*0.5` in float64 lies in `[1.0, 1.5]`: the
      product can round up to exactly 1.5. */
  predicate FactorInRange(d: ScrollDraw) {
    1.0 <= d.speedFactor <= 1.5
  }

  /** One step: `int(50 * speedFactor)`, cut down to what is left when it
      would overshoot `distance`. */
  function Step(speedFactor: real, current: int, distance: int): (s: int)
    requires 1.0 <= speedFactor <= 1.5
    requires current < distance
    ensures 0 < s <= distance - current
    ensures s <= 75
    ensures s >= ScrollStep || current + s == distance
  {
    var product := ScrollStep as real * speedFactor;
    assert 50.0 <= product <= 75.0;
    var step := product.Floor;
    if current + step > distance then distance - current else step
  }

  function Sum(s: seq<int>): int {
    if s == [] then 0 else s[0] + Sum(s[1..])
  }

  lemma {:induction false} SumAppend(s: seq<int>, x: int)
    ensures Sum(s + [x]) == Sum(s) + x
  {
    if s != [] {
      assert (s + [x])[1..] == s[1..] + [x];
      SumAppend(s[1..], x);
    }
  }

  /** The steps the loop takes from `current` on when every eval succeeds;
      `k` is the number of the iteration that draws next. */
  function Plan(current: int, distance: int, draw: nat -> ScrollDraw, k: nat): seq<int>
    requires forall j :: FactorInRange(draw(j))
    decreases distance - current
  {
    if current >= distance then []
    else
      assert FactorInRange(draw(k));
      var s := Step(draw(k).speedFactor, current, distance);
      [s] + Plan(current + s, distance, draw, k + 1)
  }

  /** The plan covers the remaining distance exactly, in steps of at most
      75 pixels, all but the last of them at least 50. */
  lemma {:induction false} PlanShape(current: int, distance: int, draw: nat -> ScrollDraw, k: nat)
    requires forall j :: FactorInRange(draw(j))
    ensures var p := Plan(current, distance, draw, k);
      && (current >= distance ==> p == [])
      && (current < distance ==> Sum(p) == distance - current)
      && (forall i :: 0 <= i < |p| ==> 0 < p[i] <= 75)
      && (forall i :: 0 <= i < |p| - 1 ==> p[i] >= ScrollStep)
    decreases distance - current
  {
    if current < distance {
      assert FactorInRange(draw(k));
      var s := Step(draw(k).speedFactor, current, distance);
      var rest := Plan(current + s, distance, draw, k + 1);
      PlanShape(current + s, distance, draw, k + 1);
      assert Plan(current, distance, draw, k) == [s] + rest;
      assert forall i :: 1 <= i < |rest| + 1 ==> ([s] + rest)[i] == rest[i - 1];
    }
  }

  datatype ScrollError = ScrollFailed

  /** `SimulateHumanScroll`: `draw(k)` is what iteration `k` draws.
      `scrolled` lists the steps that `window.scrollBy` carried out. */
  method SimulateHumanScroll(distance: int, draw: nat -> ScrollDraw)
    returns (err: Option<ScrollError>, scrolled: seq<int>)
    requires forall j :: FactorInRange(draw(j))
    // The steps are those of the plan, up to the first failed eval.
    ensures scrolled <= Plan(0, distance, draw, 0)
    ensures forall k :: 0 <= k < |scrolled| ==> draw(k).evalOk
    ensures err.None? ==> scrolled == Plan(0, distance, draw, 0)
    ensures err.Some? ==>
      |scrolled| < |Plan(0, distance, draw, 0)| && !draw(|scrolled|).evalOk && err == Some(ScrollFailed)
    // Nothing is scrolled for a distance that is not positive.
    ensures distance <= 0 ==> err == None && scrolled == []
    // The whole distance is scrolled exactly, unless an eval fails first.
    ensures err.None? && distance > 0 ==> Sum(scrolled) == distance
    ensures err.Some? ==> Sum(scrolled) < distance
  {
    ghost var plan := Plan(0, distance, draw, 0);
    var currentScroll := 0;
    scrolled := [];
    while currentScroll < distance
      invariant currentScroll == Sum(scrolled)
      invariant distance > 0 ==> currentScroll <= distance
      invariant distance <= 0 ==> scrolled == [] && currentScroll == 0
      invariant scrolled + Plan(currentScroll, distance, draw, |scrolled|) == plan
      invariant forall k :: 0 <= k < |scrolled| ==> draw(k).evalOk
      decreases distance - currentScroll
    {
      assert FactorInRange(draw(|scrolled|));
      var speedFactor := draw(|scrolled|).speedFactor;
      var step := (ScrollStep as real * speedFactor).Floor;
      if currentScroll + step > distance {
        step := distance - currentScroll;
      }
      assert step == Step(speedFactor, currentScroll, distance);
      ghost var rest := Plan(currentScroll + step, distance, draw, |scrolled| + 1);
      assert Plan(currentScroll, distance, draw, |scrolled|) == [step] + rest;
      if !draw(|scrolled|).evalOk {
        return Some(ScrollFailed), scrolled;
      }
      SumAppend(scrolled, step);
      assert scrolled + [step] + rest == scrolled + ([step] + rest);
      scrolled := scrolled + [step];
      currentScroll := currentScroll + step;
    }
    assert scrolled + [] == scrolled;
    err := None;
  }
}
