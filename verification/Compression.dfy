/**
  Size targets and bitrates of the driver video (`src/safetyEventVideoMusicService.js`),
  over the reals.
*/
module Compression {
  import opened Wrappers

  const MIB := 1024 * 1024
  const TELEGRAM_HARD_LIMIT_BYTES := 50 * MIB

  /** `SAFETY_MUSIC_TELEGRAM_MAX_MB`, when it is a number, is capped below the hard limit. */
  function ResolveTelegramTargetBytes(mb: Option<real>): (bytes: int)
    ensures 0 <= bytes < TELEGRAM_HARD_LIMIT_BYTES
    ensures mb.None? || mb.value <= 0.0 ==> bytes == 49 * MIB
    ensures mb.Some? && mb.value > 49.5 ==> bytes == 99 * MIB / 2
    ensures mb.Some? && 0.0 < mb.value <= 49.5 ==> bytes as real <= mb.value * MIB as real < (bytes + 1) as real
  {
    var safeMb := if mb.Some? && mb.value > 0.0 then (if mb.value < 49.5 then mb.value else 49.5) else 49.0;
    (safeMb * MIB as real).Floor
  }

  datatype Pass = First | Second

  datatype CompressionPlan = CompressionPlan(videoKbps: int, audioKbps: int, maxHeight: int)

  function Duration(seconds: Option<real>): real {
    var s := if seconds.None? || seconds.value == 0.0 then 60.0 else seconds.value;
    if s < 1.0 then 1.0 else s
  }

  /** A target of nothing counts as the hard limit. */
  function Target(bytes: nat): nat {
    if bytes == 0 then TELEGRAM_HARD_LIMIT_BYTES else bytes
  }

  function AudioKbps(pass: Pass): int {
    if pass.First? then 128 else 96
  }

  function Margin(pass: Pass): real {
    if pass.First? then 0.92 else 0.8
  }

  function TotalKbps(seconds: Option<real>, target: nat, pass: Pass): real {
    (Target(target) as real * 8.0 * Margin(pass)) / 1000.0 / Duration(seconds)
  }

  const FLOOR_KBPS := 250

  function ComputeCompressionPlan(seconds: Option<real>, target: nat, pass: Pass): CompressionPlan {
    var video := (TotalKbps(seconds, target, pass) - AudioKbps(pass) as real).Floor;
    CompressionPlan(if video < FLOOR_KBPS then FLOOR_KBPS else video, AudioKbps(pass), if pass.First? then 720 else 480)
  }

  /** The bytes a clip of this length takes at the plan's bitrates. */
  function PlannedBytes(plan: CompressionPlan, seconds: Option<real>): real {
    (plan.videoKbps + plan.audioKbps) as real * 1000.0 * Duration(seconds) / 8.0
  }

  lemma ScaleBack(total: real, target: real, margin: real, seconds: real)
    requires seconds >= 1.0 && total == (target * 8.0 * margin) / 1000.0 / seconds
    ensures total * 1000.0 * seconds / 8.0 == margin * target
  {
    assert total * seconds == (target * 8.0 * margin) / 1000.0;
  }

  lemma ScaleMonotone(a: real, b: real, seconds: real)
    requires seconds >= 1.0
    ensures a <= b <==> a * 1000.0 * seconds / 8.0 <= b * 1000.0 * seconds / 8.0
  {
    if a < b {
      assert (b - a) * seconds > 0.0;
    } else if b < a {
      assert (a - b) * seconds > 0.0;
    }
  }

  lemma RateFits(rate: real, total: real, target: real, margin: real, seconds: real)
    requires seconds >= 1.0 && total == (target * 8.0 * margin) / 1000.0 / seconds
    ensures rate * 1000.0 * seconds / 8.0 <= margin * target <==> rate <= total
  {
    ScaleBack(total, target, margin, seconds);
    ScaleMonotone(rate, total, seconds);
  }

  /** A plan fits exactly when its rates fit in the total rate. */
  lemma FitsByRate(plan: CompressionPlan, seconds: Option<real>, target: nat, pass: Pass)
    ensures PlannedBytes(plan, seconds) <= Margin(pass) * Target(target) as real
            <==> (plan.videoKbps + plan.audioKbps) as real <= TotalKbps(seconds, target, pass)
  {
    RateFits((plan.videoKbps + plan.audioKbps) as real, TotalKbps(seconds, target, pass), Target(target) as real,
             Margin(pass), Duration(seconds));
  }

  /**
    The planned clip fits the margin of its target exactly when the target leaves
    room for 250 kbps of video; and then one more kbps would not fit.
  */
  lemma PlanFitsTheMargin(seconds: Option<real>, target: nat, pass: Pass)
    ensures var plan := ComputeCompressionPlan(seconds, target, pass);
            var room := Margin(pass) * Target(target) as real;
            var wide := TotalKbps(seconds, target, pass) >= (FLOOR_KBPS + AudioKbps(pass)) as real;
      && (PlannedBytes(plan, seconds) <= room <==> wide)
      && (wide ==> PlannedBytes(plan.(videoKbps := plan.videoKbps + 1), seconds) > room)
  {
    var plan := ComputeCompressionPlan(seconds, target, pass);
    FitsByRate(plan, seconds, target, pass);
    FitsByRate(plan.(videoKbps := plan.videoKbps + 1), seconds, target, pass);
  }

  /** The rates in terms of what the target gives per second. */
  lemma TotalOf(seconds: Option<real>, target: nat, pass: Pass)
    ensures TotalKbps(seconds, target, pass)
            == Margin(pass) * (Target(target) as real * 8.0 / 1000.0 / Duration(seconds))
  {
    var t, d, m := Target(target) as real, Duration(seconds), Margin(pass);
    assert (t * 8.0 * m) / 1000.0 == m * (t * 8.0 / 1000.0);
    DivideProduct(m, t * 8.0 / 1000.0, d);
  }

  lemma DivideProduct(m: real, x: real, d: real)
    requires d >= 1.0
    ensures (m * x) / d == m * (x / d)
  {
    assert (m * (x / d)) * d == m * ((x / d) * d) == m * x;
  }

  lemma DivideLess(x: real, y: real, d: real, e: real)
    requires 0.0 <= x <= y && 1.0 <= e <= d
    ensures x / d <= y / e
  {
    var p, q := x / d, y / e;
    assert p * d == x && q * e == y;
    assert p >= 0.0;
    assert p * e <= p * d;
    assert (q - p) * e >= 0.0;
  }

  /** With `x` kbps to spend before the margin, the second pass leaves no more for the video than the first. */
  lemma LessForTheVideo(x: real)
    requires x >= 0.0
    ensures var one, two := (0.92 * x - 128.0).Floor, (0.8 * x - 96.0).Floor;
            two < FLOOR_KBPS || two <= one
  {
    if x < 400.0 {
      assert 0.8 * x - 96.0 < 250.0;
    } else {
      assert 0.8 * x - 96.0 <= 0.92 * x - 128.0;
    }
  }

  lemma SecondVideoIsSmaller(seconds: Option<real>, target: nat)
    ensures ComputeCompressionPlan(seconds, target, Second).videoKbps
            <= ComputeCompressionPlan(seconds, target, First).videoKbps
  {
    hide TotalKbps;
    TotalOf(seconds, target, First);
    TotalOf(seconds, target, Second);
    LessForTheVideo(Target(target) as real * 8.0 / 1000.0 / Duration(seconds));
  }

  lemma FewerBytes(one: int, two: int, seconds: real)
    requires two < one && seconds >= 1.0
    ensures two as real * 1000.0 * seconds / 8.0 < one as real * 1000.0 * seconds / 8.0
  {
    ScaleMonotone(one as real, two as real, seconds);
  }

  /** The second pass never asks for more than the first, of video or in all. */
  lemma SecondPassIsSmaller(seconds: Option<real>, target: nat)
    ensures var one := ComputeCompressionPlan(seconds, target, First);
            var two := ComputeCompressionPlan(seconds, target, Second);
      && two.videoKbps <= one.videoKbps
      && PlannedBytes(two, seconds) < PlannedBytes(one, seconds)
  {
    hide TotalKbps;
    SecondVideoIsSmaller(seconds, target);
    var one := ComputeCompressionPlan(seconds, target, First);
    var two := ComputeCompressionPlan(seconds, target, Second);
    FewerBytes(one.videoKbps + one.audioKbps, two.videoKbps + two.audioKbps, Duration(seconds));
  }

  /** A longer clip gets no higher a rate, a larger target no lower a one. */
  lemma RateIsMonotone(longer: Option<real>, shorter: Option<real>, smaller: nat, larger: nat, pass: Pass)
    requires Duration(shorter) <= Duration(longer) && Target(smaller) <= Target(larger)
    ensures ComputeCompressionPlan(longer, smaller, pass).videoKbps
            <= ComputeCompressionPlan(shorter, larger, pass).videoKbps
  {
    TotalOf(longer, smaller, pass);
    TotalOf(shorter, larger, pass);
    DivideLess(Target(smaller) as real * 8.0 / 1000.0, Target(larger) as real * 8.0 / 1000.0,
               Duration(longer), Duration(shorter));
  }

  /** What is not known counts as a minute, and a target of nothing as 50 MiB; no clip is shorter than a second. */
  lemma UnknownsStandFor(target: nat, pass: Pass)
    ensures ComputeCompressionPlan(None, target, pass) == ComputeCompressionPlan(Some(60.0), target, pass)
    ensures ComputeCompressionPlan(Some(0.0), target, pass) == ComputeCompressionPlan(Some(60.0), target, pass)
    ensures ComputeCompressionPlan(Some(0.5), target, pass) == ComputeCompressionPlan(Some(1.0), target, pass)
    ensures ComputeCompressionPlan(None, 0, pass) == ComputeCompressionPlan(None, 52428800, pass)
  {}

  /**
    In numbers: the first pass fills 92% of its target, with 128 kbps of sound and 720
    lines, the second 80%, with 96 kbps and 480 lines, each to within one kbps of video -
    if that leaves 250 kbps for the video.
  */
  lemma PassesInNumbers(seconds: real, target: nat)
    requires seconds >= 1.0 && target > 0
    ensures var one := ComputeCompressionPlan(Some(seconds), target, First);
            var two := ComputeCompressionPlan(Some(seconds), target, Second);
            var bytes := (plan: CompressionPlan) => (plan.videoKbps + plan.audioKbps) as real * 125.0 * seconds;
      && one.audioKbps == 128 && one.maxHeight == 720 && two.audioKbps == 96 && two.maxHeight == 480
      && one.videoKbps >= 250 && two.videoKbps >= 250
      && (one.videoKbps > 250 ==> 0.92 * target as real - 125.0 * seconds < bytes(one) <= 0.92 * target as real)
      && (two.videoKbps > 250 ==> 0.8 * target as real - 125.0 * seconds < bytes(two) <= 0.8 * target as real)
  {
    PassInNumbers(seconds, target, First);
    PassInNumbers(seconds, target, Second);
  }

  lemma PassInNumbers(seconds: real, target: nat, pass: Pass)
    requires seconds >= 1.0 && target > 0
    ensures var plan := ComputeCompressionPlan(Some(seconds), target, pass);
            var bytes := (plan.videoKbps + plan.audioKbps) as real * 125.0 * seconds;
            var room := Margin(pass) * target as real;
            plan.videoKbps > 250 ==> room - 125.0 * seconds < bytes <= room
  {
    var plan := ComputeCompressionPlan(Some(seconds), target, pass);
    var more := plan.(videoKbps := plan.videoKbps + 1);
    PlanFitsTheMargin(Some(seconds), target, pass);
    BytesByRate(plan, seconds);
    BytesByRate(more, seconds);
  }

  lemma BytesByRate(plan: CompressionPlan, seconds: real)
    requires seconds >= 1.0
    ensures PlannedBytes(plan, Some(seconds)) == (plan.videoKbps + plan.audioKbps) as real * 125.0 * seconds
  {}
}
