/** User-adjustable kernel clocks: two affine transformations that updates replace under a lock. */
module Clock {
  import opened Affine
  import opened Basics

  datatype Status = Accepted | InvalidArgs | BadState

  /** The options and arguments of an update, in either version of the structure. */
  datatype Args = Args(
    version2: bool,
    doSet: bool, value: Int64,
    doRate: bool, rateAdjust: int,
    referenceValid: bool, reference: Int64)

  /** What the system call layer has checked before. */
  predicate ValidArgs(a: Args) {
    a.doRate ==> -1000 <= a.rateAdjust <= 1000
  }

  class Dispatcher {
    const monotonic: bool
    const continuous: bool
    const backstop: Int64
    const ticksToMono: Ratio

    var ticksToSynthetic: Transform
    var monoToSynthetic: Transform
    var ppm: int
    var generation: nat

    /** The latest tick at which anything happened, and the value read last. */
    ghost var lastTick: Int64
    ghost var lastRead: Option<Int64>

    predicate Shape()
      reads this
    {
      && ValidRatio(ticksToMono) && ticksToMono.numerator > 0
      && ValidRatio(ticksToSynthetic.ratio) && ValidRatio(monoToSynthetic.ratio)
      && (continuous ==> monotonic)
    }

    /** From now on no read can fall below the backstop, nor a monotonic one below what was read. */
    ghost predicate Inv()
      reads this
    {
      && Shape()
      && Apply(ticksToSynthetic, lastTick) >= backstop
      && (monotonic && lastRead.Some? ==> Apply(ticksToSynthetic, lastTick) >= lastRead.value)
    }

    predicate Started()
      reads this
    {
      monoToSynthetic.ratio.numerator != 0
    }

    /** Create's checks and the constructor; a clock that starts by itself is a copy of monotonic time. */
    constructor (monotonic: bool, continuous: bool, autoStart: bool, backstop: Int64, ticksToMono: Ratio, now: Int64)
      requires ValidRatio(ticksToMono) && ticksToMono.numerator > 0
      requires continuous ==> monotonic
      requires backstop >= 0 && (autoStart ==> backstop <= Scale(now, ticksToMono))
      ensures Inv() && lastTick == now && lastRead == None && Started() == autoStart
      ensures this.monotonic == monotonic && this.continuous == continuous && this.backstop == backstop
      ensures this.ticksToMono == ticksToMono && ppm == 0 && generation == 0
      ensures autoStart ==> forall x: Int64 :: Apply(ticksToSynthetic, x) == Scale(x, ticksToMono)
      ensures autoStart ==> forall x: Int64 :: Apply(monoToSynthetic, x) == x
      ensures !autoStart ==> forall x: Int64 :: Apply(ticksToSynthetic, x) == Apply(monoToSynthetic, x) == backstop
    {
      this.monotonic, this.continuous, this.backstop, this.ticksToMono := monotonic, continuous, backstop, ticksToMono;
      generation, ppm, lastTick, lastRead := 0, 0, now, None;
      if autoStart {
        ticksToSynthetic := Transform(0, 0, ticksToMono);
        monoToSynthetic := Transform(0, 0, Ratio(1, 1));
      } else {
        ticksToSynthetic := Transform(0, backstop, Ratio(0, 1));
        monoToSynthetic := Transform(0, backstop, Ratio(0, 1));
      }
      new;
      ScaleInRange(now, ticksToMono);
      forall x: Int64
        ensures autoStart ==> Apply(ticksToSynthetic, x) == Scale(x, ticksToMono) && Apply(monoToSynthetic, x) == x
        ensures !autoStart ==> Apply(ticksToSynthetic, x) == Apply(monoToSynthetic, x) == backstop
      {
        if autoStart {
          ApplyPlain(x, ticksToMono);
          ApplyPlain(x, Ratio(1, 1));
          ScaleByOne(x);
        } else {
          ApplyFrozen(ticksToSynthetic, x);
          ApplyFrozen(monoToSynthetic, x);
        }
      }
    }

    /** Read, for the pair of transformation and tick count that the sequence lock accepted. */
    method Read(now: Int64) returns (value: Int64)
      requires Inv() && now >= lastTick
      modifies this`lastTick, this`lastRead
      ensures Inv() && lastTick == now && lastRead == Some(value)
      ensures value == Apply(ticksToSynthetic, now) && value >= backstop
      ensures monotonic && old(lastRead).Some? ==> value >= old(lastRead).value
    {
      value := Apply(ticksToSynthetic, now);
      ApplyMonotone(ticksToSynthetic, lastTick, now);
      lastTick, lastRead := now, Some(value);
    }

    /** The argument checks that come before anything is computed. */
    predicate Refused(a: Args)
      reads this
    {
      || (!a.version2 && a.referenceValid)
      || (a.version2 && a.referenceValid && !a.doSet && !a.doRate)
      || (a.doSet && continuous && Started())
      || (a.version2 && Started() && monotonic &&
          ((a.doSet && !a.referenceValid) || ((a.doSet || a.referenceValid) && a.doRate)))
    }

    /** Update; product is the ticks-to-synthetic ratio Ratio::Product came up with for the new rate. */
    method Update(now: Int64, a: Args, product: Ratio) returns (r: Status)
      requires Inv() && now >= lastTick && ValidArgs(a) && ValidRatio(product)
      modifies this
      ensures Inv() && lastRead == old(lastRead)
      ensures r != Accepted ==> ticksToSynthetic == old(ticksToSynthetic) && monoToSynthetic == old(monoToSynthetic)
                                && generation == old(generation)
      // accepted exactly if the arguments fit the clock and its rules are kept
      ensures r == Accepted <==>
                !old(Refused(a)) && (a.doSet || old(Started())) && (old(NothingNew(a)) || old(Allowed(now, a, product)))
      ensures r == BadState <==>
              && !a.doSet && !old(Started()) && (a.version2 || !a.referenceValid)
              && !(a.version2 && a.referenceValid && !a.doRate)
      ensures r == Accepted ==> generation == old(generation) + 1
      // the new clock never runs below the backstop or, if monotonic, behind the old one
      ensures r == Accepted ==> Apply(ticksToSynthetic, now) >= backstop
      ensures r == Accepted && monotonic ==> Apply(ticksToSynthetic, now) >= Apply(old(ticksToSynthetic), now)
      // a continuous clock shows the same time before and after
      ensures r == Accepted && continuous && old(Started()) ==>
              Apply(ticksToSynthetic, now) == Apply(old(ticksToSynthetic), now)
      // a set takes effect exactly at its reference, a referenced rate change pivots there
      ensures r == Accepted && a.doSet ==> Apply(monoToSynthetic, ReferenceMono(now, a)) == a.value
      ensures r == Accepted && !a.doSet && a.referenceValid ==>
                Apply(monoToSynthetic, a.reference) == Apply(old(monoToSynthetic), a.reference)
      // both transformations show the same time at the reference, each on its own scale
      ensures r == Accepted && a.referenceValid ==>
                Apply(ticksToSynthetic, Clamp(a.reference * ticksToMono.denominator / ticksToMono.numerator)) ==
                Apply(monoToSynthetic, a.reference)
      ensures r == Accepted && a.doSet && !a.referenceValid ==> Apply(ticksToSynthetic, now) == a.value
      // a rate change sets the rate, anything else keeps it, and a clock that starts runs at the monotonic rate
      ensures r == Accepted && a.doRate && !old(NothingNew(a)) ==>
                monoToSynthetic.ratio.numerator * 1_000_000 ==
                monoToSynthetic.ratio.denominator * (1_000_000 + a.rateAdjust)
      ensures r == Accepted && !a.doRate && old(Started()) ==> monoToSynthetic.ratio == old(monoToSynthetic.ratio)
      ensures r == Accepted && !a.doRate && !old(Started()) ==>
                monoToSynthetic.ratio.numerator == monoToSynthetic.ratio.denominator
      ensures r == Accepted && !old(NothingNew(a)) ==>
                ticksToSynthetic.ratio ==
                (if a.doRate then product else if old(Started()) then old(ticksToSynthetic.ratio) else ticksToMono)
      ensures r == Accepted && old(NothingNew(a)) ==>
                ticksToSynthetic == old(ticksToSynthetic) && monoToSynthetic == old(monoToSynthetic)
      ensures r == Accepted ==> ppm == if a.doRate then a.rateAdjust else if old(Started()) then old(ppm) else 0
      ensures r != Accepted ==> ppm == old(ppm) && lastTick == old(lastTick)
    {
      hide Apply, Scale;
      if (!a.version2 && a.referenceValid) || (a.version2 && a.referenceValid && !a.doSet && !a.doRate) {
        return InvalidArgs;
      }
      if !a.doSet && !Started() {
        return BadState;
      }
      if a.doSet && continuous && Started() {
        return InvalidArgs;
      }
      if a.version2 && Started() && monotonic {
        if a.doSet && !a.referenceValid {
          return InvalidArgs;
        }
        if (a.doSet || a.referenceValid) && a.doRate {
          return InvalidArgs;
        }
      }
      var started := Started();
      ghost var was := ticksToSynthetic;
      ApplyMonotone(was, lastTick, now);
      var skip := !a.doSet && (!a.doRate || (!a.referenceValid && a.rateAdjust == ppm));
      if !skip {
        var (t2s, m2s) := Proposed(now, a, product);
        var newNow := Apply(t2s, now);
        if monotonic && newNow < Apply(ticksToSynthetic, now) {
          return InvalidArgs;
        }
        if newNow < backstop {
          return InvalidArgs;
        }
        ApplyAtOffset(t2s);
        ApplyAtOffset(m2s);
        ticksToSynthetic, monoToSynthetic := t2s, m2s;
      }
      if a.doRate || !started {
        ppm := if a.doRate then a.rateAdjust else 0;
      }
      generation := generation + 1;
      lastTick := now;
      return Accepted;
    }

    /** The monotonic time at which an update takes effect. */
    function ReferenceMono(now: Int64, a: Args): Int64
      requires ValidRatio(ticksToMono)
    {
      ScaleInRange(now, ticksToMono);
      if a.referenceValid then a.reference else Scale(now, ticksToMono)
    }

    /** The two transformations an update would install, both through its reference point. */
    function Proposed(now: Int64, a: Args, product: Ratio): (p: (Transform, Transform))
      requires Shape() && ValidArgs(a) && ValidRatio(product)
      reads this
      ensures ValidRatio(p.0.ratio) && ValidRatio(p.1.ratio)
      ensures p.0.ratio == if a.doRate then product else if Started() then ticksToSynthetic.ratio else ticksToMono
      ensures a.doRate ==> p.1.ratio.numerator * 1_000_000 == p.1.ratio.denominator * (1_000_000 + a.rateAdjust)
      ensures !a.doRate && Started() ==> p.1.ratio == monoToSynthetic.ratio
      ensures !a.doRate && !Started() ==> p.1.ratio.numerator == p.1.ratio.denominator
      ensures a.referenceValid ==>
                p.0.aOffset == Clamp(a.reference * ticksToMono.denominator / ticksToMono.numerator)
      ensures p.0.bOffset == p.1.bOffset && p.1.aOffset == ReferenceMono(now, a)
      ensures !a.referenceValid ==> p.0.aOffset == now
      ensures p.1.bOffset == if a.doSet then a.value
                             else if a.referenceValid then Apply(monoToSynthetic, a.reference)
                             else Apply(ticksToSynthetic, now)
    {
      var inverse := Ratio(ticksToMono.denominator, ticksToMono.numerator);
      var referenceMono := ReferenceMono(now, a);
      ScaleInRange(referenceMono, inverse);
      ScaleIsFloor(referenceMono, inverse);
      var referenceTicks: Int64 := if a.referenceValid then Scale(referenceMono, inverse) else now;
      var target := if a.doSet then a.value
        else if a.referenceValid then Apply(monoToSynthetic, referenceMono)
        else Apply(ticksToSynthetic, referenceTicks);
      var m2sRatio := if a.doRate then Ratio(1_000_000 + a.rateAdjust, 1_000_000)
        else if Started() then monoToSynthetic.ratio else Ratio(1, 1);
      var t2sRatio := if a.doRate then product else if Started() then ticksToSynthetic.ratio else ticksToMono;
      (Transform(referenceTicks, target, t2sRatio), Transform(referenceMono, target, m2sRatio))
    }

    /** Neither the value nor the rate would change. */
    predicate NothingNew(a: Args)
      reads this
    {
      !a.doSet && (!a.doRate || (!a.referenceValid && a.rateAdjust == ppm))
    }

    /** The proposal obeys the clock's rules at the instant of the update. */
    predicate Allowed(now: Int64, a: Args, product: Ratio)
      requires Shape() && ValidArgs(a) && ValidRatio(product)
      reads this
    {
      var value := Apply(Proposed(now, a, product).0, now);
      value >= backstop && (monotonic ==> value >= Apply(ticksToSynthetic, now))
    }
  }
}
