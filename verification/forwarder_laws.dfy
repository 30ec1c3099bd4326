/** How the batching delay follows the speed of the traffic, and when a read
    leaves at once. */
module ForwarderLaws {
  import opened Bytes
  import opened Forwarder

  /** The delay after flushes at these speeds. */
  function After(cfg: Config, delay: int, speeds: seq<real>): int {
    if speeds == [] then delay else Adjust(cfg, After(cfg, delay, speeds[..|speeds| - 1]), speeds[|speeds| - 1])
  }

  function Min(a: int, b: int): int { if a < b then a else b }

  function Max(a: int, b: int): int { if a < b then b else a }

  ghost predicate Fast(cfg: Config, speeds: seq<real>) { forall i | 0 <= i < |speeds| :: speeds[i] > cfg.high }

  ghost predicate NotFast(cfg: Config, speeds: seq<real>) { forall i | 0 <= i < |speeds| :: speeds[i] <= cfg.high }

  ghost predicate Moderate(cfg: Config, speeds: seq<real>) {
    forall i | 0 <= i < |speeds| :: cfg.low <= speeds[i] <= cfg.high
  }

  lemma Multiple(k: nat, step: nat)
    ensures k * step >= 0 && (k + 1) * step == k * step + step
  {
  }

  lemma Distribute(a: nat, b: nat, step: nat)
    ensures (a + b) * step == a * step + b * step
  {
  }

  lemma FastAdds(cfg: Config, above: int, speed: real)
    requires MinDelay(cfg) <= cfg.maxWait && above >= 0 && speed > cfg.high
    ensures Adjust(cfg, Min(MinDelay(cfg) + above, cfg.maxWait), speed) == Min(MinDelay(cfg) + (above + DelayStep(cfg)), cfg.maxWait)
  {
  }

  /** Fast traffic starts batching at the minimum delay and then adds one step
      per flush until the maximum. */
  lemma {:induction false} FastClimbs(cfg: Config, speeds: seq<real>)
    requires MinDelay(cfg) <= cfg.maxWait && Fast(cfg, speeds) && speeds != []
    ensures After(cfg, 0, speeds) == Min(MinDelay(cfg) + (|speeds| - 1) * DelayStep(cfg), cfg.maxWait)
    decreases |speeds|
  {
    var front := speeds[..|speeds| - 1];
    if front != [] {
      FastClimbs(cfg, front);
      Multiple(|front| - 1, DelayStep(cfg));
      FastAdds(cfg, (|front| - 1) * DelayStep(cfg), speeds[|front|]);
    }
  }

  /** Twenty fast flushes reach the maximum. */
  lemma FastReachesMax(cfg: Config, speeds: seq<real>)
    requires MinDelay(cfg) <= cfg.maxWait && Fast(cfg, speeds) && |speeds| >= 20
    ensures After(cfg, 0, speeds) == cfg.maxWait
  {
    FastClimbs(cfg, speeds);
    var step, more := DelayStep(cfg), |speeds| - 20;
    assert cfg.maxWait - MinDelay(cfg) <= 19 * step;
    Distribute(19, more, step);
    Multiple(more, step);
  }

  /** Very slow traffic ends batching at once, and without fast traffic it does
      not start again. */
  lemma {:induction false} SlowEnds(cfg: Config, delay: int, slow: real, speeds: seq<real>)
    requires slow < cfg.low && slow <= cfg.high && NotFast(cfg, speeds) && delay >= 0
    ensures After(cfg, Adjust(cfg, delay, slow), speeds) == 0
    decreases |speeds|
  {
    if speeds != [] {
      SlowEnds(cfg, delay, slow, speeds[..|speeds| - 1]);
    }
  }

  /** Moderate traffic halves the delay down to the minimum and keeps it there. */
  lemma {:induction false} ModerateHalves(cfg: Config, delay: int, speeds: seq<real>)
    requires delay >= MinDelay(cfg) && Moderate(cfg, speeds)
    ensures After(cfg, delay, speeds) == Max(Shr(delay, |speeds|), MinDelay(cfg))
    decreases |speeds|
  {
    if speeds != [] {
      ModerateHalves(cfg, delay, speeds[..|speeds| - 1]);
      ShrHalf(delay, |speeds| - 1);
    }
  }

  /** A read that is followed by its decision leaves at once, with whatever was
      buffered before it, exactly when there is no delay or the buffer is full;
      otherwise a timer is set behind it. */
  lemma FlushedAtOnceIff(cfg: Config, s: State, data: seq<byte>, speed: real)
    requires s.reader.Reading? && data != []
    ensures var t := Next(cfg, Next(cfg, s, Read(data)), Decide(true, speed));
            && t.reader.Top? && (t.buffer == [] <==> s.delay == 0 || |s.buffer| + |data| >= cfg.bufferSize)
            && (t.buffer == [] ==> t.out == s.out + [Batch(s.buffer + data)] && t.delay == Adjust(cfg, s.delay, speed))
            && (t.buffer != [] ==> t.buffer == s.buffer + data && t.timer.armed && t.out == s.out && t.delay == s.delay)
  {
  }

  /** A write that fails is reported and keeps the batch and the delay. */
  lemma FailedFlushKeeps(cfg: Config, s: State, speed: real)
    requires s.buffer != []
    ensures var t := Flush(cfg, s, false, speed); t.out == s.out + [WriteError] && t.buffer == s.buffer && t.delay == s.delay
  {
  }

  /** The speed is bytes per second, and counts as zero over a millisecond or
      less and when nothing came. */
  lemma SpeedIs(bytes: nat, elapsed: real)
    ensures elapsed > 0.001 && bytes > 0 ==> Speed(bytes, elapsed) * elapsed == bytes as real
    ensures elapsed <= 0.001 || bytes == 0 ==> Speed(bytes, elapsed) == 0.0
  {
  }

  /** In every run the bytes that make up the speed are exactly those that wait
      in the batch, failed writes included. */
  lemma {:induction false} CountsBatch(cfg: Config, evs: seq<Event>)
    ensures Run(cfg, evs).bytes == |Run(cfg, evs).buffer|
    decreases |evs|
  {
    if evs != [] {
      CountsBatch(cfg, evs[..|evs| - 1]);
      var s, ev := Run(cfg, evs[..|evs| - 1]), evs[|evs| - 1];
      assert Next(cfg, s, ev).bytes == |Next(cfg, s, ev).buffer|;
    }
  }
}
