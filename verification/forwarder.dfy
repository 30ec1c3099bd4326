/** Adaptive batching of linksocks/forwarder.go: a reader that fills a batch
    buffer, and a timer whose expiry flushes it from another goroutine. Times
    are nanoseconds; whether a write succeeds and how fast data came since
    the last flush are chosen by the environment. */
module Forwarder {
  import opened Bytes

  const MILLISECOND := 1_000_000

  datatype Config = Config(bufferSize: int, minWait: int, maxWait: int, high: real, low: real)

  function MinDelay(cfg: Config): (d: int)
    ensures d > 0 && d == if cfg.minWait > 0 then cfg.minWait else 5_000_000
  {
    if cfg.minWait <= 0 then 5 * MILLISECOND else cfg.minWait
  }

  /** Integer division truncates, so a negative span gives no step at all. */
  function DelayStep(cfg: Config): (d: int)
    ensures d > 0
    ensures var span := cfg.maxWait - MinDelay(cfg); if span < 10 then d == 1_000_000 else 10 * d <= span < 10 * d + 10
  {
    var span := cfg.maxWait - MinDelay(cfg);
    if span < 10 then MILLISECOND else span / 10
  }

  // ------------------------------------------------------------------ a flush

  /** Bytes per second since the last flush. */
  function Speed(bytes: nat, elapsed: real): real {
    if elapsed > 0.001 && bytes > 0 then bytes as real / elapsed else 0.0
  }

  function Adjust(cfg: Config, delay: int, speed: real): int {
    if speed > cfg.high then
      if delay == 0 then MinDelay(cfg)
      else if delay + DelayStep(cfg) > cfg.maxWait then cfg.maxWait
      else delay + DelayStep(cfg)
    else if delay > 0 then
      if speed < cfg.low then 0
      else if delay / 2 < MinDelay(cfg) then MinDelay(cfg)
      else delay / 2
    else delay
  }

  /** What leaves the forwarder, in order. */
  datatype Out = Batch(data: seq<byte>) | WriteError | ReadError

  /** The reader between two of its steps: about to look at the context, inside
      a read that may block, and so on. `Deciding` holds what it saw when it
      appended: the buffer length, the delay and whether a timer was set. */
  datatype Reader = Top | Reading | Deciding(length: nat, delay: int, hadTimer: bool) | Signalling | Leaving | Done

  /** `armed`: a timer is set and not cleared by a flush. `running`: it has not
      fired yet. `firing`: fired timers whose callback has not run. `signal`:
      the token in the channel. `handling`: the handler took the token and is
      about to flush. `handler`: that goroutine still runs; it ends, between two
      flushes, once the context is cancelled. `read` is the history of bytes
      read. */
  datatype Timer = Timer(
    armed: bool, running: bool, firing: nat, signal: bool, handling: bool, handler: bool, cancelled: bool)

  datatype State = State(
    buffer: seq<byte>, delay: int, bytes: nat, timer: Timer, reader: Reader, out: seq<Out>, read: seq<byte>)

  const UNSET: Timer := Timer(false, false, 0, false, false, true, false)

  const START: State := State([], 0, 0, UNSET, Top, [], [])

  function Flush(cfg: Config, s: State, ok: bool, speed: real): State {
    var t := s.(timer := s.timer.(armed := false, running := false));
    if t.buffer != [] && !ok then t.(out := t.out + [WriteError])
    else t.(out := if t.buffer == [] then t.out else t.out + [Batch(t.buffer)], buffer := [],
            delay := Adjust(cfg, t.delay, speed), bytes := 0)
  }

  // ---------------------------------------------------------------- the steps

  datatype Event =
    | Check
    | Read(data: seq<byte>)
    | Decide(ok: bool, speed: real)
    | Fail(ok: bool, speed: real)
    | Signal
    | CancelContext
    | Leave(ok: bool, speed: real)
    | Fire
    | Callback
    | Take
    | Handle(ok: bool, speed: real)
    | HandlerExit

  function Append(s: State, data: seq<byte>): State {
    s.(bytes := s.bytes + |data|, buffer := s.buffer + data, read := s.read + data,
       reader := Deciding(|s.buffer| + |data|, s.delay, s.timer.armed))
  }

  function Arm(s: State): State { if s.timer.armed then s else s.(timer := s.timer.(armed := true, running := true)) }

  function Act(cfg: Config, s: State, ok: bool, speed: real): State
    requires s.reader.Deciding?
  {
    var t :=
      if s.reader.length >= cfg.bufferSize || s.reader.delay == 0 then Flush(cfg, s, ok, speed)
      else if !s.reader.hadTimer then Arm(s)
      else s;
    t.(reader := Top)
  }

  predicate Flushes(ev: Event) { ev.Decide? || ev.Fail? || ev.Leave? || ev.Handle? }

  function Handled(s: State): State { s.(timer := s.timer.(handling := false)) }

  /** The steps that may flush. */
  function Flushing(cfg: Config, s: State, ev: Event): State
    requires Flushes(ev)
  {
    match ev
    case Decide(ok, speed) => if s.reader.Deciding? then Act(cfg, s, ok, speed) else s
    case Fail(ok, speed) => if s.reader.Reading? then Flush(cfg, s, ok, speed).(reader := Signalling) else s
    case Leave(ok, speed) => if s.reader.Leaving? then Flush(cfg, s, ok, speed).(reader := Done) else s
    case Handle(ok, speed) => if s.timer.handling then Handled(Flush(cfg, s, ok, speed)) else s
  }

  /** All others. */
  function Quietly(s: State, ev: Event): State
    requires !Flushes(ev)
  {
    match ev
    case Check => if s.reader.Top? then s.(reader := if s.timer.cancelled then Leaving else Reading) else s
    case Read(data) =>
      if !s.reader.Reading? then s else if data == [] then s.(reader := Top) else Append(s, data)
    case Signal => if s.reader.Signalling? then s.(out := s.out + [ReadError], reader := Leaving) else s
    case CancelContext => s.(timer := s.timer.(cancelled := true))
    case Fire => if s.timer.armed && s.timer.running then s.(timer := s.timer.(running := false, firing := s.timer.firing + 1)) else s
    case Callback => if s.timer.firing > 0 then s.(timer := s.timer.(firing := s.timer.firing - 1, signal := true)) else s
    case Take => if s.timer.signal && s.timer.handler && !s.timer.handling then s.(timer := s.timer.(signal := false, handling := true)) else s
    case HandlerExit => if s.timer.cancelled && !s.timer.handling then s.(timer := s.timer.(handler := false)) else s
  }

  function Next(cfg: Config, s: State, ev: Event): State {
    if Flushes(ev) then Flushing(cfg, s, ev) else Quietly(s, ev)
  }

  function Run(cfg: Config, evs: seq<Event>): State {
    if evs == [] then START else Next(cfg, Run(cfg, evs[..|evs| - 1]), evs[|evs| - 1])
  }
}

/** What batching keeps under every interleaving. */
module ForwarderRuns {
  import opened Bytes
  import opened Forwarder

  /** The bytes of all batches written, in order. */
  function SentBytes(out: seq<Out>): seq<byte> {
    if out == [] then []
    else
      var last := out[|out| - 1];
      SentBytes(out[..|out| - 1]) + if last.Batch? then last.data else []
  }

  lemma SentMore(out: seq<Out>, x: Out)
    ensures SentBytes(out + [x]) == SentBytes(out) + if x.Batch? then x.data else []
  {
    assert (out + [x])[..|out|] == out;
  }

  lemma FlushSends(cfg: Config, s: State, ok: bool, speed: real)
    ensures var t := Flush(cfg, s, ok, speed);
            && SentBytes(t.out) + t.buffer == SentBytes(s.out) + s.buffer
            && t.read == s.read && (ok ==> t.buffer == []) && |t.buffer| <= |s.buffer|
  {
    SentMore(s.out, Batch(s.buffer));
    SentMore(s.out, WriteError);
  }

  ghost predicate Accounted(out: seq<Out>, buffer: seq<byte>, read: seq<byte>) { SentBytes(out) + buffer == read }

  ghost predicate Conserved(s: State) { Accounted(s.out, s.buffer, s.read) }

  lemma FlushConserves(cfg: Config, s: State, ok: bool, speed: real)
    requires Conserved(s)
    ensures Conserved(Flush(cfg, s, ok, speed))
  {
    FlushSends(cfg, s, ok, speed);
  }

  lemma AppendConserves(s: State, data: seq<byte>)
    requires Conserved(s)
    ensures Conserved(Append(s, data))
  {
    assert SentBytes(s.out) + (s.buffer + data) == SentBytes(s.out) + s.buffer + data;
  }

  lemma SameConserves(s: State, t: State)
    requires Conserved(s) && t.out == s.out && t.buffer == s.buffer && t.read == s.read
    ensures Conserved(t)
  {
  }

  lemma SignalConserves(s: State)
    requires Conserved(s)
    ensures Conserved(s.(out := s.out + [ReadError], reader := Leaving))
  {
    SentMore(s.out, ReadError);
  }

  lemma DecideConserves(cfg: Config, s: State, ok: bool, speed: real)
    requires Conserved(s) && s.reader.Deciding?
    ensures Conserved(Act(cfg, s, ok, speed))
  {
    var t := Flush(cfg, s, ok, speed);
    FlushConserves(cfg, s, ok, speed);
    if s.reader.length >= cfg.bufferSize || s.reader.delay == 0 {
      SameConserves(t, Act(cfg, s, ok, speed));
    } else {
      SameConserves(s, Act(cfg, s, ok, speed));
    }
  }

  lemma FlushingConserves(cfg: Config, s: State, ev: Event)
    requires Conserved(s) && Flushes(ev)
    ensures Conserved(Flushing(cfg, s, ev))
  {
    var t, u := Flush(cfg, s, ev.ok, ev.speed), Flushing(cfg, s, ev);
    if ev.Decide? {
      if s.reader.Deciding? {
        DecideConserves(cfg, s, ev.ok, ev.speed);
      }
    } else if u != s {
      FlushConserves(cfg, s, ev.ok, ev.speed);
      SameConserves(t, u);
    }
  }

  lemma QuietConserves(s: State, ev: Event)
    requires Conserved(s) && !Flushes(ev)
    ensures Conserved(Quietly(s, ev))
  {
    if ev.Read? && s.reader.Reading? && ev.data != [] {
      AppendConserves(s, ev.data);
    } else if ev.Signal? && s.reader.Signalling? {
      SignalConserves(s);
    } else {
      SameConserves(s, Quietly(s, ev));
    }
  }

  lemma NextConserves(cfg: Config, s: State, ev: Event)
    requires Conserved(s)
    ensures Conserved(Next(cfg, s, ev))
  {
    if Flushes(ev) {
      FlushingConserves(cfg, s, ev);
    } else {
      QuietConserves(s, ev);
    }
  }

  /** Under every interleaving of reads, writes that may fail, and timer
      flushes: the bytes written, then the buffer, are the bytes read. */
  lemma {:induction false} BytesConserved(cfg: Config, evs: seq<Event>)
    ensures Conserved(Run(cfg, evs))
    decreases |evs|
  {
    if evs != [] {
      BytesConserved(cfg, evs[..|evs| - 1]);
      NextConserves(cfg, Run(cfg, evs[..|evs| - 1]), evs[|evs| - 1]);
    }
  }

  // ------------------------------------------------- while writes succeed

  ghost predicate Succeeds(ev: Event) {
    match ev
    case Decide(ok, _) => ok
    case Fail(ok, _) => ok
    case Leave(ok, _) => ok
    case Handle(ok, _) => ok
    case _ => true
  }

  ghost predicate AllSucceed(evs: seq<Event>) { forall i | 0 <= i < |evs| :: Succeeds(evs[i]) }

  /** A timer is running or its expiry is on its way to the handler. */
  ghost predicate Ticking(s: State) { s.timer.running || s.timer.firing > 0 || s.timer.signal }

  /** Somebody is there to flush without another read. */
  ghost predicate Expected(s: State) { s.timer.handling || (s.timer.handler && Ticking(s)) }

  /** `limit` bounds one read. */
  ghost predicate Tidy(cfg: Config, limit: nat, s: State) {
    && (s.timer.armed ==> Ticking(s) || s.timer.handling) && (s.timer.handling ==> s.timer.handler) && (!s.timer.cancelled ==> s.timer.handler)
    && (s.reader.Top? || s.reader.Reading? ==> (s.buffer == [] || s.timer.armed) && (s.buffer == [] || |s.buffer| < cfg.bufferSize))
    && (s.reader.Deciding? ==>
          && |s.buffer| <= s.reader.length
          && (s.reader.length <= limit || s.reader.length < cfg.bufferSize + limit)
          && (s.reader.hadTimer ==> s.timer.armed || s.buffer == []))
    && (s.reader.Leaving? ==> s.buffer == [] || |s.buffer| < cfg.bufferSize)
    && (s.reader.Signalling? || s.reader.Done? ==> s.buffer == [])
  }

  ghost predicate Small(limit: nat, ev: Event) { ev.Read? ==> |ev.data| <= limit }

  /** After a flush nothing is buffered and no timer is set. */
  lemma FlushTidy(cfg: Config, limit: nat, s: State, speed: real, reader: Reader)
    requires Tidy(cfg, limit, s) && (reader.Deciding? ==> reader == s.reader)
    ensures var t := Flush(cfg, s, true, speed).(reader := reader); Tidy(cfg, limit, t) && Tidy(cfg, limit, Handled(t))
  {
  }

  lemma DecideTidy(cfg: Config, limit: nat, s: State, speed: real)
    requires Tidy(cfg, limit, s) && s.reader.Deciding?
    ensures Tidy(cfg, limit, Act(cfg, s, true, speed))
  {
    FlushTidy(cfg, limit, s, speed, Top);
  }

  lemma ReadTidy(cfg: Config, limit: nat, s: State, data: seq<byte>)
    requires Tidy(cfg, limit, s) && s.reader.Reading? && |data| <= limit
    ensures Tidy(cfg, limit, Append(s, data))
  {
  }

  lemma QuietTidy(cfg: Config, limit: nat, s: State, ev: Event)
    requires Tidy(cfg, limit, s) && !Flushes(ev) && Small(limit, ev)
    ensures Tidy(cfg, limit, Quietly(s, ev))
  {
    if ev.Read? && s.reader.Reading? {
      ReadTidy(cfg, limit, s, ev.data);
    }
  }

  lemma FlushingTidy(cfg: Config, limit: nat, s: State, ev: Event)
    requires Tidy(cfg, limit, s) && Flushes(ev) && Succeeds(ev)
    ensures Tidy(cfg, limit, Flushing(cfg, s, ev))
  {
    match ev
    case Decide(_, speed) =>
      if s.reader.Deciding? {
        DecideTidy(cfg, limit, s, speed);
      }
    case Fail(_, speed) => FlushTidy(cfg, limit, s, speed, Signalling);
    case Leave(_, speed) => FlushTidy(cfg, limit, s, speed, Done);
    case Handle(_, speed) => FlushTidy(cfg, limit, s, speed, s.reader);
  }

  lemma NextTidy(cfg: Config, limit: nat, s: State, ev: Event)
    requires Tidy(cfg, limit, s) && Succeeds(ev) && Small(limit, ev)
    ensures Tidy(cfg, limit, Next(cfg, s, ev))
  {
    if Flushes(ev) {
      FlushingTidy(cfg, limit, s, ev);
    } else {
      QuietTidy(cfg, limit, s, ev);
    }
  }

  lemma {:induction false} RunTidy(cfg: Config, limit: nat, evs: seq<Event>)
    requires AllSucceed(evs) && forall i | 0 <= i < |evs| :: Small(limit, evs[i])
    ensures Tidy(cfg, limit, Run(cfg, evs))
    decreases |evs|
  {
    if evs != [] {
      RunTidy(cfg, limit, evs[..|evs| - 1]);
      NextTidy(cfg, limit, Run(cfg, evs[..|evs| - 1]), evs[|evs| - 1]);
    }
  }

  /** The buffer stays below the buffer size plus one read. */
  lemma BufferBounded(cfg: Config, limit: nat, evs: seq<Event>)
    requires cfg.bufferSize > 0 && AllSucceed(evs) && forall i | 0 <= i < |evs| :: Small(limit, evs[i])
    ensures |Run(cfg, evs).buffer| < cfg.bufferSize + limit
  {
    RunTidy(cfg, limit, evs);
  }

  /** The longest read of a run. */
  function Longest(evs: seq<Event>): (n: nat)
    ensures forall i | 0 <= i < |evs| :: Small(n, evs[i])
  {
    if evs == [] then 0
    else
      var n, ev := Longest(evs[..|evs| - 1]), evs[|evs| - 1];
      if ev.Read? && |ev.data| > n then |ev.data| else n
  }

  /** The bytes in the buffer of a blocked reader have no flush to come exactly
      when the handler has ended, which takes a cancelled context. */
  lemma StrandedIff(cfg: Config, evs: seq<Event>)
    requires AllSucceed(evs) && Run(cfg, evs).reader.Reading? && Run(cfg, evs).buffer != []
    ensures !Expected(Run(cfg, evs)) <==> !Run(cfg, evs).timer.handler
    ensures !Run(cfg, evs).timer.handler ==> Run(cfg, evs).timer.cancelled
  {
    RunTidy(cfg, Longest(evs), evs);
  }

  lemma RunMore(cfg: Config, evs: seq<Event>, ev: Event)
    ensures Run(cfg, evs + [ev]) == Next(cfg, Run(cfg, evs), ev)
  {
    assert (evs + [ev])[..|evs|] == evs;
  }

  const EXAMPLE: Config := Config(100, 5 * MILLISECOND, 50 * MILLISECOND, 10.0, 1.0)

  /** A fast first read starts batching; the second read sets the timer; the
      context is cancelled while the reader is blocked, and the handler ends. */
  function StrandedEvents(): seq<Event> {
    [Check] + [Read([1])] + [Decide(true, 20.0)] + [Check] + [Read([2])] + [Decide(true, 0.0)] + [Check]
    + [CancelContext] + [HandlerExit]
  }

  const BATCHING: State := State([], 5 * MILLISECOND, 0, UNSET, Top, [Batch([1])], [1])

  lemma FirstBatch()
    ensures Run(EXAMPLE, [Check] + [Read([1])] + [Decide(true, 20.0)]) == BATCHING
  {
    var read := Append(START.(reader := Reading), [1]);
    assert read.buffer == [1] && read.read == [1] && [] + [Check] == [Check];
    RunMore(EXAMPLE, [], Check);
    RunMore(EXAMPLE, [Check], Read([1]));
    RunMore(EXAMPLE, [Check] + [Read([1])], Decide(true, 20.0));
    assert Act(EXAMPLE, read, true, 20.0) == BATCHING;
  }

  lemma StrandedExample()
    ensures var s := Run(EXAMPLE, StrandedEvents());
            AllSucceed(StrandedEvents()) && s.reader.Reading? && s.buffer == [2] && !Expected(s)
  {
    FirstBatch();
    StrandedTail([Check] + [Read([1])] + [Decide(true, 20.0)]);
  }

  lemma StrandedTail(e3: seq<Event>)
    requires Run(EXAMPLE, e3) == BATCHING
    ensures var s := Run(EXAMPLE, e3 + [Check] + [Read([2])] + [Decide(true, 0.0)] + [Check] + [CancelContext] + [HandlerExit]);
            s.reader.Reading? && s.buffer == [2] && !Expected(s)
  {
    var e4 := e3 + [Check];
    var e5 := e4 + [Read([2])];
    RunMore(EXAMPLE, e3, Check);
    RunMore(EXAMPLE, e4, Read([2]));
    assert [] + [2] == [2];
    RunMore(EXAMPLE, e5, Decide(true, 0.0));
    StrandedEnd(e5 + [Decide(true, 0.0)]);
  }

  lemma StrandedEnd(e6: seq<Event>)
    requires var s := Run(EXAMPLE, e6); s.reader.Top? && s.buffer == [2] && !s.timer.cancelled && !s.timer.handling
    ensures var s := Run(EXAMPLE, e6 + [Check] + [CancelContext] + [HandlerExit]);
            s.reader.Reading? && s.buffer == [2] && !Expected(s)
  {
    RunMore(EXAMPLE, e6, Check);
    RunMore(EXAMPLE, e6 + [Check], CancelContext);
    RunMore(EXAMPLE, e6 + [Check] + [CancelContext], HandlerExit);
  }

  // --------------------------------------------------- the end of the stream

  /** Once the read error is out, all bytes read went out before it and no
      batch follows it. */
  ghost predicate Ended(s: State, i: nat)
    requires i < |s.out|
  {
    SentBytes(s.out[..i]) == s.read && (forall j | i < j < |s.out| :: !s.out[j].Batch?)
    && s.buffer == [] && (s.reader.Leaving? || s.reader.Done?)
  }

  ghost predicate Orderly(s: State) {
    && (s.reader.Signalling? || s.reader.Done? ==> s.buffer == [])
    && forall i | 0 <= i < |s.out| && s.out[i].ReadError? :: Ended(s, i)
  }

  lemma FlushNothing(cfg: Config, s: State, ok: bool, speed: real)
    requires s.buffer == []
    ensures var t := Flush(cfg, s, ok, speed); t.out == s.out && t.read == s.read && t.buffer == [] && t.reader == s.reader
  {
  }

  /** A reader on its way out with nothing buffered changes nothing any more. */
  lemma LeavingNext(cfg: Config, s: State, ev: Event)
    requires (s.reader.Leaving? || s.reader.Done?) && s.buffer == []
    ensures var t := Next(cfg, s, ev);
            t.out == s.out && t.read == s.read && t.buffer == [] && (t.reader.Leaving? || t.reader.Done?)
  {
    if Flushes(ev) {
      FlushNothing(cfg, s, ev.ok, ev.speed);
    } else {
      LeavingIdle(s, ev);
    }
  }

  lemma LeavingIdle(s: State, ev: Event)
    requires (s.reader.Leaving? || s.reader.Done?) && !Flushes(ev)
    ensures var t := Quietly(s, ev); t.out == s.out && t.read == s.read && t.buffer == s.buffer && t.reader == s.reader
  {
  }

  lemma NextEnded(cfg: Config, s: State, ev: Event, i: nat)
    requires i < |s.out| && Ended(s, i)
    ensures Next(cfg, s, ev).out == s.out && Ended(Next(cfg, s, ev), i)
  {
    LeavingNext(cfg, s, ev);
  }

  lemma SignalEnds(s: State)
    requires Conserved(s) && s.buffer == []
    ensures Ended(s.(out := s.out + [ReadError], reader := Leaving), |s.out|)
  {
    assert (s.out + [ReadError])[..|s.out|] == s.out;
  }

  ghost predicate Wrote(s: State, t: State) {
    t.out == s.out || t.out == s.out + [Batch(s.buffer)] || t.out == s.out + [WriteError]
  }

  lemma FlushWrote(cfg: Config, s: State, ok: bool, speed: real)
    ensures Wrote(s, Flush(cfg, s, ok, speed))
  {
  }

  lemma ActWrote(cfg: Config, s: State, ok: bool, speed: real)
    requires s.reader.Deciding?
    ensures Wrote(s, Act(cfg, s, ok, speed))
  {
    FlushWrote(cfg, s, ok, speed);
  }

  lemma QuietWrote(s: State, ev: Event)
    requires !Flushes(ev) && (!ev.Signal? || !s.reader.Signalling?)
    ensures Quietly(s, ev).out == s.out
  {
  }

  /** Only the reader's signal puts the read error out. */
  lemma NextWrote(cfg: Config, s: State, ev: Event)
    requires !ev.Signal? || !s.reader.Signalling?
    ensures Wrote(s, Next(cfg, s, ev))
  {
    if !Flushes(ev) {
      QuietWrote(s, ev);
    } else if !ev.Decide? {
      FlushWrote(cfg, s, ev.ok, ev.speed);
    } else if s.reader.Deciding? {
      ActWrote(cfg, s, ev.ok, ev.speed);
    }
  }

  lemma FlushEmpties(cfg: Config, s: State, speed: real)
    ensures Flush(cfg, s, true, speed).buffer == [] && Flush(cfg, s, true, speed).reader == s.reader
  {
  }

  lemma NextEmpties(cfg: Config, s: State, ev: Event)
    requires (s.reader.Signalling? || s.reader.Done? ==> s.buffer == []) && Succeeds(ev)
    ensures Next(cfg, s, ev).reader.Signalling? || Next(cfg, s, ev).reader.Done? ==> Next(cfg, s, ev).buffer == []
  {
    if Flushes(ev) {
      FlushEmpties(cfg, s, ev.speed);
    } else {
      QuietEmpties(s, ev);
    }
  }

  lemma QuietEmpties(s: State, ev: Event)
    requires !Flushes(ev) && (s.reader.Signalling? || s.reader.Done? ==> s.buffer == [])
    ensures Quietly(s, ev).reader.Signalling? || Quietly(s, ev).reader.Done? ==> Quietly(s, ev).buffer == []
  {
  }

  lemma NextOrderly(cfg: Config, s: State, ev: Event)
    requires Orderly(s) && Conserved(s) && Succeeds(ev)
    ensures Orderly(Next(cfg, s, ev))
  {
    var t := Next(cfg, s, ev);
    NextEmpties(cfg, s, ev);
    if ev.Signal? && s.reader.Signalling? {
      assert forall i | 0 <= i < |s.out| :: !s.out[i].ReadError?;
      SignalEnds(s);
    } else {
      NextWrote(cfg, s, ev);
      forall i | 0 <= i < |t.out| && t.out[i].ReadError?
        ensures Ended(t, i)
      {
        NextEnded(cfg, s, ev, i);
      }
    }
  }

  lemma {:induction false} RunOrderly(cfg: Config, evs: seq<Event>)
    requires AllSucceed(evs)
    ensures Orderly(Run(cfg, evs))
    decreases |evs|
  {
    if evs != [] {
      RunOrderly(cfg, evs[..|evs| - 1]);
      BytesConserved(cfg, evs[..|evs| - 1]);
      NextOrderly(cfg, Run(cfg, evs[..|evs| - 1]), evs[|evs| - 1]);
    }
  }

  /** Everything read is written before the read error is signalled, and
      nothing is written after it. */
  lemma FlushedBeforeError(cfg: Config, evs: seq<Event>, i: nat)
    requires AllSucceed(evs) && i < |Run(cfg, evs).out| && Run(cfg, evs).out[i].ReadError?
    ensures SentBytes(Run(cfg, evs).out[..i]) == Run(cfg, evs).read
    ensures forall j | i < j < |Run(cfg, evs).out| :: !Run(cfg, evs).out[j].Batch?
  {
    RunOrderly(cfg, evs);
    assert Ended(Run(cfg, evs), i);
  }

  // ------------------------------------------------------------- the delay

  ghost predicate InRange(cfg: Config, delay: int) { delay == 0 || MinDelay(cfg) <= delay <= cfg.maxWait }

  lemma AdjustInRange(cfg: Config, delay: int, speed: real)
    requires MinDelay(cfg) <= cfg.maxWait && InRange(cfg, delay)
    ensures InRange(cfg, Adjust(cfg, delay, speed))
  {
  }

  lemma FlushInRange(cfg: Config, s: State, ok: bool, speed: real)
    requires MinDelay(cfg) <= cfg.maxWait && InRange(cfg, s.delay)
    ensures InRange(cfg, Flush(cfg, s, ok, speed).delay)
  {
    AdjustInRange(cfg, s.delay, speed);
  }

  lemma NextInRange(cfg: Config, s: State, ev: Event)
    requires MinDelay(cfg) <= cfg.maxWait && InRange(cfg, s.delay)
    ensures InRange(cfg, Next(cfg, s, ev).delay)
  {
    if ev.Decide? || ev.Fail? || ev.Leave? || ev.Handle? {
      FlushInRange(cfg, s, ev.ok, ev.speed);
    }
  }

  lemma {:induction false} DelayInRange(cfg: Config, evs: seq<Event>)
    requires MinDelay(cfg) <= cfg.maxWait
    ensures InRange(cfg, Run(cfg, evs).delay)
    decreases |evs|
  {
    if evs != [] {
      DelayInRange(cfg, evs[..|evs| - 1]);
      NextInRange(cfg, Run(cfg, evs[..|evs| - 1]), evs[|evs| - 1]);
    }
  }

  /** Some read is fast enough for any threshold. */
  lemma FastEnough(high: real) returns (data: seq<byte>, elapsed: real)
    ensures data != [] && Speed(|data|, elapsed) > high
  {
    elapsed := 1.0;
    var n: nat := if high < 0.0 then 1 else high.Floor + 1;
    data := seq(n, _ => 0);
  }

  lemma FastFlush(cfg: Config, data: seq<byte>, speed: real)
    requires data != [] && speed > cfg.high
    ensures Run(cfg, [Check] + [Read(data)] + [Decide(true, speed)]).delay == MinDelay(cfg)
  {
    assert [] + [Check] == [Check];
    RunMore(cfg, [], Check);
    RunMore(cfg, [Check], Read(data));
    RunMore(cfg, [Check] + [Read(data)], Decide(true, speed));
  }

  /** One fast read and its flush start batching at the minimum delay. */
  lemma FirstDelay(cfg: Config) returns (data: seq<byte>, elapsed: real)
    ensures Run(cfg, [Check] + [Read(data)] + [Decide(true, Speed(|data|, elapsed))]).delay == MinDelay(cfg)
  {
    data, elapsed := FastEnough(cfg.high);
    FastFlush(cfg, data, Speed(|data|, elapsed));
  }

  /** The delay is zero or between the minimum and the maximum in every run
      exactly when the effective minimum does not exceed the maximum. */
  lemma DelayInRangeIff(cfg: Config)
    ensures (forall evs: seq<Event> :: InRange(cfg, Run(cfg, evs).delay)) <==> MinDelay(cfg) <= cfg.maxWait
  {
    if MinDelay(cfg) <= cfg.maxWait {
      forall evs: seq<Event>
        ensures InRange(cfg, Run(cfg, evs).delay)
      {
        DelayInRange(cfg, evs);
      }
    } else {
      var data, elapsed := FirstDelay(cfg);
      assert !InRange(cfg, Run(cfg, [Check] + [Read(data)] + [Decide(true, Speed(|data|, elapsed))]).delay);
    }
  }
}

/** The batching goroutines' shared state, updated in place. */
module ForwarderObject {
  import opened Bytes
  import opened Forwarder

  class DynamicForwarder {
    const cfg: Config
    var buffer: seq<byte>
    var delay: int
    var bytes: nat
    var armed: bool
    var running: bool
    var firing: nat
    var signal: bool
    var handling: bool
    var handler: bool
    var cancelled: bool
    var reader: Reader
    ghost var out: seq<Out>
    ghost var read: seq<byte>

    ghost function View(): State
      reads this
    {
      State(buffer, delay, bytes, Timer(armed, running, firing, signal, handling, handler, cancelled), reader, out, read)
    }

    constructor (cfg: Config)
      ensures View() == START && this.cfg == cfg
    {
      this.cfg := cfg;
      buffer, delay, bytes := [], 0, 0;
      armed, running, firing, signal, handling := false, false, 0, false, false;
      handler, cancelled, reader, out, read := true, false, Top, [], [];
    }

    method AdjustDelay(elapsed: real)
      modifies `delay, `bytes
      ensures delay == Adjust(cfg, old(delay), Speed(old(bytes), elapsed)) && bytes == 0
    {
      var speed := if elapsed > 0.001 && bytes > 0 then bytes as real / elapsed else 0.0;
      if speed > cfg.high {
        if delay == 0 {
          delay := MinDelay(cfg);
        } else {
          delay := delay + DelayStep(cfg);
          if delay > cfg.maxWait {
            delay := cfg.maxWait;
          }
        }
      } else if delay > 0 {
        if speed < cfg.low {
          delay := 0;
        } else {
          delay := delay / 2;
          if delay < MinDelay(cfg) {
            delay := MinDelay(cfg);
          }
        }
      }
      bytes := 0;
    }

    method FlushBatch(ok: bool, elapsed: real) returns (message: Option<seq<byte>>)
      modifies this
      ensures View() == Flush(cfg, old(View()), ok, Speed(old(bytes), elapsed))
      ensures message == if old(buffer) != [] && ok then Some(old(buffer)) else None
    {
      armed, running, message := false, false, None;
      if |buffer| > 0 {
        if !ok {
          out := out + [WriteError];
          return;
        }
        message := Some(buffer);
        out := out + [Batch(buffer)];
        buffer := [];
      }
      AdjustDelay(elapsed);
    }

    /** What the reader does with one successful read. */
    method AppendRead(data: seq<byte>)
      requires reader.Reading? && data != []
      modifies this
      ensures View() == Append(old(View()), data)
    {
      bytes := bytes + |data|;
      buffer := buffer + data;
      read := read + data;
      reader := Deciding(|buffer|, delay, armed);
    }

    /** ... and what it decides afterwards, on what it saw then. */
    method DecideFlush(ok: bool, elapsed: real) returns (message: Option<seq<byte>>)
      requires reader.Deciding?
      modifies this
      ensures View() == Act(cfg, old(View()), ok, Speed(old(bytes), elapsed))
    {
      message := None;
      if reader.length >= cfg.bufferSize {
        message := FlushBatch(ok, elapsed);
      } else if reader.delay == 0 {
        message := FlushBatch(ok, elapsed);
      } else if !reader.hadTimer {
        if !armed {
          armed, running := true, true;
        }
      }
      reader := Top;
    }

    /** One turn of the handler goroutine on a cancelled or a signalled select. */
    method HandlerTurn(exits: bool, ok: bool, elapsed: real) returns (message: Option<seq<byte>>)
      requires handler && !handling && (if exits then cancelled else signal)
      modifies this
      ensures View() == if exits then Next(cfg, old(View()), HandlerExit)
                        else Next(cfg, Next(cfg, old(View()), Take), Handle(ok, Speed(old(bytes), elapsed)))
    {
      message := None;
      if exits {
        handler := false;
        return;
      }
      signal, handling := false, true;
      message := FlushBatch(ok, elapsed);
      handling := false;
    }
  }
}
