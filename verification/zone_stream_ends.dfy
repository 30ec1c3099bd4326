/** How every zone stream comes to its end: done once anybody tears it down or
    both sides have ended, its queue closed, and off the table. */
module ZoneStreamEnds {
  import opened Bytes
  import opened ZoneStreams

  // ----------------------------------------------------------- the frame queue

  /** About to close the queue. */
  predicate BeforeClose(at: Place) { at.Abort1? || at.Release1? || at.Remote1? }

  ghost predicate ClosingQueue(tasks: seq<Task>, key: Key) {
    exists i :: 0 <= i < |tasks| && tasks[i].stream == key && BeforeClose(tasks[i].at)
  }

  /** The queue of a stream that is done, or whose peer has closed, is closed or
      about to be; no other queue is. */
  ghost predicate QueueOk(s: Stream, key: Key, tasks: seq<Task>) {
    && (s.done || s.remoteClosed ==> s.queueClosed || ClosingQueue(tasks, key))
    && (s.queueClosed || ClosingQueue(tasks, key) ==> s.done || s.remoteClosed)
  }

  ghost predicate QueuesOk(sys: System) { forall k | k in sys.streams :: QueueOk(sys.streams[k], k, sys.tasks) }

  lemma ResumeQueue(s: Stream, t: Task, i: nat, tasks: seq<Task>)
    requires i < |tasks| && tasks[i] == t && QueueOk(s, t.stream, tasks) && (InTail(t.at) ==> s.done)
    ensures var (u, at) := Act(s, t.at, i); QueueOk(u, t.stream, tasks[i := Task(t.stream, at)])
  {
    var (u, at) := Act(s, t.at, i);
    var after := tasks[i := Task(t.stream, at)];
    if BeforeClose(at) {
      assert after[i].stream == t.stream && BeforeClose(after[i].at);
    }
    if ClosingQueue(after, t.stream) && !BeforeClose(at) {
      var j :| 0 <= j < |after| && after[j].stream == t.stream && BeforeClose(after[j].at);
      assert tasks[j] == after[j];
    }
    if ClosingQueue(tasks, t.stream) && !BeforeClose(t.at) {
      var j :| 0 <= j < |tasks| && tasks[j].stream == t.stream && BeforeClose(tasks[j].at);
      assert after[j] == tasks[j];
    }
  }

  lemma OtherQueue(key: Key, i: nat, tasks: seq<Task>, at: Place)
    requires i < |tasks| && tasks[i].stream != key
    ensures ClosingQueue(tasks[i := Task(tasks[i].stream, at)], key) <==> ClosingQueue(tasks, key)
  {
    var after := tasks[i := Task(tasks[i].stream, at)];
    if ClosingQueue(after, key) {
      var j :| 0 <= j < |after| && after[j].stream == key && BeforeClose(after[j].at);
      assert tasks[j] == after[j];
    }
    if ClosingQueue(tasks, key) {
      var j :| 0 <= j < |tasks| && tasks[j].stream == key && BeforeClose(tasks[j].at);
      assert after[j] == tasks[j];
    }
  }

  lemma SpawnQueue(key: Key, tasks: seq<Task>, t: Task)
    requires !BeforeClose(t.at)
    ensures ClosingQueue(tasks + [t], key) <==> ClosingQueue(tasks, key)
  {
    if ClosingQueue(tasks + [t], key) {
      var j :| 0 <= j < |tasks + [t]| && (tasks + [t])[j].stream == key && BeforeClose((tasks + [t])[j].at);
      assert tasks[j] == (tasks + [t])[j];
    }
    if ClosingQueue(tasks, key) {
      var j :| 0 <= j < |tasks| && tasks[j].stream == key && BeforeClose(tasks[j].at);
      assert (tasks + [t])[j] == tasks[j];
    }
  }

  lemma ResumeQueues(sys: System, i: nat)
    requires Inv(sys) && QueuesOk(sys) && i < |sys.tasks| && sys.tasks[i].stream in sys.streams
    ensures QueuesOk(Next(sys, Resume(i)))
  {
    var t := sys.tasks[i];
    assert Entitled(sys.streams, t, i);
    forall k | k in sys.streams
      ensures var after := Next(sys, Resume(i)); QueueOk(after.streams[k], k, after.tasks)
    {
      if k == t.stream {
        ResumeQueue(sys.streams[k], t, i, sys.tasks);
      } else {
        OtherQueue(k, i, sys.tasks, Act(sys.streams[t.stream], t.at, i).1);
      }
    }
  }

  lemma NextQueues(sys: System, ev: Event)
    requires Inv(sys) && QueuesOk(sys)
    ensures QueuesOk(Next(sys, ev))
  {
    match ev
    case Open(_) =>
      forall i | 0 <= i < |sys.tasks|
        ensures sys.tasks[i].stream < sys.made
      {
        assert Entitled(sys.streams, sys.tasks[i], i);
      }
    case Spawn(key, at) =>
      if key in sys.streams && Entry(at) {
        forall k | k in sys.streams { SpawnQueue(k, sys.tasks, Task(key, at)); }
      }
    case Resume(i) =>
      if i < |sys.tasks| && sys.tasks[i].stream in sys.streams {
        ResumeQueues(sys, i);
      }
  }

  lemma {:induction false} RunQueues(evs: seq<Event>)
    ensures QueuesOk(Run(evs))
    decreases |evs|
  {
    if evs != [] {
      RunQueues(evs[..|evs| - 1]);
      RunKeeps(evs[..|evs| - 1]);
      NextQueues(Run(evs[..|evs| - 1]), evs[|evs| - 1]);
    }
  }

  /** With nobody at work on a stream, its queue is closed if and only if the
      stream is done or its peer has closed: no reader waits for ever, and no
      queue is closed too early. */
  lemma QueueClosedIff(evs: seq<Event>, k: Key)
    requires k in Run(evs).streams && Quiescent(Run(evs), k)
    ensures Run(evs).streams[k].queueClosed <==> Run(evs).streams[k].done || Run(evs).streams[k].remoteClosed
  {
    RunQueues(evs);
    assert QueueOk(Run(evs).streams[k], k, Run(evs).tasks);
  }

  // ------------------------------------------------------------- torn down

  /** On its way to set `done`, if nobody else does first. */
  predicate Ending(at: Place) { at.Abort0? || at.Release0? || at.Discard0? || at.Broken0? }

  ghost predicate EndingAt(tasks: seq<Task>, k: Key, i: nat) { i < |tasks| && tasks[i].stream == k && Ending(tasks[i].at) }

  ghost predicate Doomed(sys: System, k: Key) {
    k in sys.streams && (sys.streams[k].done || exists i :: EndingAt(sys.tasks, k, i))
  }

  lemma NextDoomed(sys: System, ev: Event, k: Key)
    requires Inv(sys) && Doomed(sys, k)
    ensures Doomed(Next(sys, ev), k)
  {
    var after := Next(sys, ev);
    if !sys.streams[k].done {
      var i: nat :| EndingAt(sys.tasks, k, i);
      if !(ev.Resume? && ev.i == i) {
        assert EndingAt(after.tasks, k, i);
      } else if sys.tasks[i].at.Discard0? || sys.tasks[i].at.Broken0? {
        assert EndingAt(after.tasks, k, i);
      }
    } else if ev.Resume? && ev.i < |sys.tasks| && sys.tasks[ev.i].stream == k {
      assert Entitled(sys.streams, sys.tasks[ev.i], ev.i);
      ActSettles(sys.streams[k], sys.tasks[ev.i], ev.i, sys.tasks);
    }
  }

  lemma {:induction false} StaysDoomed(evs: seq<Event>, more: seq<Event>, k: Key)
    requires Doomed(Run(evs), k)
    ensures Doomed(Run(evs + more), k)
    decreases |more|
  {
    if more == [] {
      assert evs + more == evs;
    } else {
      var front, last := more[..|more| - 1], more[|more| - 1];
      StaysDoomed(evs, front, k);
      assert (evs + more)[..|evs + more| - 1] == evs + front;
      RunKeeps(evs + front);
      NextDoomed(Run(evs + front), last, k);
    }
  }

  /** Once anybody aborts, releases or discards a stream, or its read loop
      breaks, it ends up done with `finished` and its queue closed, whatever
      else goes on. */
  lemma TornDownIsDone(evs: seq<Event>, k: Key, at: Place, more: seq<Event>)
    requires k in Run(evs).streams && Ending(at)
    requires Quiescent(Run(evs + [Spawn(k, at)] + more), k)
    ensures var s := Run(evs + [Spawn(k, at)] + more).streams;
            k in s && s[k].done && s[k].queueClosed && |s[k].closedBy| == 1
  {
    var start, all := evs + [Spawn(k, at)], evs + [Spawn(k, at)] + more;
    assert start[..|evs|] == evs;
    assert EndingAt(Run(start).tasks, k, |Run(evs).tasks|);
    StaysDoomed(start, more, k);
    RunKeeps(all);
    QueueClosedIff(all, k);
  }

  ghost predicate At(tasks: seq<Task>, k: Key, at: Place, i: nat) { i < |tasks| && tasks[i] == Task(k, at) }

  /** The local reader has ended, or a task is about to note it; likewise for
      the peer's close. */
  ghost predicate LocalEnds(sys: System, k: Key) {
    k in sys.streams && (sys.streams[k].done || sys.streams[k].localClosed || exists i :: At(sys.tasks, k, Eof0, i))
  }

  ghost predicate RemoteEnds(sys: System, k: Key) {
    k in sys.streams && (sys.streams[k].done || sys.streams[k].remoteClosed || exists i :: At(sys.tasks, k, Remote0, i))
  }

  /** Flags are never taken back. */
  lemma ActKeepsFlags(s: Stream, at: Place, i: nat)
    ensures var u := Act(s, at, i).0;
            (s.done ==> u.done) && (s.localClosed ==> u.localClosed) && (s.remoteClosed ==> u.remoteClosed)
  {
  }

  lemma NextEnds(sys: System, ev: Event, k: Key)
    requires Inv(sys)
    ensures LocalEnds(sys, k) ==> LocalEnds(Next(sys, ev), k)
    ensures RemoteEnds(sys, k) ==> RemoteEnds(Next(sys, ev), k)
  {
    var after := Next(sys, ev);
    if ev.Resume? && ev.i < |sys.tasks| && sys.tasks[ev.i].stream in sys.streams {
      ActKeepsFlags(sys.streams[sys.tasks[ev.i].stream], sys.tasks[ev.i].at, ev.i);
    }
    if i: nat :| At(sys.tasks, k, Eof0, i) {
      assert (ev.Resume? && ev.i == i) || At(after.tasks, k, Eof0, i);
    }
    if i: nat :| At(sys.tasks, k, Remote0, i) {
      assert (ev.Resume? && ev.i == i) || At(after.tasks, k, Remote0, i);
    }
  }

  lemma {:induction false} RunEnds(evs: seq<Event>, more: seq<Event>, k: Key)
    ensures LocalEnds(Run(evs), k) ==> LocalEnds(Run(evs + more), k)
    ensures RemoteEnds(Run(evs), k) ==> RemoteEnds(Run(evs + more), k)
    decreases |more|
  {
    if more == [] {
      assert evs + more == evs;
    } else {
      var front, last := more[..|more| - 1], more[|more| - 1];
      RunEnds(evs, front, k);
      assert (evs + more)[..|evs + more| - 1] == evs + front;
      RunKeeps(evs + front);
      NextEnds(Run(evs + front), last, k);
    }
  }

  lemma SpawnRuns(evs: seq<Event>, k: Key, at: Place)
    requires k in Run(evs).streams && Entry(at)
    ensures Run(evs + [Spawn(k, at)]) == Run(evs).(tasks := Run(evs).tasks + [Task(k, at)])
  {
    assert (evs + [Spawn(k, at)])[..|evs|] == evs;
  }

  lemma LocalSpawned(evs: seq<Event>, k: Key, more: seq<Event>)
    requires k in Run(evs).streams
    ensures LocalEnds(Run(evs + [Spawn(k, Eof0)] + more), k)
  {
    SpawnRuns(evs, k, Eof0);
    assert At(Run(evs + [Spawn(k, Eof0)]).tasks, k, Eof0, |Run(evs).tasks|);
    RunEnds(evs + [Spawn(k, Eof0)], more, k);
  }

  lemma RemoteSpawned(evs: seq<Event>, k: Key, more: seq<Event>)
    requires k in Run(evs).streams
    ensures RemoteEnds(Run(evs + [Spawn(k, Remote0)] + more), k)
  {
    SpawnRuns(evs, k, Remote0);
    assert At(Run(evs + [Spawn(k, Remote0)]).tasks, k, Remote0, |Run(evs).tasks|);
    RunEnds(evs + [Spawn(k, Remote0)], more, k);
  }

  lemma SplitsAt(evs: seq<Event>, i: nat)
    requires i < |evs|
    ensures evs[..i] + [evs[i]] + evs[i + 1..] == evs
  {
  }

  /** After the end of the local reader and a close from the peer, whichever
      came first and whatever else went on, the stream ends up done. */
  lemma EndsOnBothSides(evs: seq<Event>, k: Key, i: nat, j: nat)
    requires i < |evs| && evs[i] == Spawn(k, Eof0) && k in Run(evs[..i]).streams
    requires j < |evs| && evs[j] == Spawn(k, Remote0) && k in Run(evs[..j]).streams
    requires Quiescent(Run(evs), k)
    ensures var s := Run(evs).streams; k in s && s[k].done && s[k].queueClosed && |s[k].closedBy| == 1
  {
    SplitsAt(evs, i);
    SplitsAt(evs, j);
    LocalSpawned(evs[..i], k, evs[i + 1..]);
    RemoteSpawned(evs[..j], k, evs[j + 1..]);
    RunKeeps(evs);
    QueueClosedIff(evs, k);
    if !Run(evs).streams[k].done {
      BothEndedIsDone(evs, k);
    }
  }

  // ------------------------------------------------------- off the table

  /** Release has one caller, which took the stream off the table before. */
  ghost predicate DiscardedFirst(evs: seq<Event>) { forall i | 0 <= i < |evs| && evs[i].Spawn? :: !evs[i].at.Release0? }

  /** Behind the point where abort and discard take the stream off the table. */
  predicate PastDiscard(at: Place) { at.Release0? || at.Release1? || at.Release2? || at.Abort3? || at.Abort4? }

  ghost predicate TaskOff(sys: System, i: nat)
    requires i < |sys.tasks|
  {
    PastDiscard(sys.tasks[i].at) ==> Unlisted(sys, sys.tasks[i].stream)
  }

  /** The task that set `done` still has the discard before it. */
  ghost predicate SetterOnIt(s: Stream, k: Key, tasks: seq<Task>) {
    && s.setter.Some? && s.setter.value < |tasks| && tasks[s.setter.value].stream == k
    && (tasks[s.setter.value].at.Abort1? || tasks[s.setter.value].at.Abort2?)
  }

  ghost predicate StreamOff(sys: System, k: Key)
    requires k in sys.streams
  {
    sys.streams[k].done ==> Unlisted(sys, k) || SetterOnIt(sys.streams[k], k, sys.tasks)
  }

  ghost predicate AllOff(sys: System) {
    (forall i | 0 <= i < |sys.tasks| :: TaskOff(sys, i)) && (forall k | k in sys.streams :: StreamOff(sys, k))
  }

  /** What a resumed task does to the listing of its own stream. */
  lemma ResumeOff(sys: System, i: nat)
    requires Inv(sys) && AllOff(sys) && i < |sys.tasks| && sys.tasks[i].stream in sys.streams
    ensures TaskOff(Next(sys, Resume(i)), i) && StreamOff(Next(sys, Resume(i)), sys.tasks[i].stream)
  {
    var t := sys.tasks[i];
    assert Entitled(sys.streams, t, i) && TaskOff(sys, i) && StreamOff(sys, t.stream) && Settled(sys.streams[t.stream], t.stream, sys.tasks);
    if Unlisted(sys, t.stream) {
      StepStaysUnlisted(sys, Resume(i), t.stream);
    }
  }

  lemma ResumeAllOff(sys: System, i: nat)
    requires Inv(sys) && AllOff(sys) && i < |sys.tasks| && sys.tasks[i].stream in sys.streams
    ensures AllOff(Next(sys, Resume(i)))
  {
    var after := Next(sys, Resume(i));
    ResumeOff(sys, i);
    forall j | 0 <= j < |after.tasks| && j != i
      ensures TaskOff(after, j)
    {
      assert TaskOff(sys, j) && Entitled(sys.streams, sys.tasks[j], j);
      if Unlisted(sys, sys.tasks[j].stream) {
        StepStaysUnlisted(sys, Resume(i), sys.tasks[j].stream);
      }
    }
    forall k | k in after.streams && k != sys.tasks[i].stream
      ensures StreamOff(after, k)
    {
      assert StreamOff(sys, k);
      if Unlisted(sys, k) {
        StepStaysUnlisted(sys, Resume(i), k);
      }
    }
  }

  lemma NextOff(sys: System, ev: Event)
    requires Inv(sys) && AllOff(sys) && (ev.Spawn? ==> !ev.at.Release0?)
    ensures AllOff(Next(sys, ev))
  {
    var after := Next(sys, ev);
    if ev.Resume? {
      if ev.i < |sys.tasks| && sys.tasks[ev.i].stream in sys.streams {
        ResumeAllOff(sys, ev.i);
      }
    } else {
      forall j | 0 <= j < |after.tasks|
        ensures TaskOff(after, j)
      {
        if j < |sys.tasks| {
          assert TaskOff(sys, j) && Entitled(sys.streams, sys.tasks[j], j);
        }
      }
      forall k | k in after.streams
        ensures StreamOff(after, k)
      {
        if k in sys.streams {
          assert StreamOff(sys, k);
        }
      }
    }
  }

  lemma {:induction false} RunOff(evs: seq<Event>)
    requires DiscardedFirst(evs)
    ensures AllOff(Run(evs))
    decreases |evs|
  {
    if evs != [] {
      RunOff(evs[..|evs| - 1]);
      RunKeeps(evs[..|evs| - 1]);
      NextOff(Run(evs[..|evs| - 1]), evs[|evs| - 1]);
    }
  }

  /** With nobody at work on it, a stream that is done is off the table, so its
      ID is free again. */
  lemma DoneIsUnlisted(evs: seq<Event>, k: Key)
    requires DiscardedFirst(evs) && k in Run(evs).streams && Run(evs).streams[k].done && Quiescent(Run(evs), k)
    ensures Unlisted(Run(evs), k)
  {
    RunOff(evs);
    assert StreamOff(Run(evs), k);
  }
}
