/** Zone streams of zone/streams.go: teardown under every interleaving. A
    stream object is known by a key, since two streams may have had the same
    ID. A task is one goroutine inside a stream operation; it gives up the
    processor wherever the source releases a lock. */
module ZoneStreams {
  import opened Bytes

  type Key = nat
  type ID = x: nat | x < 0x1_0000_0000

  /** `setter` is the task that set `done`; `closedBy` the tasks that closed
      `finished`, in order. */
  datatype Stream = Stream(
    id: ID, done: bool, localClosed: bool, remoteClosed: bool, queueClosed: bool, setter: Option<nat>, closedBy: seq<nat>)

  /** Where a task is. The numbered places follow the statements of abort,
      release, discard, remoteClose and the end of the read loop; the flag is
      what the task saw of the other direction. */
  datatype Place =
    | Abort0 | Abort1 | Abort2 | Abort3 | Abort4
    | Release0 | Release1 | Release2
    | Discard0
    | Remote0 | Remote1(both: bool)
    | Eof0 | Eof1(both: bool)
    | Broken0
    | End

  datatype Task = Task(stream: Key, at: Place)

  datatype System = System(streams: map<Key, Stream>, table: map<ID, Key>, made: Key, tasks: seq<Task>)

  const EMPTY: System := System(map[], map[], 0, [])

  datatype Event = Open(id: ID) | Spawn(key: Key, at: Place) | Resume(i: nat)

  /** What one step of task i does to its stream, and where it goes next. */
  function Act(s: Stream, at: Place, i: nat): (Stream, Place) {
    match at
    case Abort0 => if s.done then (s, End) else (s.(done := true, setter := Some(i)), Abort1)
    case Abort1 => (s.(queueClosed := true), Abort2)
    case Abort2 => (s, Abort3)
    case Abort3 =>
      if s.done then (s, Abort4)
      else (s.(done := true, setter := Some(i), queueClosed := true, closedBy := s.closedBy + [i]), Abort4)
    case Abort4 => (s.(closedBy := s.closedBy + [i]), End)
    case Release0 => if s.done then (s, End) else (s.(done := true, setter := Some(i)), Release1)
    case Release1 => (s.(queueClosed := true), Release2)
    case Release2 => (s.(closedBy := s.closedBy + [i]), End)
    case Discard0 => (s, Release0)
    case Remote0 =>
      if s.done || s.remoteClosed then (s, End) else (s.(remoteClosed := true), Remote1(s.localClosed))
    case Remote1(both) => (s.(queueClosed := true), if both then Abort0 else End)
    case Eof0 => (s.(localClosed := true), Eof1(s.remoteClosed))
    case Eof1(both) => (s, if both then Abort0 else End)
    case Broken0 => (s.(localClosed := true), Abort0)
    case End => (s, End)
  }

  /** The table entry goes only when it is this very stream. */
  function Unlist(table: map<ID, Key>, id: ID, key: Key): map<ID, Key> {
    if id in table && table[id] == key then table - {id} else table
  }

  predicate Entry(at: Place) { at.Abort0? || at.Release0? || at.Discard0? || at.Remote0? || at.Eof0? || at.Broken0? }

  function Next(sys: System, ev: Event): System {
    match ev
    case Open(id) =>
      if id == 0 || id in sys.table then sys
      else
        sys.(streams := sys.streams[sys.made := Stream(id, false, false, false, false, None, [])],
             table := sys.table[id := sys.made], made := sys.made + 1)
    case Spawn(key, at) =>
      if key in sys.streams && Entry(at) then sys.(tasks := sys.tasks + [Task(key, at)]) else sys
    case Resume(i) =>
      if i >= |sys.tasks| || sys.tasks[i].stream !in sys.streams then sys
      else
        var t := sys.tasks[i];
        var (s, at) := Act(sys.streams[t.stream], t.at, i);
        sys.(streams := sys.streams[t.stream := s], tasks := sys.tasks[i := Task(t.stream, at)],
             table := if t.at.Abort2? || t.at.Discard0? then Unlist(sys.table, s.id, t.stream) else sys.table)
  }

  function Run(evs: seq<Event>): System {
    if evs == [] then EMPTY else Next(Run(evs[..|evs| - 1]), evs[|evs| - 1])
  }

  // ---------------------------------------------------------------- the tail

  /** Between setting `done` and closing `finished`. */
  predicate InTail(at: Place) {
    at.Abort1? || at.Abort2? || at.Abort3? || at.Abort4? || at.Release1? || at.Release2?
  }

  /** The task that set `done` still has to close `finished`, or is the one
      that closed it. */
  ghost predicate Settled(s: Stream, key: Key, tasks: seq<Task>) {
    if !s.done then s.setter.None? && s.closedBy == []
    else
      && s.setter.Some? && s.setter.value < |tasks| && tasks[s.setter.value].stream == key
      && if InTail(tasks[s.setter.value].at) then s.closedBy == [] else s.closedBy == [s.setter.value]
  }

  /** A task in the tail of its stream set `done` itself. */
  ghost predicate Entitled(streams: map<Key, Stream>, t: Task, i: nat) {
    t.stream in streams && (InTail(t.at) ==> streams[t.stream].setter == Some(i) && streams[t.stream].done)
  }

  /** On its way to abort. */
  predicate Heading(at: Place) {
    at.Abort0? || at.Broken0? || (at.Remote1? && at.both) || (at.Eof1? && at.both)
  }

  ghost predicate HeadedBy(tasks: seq<Task>, key: Key) {
    exists i :: 0 <= i < |tasks| && tasks[i].stream == key && Heading(tasks[i].at)
  }

  ghost predicate Closing(s: Stream, key: Key, tasks: seq<Task>) {
    s.localClosed && s.remoteClosed ==> s.done || HeadedBy(tasks, key)
  }

  ghost predicate TableOk(sys: System) {
    forall id | id in sys.table :: id != 0 && sys.table[id] in sys.streams && sys.streams[sys.table[id]].id == id
  }

  ghost predicate Inv(sys: System) {
    && (forall k | k in sys.streams :: k < sys.made && Settled(sys.streams[k], k, sys.tasks))
    && (forall i | 0 <= i < |sys.tasks| :: Entitled(sys.streams, sys.tasks[i], i))
    && (forall k | k in sys.streams :: Closing(sys.streams[k], k, sys.tasks))
    && TableOk(sys)
  }

  // -------------------------------------------------------------- one resume

  lemma ActSettles(s: Stream, t: Task, i: nat, tasks: seq<Task>)
    requires i < |tasks| && tasks[i] == t && Settled(s, t.stream, tasks)
    requires InTail(t.at) ==> s.setter == Some(i) && s.done
    ensures var (u, at) := Act(s, t.at, i);
            && Settled(u, t.stream, tasks[i := Task(t.stream, at)])
            && (InTail(at) ==> u.setter == Some(i) && u.done)
            && (s.done ==> u.done && u.setter == s.setter)
  {
  }

  lemma OtherSettles(s: Stream, key: Key, i: nat, tasks: seq<Task>, at: Place)
    requires i < |tasks| && tasks[i].stream != key && Settled(s, key, tasks)
    ensures Settled(s, key, tasks[i := Task(tasks[i].stream, at)])
  {
  }

  lemma ActCloses(s: Stream, t: Task, i: nat, tasks: seq<Task>)
    requires i < |tasks| && tasks[i] == t && Closing(s, t.stream, tasks)
    requires InTail(t.at) ==> s.done
    ensures var (u, at) := Act(s, t.at, i); Closing(u, t.stream, tasks[i := Task(t.stream, at)])
  {
    var (u, at) := Act(s, t.at, i);
    var after := tasks[i := Task(t.stream, at)];
    if u.localClosed && u.remoteClosed && !u.done {
      if Heading(at) {
        assert after[i].stream == t.stream && Heading(after[i].at);
      } else {
        assert s.localClosed && s.remoteClosed;
        var j :| 0 <= j < |tasks| && tasks[j].stream == t.stream && Heading(tasks[j].at);
        assert after[j].stream == t.stream && Heading(after[j].at);
      }
    }
  }

  lemma OtherCloses(s: Stream, key: Key, i: nat, tasks: seq<Task>, at: Place)
    requires i < |tasks| && tasks[i].stream != key && Closing(s, key, tasks)
    ensures Closing(s, key, tasks[i := Task(tasks[i].stream, at)])
  {
    if s.localClosed && s.remoteClosed && !s.done {
      var j :| 0 <= j < |tasks| && tasks[j].stream == key && Heading(tasks[j].at);
      assert tasks[i := Task(tasks[i].stream, at)][j] == tasks[j];
    }
  }

  lemma ResumeEntitled(sys: System, i: nat)
    requires Inv(sys) && i < |sys.tasks| && sys.tasks[i].stream in sys.streams
    ensures var t := Next(sys, Resume(i)); forall j | 0 <= j < |t.tasks| :: Entitled(t.streams, t.tasks[j], j)
  {
    var t, after := sys.tasks[i], Next(sys, Resume(i));
    assert Entitled(sys.streams, t, i);
    ActSettles(sys.streams[t.stream], t, i, sys.tasks);
    forall j | 0 <= j < |after.tasks|
      ensures Entitled(after.streams, after.tasks[j], j)
    {
      assert Entitled(sys.streams, sys.tasks[j], j);
    }
  }

  lemma ResumeSettles(sys: System, i: nat, k: Key)
    requires Inv(sys) && i < |sys.tasks| && sys.tasks[i].stream in sys.streams && k in sys.streams
    ensures var t := Next(sys, Resume(i)); Settled(t.streams[k], k, t.tasks) && Closing(t.streams[k], k, t.tasks)
  {
    var t := sys.tasks[i];
    assert Entitled(sys.streams, t, i);
    if k == t.stream {
      ActSettles(sys.streams[k], t, i, sys.tasks);
      ActCloses(sys.streams[k], t, i, sys.tasks);
    } else {
      var at := Act(sys.streams[t.stream], t.at, i).1;
      OtherSettles(sys.streams[k], k, i, sys.tasks, at);
      OtherCloses(sys.streams[k], k, i, sys.tasks, at);
    }
  }

  lemma ResumeTable(sys: System, i: nat)
    requires TableOk(sys) && i < |sys.tasks| && sys.tasks[i].stream in sys.streams
    ensures TableOk(Next(sys, Resume(i))) && Next(sys, Resume(i)).streams.Keys == sys.streams.Keys
  {
    var t := sys.tasks[i];
    assert Act(sys.streams[t.stream], t.at, i).0.id == sys.streams[t.stream].id;
  }

  lemma ResumeKeeps(sys: System, i: nat)
    requires Inv(sys) && i < |sys.tasks| && sys.tasks[i].stream in sys.streams
    ensures Inv(Next(sys, Resume(i)))
  {
    ResumeTable(sys, i);
    ResumeEntitled(sys, i);
    forall k | k in sys.streams
      ensures var t := Next(sys, Resume(i)); Settled(t.streams[k], k, t.tasks) && Closing(t.streams[k], k, t.tasks)
    {
      ResumeSettles(sys, i, k);
    }
  }

  lemma SpawnSettles(s: Stream, key: Key, tasks: seq<Task>, t: Task)
    requires Settled(s, key, tasks) && Closing(s, key, tasks)
    ensures Settled(s, key, tasks + [t]) && Closing(s, key, tasks + [t])
  {
    if s.localClosed && s.remoteClosed && !s.done {
      var j :| 0 <= j < |tasks| && tasks[j].stream == key && Heading(tasks[j].at);
      assert (tasks + [t])[j] == tasks[j];
    }
  }

  lemma SpawnKeeps(sys: System, key: Key, at: Place)
    requires Inv(sys) && key in sys.streams && Entry(at)
    ensures Inv(Next(sys, Spawn(key, at)))
  {
    var after := Next(sys, Spawn(key, at));
    forall k | k in sys.streams
      ensures Settled(after.streams[k], k, after.tasks) && Closing(after.streams[k], k, after.tasks)
    {
      SpawnSettles(sys.streams[k], k, sys.tasks, Task(key, at));
    }
    forall j | 0 <= j < |after.tasks|
      ensures Entitled(after.streams, after.tasks[j], j)
    {
      if j < |sys.tasks| {
        assert Entitled(sys.streams, sys.tasks[j], j);
      }
    }
  }

  lemma OpenKeeps(sys: System, id: ID)
    requires Inv(sys)
    ensures Inv(Next(sys, Open(id)))
  {
    var after := Next(sys, Open(id));
    forall j | 0 <= j < |after.tasks|
      ensures Entitled(after.streams, after.tasks[j], j)
    {
      assert Entitled(sys.streams, sys.tasks[j], j);
    }
  }

  lemma NextKeeps(sys: System, ev: Event)
    requires Inv(sys)
    ensures Inv(Next(sys, ev))
  {
    match ev
    case Open(id) => OpenKeeps(sys, id);
    case Spawn(key, at) =>
      if key in sys.streams && Entry(at) {
        SpawnKeeps(sys, key, at);
      }
    case Resume(i) =>
      if i < |sys.tasks| && sys.tasks[i].stream in sys.streams {
        ResumeKeeps(sys, i);
      }
  }

  lemma {:induction false} RunKeeps(evs: seq<Event>)
    ensures Inv(Run(evs))
    decreases |evs|
  {
    if evs != [] {
      RunKeeps(evs[..|evs| - 1]);
      NextKeeps(Run(evs[..|evs| - 1]), evs[|evs| - 1]);
    }
  }

  // ------------------------------------------------------------ the theorems

  /** In every interleaving `finished` is closed at most once, and by the task
      whose step set `done`. */
  lemma FinishedOnce(evs: seq<Event>, k: Key)
    requires k in Run(evs).streams
    ensures var s := Run(evs).streams[k];
            && |s.closedBy| <= 1 && (s.closedBy != [] ==> s.done && s.setter == Some(s.closedBy[0]))
  {
    RunKeeps(evs);
  }

  ghost predicate Quiescent(sys: System, k: Key) {
    forall i | 0 <= i < |sys.tasks| && sys.tasks[i].stream == k :: sys.tasks[i].at.End?
  }

  /** Once both directions have ended and nobody is still at work on the
      stream, it is done and `finished` is closed. */
  lemma BothEndedIsDone(evs: seq<Event>, k: Key)
    requires k in Run(evs).streams && Quiescent(Run(evs), k)
    requires Run(evs).streams[k].localClosed && Run(evs).streams[k].remoteClosed
    ensures Run(evs).streams[k].done && |Run(evs).streams[k].closedBy| == 1
  {
    RunKeeps(evs);
    assert Closing(Run(evs).streams[k], k, Run(evs).tasks);
  }

  ghost predicate Listed(sys: System, id: ID, k: Key) { id in sys.table && sys.table[id] == k }

  /** A task of stream k takes its step at the discard. */
  ghost predicate Removes(sys: System, ev: Event, k: Key) {
    && ev.Resume? && ev.i < |sys.tasks| && sys.tasks[ev.i].stream == k
    && (sys.tasks[ev.i].at.Abort2? || sys.tasks[ev.i].at.Discard0?)
  }

  lemma StepListedIff(sys: System, ev: Event, id: ID, k: Key)
    requires Inv(sys) && Listed(sys, id, k)
    ensures Listed(Next(sys, ev), id, k) <==> !Removes(sys, ev, k)
  {
  }

  /** A key that left the table never comes back, since new streams get new keys. */
  lemma StepStaysUnlisted(sys: System, ev: Event, k: Key)
    requires Unlisted(sys, k) && k < sys.made
    ensures Unlisted(Next(sys, ev), k) && k < Next(sys, ev).made
  {
  }

  /** Step j after `evs` removes stream k. */
  ghost predicate RemovedAt(evs: seq<Event>, more: seq<Event>, k: Key, j: nat) {
    j < |more| && Removes(Run(evs + more[..j]), more[j], k)
  }

  lemma RunMore(evs: seq<Event>, front: seq<Event>, last: Event)
    ensures Run(evs + (front + [last])) == Next(Run(evs + front), last)
  {
    var all := evs + (front + [last]);
    assert all[..|all| - 1] == evs + front;
  }

  lemma RemovedAtMore(evs: seq<Event>, front: seq<Event>, last: Event, k: Key)
    ensures (exists j :: RemovedAt(evs, front + [last], k, j)) <==>
              (exists j :: RemovedAt(evs, front, k, j)) || Removes(Run(evs + front), last, k)
  {
    var more := front + [last];
    forall j: nat | j < |front|
      ensures RemovedAt(evs, more, k, j) <==> RemovedAt(evs, front, k, j)
    {
      assert more[..j] == front[..j];
    }
    assert more[..|front|] == front;
    assert RemovedAt(evs, more, k, |front|) <==> Removes(Run(evs + front), last, k);
  }

  /** In every run an entry leaves the table exactly by the discard step of its
      own stream's abort or discard; other streams, even ones with the same ID
      that are discarded late, never touch it. */
  lemma {:induction false} ListedIff(evs: seq<Event>, more: seq<Event>, id: ID, k: Key)
    requires Listed(Run(evs), id, k)
    ensures Listed(Run(evs + more), id, k) <==> !exists j :: RemovedAt(evs, more, k, j)
    ensures !Listed(Run(evs + more), id, k) ==> Unlisted(Run(evs + more), k)
    ensures k < Run(evs + more).made
    decreases |more|
  {
    if more == [] {
      assert evs + more == evs;
      RunKeeps(evs);
    } else {
      var front, last := more[..|more| - 1], more[|more| - 1];
      assert more == front + [last];
      ListedIff(evs, front, id, k);
      RunMore(evs, front, last);
      RemovedAtMore(evs, front, last, k);
      RunKeeps(evs + front);
      StepListed(Run(evs + front), last, id, k);
    }
  }

  lemma StepListed(sys: System, ev: Event, id: ID, k: Key)
    requires Inv(sys) && k < sys.made && (Listed(sys, id, k) || Unlisted(sys, k))
    ensures Listed(Next(sys, ev), id, k) <==> Listed(sys, id, k) && !Removes(sys, ev, k)
    ensures Listed(Next(sys, ev), id, k) || Unlisted(Next(sys, ev), k)
    ensures k < Next(sys, ev).made
  {
    if Unlisted(sys, k) {
      StepStaysUnlisted(sys, ev, k);
    } else {
      StepListedIff(sys, ev, id, k);
      if Removes(sys, ev, k) {
        assert Entitled(sys.streams, sys.tasks[ev.i], ev.i);
      }
    }
  }

  /** After abort has passed its discard, its stream is not listed any more. */
  ghost predicate Unlisted(sys: System, k: Key) { forall id | id in sys.table :: sys.table[id] != k }

  lemma DiscardUnlists(evs: seq<Event>, i: nat)
    requires i < |Run(evs).tasks| && (Run(evs).tasks[i].at.Abort2? || Run(evs).tasks[i].at.Discard0?)
    ensures Unlisted(Next(Run(evs), Resume(i)), Run(evs).tasks[i].stream)
  {
    RunKeeps(evs);
    assert Entitled(Run(evs).streams, Run(evs).tasks[i], i);
  }
}
