/**
 * Whole runs of the archive protocol (qmt/archive.py) as a state machine:
 * arrivals between any two steps, collection file by file, commit, deletion by
 * name, recovery of a committed day, and a stop anywhere. It settles which
 * events a run can lose.
 */
module ArchiveRuns {
  import opened SpoolArchive

  /** What the archiver is in the middle of. */
  datatype Job =
    | Waiting
    | Reading(day: nat, left: seq<FileName>, read: seq<Event>)
    | Collected(day: nat, records: seq<Event>)
    | Deleting(day: nat, left: seq<FileName>)

  datatype Spool = Spool(files: map<FileName, Event>, committed: map<nat, seq<Event>>, job: Job, seen: iset<Event>)

  datatype ArchiveAction =
    | Arrive(e: Event)
    | List(day: nat, listing: seq<FileName>)
    | ReadNext
    | EndReading
    | Commit(quiet: nat, now: int, requireFinal: bool)
    | RecoverDay(day: nat)
    | DeleteNext
    | Stop

  const EmptySpool := Spool(map[], map[], Waiting, iset{})

  /** One more file, if it is still there and belongs to the day. */
  function ReadFile(files: map<FileName, Event>, day: nat, name: FileName, read: seq<Event>): seq<Event> {
    if name in files && DayOf(files[name].timestamp) == day then read + [files[name]] else read
  }

  /** An event of a committed day turned up under a name the archive does not have. */
  ghost predicate LateEvent(s: Spool, day: nat)
    requires day in s.committed
  {
    exists name :: name in s.files && DayOf(name.timestamp) == day && name !in NamesOf(s.committed[day])
  }

  ghost function Step(emits: Event -> bool, s: Spool, a: ArchiveAction): Spool {
    match a
    case Arrive(e) =>
      if emits(e) && NameOf(e) !in s.files then s.(files := s.files[NameOf(e) := e], seen := s.seen + iset{e}) else s
    case List(day, listing) =>
      if s.job.Waiting? && day !in s.committed && (forall name :: name in listing <==> name in s.files) then
        s.(job := Reading(day, listing, []))
      else s
    case ReadNext =>
      if s.job.Reading? && s.job.left != [] then
        s.(job := Reading(s.job.day, s.job.left[1..], ReadFile(s.files, s.job.day, s.job.left[0], s.job.read)))
      else s
    case EndReading =>
      if s.job.Reading? && s.job.left == [] then s.(job := Collected(s.job.day, Sorted(s.job.read))) else s
    case Commit(quiet, now, requireFinal) =>
      if s.job.Collected? && ReadyDay(s.job.records, quiet, now, requireFinal) then
        s.(committed := s.committed[s.job.day := s.job.records], job := Deleting(s.job.day, NamesOf(s.job.records)))
      else s
    case RecoverDay(day) =>
      if s.job.Waiting? && day in s.committed && !LateEvent(s, day)
        then s.(job := Deleting(day, NamesOf(s.committed[day]))) else s
    case DeleteNext =>
      if !s.job.Deleting? then s
      else if s.job.left == [] then s.(job := Waiting)
      else s.(files := s.files - {s.job.left[0]}, job := Deleting(s.job.day, s.job.left[1..]))
    case Stop => s.(job := Waiting)
  }

  ghost function Run(emits: Event -> bool, s: Spool, actions: seq<ArchiveAction>): Spool
    decreases |actions|
  {
    if actions == [] then s else Run(emits, Step(emits, s, actions[0]), actions[1..])
  }

  /** The event was in the spool, and is now neither there nor in its day's archive. */
  predicate Lost(s: Spool, e: Event) {
    && e in s.seen
    && !(NameOf(e) in s.files && s.files[NameOf(e)] == e)
    && !(DayOf(e.timestamp) in s.committed && e in s.committed[DayOf(e.timestamp)])
  }

  // --------------------------------------------------------- events with names of their own

  ghost predicate Archives(emits: Event -> bool, day: nat, records: seq<Event>) {
    forall e :: e in records ==> emits(e) && DayOf(e.timestamp) == day
  }

  ghost predicate JobFits(emits: Event -> bool, s: Spool) {
    match s.job
    case Waiting => true
    case Reading(day, _, read) => day !in s.committed && Archives(emits, day, read)
    case Collected(day, records) => day !in s.committed && Archives(emits, day, records)
    case Deleting(day, left) => day in s.committed && forall name :: name in left ==> name in NamesOf(s.committed[day])
  }

  ghost predicate Keeps(emits: Event -> bool, s: Spool) {
    && (forall name :: name in s.files ==> NameOf(s.files[name]) == name && emits(s.files[name]))
    && (forall day :: day in s.committed ==> Archives(emits, day, s.committed[day]))
    && JobFits(emits, s)
    && (forall e :: Sole(emits, e) ==> !Lost(s, e))
    && (forall e :: e in s.seen ==> emits(e))
  }

  /** Deleting an archived name removes an event with a name of its own only if that event is archived. */
  lemma DeletedIsArchived(emits: Event -> bool, s: Spool, e: Event)
    requires Keeps(emits, s) && s.job.Deleting? && s.job.left != [] && Sole(emits, e) && e in s.seen
             && NameOf(e) == s.job.left[0]
    ensures DayOf(e.timestamp) in s.committed && e in s.committed[DayOf(e.timestamp)]
  {
    var a := NamedMember(s.committed[s.job.day], s.job.left[0]);
    assert Archives(emits, s.job.day, s.committed[s.job.day]);
    assert a == e;
  }

  lemma DeleteKeeps(emits: Event -> bool, s: Spool)
    requires Keeps(emits, s) && s.job.Deleting? && s.job.left != []
    ensures Keeps(emits, Step(emits, s, DeleteNext))
  {
    hide Sole, Archives, NamesOf, DayOf;
    var n := Step(emits, s, DeleteNext);
    forall e | Sole(emits, e) ensures !Lost(n, e) {
      assert !Lost(s, e);
      if e in s.seen && NameOf(e) == s.job.left[0] {
        DeletedIsArchived(emits, s, e);
      }
    }
  }

  lemma CollectKeeps(emits: Event -> bool, s: Spool, a: ArchiveAction)
    requires Keeps(emits, s) && (a.List? || a.ReadNext? || a.EndReading?)
    ensures Keeps(emits, Step(emits, s, a))
  {
    if a.EndReading? && s.job.Reading? {
      SortedLists(s.job.read);
    }
    hide Sole, DayOf, Sorted;
    var n := Step(emits, s, a);
    forall e | Sole(emits, e) ensures !Lost(n, e) {
      assert !Lost(s, e);
    }
  }

  lemma CommitKeeps(emits: Event -> bool, s: Spool, a: ArchiveAction)
    requires Keeps(emits, s) && a.Commit?
    ensures Keeps(emits, Step(emits, s, a))
  {
    hide Sole, ReadyDay, DayOf, NamesOf;
    var n := Step(emits, s, a);
    forall e | Sole(emits, e) ensures !Lost(n, e) {
      assert !Lost(s, e);
    }
  }

  lemma StepKeeps(emits: Event -> bool, s: Spool, a: ArchiveAction)
    requires Keeps(emits, s)
    ensures Keeps(emits, Step(emits, s, a))
  {
    hide Sole, ReadyDay, DayOf, NamesOf, Archives, Sorted;
    match a
    case List(_, _) => CollectKeeps(emits, s, a);
    case ReadNext => CollectKeeps(emits, s, a);
    case EndReading => CollectKeeps(emits, s, a);
    case Commit(_, _, _) => CommitKeeps(emits, s, a);
    case DeleteNext => if s.job.Deleting? && s.job.left != [] { DeleteKeeps(emits, s); }
    case Arrive(e) =>
      forall x | Sole(emits, x) ensures !Lost(Step(emits, s, a), x) {
        assert !Lost(s, x);
      }
    case _ =>
  }

  lemma {:induction false} RunKeeps(emits: Event -> bool, s: Spool, actions: seq<ArchiveAction>)
    requires Keeps(emits, s)
    ensures Keeps(emits, Run(emits, s, actions))
    decreases |actions|
  {
    if actions != [] {
      hide Keeps, Step;
      StepKeeps(emits, s, actions[0]);
      RunKeeps(emits, Step(emits, s, actions[0]), actions[1..]);
    }
  }

  // ------------------------------------------------------------------------- collection

  /** What reading from here on will have found: read already, or still to be read. */
  ghost predicate WillHave(s: Spool, e: Event) {
    s.job.Reading? && (e in s.job.read || (NameOf(e) in s.job.left && NameOf(e) in s.files && s.files[NameOf(e)] == e))
  }

  lemma ReadingGoesOn(emits: Event -> bool, s: Spool, a: ArchiveAction, e: Event)
    requires s.job.Reading? && (a.Arrive? || a.ReadNext?) && WillHave(s, e) && DayOf(e.timestamp) == s.job.day
    ensures Step(emits, s, a).job.Reading? && Step(emits, s, a).job.day == s.job.day && WillHave(Step(emits, s, a), e)
  {
    hide DayOf;
    if a.ReadNext? && s.job.left != [] && NameOf(e) in s.job.left && NameOf(e) != s.job.left[0] {
      assert NameOf(e) in s.job.left[1..];
    }
  }

  /**
   * The files are read one by one while others arrive. When the last is read,
   * every event of the day that was there when the directory was listed has
   * been found.
   */
  lemma {:induction false} NothingListedIsMissed(emits: Event -> bool, s: Spool, actions: seq<ArchiveAction>, e: Event)
    requires s.job.Reading? && WillHave(s, e) && DayOf(e.timestamp) == s.job.day
    requires forall a :: a in actions ==> a.Arrive? || a.ReadNext?
    ensures var n := Run(emits, s, actions);
            && n.job.Reading? && n.job.day == s.job.day
            && (n.job.left == [] ==> e in n.job.read && e in Step(emits, n, EndReading).job.records)
    decreases |actions|
  {
    hide DayOf;
    if actions == [] {
      SortedLists(s.job.read);
    } else {
      assert forall a :: a in actions[1..] ==> a in actions;
      ReadingGoesOn(emits, s, actions[0], e);
      hide Step;
      NothingListedIsMissed(emits, Step(emits, s, actions[0]), actions[1..], e);
    }
  }

  // ------------------------------------------------------------------------ a losing run

  /**
   * Archive `a`, let `b` arrive under the same name, and run the day again:
   * recovery takes `b` for the archived file.
   */
  function LosingRun(a: Event, b: Event): seq<ArchiveAction> {
    ArchiveOne(a) + [Arrive(b), RecoverDay(DayOf(a.timestamp)), DeleteNext]
  }

  function ArchiveOne(a: Event): seq<ArchiveAction> {
    [Arrive(a), List(DayOf(a.timestamp), [NameOf(a)]), ReadNext, EndReading]
    + [Commit(0, a.timestamp, false), DeleteNext, DeleteNext]
  }

  lemma OneEventIsReady(a: Event)
    ensures ReadyDay([a], 0, a.timestamp, false) && NamesOf([a]) == [NameOf(a)]
  {
    forall session ensures FullInterval(Sequences([a], session)) {
      assert Sequences([a], session) <= {a.sequence};
    }
  }

  lemma CollectFirst(emits: Event -> bool, a: Event)
    requires emits(a)
    ensures Run(emits, EmptySpool, [Arrive(a), List(DayOf(a.timestamp), [NameOf(a)]), ReadNext, EndReading]) ==
            Spool(map[NameOf(a) := a], map[], Collected(DayOf(a.timestamp), [a]), iset{a})
  {
    hide DayOf;
    var actions := [Arrive(a), List(DayOf(a.timestamp), [NameOf(a)]), ReadNext, EndReading];
    var s1 := Step(emits, EmptySpool, actions[0]);
    assert Sorted([a]) == Insert(a, Sorted([])) == [a];
    var s2 := Step(emits, s1, actions[1]);
    assert s2.job == Reading(DayOf(a.timestamp), [NameOf(a)], []);
    var s3 := Step(emits, s2, actions[2]);
    assert s3.job == Reading(DayOf(a.timestamp), [], [a]);
    assert actions[1..] == [actions[1], actions[2], actions[3]];
    hide Step;
    RunThree(emits, s1, actions[1..]);
  }

  lemma ArchiveFirst(emits: Event -> bool, a: Event) returns (s: Spool)
    requires emits(a)
    ensures s == Run(emits, EmptySpool, ArchiveOne(a))
    ensures s == Spool(map[], map[DayOf(a.timestamp) := [a]], Waiting, iset{a})
  {
    hide DayOf, ReadyDay, NamesOf, InOrder;
    OneEventIsReady(a);
    CollectFirst(emits, a);
    var rest := [Commit(0, a.timestamp, false), DeleteNext, DeleteNext];
    var collected := Spool(map[NameOf(a) := a], map[], Collected(DayOf(a.timestamp), [a]), iset{a});
    var committed := Step(emits, collected, rest[0]);
    assert committed == Spool(map[NameOf(a) := a], map[DayOf(a.timestamp) := [a]],
                              Deleting(DayOf(a.timestamp), [NameOf(a)]), iset{a});
    s := Step(emits, Step(emits, committed, DeleteNext), DeleteNext);
    hide Step;
    RunThree(emits, collected, rest);
    RunConcat(emits, EmptySpool, [Arrive(a), List(DayOf(a.timestamp), [NameOf(a)]), ReadNext, EndReading], rest);
  }

  lemma RunThree(emits: Event -> bool, s: Spool, actions: seq<ArchiveAction>)
    requires |actions| == 3
    ensures Run(emits, s, actions) == Step(emits, Step(emits, Step(emits, s, actions[0]), actions[1]), actions[2])
  {
    hide Step;
    assert actions[1..][1..] == [actions[2]] && [actions[2]][1..] == [];
    assert Run(emits, Step(emits, Step(emits, s, actions[0]), actions[1]), [actions[2]]) ==
           Step(emits, Step(emits, Step(emits, s, actions[0]), actions[1]), actions[2]);
  }

  lemma {:induction false} RunConcat(emits: Event -> bool, s: Spool, first: seq<ArchiveAction>,
                                     rest: seq<ArchiveAction>)
    ensures Run(emits, s, first + rest) == Run(emits, Run(emits, s, first), rest)
    decreases |first|
  {
    if first == [] {
      assert first + rest == rest;
    } else {
      hide Step;
      assert (first + rest)[1..] == first[1..] + rest;
      RunConcat(emits, Step(emits, s, first[0]), first[1..], rest);
    }
  }

  lemma LosingRunLoses(emits: Event -> bool, a: Event, b: Event)
    requires emits(a) && emits(b) && a != b && NameOf(a) == NameOf(b)
    ensures Lost(Run(emits, EmptySpool, LosingRun(a, b)), b)
  {
    hide DayOf, NamesOf;
    var day := DayOf(a.timestamp);
    var s := ArchiveFirst(emits, a);
    OneEventIsReady(a);
    var rest := [Arrive(b), RecoverDay(day), DeleteNext];
    RunThree(emits, s, rest);
    var s1 := Step(emits, s, Arrive(b));
    var s2 := Step(emits, s1, RecoverDay(day));
    assert s2.job == Deleting(day, [NameOf(a)]);
    assert Lost(Step(emits, s2, DeleteNext), b);
    hide Step;
    RunConcat(emits, EmptySpool, ArchiveOne(a), rest);
  }

  /**
   * Deletion goes by file name. An event can be lost by some run of the
   * protocol exactly when another event that may be written has its name.
   */
  lemma LosableExactlyWhenNameIsShared(emits: Event -> bool, e: Event)
    requires emits(e)
    ensures (exists actions :: Lost(Run(emits, EmptySpool, actions), e)) <==> !Sole(emits, e)
  {
    hide Run, Lost, LosingRun;
    if Sole(emits, e) {
      EmptySpoolKeeps(emits);
      forall actions ensures !Lost(Run(emits, EmptySpool, actions), e) {
        RunKeeps(emits, EmptySpool, actions);
        hide Sole;
      }
    } else {
      var a :| emits(a) && NameOf(a) == NameOf(e) && a != e;
      LosingRunLoses(emits, a, e);
      assert Lost(Run(emits, EmptySpool, LosingRun(a, e)), e);
    }
  }

  lemma EmptySpoolKeeps(emits: Event -> bool)
    ensures Keeps(emits, EmptySpool)
  {
  }

  /** So no run loses anything exactly when names tell the events apart. */
  lemma NothingIsLostExactlyWhenNamesDecide(emits: Event -> bool)
    ensures (forall actions, e :: !Lost(Run(emits, EmptySpool, actions), e)) <==>
            (forall a, b :: emits(a) && emits(b) && NameOf(a) == NameOf(b) ==> a == b)
  {
    hide Run, Lost;
    if forall a, b :: emits(a) && emits(b) && NameOf(a) == NameOf(b) ==> a == b {
      forall actions, e ensures !Lost(Run(emits, EmptySpool, actions), e) {
        if emits(e) {
          LosableExactlyWhenNameIsShared(emits, e);
        } else {
          NeverEmittedNeverLost(emits, actions, e);
        }
      }
    } else {
      var a, b :| emits(a) && emits(b) && NameOf(a) == NameOf(b) && a != b;
      LosingRunLoses(emits, a, b);
    }
  }

  lemma NeverEmittedNeverLost(emits: Event -> bool, actions: seq<ArchiveAction>, e: Event)
    requires !emits(e)
    ensures !Lost(Run(emits, EmptySpool, actions), e)
  {
    hide Run;
    EmptySpoolKeeps(emits);
    RunKeeps(emits, EmptySpool, actions);
  }
}
