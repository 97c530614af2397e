/**
 * The daily archive commit protocol (qmt/archive.py): readiness checks over a
 * day's records, then archive, manifest, checkpoint and only then deletion of
 * the exact sources, with recovery of a committed day.
 *
 * Digests are taken to be injective, so a digest is the content it hashes.
 * `budget` is how many more file operations succeed before the process dies;
 * each archiving starts with an arbitrary one.
 */
module SpoolArchive {
  import opened Basics

  datatype OpenPrice = OpenPrice(text: string, value: Option<real>)

  /** A position row: its open price, if the field is there, and all other fields. */
  datatype Position = Position(open: Option<OpenPrice>, rest: string)

  datatype Body =
    | Snapshot(accountRow: Option<string>, positions: Option<map<string, Position>>, queryErrors: bool)
    | AccountUpdate(row: string)
    | PositionUpdate(symbol: string, position: Position)
    | OtherEvent(kind: string)

  /** Sessions are numbered by the order of their ids. */
  datatype Event = Event(timestamp: nat, session: nat, sequence: nat, account: string, body: Body)

  datatype FileName = FileName(timestamp: nat, session: nat, sequence: nat)

  datatype File = Readable(e: Event) | Corrupt

  function NameOf(e: Event): FileName { FileName(e.timestamp, e.session, e.sequence) }

  /** The trading day, in UTC+08:00. */
  function DayOf(timestamp: nat): nat { (timestamp + 28_800_000) / 86_400_000 }

  /** A trading day is the 24 hours from one midnight in UTC+08:00 to the next. */
  lemma DaysStartAtShanghaiMidnight(timestamp: nat, day: nat)
    ensures DayOf(timestamp) == day <==>
            24 * 3_600_000 * day <= timestamp + 8 * 3_600_000 < 24 * 3_600_000 * (day + 1)
  {
    var shifted := timestamp + 28_800_000;
    assert shifted == 86_400_000 * (shifted / 86_400_000) + shifted % 86_400_000;
  }

  // ------------------------------------------------------------------------- ordering

  predicate Before(a: Event, b: Event) {
    || a.timestamp < b.timestamp
    || (a.timestamp == b.timestamp && (a.session < b.session || (a.session == b.session && a.sequence <= b.sequence)))
  }

  ghost predicate InOrder(records: seq<Event>) {
    forall i, j :: 0 <= i < j < |records| ==> Before(records[i], records[j])
  }

  function Insert(e: Event, sorted: seq<Event>): seq<Event> {
    if sorted == [] || Before(e, sorted[0]) then [e] + sorted else [sorted[0]] + Insert(e, sorted[1..])
  }

  function Sorted(records: seq<Event>): seq<Event> {
    if records == [] then [] else Insert(records[0], Sorted(records[1..]))
  }

  lemma PrependKeepsOrder(e: Event, sorted: seq<Event>)
    requires InOrder(sorted) && (sorted == [] || Before(e, sorted[0]))
    ensures InOrder([e] + sorted)
  {
    forall j | 0 <= j < |sorted| ensures Before(e, sorted[j]) {
      assert j == 0 || Before(sorted[0], sorted[j]);
    }
  }

  lemma {:induction false} InsertKeepsOrder(e: Event, sorted: seq<Event>)
    requires InOrder(sorted)
    ensures InOrder(Insert(e, sorted)) && multiset(Insert(e, sorted)) == multiset(sorted) + multiset{e}
    ensures Insert(e, sorted)[0] == e || (sorted != [] && Insert(e, sorted)[0] == sorted[0])
    decreases |sorted|
  {
    if sorted == [] || Before(e, sorted[0]) {
      PrependKeepsOrder(e, sorted);
    } else {
      assert sorted == [sorted[0]] + sorted[1..];
      InsertKeepsOrder(e, sorted[1..]);
      PrependKeepsOrder(sorted[0], Insert(e, sorted[1..]));
    }
  }

  /** Sorting orders the records by time, session and sequence, and loses none. */
  lemma {:induction false} SortedIsOrdered(records: seq<Event>)
    ensures InOrder(Sorted(records)) && multiset(Sorted(records)) == multiset(records)
    ensures forall i, j :: 0 <= i < j < |Sorted(records)| ==>
              var a, b := Sorted(records)[i], Sorted(records)[j];
              && a.timestamp <= b.timestamp
              && (a.timestamp == b.timestamp ==>
                    a.session <= b.session && (a.session == b.session ==> a.sequence <= b.sequence))
    decreases |records|
  {
    if records != [] {
      SortedIsOrdered(records[1..]);
      InsertKeepsOrder(records[0], Sorted(records[1..]));
      assert records == [records[0]] + records[1..];
    }
  }

  lemma SortedHasSame(records: seq<Event>, e: Event)
    ensures e in Sorted(records) <==> e in records
  {
    SortedIsOrdered(records);
    assert e in multiset(Sorted(records)) <==> e in multiset(records);
  }

  // ---------------------------------------------------------------------- sequence gaps

  ghost predicate FullInterval(s: set<nat>) {
    forall x, y, z: nat :: x in s && y in s && x <= z <= y ==> z in s
  }

  function Sequences(records: seq<Event>, session: nat): set<nat> {
    set i | 0 <= i < |records| && records[i].session == session :: records[i].sequence
  }

  method Smallest(s: set<nat>) returns (least: nat)
    requires s != {}
    ensures least in s && forall x :: x in s ==> least <= x
  {
    least :| least in s;
    var left := s - {least};
    while left != {}
      invariant left <= s && least in s
      invariant forall x :: x in s && x !in left ==> least <= x
    {
      var x :| x in left;
      if x < least {
        least := x;
      }
      left := left - {x};
    }
  }

  /** Walks one session's sequence numbers upwards; no gap is found exactly when they form one interval. */
  method GapsIn(session: nat, s: set<nat>) returns (gaps: seq<(nat, nat, nat)>)
    ensures gaps == [] <==> FullInterval(s)
    ensures forall g :: g in gaps ==> g.0 == session && g.1 in s && g.2 in s && forall z :: g.1 < z < g.2 ==> z !in s
  {
    gaps := [];
    if s == {} {
      return;
    }
    var first := Smallest(s);
    var last := first;
    var left := s - {first};
    while left != {}
      invariant first <= last && last in s && first in s
      invariant forall x :: x in s ==> first <= x && (x in left <==> last < x)
      invariant gaps == [] <==> forall z :: first <= z <= last ==> z in s
      invariant forall g :: g in gaps ==>
                  g.0 == session && g.1 in s && g.2 in s && forall z :: g.1 < z < g.2 ==> z !in s
      invariant left <= s
    {
      var next := Smallest(left);
      if next != last + 1 {
        assert last + 1 !in s;
        gaps := gaps + [(session, last, next)];
      }
      left := left - {next};
      last := next;
    }
    assert FullInterval(s) ==> forall z :: first <= z <= last ==> z in s;
  }

  method GapsOfAll(perSession: map<nat, set<nat>>) returns (gaps: seq<(nat, nat, nat)>)
    ensures gaps == [] <==> forall session :: session in perSession ==> FullInterval(perSession[session])
  {
    gaps := [];
    var left := perSession.Keys;
    while left != {}
      invariant left <= perSession.Keys
      invariant gaps == [] <==> forall session :: session in perSession && session !in left ==>
                  FullInterval(perSession[session])
    {
      hide FullInterval;
      var session :| session in left;
      var found := GapsIn(session, perSession[session]);
      gaps := gaps + found;
      left := left - {session};
    }
  }

  /** No gap over all sessions, exactly when each session's sequences form one full interval. */
  method SequenceGaps(records: seq<Event>) returns (gaps: seq<(nat, nat, nat)>)
    ensures gaps == [] <==> forall session :: FullInterval(Sequences(records, session))
  {
    var perSession: map<nat, set<nat>> := map[];
    for i := 0 to |records|
      invariant forall session :: session in perSession <==> exists j :: 0 <= j < i && records[j].session == session
      invariant forall session :: session in perSession ==> perSession[session] == Sequences(records[..i], session)
    {
      var e := records[i];
      assert records[..i + 1] == records[..i] + [e];
      forall session ensures Sequences(records[..i + 1], session) ==
                             Sequences(records[..i], session) + (if session == e.session then {e.sequence} else {}) {
        SequencesGrow(records, i, session);
      }
      if e.session !in perSession {
        assert Sequences(records[..i], e.session) == {};
      }
      var known := if e.session in perSession then perSession[e.session] else {};
      perSession := perSession[e.session := known + {e.sequence}];
    }
    assert records[..|records|] == records;
    gaps := GapsOfAll(perSession);
    forall session | session !in perSession ensures FullInterval(Sequences(records, session)) {
      assert Sequences(records, session) == {};
    }
  }

  lemma SequencesGrow(records: seq<Event>, i: nat, session: nat)
    requires i < |records|
    ensures Sequences(records[..i + 1], session) ==
            Sequences(records[..i], session) + (if session == records[i].session then {records[i].sequence} else {})
  {
    var before, after := records[..i], records[..i + 1];
    forall x | x in Sequences(after, session)
      ensures x in Sequences(before, session) || (session == records[i].session && x == records[i].sequence)
    {
      var j :| 0 <= j < |after| && after[j].session == session && after[j].sequence == x;
      assert j < i ==> before[j] == after[j];
    }
    forall x | x in Sequences(before, session) ensures x in Sequences(after, session) {
      var j :| 0 <= j < |before| && before[j].session == session && before[j].sequence == x;
      assert after[j] == before[j];
    }
    if session == records[i].session {
      assert after[i] == records[i];
    }
  }

  // --------------------------------------------------------------------- final snapshot

  /** A replayed position may lose its open price, and nothing else. */
  predicate PositionMatches(stored: Position, reported: Position) {
    || stored == reported
    || (&& stored.open.Some? && reported.open.Some? && stored.rest == reported.rest
        && reported.open.value.value == Some(0.0)
        && stored.open.value.value.Some? && stored.open.value.value.value > 0.0)
  }

  predicate Restates(snapshot: Event, e: Event)
    requires snapshot.body.Snapshot?
  {
    && e.session == snapshot.session && e.account == snapshot.account
    && match e.body
       case AccountUpdate(row) => snapshot.body.accountRow == Some(row)
       case PositionUpdate(symbol, position) =>
         && snapshot.body.positions.Some? && symbol in snapshot.body.positions.value
         && PositionMatches(snapshot.body.positions.value[symbol], position)
       case _ => false
  }

  /** What is known of the account: its row and its positions. */
  datatype Book = Book(account: Option<string>, positions: Option<map<string, Position>>)

  /** The book once an event was taken in; other events do not say what they change. */
  function Updated(b: Book, e: Event): Book {
    match e.body
    case Snapshot(row, positions, _) => Book(row, positions)
    case AccountUpdate(row) => b.(account := Some(row))
    case PositionUpdate(symbol, p) =>
      b.(positions := Some((if b.positions.Some? then b.positions.value else map[])[symbol := p]))
    case OtherEvent(_) => b
  }

  function Replayed(b: Book, events: seq<Event>): Book
    decreases |events|
  {
    if events == [] then b else Updated(Replayed(b, events[..|events| - 1]), events[|events| - 1])
  }

  /**
   * An event restates a snapshot exactly when it is an account or position update of the
   * same session and account and leaves the snapshot's book as it was, except that a
   * positive open price may be reported as zero.
   */
  lemma RestatesExactlyWhen(snapshot: Event, e: Event)
    requires snapshot.body.Snapshot?
    ensures var book := Updated(Book(None, None), snapshot);
            Restates(snapshot, e) <==>
            && e.session == snapshot.session && e.account == snapshot.account
            && (e.body.AccountUpdate? || e.body.PositionUpdate?)
            && (|| Updated(book, e) == book
                || (&& e.body.PositionUpdate? && book.positions.Some? && e.body.symbol in book.positions.value
                    && var was, reported := book.positions.value[e.body.symbol], e.body.position;
                    && was.open.Some? && was.open.value.value.Some? && was.open.value.value.value > 0.0
                    && reported.open.Some? && reported.open.value.value == Some(0.0)
                    && was == reported.(open := was.open)))
  {
    var book := Updated(Book(None, None), snapshot);
    if e.body.PositionUpdate? {
      var known := if book.positions.Some? then book.positions.value else map[];
      if e.body.symbol in known && known[e.body.symbol] == e.body.position {
        assert known[e.body.symbol := e.body.position] == known;
      }
    }
  }

  /** The book is the snapshot's, up to positive open prices that are now reported as zero. */
  ghost predicate Stands(was: Book, now: Book) {
    && now.account == was.account
    && (now.positions.Some? <==> was.positions.Some?)
    && (was.positions.Some? ==>
          && now.positions.value.Keys == was.positions.value.Keys
          && forall symbol :: symbol in was.positions.value ==>
               PositionMatches(was.positions.value[symbol], now.positions.value[symbol]))
  }

  lemma {:induction false} RestatementsStand(snapshot: Event, events: seq<Event>)
    requires snapshot.body.Snapshot? && forall e :: e in events ==> Restates(snapshot, e)
    ensures Stands(Updated(Book(None, None), snapshot), Replayed(Updated(Book(None, None), snapshot), events))
    decreases |events|
  {
    if events != [] {
      RestatementsStand(snapshot, events[..|events| - 1]);
      assert Restates(snapshot, events[|events| - 1]);
    }
  }

  datatype SnapshotVerdict = Missing | QueryError | Final(at: nat)

  /** The last snapshot is clean and everything after it only restates it. */
  ghost predicate EndsInCleanSnapshot(records: seq<Event>, at: nat) {
    && at < |records| && records[at].body.Snapshot? && !records[at].body.queryErrors
    && forall j :: at < j < |records| ==> Restates(records[at], records[j])
  }

  /**
   * After a final snapshot nothing more is learnt: all that follows is of its session and
   * account, and replaying it leaves the account row, the symbols and every position as the
   * snapshot has them, but for positive open prices reported as zero.
   */
  lemma FinalSnapshotStands(records: seq<Event>, at: nat)
    requires EndsInCleanSnapshot(records, at)
    ensures var was := Updated(Book(None, None), records[at]);
            var now := Replayed(was, records[at + 1..]);
            && now.account == was.account
            && (now.positions.Some? <==> was.positions.Some?)
            && (was.positions.Some? ==>
                  && now.positions.value.Keys == was.positions.value.Keys
                  && forall symbol :: symbol in was.positions.value ==>
                       var p, q := was.positions.value[symbol], now.positions.value[symbol];
                       || q == p
                       || (&& p.open.Some? && p.open.value.value.Some? && p.open.value.value.value > 0.0
                           && q.open.Some? && q.open.value.value == Some(0.0) && q.rest == p.rest))
    ensures forall e :: e in records[at + 1..] ==>
              && e.session == records[at].session && e.account == records[at].account
              && (e.body.AccountUpdate? || e.body.PositionUpdate?)
  {
    forall e | e in records[at + 1..] ensures Restates(records[at], e) {
      var j :| 0 <= j < |records| - at - 1 && records[at + 1..][j] == e;
      assert records[at + 1 + j] == e;
    }
    RestatementsStand(records[at], records[at + 1..]);
    hide Replayed, Updated;
    assert forall e :: e in records[at + 1..] ==> Restates(records[at], e);
  }

  /** The last snapshot of all was taken with query errors. */
  ghost predicate LastSnapshotFailed(records: seq<Event>, at: nat) {
    && at < |records| && records[at].body.Snapshot? && records[at].body.queryErrors
    && forall j :: at < j < |records| ==> !records[j].body.Snapshot?
  }

  method FindFinalSnapshot(records: seq<Event>) returns (v: SnapshotVerdict)
    ensures v.Final? <==> exists at :: EndsInCleanSnapshot(records, at)
    ensures v.Final? ==> EndsInCleanSnapshot(records, v.at)
    ensures v.QueryError? <==> exists at :: LastSnapshotFailed(records, at)
  {
    var i := |records|;
    while i > 0 && !records[i - 1].body.Snapshot?
      invariant 0 <= i <= |records|
      invariant forall j :: i <= j < |records| ==> !records[j].body.Snapshot?
    {
      i := i - 1;
    }
    assert forall at :: EndsInCleanSnapshot(records, at) ==> at == i - 1;
    assert forall at :: LastSnapshotFailed(records, at) ==> at == i - 1;
    if i == 0 {
      return Missing;
    }
    if records[i - 1].body.queryErrors {
      assert LastSnapshotFailed(records, i - 1);
      return QueryError;
    }
    for k := i to |records|
      invariant forall j :: i <= j < k ==> Restates(records[i - 1], records[j])
    {
      if !Restates(records[i - 1], records[k]) {
        return Missing;
      }
    }
    assert EndsInCleanSnapshot(records, i - 1);
    v := Final(i - 1);
  }

  // ------------------------------------------------------------------------ file naming

  /** No other event anyone writes has this event's file name. */
  ghost predicate Sole(emits: Event -> bool, e: Event) {
    forall other :: emits(other) && NameOf(other) == NameOf(e) ==> other == e
  }

  function NamesOf(records: seq<Event>): seq<FileName> {
    seq(|records|, i requires 0 <= i < |records| => NameOf(records[i]))
  }

  lemma NamedMember(records: seq<Event>, name: FileName) returns (e: Event)
    requires name in NamesOf(records)
    ensures e in records && NameOf(e) == name
  {
    var i :| 0 <= i < |records| && NamesOf(records)[i] == name;
    e := records[i];
  }

  // --------------------------------------------------------------------------- archiver

  datatype Reason =
    | PendingInbox
    | QuarantinePresent
    | ProcessedCorruption
    | AccountMismatch
    | SequenceGap
    | FinalSnapshotMissing
    | FinalSnapshotQueryError
    | QuietPeriod

  datatype Outcome =
    | Archived(deleted: nat)
    | AlreadyArchived(deleted: nat)
    | LateEvents
    | NoData
    | NotReady(reasons: set<Reason>)

  datatype ArchiveError = Crashed | Integrity

  datatype Manifest = Manifest(day: nat, sources: seq<FileName>, events: seq<Event>)

  datatype Checkpoint = Checkpoint(archive: seq<Event>, manifest: Manifest)

  /** What the readiness checks promise about an archived day. */
  ghost predicate ReadyDay(records: seq<Event>, quiet: nat, now: int, requireFinal: bool) {
    && records != [] && InOrder(records)
    && (forall a, b :: a in records && b in records ==> a.account == b.account)
    && (forall session :: FullInterval(Sequences(records, session)))
    && (requireFinal ==> exists at: nat :: EndsInCleanSnapshot(records, at) && records[at].timestamp + quiet <= now)
    && (!requireFinal ==> forall e :: e in records ==> e.timestamp + quiet <= now)
  }

  /** Each objection to a day's records, and when it is raised. */
  ghost predicate ObjectsWhen(reasons: set<Reason>, records: seq<Event>, quiet: nat, now: int, requireFinal: bool) {
    && (AccountMismatch in reasons <==> exists a, b :: a in records && b in records && a.account != b.account)
    && (SequenceGap in reasons <==> exists session :: !FullInterval(Sequences(records, session)))
    && (FinalSnapshotQueryError in reasons <==> requireFinal && exists at :: LastSnapshotFailed(records, at))
    && (FinalSnapshotMissing in reasons <==>
        requireFinal && (forall at :: !LastSnapshotFailed(records, at))
        && (forall at :: !EndsInCleanSnapshot(records, at)))
    && (QuietPeriod in reasons <==>
        if requireFinal && exists at :: EndsInCleanSnapshot(records, at)
        then exists at: nat :: EndsInCleanSnapshot(records, at) && now < records[at].timestamp + quiet
        else exists e :: e in records && now < e.timestamp + quiet)
  }

  /** Some event of the day is in a directory. */
  ghost predicate HasEventOf(files: map<FileName, File>, day: nat) {
    exists name :: name in files && files[name].Readable? && DayOf(files[name].e.timestamp) == day
  }

  /** Some unreadable file of a directory is named after the day. */
  ghost predicate HasCorruptOf(files: map<FileName, File>, day: nat) {
    exists name :: name in files && files[name].Corrupt? && DayOf(name.timestamp) == day
  }

  /** Each objection to the directories the day is archived from, and when it is raised. */
  ghost predicate DirectoriesObjectWhen(reasons: set<Reason>, inbox: map<FileName, File>,
                                        processed: map<FileName, File>, quarantine: map<FileName, File>, day: nat) {
    && (PendingInbox in reasons <==> HasEventOf(inbox, day))
    && (QuarantinePresent in reasons <==> HasEventOf(quarantine, day) || HasCorruptOf(quarantine, day))
    && (ProcessedCorruption in reasons <==> HasCorruptOf(processed, day))
  }

  ghost predicate EachOnce(records: seq<Event>) { forall e :: multiset(records)[e] <= 1 }

  /** Every readable file of the day is among the records. */
  ghost predicate Collects(processed: map<FileName, File>, day: nat, records: seq<Event>) {
    forall name :: name in processed && processed[name].Readable? && DayOf(processed[name].e.timestamp) == day ==>
      processed[name].e in records
  }

  ghost predicate NoObjection(inbox: map<FileName, File>, processed: map<FileName, File>,
                              quarantine: map<FileName, File>, day: nat) {
    && !HasEventOf(inbox, day) && !HasCorruptOf(processed, day)
    && !HasEventOf(quarantine, day) && !HasCorruptOf(quarantine, day)
  }

  /**
   * What an uncommitted day gets: refused for just the objections that hold, empty, or
   * committed if nothing stops it.
   */
  ghost predicate Decided(r: Result<Outcome, ArchiveError>, records: seq<Event>, inbox: map<FileName, File>,
                          processed: map<FileName, File>, quarantine: map<FileName, File>, day: nat, quiet: nat,
                          now: int, requireFinal: bool) {
    && (r.Ok? ==> r.value.Archived? || r.value.NoData? || r.value.NotReady?)
    && (r.Ok? && r.value.NotReady? ==>
          && r.value.reasons != {} && DirectoriesObjectWhen(r.value.reasons, inbox, processed, quarantine, day)
          && (if records == [] then r.value.reasons <= {PendingInbox, QuarantinePresent, ProcessedCorruption}
              else ObjectsWhen(r.value.reasons, records, quiet, now, requireFinal)))
    && (r.Err? || !r.value.NotReady? ==>
          && NoObjection(inbox, processed, quarantine, day)
          && (if r.Ok? && r.value.NoData? then records == [] else ReadyDay(records, quiet, now, requireFinal)))
  }

  lemma DayFiles(files: map<FileName, File>, day: nat)
    ensures (exists name :: name in files && ForDay(files[name], name, day, false)) <==> HasEventOf(files, day)
    ensures (exists name :: name in files && ForDay(files[name], name, day, true)) <==>
            HasEventOf(files, day) || HasCorruptOf(files, day)
  {
    hide DayOf;
  }

  /** Objections to the directories leave those to the records as they are. */
  lemma MoreObjections(objections: set<Reason>, more: set<Reason>, records: seq<Event>, quiet: nat, now: int,
                       requireFinal: bool)
    requires ObjectsWhen(objections, records, quiet, now, requireFinal)
    requires more <= {PendingInbox, QuarantinePresent, ProcessedCorruption}
    ensures ObjectsWhen(more + objections, records, quiet, now, requireFinal)
  {
    hide FullInterval, EndsInCleanSnapshot, LastSnapshotFailed, Sequences;
  }

  lemma FinalIsInside(records: seq<Event>, at: nat)
    requires EndsInCleanSnapshot(records, at)
    ensures at < |records|
  {
  }

  /** The time the quiet period is counted from. */
  ghost predicate Anchors(records: seq<Event>, v: SnapshotVerdict, anchor: nat, requireFinal: bool) {
    if requireFinal && v.Final? then v.at < |records| && anchor == records[v.at].timestamp
    else records != [] && anchor == records[|records| - 1].timestamp
  }

  lemma SnapshotDecides(records: seq<Event>, v: SnapshotVerdict, anchor: nat, quiet: nat, now: int, requireFinal: bool)
    requires InOrder(records) && Anchors(records, v, anchor, requireFinal)
    requires requireFinal ==>
               && (v.Final? <==> exists at :: EndsInCleanSnapshot(records, at))
               && (v.Final? ==> EndsInCleanSnapshot(records, v.at))
               && (v.QueryError? <==> exists at :: LastSnapshotFailed(records, at))
    ensures requireFinal && v.Final? ==> forall at: nat :: EndsInCleanSnapshot(records, at) ==> at == v.at
    ensures forall e :: e in records ==> e.timestamp <= records[|records| - 1].timestamp
    ensures now < anchor + quiet <==>
            if requireFinal && exists at :: EndsInCleanSnapshot(records, at)
            then exists at: nat :: EndsInCleanSnapshot(records, at) && now < records[at].timestamp + quiet
            else exists e :: e in records && now < e.timestamp + quiet
  {
    hide Restates;
    if requireFinal && v.Final? {
      OneFinalSnapshot(records, v.at);
      assert EndsInCleanSnapshot(records, v.at);
    }
    hide EndsInCleanSnapshot;
    if !(requireFinal && v.Final?) {
      assert records[|records| - 1] in records;
      assert forall e :: e in records ==> e.timestamp <= anchor;
    }
  }

  /** The objections collected are those to be raised, and none is left exactly on a ready day. */
  lemma ObjectionsAreExact(records: seq<Event>, same: bool, gapless: bool, v: SnapshotVerdict, anchor: nat, quiet: nat,
                           now: int, requireFinal: bool, reasons: set<Reason>)
    requires records != [] && InOrder(records)
    requires same <==> forall a, b :: a in records && b in records ==> a.account == b.account
    requires gapless <==> forall session :: FullInterval(Sequences(records, session))
    requires requireFinal ==>
               && (v.Final? <==> exists at :: EndsInCleanSnapshot(records, at))
               && (v.Final? ==>
                     EndsInCleanSnapshot(records, v.at) && v.at < |records| && anchor == records[v.at].timestamp)
               && (v.QueryError? <==> exists at :: LastSnapshotFailed(records, at))
               && forall at: nat :: EndsInCleanSnapshot(records, at) ==> v.Final? && at == v.at
    requires !requireFinal ==> anchor == records[|records| - 1].timestamp
    requires forall e :: e in records ==> e.timestamp <= records[|records| - 1].timestamp
    requires now < anchor + quiet <==>
             if requireFinal && exists at :: EndsInCleanSnapshot(records, at)
             then exists at: nat :: EndsInCleanSnapshot(records, at) && now < records[at].timestamp + quiet
             else exists e :: e in records && now < e.timestamp + quiet
    requires reasons ==
             (if same then {} else {AccountMismatch}) + (if gapless then {} else {SequenceGap})
             + (if !requireFinal || v.Final? then {}
                else if v.Missing? then {FinalSnapshotMissing} else {FinalSnapshotQueryError})
             + (if now < anchor + quiet then {QuietPeriod} else {})
    ensures reasons == {} <==> ReadyDay(records, quiet, now, requireFinal)
    ensures ObjectsWhen(reasons, records, quiet, now, requireFinal)
  {
    hide FullInterval, Sequences, EndsInCleanSnapshot, LastSnapshotFailed, InOrder;
    assert reasons == {} <==> same && gapless && (requireFinal ==> v.Final?) && now >= anchor + quiet;
  }

  class DailySpoolArchiver {
    /** Which events anyone ever writes. */
    const emits: Event -> bool
    var inbox: map<FileName, File>
    var processed: map<FileName, File>
    var quarantine: map<FileName, File>
    var archives: map<nat, seq<Event>>
    var manifests: map<nat, Manifest>
    var checkpoints: map<nat, Checkpoint>
    var budget: nat
    /** Every event that was ever in `processed`, and the names in the order they arrived. */
    ghost var seen: iset<Event>
    ghost var arrivals: seq<FileName>

    constructor (emits: Event -> bool)
      ensures this.emits == emits && Safe()
      ensures processed == map[] && checkpoints == map[]
    {
      this.emits := emits;
      inbox, processed, quarantine, archives, manifests, checkpoints := map[], map[], map[], map[], map[], map[];
      budget := 0;
      seen := iset{};
      arrivals := [];
    }

    ghost predicate Kept(e: Event)
      reads `processed, `checkpoints
    {
      || (NameOf(e) in processed && processed[NameOf(e)] == Readable(e))
      || (DayOf(e.timestamp) in checkpoints && e in checkpoints[DayOf(e.timestamp)].archive)
    }

    ghost predicate FilesNamed()
      reads `processed, `seen
    {
      && (forall name :: name in processed && processed[name].Readable? ==>
            NameOf(processed[name].e) == name && emits(processed[name].e) && processed[name].e in seen)
      && forall e :: e in seen ==> emits(e)
    }

    /** Every committed day's archive and manifest are what its checkpoint says. */
    ghost predicate DaysCommitted()
      reads `archives, `manifests, `checkpoints
    {
      forall day :: day in checkpoints ==> Committed(day)
    }

    ghost predicate Committed(day: nat)
      requires day in checkpoints
      reads `archives, `manifests, `checkpoints
    {
      var c := checkpoints[day];
      && day in archives && archives[day] == c.archive
      && day in manifests && manifests[day] == c.manifest
      && c.manifest == Manifest(day, NamesOf(c.archive), c.archive)
      && forall e :: e in c.archive ==> emits(e) && DayOf(e.timestamp) == day
    }

    /** Nothing ever seen under a name of its own is lost. */
    ghost predicate Safe()
      reads `processed, `seen, `archives, `manifests, `checkpoints
    {
      FilesNamed() && DaysCommitted() && forall e :: e in seen && Sole(emits, e) ==> Kept(e)
    }

    /** Committed days are never rewritten, and other days are not touched. */
    twostate predicate KeepsCommitted(day: nat)
      reads this
    {
      && (forall d :: d in old(checkpoints) ==>
            && d in checkpoints && checkpoints[d] == old(checkpoints[d])
            && (d in old(archives) ==> d in archives && archives[d] == old(archives)[d])
            && (d in old(manifests) ==> d in manifests && manifests[d] == old(manifests)[d]))
      && (forall d :: d in checkpoints && d !in old(checkpoints) ==> d == day)
    }

    /** A file disappears only if the committed archive of its day has an event of its name. */
    twostate predicate DeletesOnlyArchived()
      reads this
    {
      forall name :: name in old(processed) && (name !in processed || processed[name] != old(processed)[name]) ==>
        DayOf(name.timestamp) in checkpoints && name in NamesOf(checkpoints[DayOf(name.timestamp)].archive)
    }

    method Spend() returns (alive: bool)
      modifies `budget
      ensures budget <= old(budget) && (alive <==> old(budget) > 0)
    {
      alive := budget > 0;
      if alive {
        budget := budget - 1;
      }
    }

    /** The receiver may add files at any time; it writes each event under its own name. */
    method Arrive()
      requires Safe()
      modifies `processed, `inbox, `quarantine, `seen, `arrivals
      ensures Safe()
      ensures forall name :: name in old(processed) ==> name in processed && processed[name] == old(processed)[name]
      ensures forall name :: name in processed && processed[name].Corrupt? ==> name in old(processed)
      ensures old(seen) <= seen && old(arrivals) <= arrivals
      ensures forall name :: name in processed && name !in old(processed) ==> name in arrivals[|old(arrivals)|..]
    {
      inbox, quarantine := *, *;
      var more: seq<Event> := *;
      for i := 0 to |more|
        invariant Safe() && old(seen) <= seen && old(arrivals) <= arrivals
        invariant forall name :: name in processed && name !in old(processed) ==> name in arrivals[|old(arrivals)|..]
        invariant forall name :: name in processed && processed[name].Corrupt? ==> name in old(processed)
        invariant forall name :: name in old(processed) ==> name in processed && processed[name] == old(processed)[name]
      {
        hide Safe, DayOf;
        ghost var before := arrivals;
        OneArrives(more[i]);
        LaterArrivals(old(arrivals), before, arrivals);
      }
    }

    method OneArrives(e: Event)
      requires Safe()
      modifies `processed, `seen, `arrivals
      ensures Safe() && old(seen) <= seen && old(arrivals) <= arrivals
      ensures forall name :: name in old(processed) ==> name in processed && processed[name] == old(processed)[name]
      ensures forall name :: name in processed && processed[name].Corrupt? ==> name in old(processed)
      ensures forall name :: name in processed && name !in old(processed) ==> name in arrivals[|old(arrivals)|..]
    {
      hide DayOf, Sole;
      if emits(e) && NameOf(e) !in processed {
        processed, seen, arrivals := processed[NameOf(e) := Readable(e)], seen + iset{e}, arrivals + [NameOf(e)];
        assert arrivals[|old(arrivals)|..] == [NameOf(e)];
      }
    }

    /** Reads every file of the day out of `processed`. */
    method CollectDay(day: nat) returns (records: seq<Event>, corrupted: bool)
      requires FilesNamed()
      ensures forall e ::
                e in records <==>
                NameOf(e) in processed && processed[NameOf(e)] == Readable(e) && DayOf(e.timestamp) == day
      ensures corrupted <==>
              exists name :: name in processed && processed[name].Corrupt? && DayOf(name.timestamp) == day
      ensures EachOnce(records)
    {
      records, corrupted := [], false;
      var left := processed.Keys;
      while left != {}
        invariant left <= processed.Keys
        invariant forall e :: e in records <==>
                    NameOf(e) in processed && NameOf(e) !in left && processed[NameOf(e)] == Readable(e)
                      && DayOf(e.timestamp) == day
        invariant corrupted <==>
                  exists name ::
                    name in processed && name !in left && processed[name].Corrupt? && DayOf(name.timestamp) == day
        invariant EachOnce(records)
      {
        var name :| name in left;
        left := left - {name};
        if processed[name].Corrupt? {
          corrupted := corrupted || DayOf(name.timestamp) == day;
        } else if DayOf(processed[name].e.timestamp) == day {
          records := records + [processed[name].e];
        }
      }
    }

    /** Some file of the directory belongs to the day; an unreadable one counts only where it is tolerated. */
    method AnyForDay(files: map<FileName, File>, day: nat, tolerateInvalid: bool) returns (present: bool)
      ensures present <==> exists name :: name in files && ForDay(files[name], name, day, tolerateInvalid)
    {
      present := false;
      var left := files.Keys;
      while left != {}
        invariant left <= files.Keys
        invariant present <==>
                  exists name :: name in files && name !in left && ForDay(files[name], name, day, tolerateInvalid)
      {
        var name :| name in left;
        left := left - {name};
        present := present || ForDay(files[name], name, day, tolerateInvalid);
      }
    }

    /** Removes one source of a committed archive, if it is there. */
    method RemoveSource(day: nat, name: FileName) returns (r: Result<bool, ArchiveError>)
      requires Safe() && day in checkpoints && name in manifests[day].sources
      modifies `processed, `budget
      ensures Safe() && DeletesOnlyArchived()
      ensures processed == old(processed) || processed == old(processed) - {name}
      ensures r.Ok? ==> name !in processed && r.value == (name in old(processed))
      ensures r.Err? ==> r.error == Crashed && budget == 0
    {
      hide DayOf, Sole;
      var alive := Spend();
      if !alive {
        return Err(Crashed);
      }
      r := Ok(false);
      if name in processed {
        SourceIsArchived(day, name);
        processed := processed - {name};
        r := Ok(true);
      }
    }

    /** Removes the sources of a committed archive, one by one, while new files may arrive. */
    method DeleteSources(day: nat) returns (r: Result<nat, ArchiveError>)
      requires Safe() && day in checkpoints
      modifies `processed, `inbox, `quarantine, `seen, `arrivals, `budget
      ensures Safe() && DeletesOnlyArchived() && old(seen) <= seen && old(arrivals) <= arrivals
      ensures r.Ok? ==> forall name :: name in old(manifests)[day].sources && name in processed ==>
                name in arrivals[|old(arrivals)|..]
      ensures r.Err? ==> r.error == Crashed && budget == 0
    {
      CommittedHasManifest(day);
      hide DayOf, Sole, Safe;
      var sources := manifests[day].sources;
      var deleted := 0;
      for i := 0 to |sources|
        invariant Safe() && DeletesOnlyArchived() && old(seen) <= seen && old(arrivals) <= arrivals
        invariant forall name :: name in sources[..i] && name in processed ==> name in arrivals[|old(arrivals)|..]
      {
        ghost var arrived := arrivals;
        Arrive();
        LaterArrivals(old(arrivals), arrived, arrivals);
        var removed := RemoveSource(day, sources[i]);
        if removed.Err? {
          return Err(removed.error);
        }
        deleted := deleted + (if removed.value then 1 else 0);
      }
      r := Ok(deleted);
    }

    /** The source's name stands for an archived event of the day, and for no other if that name is unshared. */
    lemma SourceIsArchived(day: nat, name: FileName)
      requires DaysCommitted() && day in checkpoints && name in manifests[day].sources
      ensures DayOf(name.timestamp) == day && name in NamesOf(checkpoints[day].archive)
      ensures forall e :: NameOf(e) == name && emits(e) && Sole(emits, e) ==>
                DayOf(e.timestamp) == day && e in checkpoints[day].archive
    {
      hide DayOf;
      assert Committed(day);
      var a := NamedMember(checkpoints[day].archive, name);
    }

    lemma CommittedHasManifest(day: nat)
      requires Safe() && day in checkpoints
      ensures day in archives && day in manifests
    {
      assert Committed(day);
    }

    /** A committed day only has its remaining sources removed, and not even that if new events turned up. */
    method RecoverCommittedDay(day: nat) returns (r: Result<Outcome, ArchiveError>)
      requires Safe() && day in checkpoints
      modifies `processed, `inbox, `quarantine, `seen, `arrivals, `budget
      ensures Safe() && DeletesOnlyArchived() && old(seen) <= seen
      ensures r.Ok? ==> r.value.AlreadyArchived? || (r.value == LateEvents && processed == old(processed))
      ensures r.Err? ==> r.error == Crashed && budget == 0
      ensures old(arrivals) <= arrivals
      ensures r.Ok? && r.value.AlreadyArchived? ==>
                forall name :: name in old(manifests)[day].sources && name in processed ==>
                  name in arrivals[|old(arrivals)|..]
      ensures r == Ok(LateEvents) <==>
                exists name :: name in old(processed) && old(processed)[name].Readable?
                  && DayOf(old(processed)[name].e.timestamp) == day
                               && name !in old(manifests)[day].sources
    {
      hide DayOf, Sole;
      var c := checkpoints[day];
      if day !in archives || day !in manifests || archives[day] != c.archive || manifests[day] != c.manifest {
        return Err(Integrity);
      }
      var records, _ := CollectDay(day);
      for i := 0 to |records|
        invariant forall j :: 0 <= j < i ==> NameOf(records[j]) in manifests[day].sources
      {
        if NameOf(records[i]) !in manifests[day].sources {
          assert records[i] in records;
          return Ok(LateEvents);
        }
      }
      assert forall e :: e in records ==> NameOf(e) in manifests[day].sources;
      var deleted := DeleteSources(day);
      r := if deleted.Ok? then Ok(AlreadyArchived(deleted.value)) else Err(deleted.error);
    }

    /** The checks over one day's sorted records; none objects exactly when the day is ready. */
    method Readiness(records: seq<Event>, quiet: nat, now: int, requireFinal: bool) returns (reasons: set<Reason>)
      requires records != [] && InOrder(records)
      ensures reasons == {} <==> ReadyDay(records, quiet, now, requireFinal)
      ensures ObjectsWhen(reasons, records, quiet, now, requireFinal)
      ensures reasons !! {PendingInbox, QuarantinePresent, ProcessedCorruption}
    {
      hide FullInterval, Restates, ReadyDay, ObjectsWhen, EndsInCleanSnapshot, LastSnapshotFailed;
      var same := OneAccount(records);
      var gaps := SequenceGaps(records);
      var verdict := if requireFinal then None else Some(Missing);
      var anchor := records[|records| - 1].timestamp;
      if requireFinal {
        var found := FindFinalSnapshot(records);
        verdict := Some(found);
        if found.Final? {
          FinalIsInside(records, found.at);
          anchor := records[found.at].timestamp;
        }
      }
      reasons := (if same then {} else {AccountMismatch}) + (if gaps == [] then {} else {SequenceGap})
      + (if !requireFinal || verdict.value.Final? then {}
         else if verdict.value.Missing? then {FinalSnapshotMissing} else {FinalSnapshotQueryError})
      + (if now < anchor + quiet then {QuietPeriod} else {});
      SnapshotDecides(records, verdict.value, anchor, quiet, now, requireFinal);
      ObjectionsAreExact(records, same, gaps == [], verdict.value, anchor, quiet, now, requireFinal, reasons);
    }

    /** All records name one account. */
    method OneAccount(records: seq<Event>) returns (same: bool)
      ensures same <==> forall a, b :: a in records && b in records ==> a.account == b.account
    {
      same := true;
      for i := 0 to |records|
        invariant same <==> forall j :: 0 <= j < i ==> records[j].account == records[0].account
      {
        same := same && records[i].account == records[0].account;
      }
    }

    /** Lists the day while files keep arriving: everything that was there when it began is found. */
    method GatherDay(day: nat) returns (records: seq<Event>, corrupted: bool)
      requires Safe()
      modifies `processed, `inbox, `quarantine, `seen, `arrivals
      ensures Safe() && old(seen) <= seen
      ensures forall name :: name in old(processed) ==> name in processed && processed[name] == old(processed)[name]
      ensures forall e :: e in records ==> emits(e) && DayOf(e.timestamp) == day
      ensures corrupted <==> HasCorruptOf(old(processed), day)
      ensures EachOnce(records) && forall e :: e in records ==> e in seen
      ensures forall name ::
                (name in old(processed) && old(processed)[name].Readable?
                 && DayOf(old(processed)[name].e.timestamp) == day) ==>
                  old(processed)[name].e in records
    {
      hide DayOf, Sole;
      Arrive();
      records, corrupted := CollectDay(day);
      Arrive();
    }

    /** The records are events of the day that were there, each once. */
    ghost predicate CollectsOnly(day: nat, records: seq<Event>)
      reads `seen
    {
      EachOnce(records) && forall e :: e in records ==> e in seen && DayOf(e.timestamp) == day
    }

    /** Looks through the three directories, and collects the day's events. */
    method SurveyDay(day: nat) returns (found: seq<Event>, reasons: set<Reason>)
      requires Safe()
      modifies `processed, `inbox, `quarantine, `seen, `arrivals
      ensures Safe() && old(seen) <= seen
      ensures forall name :: name in old(processed) ==> name in processed && processed[name] == old(processed)[name]
      ensures forall e :: e in found ==> emits(e) && DayOf(e.timestamp) == day && e in seen
      ensures EachOnce(found)
      ensures Collects(old(processed), day, found)
      ensures DirectoriesObjectWhen(reasons, old(inbox), old(processed), old(quarantine), day)
      ensures reasons <= {PendingInbox, QuarantinePresent, ProcessedCorruption}
    {
      hide DayOf, Sole, Safe, ForDay, HasEventOf, HasCorruptOf;
      var pending := AnyForDay(inbox, day, false);
      var quarantined := AnyForDay(quarantine, day, true);
      DayFiles(inbox, day);
      DayFiles(quarantine, day);
      var corrupted;
      found, corrupted := GatherDay(day);
      reasons := (if pending then {PendingInbox} else {}) + (if quarantined then {QuarantinePresent} else {})
                 + (if corrupted then {ProcessedCorruption} else {});
    }

    /**
     * Archives a ready day. However it ends, nothing ever seen under a name
     * of its own is lost, committed days keep their archives, and only files
     * with an archived name were removed. An uncommitted day is refused
     * exactly for the objections that hold, and otherwise committed, ready and
     * complete, unless a crash stops it.
     */
    method ArchiveDay(day: nat, quiet: nat, now: int, requireFinal: bool, operations: nat)
      returns (r: Result<Outcome, ArchiveError>, ghost records: seq<Event>)
      requires Safe()
      modifies this
      ensures Safe() && DeletesOnlyArchived() && KeepsCommitted(day)
      ensures r.Err? ==> r.error == Crashed && budget == 0
      ensures day in old(checkpoints) ==> checkpoints == old(checkpoints)
      ensures day in old(checkpoints) && r.Ok? ==> r.value.AlreadyArchived? || r.value.LateEvents?
      ensures day !in old(checkpoints) ==>
                && Collects(old(processed), day, records) && CollectsOnly(day, records)
                && Decided(r, records, old(inbox), old(processed), old(quarantine), day, quiet, now, requireFinal)
                && (day in checkpoints ==>
                      checkpoints[day].archive == records && ReadyDay(records, quiet, now, requireFinal)
                      && NoObjection(old(inbox), old(processed), old(quarantine), day))
                && (r.Ok? && !r.value.Archived? ==> archives == old(archives) && checkpoints == old(checkpoints))
      ensures r.Ok? && r.value.Archived? ==> day in checkpoints && day !in old(checkpoints)
    {
      hide Safe, DayOf, Decided, ReadyDay, Collects, NoObjection, CollectsOnly;
      budget, records := operations, [];
      if day in checkpoints {
        r := RecoverCommittedDay(day);
      } else {
        r, records := ArchiveFresh(day, quiet, now, requireFinal);
      }
    }

    /** A day without a checkpoint. */
    method ArchiveFresh(day: nat, quiet: nat, now: int, requireFinal: bool)
      returns (r: Result<Outcome, ArchiveError>, ghost records: seq<Event>)
      requires Safe() && day !in checkpoints
      modifies this
      ensures Safe() && DeletesOnlyArchived() && KeepsCommitted(day)
      ensures r.Err? ==> r.error == Crashed && budget == 0
      ensures Collects(old(processed), day, records) && CollectsOnly(day, records)
      ensures Decided(r, records, old(inbox), old(processed), old(quarantine), day, quiet, now, requireFinal)
      ensures day in checkpoints ==>
                checkpoints[day].archive == records && ReadyDay(records, quiet, now, requireFinal)
                && NoObjection(old(inbox), old(processed), old(quarantine), day)
      ensures r.Ok? && !r.value.Archived? ==> archives == old(archives) && checkpoints == old(checkpoints)
      ensures r.Ok? && r.value.Archived? ==> day in checkpoints
    {
      hide DayOf, Sole, ReadyDay, InOrder, Safe, NamesOf, Sorted, NameOf, ObjectsWhen, HasEventOf, HasCorruptOf;
      assert EachOnce([]);
      var found, reasons := SurveyDay(day);
      if found == [] {
        return Ok(if reasons == {} then NoData else NotReady(reasons)), [];
      }
      var sorted := Sorted(found);
      records := sorted;
      SortedIsOrdered(found);
      SortedLists(found);
      var objections := Readiness(sorted, quiet, now, requireFinal);
      MoreObjections(objections, reasons, records, quiet, now, requireFinal);
      if reasons + objections != {} {
        return Ok(NotReady(reasons + objections)), records;
      }
      r := CommitDay(day, sorted);
    }

    /** The archive and manifest of an uncommitted day can be written over; nothing relies on them yet. */
    method WriteArchive(day: nat, records: seq<Event>) returns (r: Result<(), ArchiveError>)
      requires Safe() && day !in checkpoints
      modifies `archives, `manifests, `budget
      ensures Safe() && KeepsCommitted(day)
      ensures r.Ok? ==> day in archives && archives[day] == records
      ensures r.Ok? ==> day in manifests && manifests[day] == Manifest(day, NamesOf(records), records)
      ensures r.Err? ==> r.error == Crashed && budget == 0
    {
      hide FilesNamed, Kept;
      var alive := Spend();
      if !alive {
        return Err(Crashed);
      }
      archives := archives[day := records];
      alive := Spend();
      if !alive {
        return Err(Crashed);
      }
      manifests := manifests[day := Manifest(day, NamesOf(records), records)];
      r := if archives[day] == manifests[day].events then Ok(()) else Err(Integrity);
    }

    /** The checkpoint is the commit: one write, after which the day counts as archived. */
    method WriteCheckpoint(day: nat, records: seq<Event>) returns (r: Result<(), ArchiveError>)
      requires Safe() && day !in checkpoints
      requires forall e :: e in records ==> emits(e) && DayOf(e.timestamp) == day
      requires day in archives && archives[day] == records
      requires day in manifests && manifests[day] == Manifest(day, NamesOf(records), records)
      modifies `checkpoints, `budget
      ensures Safe() && KeepsCommitted(day)
      ensures if r.Ok? then day in checkpoints && checkpoints[day] == Checkpoint(records, manifests[day])
              else checkpoints == old(checkpoints)
      ensures r.Err? ==> r.error == Crashed && budget == 0
    {
      hide FilesNamed, DayOf;
      var alive := Spend();
      if !alive {
        return Err(Crashed);
      }
      checkpoints := checkpoints[day := Checkpoint(records, manifests[day])];
      r := Ok(());
    }

    /** A ready day is committed first and only then loses its source files. */
    method CommitDay(day: nat, records: seq<Event>) returns (r: Result<Outcome, ArchiveError>)
      requires Safe() && day !in checkpoints
      requires forall e :: e in records ==> emits(e) && DayOf(e.timestamp) == day
      modifies this
      ensures Safe() && DeletesOnlyArchived() && KeepsCommitted(day) && old(seen) <= seen
      ensures day in checkpoints ==> checkpoints[day].archive == records
      ensures r.Ok? ==> r.value.Archived? && day in checkpoints
      ensures r.Err? ==> r.error == Crashed && budget == 0
    {
      hide DayOf, Sole, Safe;
      var written := WriteArchive(day, records);
      if written.Err? {
        return Err(written.error);
      }
      written := WriteCheckpoint(day, records);
      if written.Err? {
        return Err(written.error);
      }
      if day !in archives || day !in manifests || archives[day] != checkpoints[day].archive
        || manifests[day] != checkpoints[day].manifest {
        return Err(Integrity);
      }
      var deleted := DeleteSources(day);
      r := if deleted.Ok? then Ok(Outcome.Archived(deleted.value)) else Err(deleted.error);
    }
  }

  /** Everything after a final snapshot restates it, so it is the last one. */
  lemma OneFinalSnapshot(records: seq<Event>, at: nat)
    requires EndsInCleanSnapshot(records, at)
    ensures forall other: nat :: EndsInCleanSnapshot(records, other) ==> other == at
  {
    hide Restates;
    forall other: nat | EndsInCleanSnapshot(records, other) && other < at ensures false {
      RestatementIsNoSnapshot(records[other], records[at]);
    }
    forall other: nat | EndsInCleanSnapshot(records, other) && at < other ensures false {
      RestatementIsNoSnapshot(records[at], records[other]);
    }
  }

  lemma RestatementIsNoSnapshot(snapshot: Event, e: Event)
    requires snapshot.body.Snapshot?
    ensures Restates(snapshot, e) ==> !e.body.Snapshot?
  {
  }

  lemma SortedLists(records: seq<Event>)
    ensures forall e :: e in Sorted(records) <==> e in records
    ensures Sorted(records) == [] <==> records == []
  {
    forall e ensures e in Sorted(records) <==> e in records {
      SortedHasSame(records, e);
    }
    SortedIsOrdered(records);
    assert |multiset(Sorted(records))| == |Sorted(records)| && |multiset(records)| == |records|;
  }

  predicate ForDay(file: File, name: FileName, day: nat, tolerateInvalid: bool) {
    match file
    case Readable(e) => DayOf(e.timestamp) == day
    case Corrupt => tolerateInvalid && DayOf(name.timestamp) == day
  }

  lemma LaterArrivals(a: seq<FileName>, b: seq<FileName>, c: seq<FileName>)
    requires a <= b <= c
    ensures forall name :: name in b[|a|..] || name in c[|b|..] ==> name in c[|a|..]
  {
    assert c[|a|..] == b[|a|..] + c[|b|..];
  }
}
