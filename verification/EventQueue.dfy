/**
 * The bridge's bounded event queue (BIGQMT_EXECUTION_BRIDGE_V05.py) and the
 * gap and resynchronisation rule of the ingress that reads it
 * (tools/verify_bridge_protocol_exhaustive.py), separately and together.
 */
module EventQueue {
  import opened Basics

  /** One emitted event; `clean` marks a snapshot without query errors. */
  datatype Event = Event(sequence: nat, clean: bool, payload: string)

  const MAX_QUEUED_EVENTS: nat := 512

  datatype Fate = Persisted | Drained | Dropped

  // ---------------------------------------------------------------------------- queue

  function CountOf(fates: seq<Fate>, f: Fate): nat {
    if fates == [] then 0 else CountOf(fates[..|fates| - 1], f) + (if fates[|fates| - 1] == f then 1 else 0)
  }

  lemma {:induction false} CountAppends(fates: seq<Fate>, more: Fate, n: nat, f: Fate)
    ensures CountOf(fates + seq(n, _ => more), f) == CountOf(fates, f) + (if f == more then n else 0)
    decreases n
  {
    var added: seq<Fate> := seq(n, _ => more);
    if n == 0 {
      assert fates + added == fates;
    } else {
      var fewer: seq<Fate> := seq(n - 1, _ => more);
      assert (fates + added)[..|fates + added| - 1] == fates + fewer;
      CountAppends(fates, more, n - 1, f);
    }
  }

  /** Every event left the queue in exactly one way. */
  lemma {:induction false} CountsPartition(fates: seq<Fate>)
    ensures CountOf(fates, Persisted) + CountOf(fates, Drained) + CountOf(fates, Dropped) == |fates|
    decreases |fates|
  {
    if fates != [] {
      CountsPartition(fates[..|fates| - 1]);
    }
  }

  /** Events that were handed on, in the order they were emitted. */
  function Sent(emitted: seq<Event>, fates: seq<Fate>): seq<Event>
    requires |fates| <= |emitted|
  {
    if fates == [] then []
    else
      var last := |fates| - 1;
      Sent(emitted, fates[..last]) + (if fates[last] == Dropped then [] else [emitted[last]])
  }

  ghost predicate Numbered(emitted: seq<Event>) {
    forall i :: 0 <= i < |emitted| ==> emitted[i].sequence == i + 1
  }

  /** The spool holds exactly persisted events: those settled so, and `more` from the front of the queue. */
  ghost predicate SpoolHolds(inbox: map<nat, Event>, emitted: seq<Event>, fates: seq<Fate>, more: nat) {
    && |fates| + more <= |emitted|
    && (forall i :: 0 <= i < |fates| && fates[i] == Persisted ==> i + 1 in inbox)
    && (forall n: nat :: |fates| < n <= |fates| + more ==> n in inbox)
    && (forall n :: n in inbox ==> 1 <= n <= |fates| + more && inbox[n] == emitted[n - 1])
  }

  lemma FrontPersisted(inbox: map<nat, Event>, emitted: seq<Event>, fates: seq<Fate>, n: nat)
    requires SpoolHolds(inbox, emitted, fates, n)
    ensures SpoolHolds(inbox, emitted, fates + seq(n, _ => Persisted), 0)
  {
  }

  lemma FrontSettled(inbox: map<nat, Event>, emitted: seq<Event>, fates: seq<Fate>, n: nat, f: Fate)
    requires SpoolHolds(inbox, emitted, fates, 0) && |fates| + n <= |emitted| && f != Persisted
    ensures SpoolHolds(inbox, emitted, fates + seq(n, _ => f), 0)
  {
  }

  lemma SpoolHoldsLonger(inbox: map<nat, Event>, emitted: seq<Event>, fates: seq<Fate>, e: Event)
    requires SpoolHolds(inbox, emitted, fates, 0)
    ensures SpoolHolds(inbox, emitted + [e], fates, 0)
  {
  }

  class BridgeQueue {
    var sequence: nat
    var events: seq<Event>
    var droppedEvents: nat
    var transportFailures: nat
    var transportPersisted: nat
    /** Frames in the spool directory, by sequence number. */
    var inbox: map<nat, Event>
    /** Every event of the session, and how each one that left the queue left it. */
    ghost var emitted: seq<Event>
    ghost var fates: seq<Fate>

    constructor ()
      ensures Valid() && emitted == [] && inbox == map[]
    {
      sequence, events, droppedEvents, transportFailures, transportPersisted, inbox := 0, [], 0, 0, 0, map[];
      emitted, fates := [], [];
    }

    /** The queue is the not yet accounted for end of the session, and within its bound. */
    ghost predicate Valid()
      reads this
    {
      && Numbered(emitted) && sequence == |emitted|
      && |fates| <= |emitted| && events == emitted[|fates|..]
      && |events| <= MAX_QUEUED_EVENTS
      && droppedEvents == CountOf(fates, Dropped)
      && transportPersisted == CountOf(fates, Persisted)
      && SpoolHolds(inbox, emitted, fates, 0)
    }

    /** Emits one event; a full queue loses its oldest. */
    method Enqueue(clean: bool, payload: string) returns (body: Event)
      requires Valid()
      modifies this
      ensures Valid() && inbox == old(inbox) && transportPersisted == old(transportPersisted)
      ensures body == Event(old(sequence) + 1, clean, payload) && emitted == old(emitted) + [body]
      ensures if |old(events)| < 512 then fates == old(fates) && droppedEvents == old(droppedEvents)
              else fates == old(fates) + [Dropped] && droppedEvents == old(droppedEvents) + 1
    {
      hide CountOf, SpoolHolds;
      sequence := sequence + 1;
      body := Event(sequence, clean, payload);
      if |events| >= MAX_QUEUED_EVENTS {
        events := events[1..];
        droppedEvents := droppedEvents + 1;
        CountAppends(fates, Dropped, 1, Dropped);
        CountAppends(fates, Dropped, 1, Persisted);
        assert fates + seq(1, _ => Dropped) == fates + [Dropped];
        FrontSettled(inbox, emitted, fates, 1, Dropped);
        fates := fates + [Dropped];
      }
      events := events + [body];
      SpoolHoldsLonger(inbox, emitted, fates, body);
      emitted := emitted + [body];
    }

    /** Hands over the first events without writing them. */
    method DrainEvents(maxItems: int) returns (items: seq<Event>)
      requires Valid()
      modifies `events, `fates
      ensures Valid()
      ensures var n := if maxItems < 0 then 0 else if maxItems < |old(events)| then maxItems else |old(events)|;
              && items == old(events)[..n] && events == old(events)[n..]
              && fates == old(fates) + seq(n, _ => Drained)
    {
      var n := if maxItems < 0 then 0 else if maxItems < |events| then maxItems else |events|;
      items := events[..n];
      events := events[n..];
      CountAppends(fates, Drained, n, Dropped);
      CountAppends(fates, Drained, n, Persisted);
      FrontSettled(inbox, emitted, fates, n, Drained);
      fates := fates + seq(n, _ => Drained);
    }

    /** Writes one frame, unless a frame of that name is already there. */
    method PersistEvent(e: Event, works: bool) returns (ok: bool)
      modifies `inbox
      ensures ok <==> e.sequence in old(inbox) || works
      ensures inbox == if ok && e.sequence !in old(inbox) then old(inbox)[e.sequence := e] else old(inbox)
    {
      if e.sequence in inbox {
        return true;
      }
      if works {
        inbox := inbox[e.sequence := e];
      }
      ok := works;
    }

    /** Writes the first events in order, up to the limit or the first write that fails. */
    method PersistFront(limit: nat, works: nat -> bool) returns (persisted: nat)
      requires Valid() && limit <= |events|
      modifies `inbox
      ensures persisted <= limit && (persisted < limit ==> !works(persisted))
      ensures SpoolHolds(inbox, emitted, fates, persisted)
      ensures forall n :: n in old(inbox) ==> n in inbox && inbox[n] == old(inbox)[n]
    {
      persisted := 0;
      while persisted < limit
        invariant persisted <= limit && SpoolHolds(inbox, emitted, fates, persisted)
        invariant forall n :: n in old(inbox) ==> n in inbox && inbox[n] == old(inbox)[n]
      {
        hide CountOf;
        var ok := PersistEvent(events[persisted], works(persisted));
        if !ok {
          return;
        }
        persisted := persisted + 1;
      }
    }

    /**
     * Persists from the front until a write fails. What was written leaves the
     * queue; the event that failed and all after it stay.
     */
    method FlushTransport(maxItems: int, works: nat -> bool) returns (persisted: nat)
      requires Valid()
      modifies this
      ensures Valid() && sequence == old(sequence) && emitted == old(emitted) && droppedEvents == old(droppedEvents)
      ensures var limit := if maxItems < 0 then 0 else if maxItems < |old(events)| then maxItems else |old(events)|;
              && persisted <= limit && events == old(events)[persisted..]
              && fates == old(fates) + seq(persisted, _ => Persisted)
              && transportFailures == old(transportFailures) + (if persisted < limit then 1 else 0)
              && (persisted < limit ==> !works(persisted))
      ensures forall n :: n in old(inbox) ==> n in inbox && inbox[n] == old(inbox)[n]
    {
      hide CountOf, SpoolHolds;
      var limit := if maxItems < 0 then 0 else if maxItems < |events| then maxItems else |events|;
      persisted := PersistFront(limit, works);
      if persisted < limit {
        transportFailures := transportFailures + 1;
      }
      events := events[persisted..];
      transportPersisted := transportPersisted + persisted;
      CountAppends(fates, Persisted, persisted, Dropped);
      CountAppends(fates, Persisted, persisted, Persisted);
      FrontPersisted(inbox, emitted, fates, persisted);
      fates := fates + seq(persisted, _ => Persisted);
    }

    /** Conservation: every emitted event was persisted, drained or dropped, or is still queued. */
    lemma Conserved()
      requires Valid()
      ensures sequence == transportPersisted + CountOf(fates, Drained) + droppedEvents + |events|
    {
      CountsPartition(fates);
    }
  }

  // -------------------------------------------------------------------------- ingress

  datatype Ingress = Ingress(session: Option<string>, lastSequence: nat, needsResync: bool)

  datatype Case = Case(instance: string, fingerprint: string, session: string, sequence: nat, clean: bool)

  datatype Disposition = Accepted | Duplicate | Gap | IdentityError

  datatype Identity = Identity(instance: string, fingerprint: string)

  const InitialIngress := Ingress(None, 0, true)

  predicate IsOurs(id: Identity, c: Case) { c.instance == id.instance && c.fingerprint == id.fingerprint }

  function IngestCase(id: Identity, s: Ingress, c: Case): (Ingress, Disposition) {
    if !IsOurs(id, c) then (s, IdentityError)
    else
      var entered := if s.session != Some(c.session) then Ingress(Some(c.session), 0, true) else s;
      if c.sequence <= entered.lastSequence then (entered, Duplicate)
      else
        var gap := entered.lastSequence != 0 && c.sequence != entered.lastSequence + 1;
        (Ingress(entered.session, c.sequence, (entered.needsResync || gap) && !c.clean), if gap then Gap else Accepted)
  }

  class Oracle {
    var session: Option<string>
    var lastSequence: nat
    var needsResync: bool

    constructor ()
      ensures State() == InitialIngress
    {
      session, lastSequence, needsResync := None, 0, true;
    }

    ghost function State(): Ingress
      reads this
    {
      Ingress(session, lastSequence, needsResync)
    }

    method Ingest(id: Identity, c: Case) returns (disposition: Disposition)
      modifies this
      ensures (State(), disposition) == IngestCase(id, old(State()), c)
    {
      if c.instance != id.instance || c.fingerprint != id.fingerprint {
        return IdentityError;
      }
      if session != Some(c.session) {
        session, lastSequence, needsResync := Some(c.session), 0, true;
      }
      if c.sequence <= lastSequence {
        return Duplicate;
      }
      disposition := Accepted;
      if lastSequence != 0 && c.sequence != lastSequence + 1 {
        disposition := Gap;
        needsResync := true;
      }
      lastSequence := c.sequence;
      if c.clean {
        needsResync := false;
      }
    }
  }

  function RunIngress(id: Identity, cases: seq<Case>): Ingress {
    if cases == [] then InitialIngress
    else IngestCase(id, RunIngress(id, cases[..|cases| - 1]), cases[|cases| - 1]).0
  }

  /** The events of the current session that were taken in, in order. */
  function Taken(id: Identity, cases: seq<Case>): seq<Case> {
    if cases == [] then []
    else
      var before := cases[..|cases| - 1];
      var c := cases[|cases| - 1];
      if !IsOurs(id, c) then Taken(id, before)
      else if RunIngress(id, before).session != Some(c.session) then (if c.sequence == 0 then [] else [c])
      else if c.sequence <= RunIngress(id, before).lastSequence then Taken(id, before)
      else Taken(id, before) + [c]
  }

  /** From a clean snapshot at `at` on, every event followed its predecessor without a gap. */
  ghost predicate CleanTail(taken: seq<Case>, at: nat) {
    && at < |taken| && taken[at].clean
    && forall j :: at < j < |taken| ==> taken[j].sequence == taken[j - 1].sequence + 1
  }

  ghost predicate InSync(taken: seq<Case>) { exists at: nat :: CleanTail(taken, at) }

  lemma TakingOneMore(taken: seq<Case>, c: Case)
    requires taken != []
    ensures InSync(taken + [c]) <==> c.clean || (InSync(taken) && c.sequence == taken[|taken| - 1].sequence + 1)
  {
    var n := taken + [c];
    if c.clean {
      assert CleanTail(n, |taken|);
    }
    if InSync(taken) && c.sequence == taken[|taken| - 1].sequence + 1 {
      var at: nat :| CleanTail(taken, at);
      assert CleanTail(n, at);
    }
    if InSync(n) && !c.clean {
      var at: nat :| CleanTail(n, at);
      assert n[|taken|].sequence == n[|taken| - 1].sequence + 1;
      assert forall j :: 0 <= j < |taken| ==> taken[j] == n[j];
      assert CleanTail(taken, at);
    }
  }

  /**
   * For every stream of events, duplicates, gaps, foreign events and session
   * changes: no resynchronisation is needed exactly when a clean snapshot of
   * the current session was taken in and nothing was missed since.
   */
  lemma {:induction false} SyncedExactlyWhenContiguous(id: Identity, cases: seq<Case>)
    ensures var s, taken := RunIngress(id, cases), Taken(id, cases);
            && s.lastSequence == (if taken == [] then 0 else taken[|taken| - 1].sequence)
            && (taken != [] ==> s.lastSequence > 0)
            && (!s.needsResync <==> InSync(taken))
    decreases |cases|
  {
    if cases != [] {
      var before := cases[..|cases| - 1];
      var c := cases[|cases| - 1];
      SyncedExactlyWhenContiguous(id, before);
      var taken := Taken(id, before);
      hide InSync;
      OneTaken(c);
      if taken != [] {
        TakingOneMore(taken, c);
      } else {
        assert taken + [c] == [c];
      }
    } else {
      assert !InSync([]);
    }
  }

  lemma OneTaken(c: Case)
    ensures InSync([c]) <==> c.clean
    ensures !InSync([])
  {
    if c.clean {
      assert CleanTail([c], 0);
    }
  }

  /** What was taken in is of the current session and of this bridge, and its numbers only rise. */
  lemma {:induction false} TakenIsRising(id: Identity, cases: seq<Case>)
    ensures var s, taken := RunIngress(id, cases), Taken(id, cases);
            && (forall c :: c in taken ==> (c.instance, c.fingerprint) == (id.instance, id.fingerprint))
            && (forall c :: c in taken ==> s.session == Some(c.session) && 0 < c.sequence <= s.lastSequence)
            && (forall i, j :: 0 <= i < j < |taken| ==> taken[i].sequence < taken[j].sequence)
            && (taken != [] ==> taken[|taken| - 1].sequence == s.lastSequence)
            && (taken == [] ==> s.lastSequence == 0)
    decreases |cases|
  {
    if cases != [] {
      TakenIsRising(id, cases[..|cases| - 1]);
    }
  }

  /**
   * The answer to each event: an identity error for another bridge; a duplicate when this
   * session's numbers had come that far (or it has none); a gap when at least one number
   * after the last taken is skipped; otherwise accepted. Exactly the last two take it in.
   */
  lemma DispositionSays(id: Identity, cases: seq<Case>, c: Case)
    ensures var s, taken := RunIngress(id, cases), Taken(id, cases);
            var (n, d) := IngestCase(id, s, c);
            var ours := c.instance == id.instance && c.fingerprint == id.fingerprint;
            var current := s.session == Some(c.session);
            && n == RunIngress(id, cases + [c])
            && (d == IdentityError <==> !ours)
            && (d == Duplicate <==>
                  ours && (c.sequence == 0 || (current && exists t :: t in taken && c.sequence <= t.sequence)))
            && (d == Gap <==>
                  ours && current && taken != [] && taken[|taken| - 1].sequence + 1 < c.sequence)
            && (d in {Accepted, Gap} <==> n.lastSequence == c.sequence && Taken(id, cases + [c]) ==
                                          (if current then taken else []) + [c])
            && (d == IdentityError ==> n == s)
  {
    TakenIsRising(id, cases);
    assert (cases + [c])[..|cases|] == cases;
    if Taken(id, cases) != [] {
      assert Taken(id, cases)[|Taken(id, cases)| - 1] in Taken(id, cases);
    }
  }

  // ------------------------------------------------------------------ the two together

  function AsCases(id: Identity, session: string, events: seq<Event>): seq<Case> {
    seq(|events|,
        i requires 0 <= i < |events| => Case(id.instance, id.fingerprint, session, events[i].sequence, events[i].clean))
  }

  ghost predicate Increasing(events: seq<Event>) {
    && (forall i :: 0 <= i < |events| ==> events[i].sequence > 0)
    && forall i, j :: 0 <= i < j < |events| ==> events[i].sequence < events[j].sequence
  }

  /** What a queue hands on is a subsequence of what was emitted, in order. */
  lemma {:induction false} SentIsIncreasing(emitted: seq<Event>, fates: seq<Fate>)
    requires Numbered(emitted) && |fates| <= |emitted|
    ensures Increasing(Sent(emitted, fates))
    ensures forall e :: e in Sent(emitted, fates) ==> e in emitted && e.sequence <= |fates|
    decreases |fates|
  {
    if fates != [] {
      SentIsIncreasing(emitted, fates[..|fates| - 1]);
    }
  }

  /** Delivered in order, nothing is a duplicate and every event is taken in. */
  lemma {:induction false} IncreasingIsTaken(id: Identity, session: string, events: seq<Event>)
    requires Increasing(events)
    ensures Taken(id, AsCases(id, session, events)) == AsCases(id, session, events)
    ensures events != [] ==> RunIngress(id, AsCases(id, session, events)).session == Some(session)
    decreases |events|
  {
    if events != [] {
      var before := events[..|events| - 1];
      var cases := AsCases(id, session, events);
      assert cases[..|cases| - 1] == AsCases(id, session, before);
      assert cases == AsCases(id, session, before) + [cases[|cases| - 1]];
      IncreasingIsTaken(id, session, before);
      SyncedExactlyWhenContiguous(id, AsCases(id, session, before));
    }
  }

  /** Consecutive numbers leave no room for an event that was not delivered. */
  lemma {:induction false} ContiguousIsComplete(emitted: seq<Event>, sent: seq<Event>, at: nat, e: Event)
    requires Numbered(emitted) && Increasing(sent) && at < |sent|
    requires forall x :: x in sent ==> x in emitted
    requires forall j :: at < j < |sent| ==> sent[j].sequence == sent[j - 1].sequence + 1
    requires e in emitted && sent[at].sequence <= e.sequence <= sent[|sent| - 1].sequence
    ensures e in sent
    decreases |sent|
  {
    var last := sent[|sent| - 1];
    if e.sequence == last.sequence {
      assert last in emitted;
    } else {
      var before := sent[..|sent| - 1];
      assert at < |sent| - 1;
      assert before[|before| - 1] == sent[|sent| - 2];
      ContiguousIsComplete(emitted, before, at, e);
      assert e in before;
    }
  }

  /**
   * A bounded queue may drop, but never unnoticed: if the ingress says it is
   * in sync, every event emitted since its clean snapshot was delivered.
   */
  lemma InSyncMeansNothingDropped(id: Identity, session: string, emitted: seq<Event>, fates: seq<Fate>, n: nat)
    requires Numbered(emitted) && |fates| <= |emitted| && n <= |Sent(emitted, fates)|
    ensures var delivered := Sent(emitted, fates)[..n];
            var s := RunIngress(id, AsCases(id, session, delivered));
            !s.needsResync ==>
              exists at: nat :: at < n && delivered[at].clean
                           && forall e :: e in emitted && delivered[at].sequence <= e.sequence <= s.lastSequence ==>
                                 e in delivered
  {
    SentIsIncreasing(emitted, fates);
    var delivered := Sent(emitted, fates)[..n];
    hide Sent, RunIngress;
    var cases := AsCases(id, session, delivered);
    IncreasingIsTaken(id, session, delivered);
    SyncedExactlyWhenContiguous(id, cases);
    hide Taken;
    if !RunIngress(id, cases).needsResync {
      CleanTailIsComplete(id, session, emitted, delivered);
    }
  }

  lemma CleanTailIsComplete(id: Identity, session: string, emitted: seq<Event>, delivered: seq<Event>)
    requires Numbered(emitted) && Increasing(delivered) && (forall x :: x in delivered ==> x in emitted)
    requires InSync(AsCases(id, session, delivered))
    ensures exists at: nat :: at < |delivered| && delivered[at].clean
              && forall e ::
                   (e in emitted && delivered[at].sequence <= e.sequence <= delivered[|delivered| - 1].sequence) ==>
                     e in delivered
  {
    var cases := AsCases(id, session, delivered);
    var at: nat :| CleanTail(cases, at);
    assert forall j :: 0 <= j < |delivered| ==> cases[j].sequence == delivered[j].sequence;
    forall j | at < j < |delivered| ensures delivered[j].sequence == delivered[j - 1].sequence + 1 {
      assert cases[j].sequence == cases[j - 1].sequence + 1;
    }
    assert delivered[at].clean;
    forall e | e in emitted && delivered[at].sequence <= e.sequence <= delivered[|delivered| - 1].sequence
      ensures e in delivered {
      ContiguousIsComplete(emitted, delivered, at, e);
    }
  }

  /** A drop is noticed at the next delivery: that delivery is a gap exactly when an event before it was lost. */
  lemma DropIsNoticedNext(id: Identity, session: string, emitted: seq<Event>, fates: seq<Fate>, n: nat)
    requires Numbered(emitted) && |fates| <= |emitted| && 0 < n < |Sent(emitted, fates)|
    ensures var sent := Sent(emitted, fates);
            var s := RunIngress(id, AsCases(id, session, sent[..n]));
            var (after, disposition) := IngestCase(id, s, AsCases(id, session, sent)[n]);
            && s.lastSequence == sent[n - 1].sequence
            && (disposition == Gap <==> exists e :: e in emitted && s.lastSequence < e.sequence < sent[n].sequence)
            && (disposition == Gap && !sent[n].clean ==> after.needsResync)
  {
    SentIsIncreasing(emitted, fates);
    var sent := Sent(emitted, fates);
    IncreasingIsTaken(id, session, sent[..n]);
    SyncedExactlyWhenContiguous(id, AsCases(id, session, sent[..n]));
    assert sent[n] in sent && sent[n] in emitted;
    var last := sent[n - 1].sequence;
    if last + 1 < sent[n].sequence {
      assert emitted[last].sequence == last + 1;
    }
  }
}
