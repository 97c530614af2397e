/**
 * The durable alert journal (operations/alert_store.py) and the in-memory
 * alerts that mirror it (operations/telemetry.py). Digests and derived event
 * ids are taken to be injective, so they are the facts they are computed from.
 */
module AlertStore {
  import opened Basics

  datatype Severity = Warning | Error

  /** One logged fact: an alert seen active, or resolved, at a time. */
  datatype AlertEvent = AlertEvent(key: string, active: bool, severity: Option<Severity>, detail: Option<string>,
                                   at: int, source: string)

  datatype EventId = Derived(e: AlertEvent) | Given(id: string)

  datatype AlertState = AlertState(
    active: bool,
    severity: Severity,
    detail: string,
    firstSeen: int,
    lastSeen: int,
    occurrences: nat,
    resolvedAt: Option<int>,
    lastEvent: EventId)

  datatype AlertError = Blank | EventIdReused | ConflictingFacts | NoCurrentState

  /** An absent or empty id is derived from the event itself. */
  function IdFor(given: Option<string>, e: AlertEvent): EventId {
    if given.Some? && given.value != "" then Given(given.value) else Derived(e)
  }

  predicate IsBlank(s: string) {
    forall i :: 0 <= i < |s| ==> s[i] in {' ', '\t', '\n', '\r'}
  }

  // -------------------------------------------------------------------- specification

  /** The row after an ACTIVE event that is not late. */
  function Raised(state: Option<AlertState>, severity: Severity, detail: string, at: int, id: EventId): AlertState {
    var continues := state.Some? && state.value.active;
    AlertState(true, severity, detail,
               if continues then state.value.firstSeen else at, at,
               if continues then state.value.occurrences + 1 else 1, None, id)
  }

  function Lookup(states: map<string, AlertState>, key: string): Option<AlertState> {
    if key in states then Some(states[key]) else None
  }

  /** The row agrees with the logged event it was last written from. */
  ghost predicate RowLogged(events: map<EventId, AlertEvent>, key: string, s: AlertState) {
    && s.lastEvent in events
    && var e := events[s.lastEvent];
       && e.key == key && e.active == s.active && e.at == s.lastSeen
       && (s.active ==> e.severity == Some(s.severity) && e.detail == Some(s.detail))
       && s.firstSeen <= s.lastSeen && s.occurrences > 0
       && s.resolvedAt == if s.active then None else Some(s.lastSeen)
  }

  ghost predicate RowsLogged(events: map<EventId, AlertEvent>, states: map<string, AlertState>) {
    forall key :: key in states ==> RowLogged(events, key, states[key])
  }

  /** An alert that was ever seen active has a row, which is at least that recent. */
  ghost predicate ActivesHaveRows(events: map<EventId, AlertEvent>, states: map<string, AlertState>) {
    forall id :: id in events && events[id].active ==>
      events[id].key in states && events[id].at <= states[events[id].key].lastSeen
  }

  /** At most one fact per alert and time. */
  ghost predicate OneFactPerTime(events: map<EventId, AlertEvent>) {
    forall a, b :: a in events && b in events && events[a].key == events[b].key && events[a].at == events[b].at ==>
      a == b
  }

  ghost predicate Sound(events: map<EventId, AlertEvent>, states: map<string, AlertState>) {
    RowsLogged(events, states) && ActivesHaveRows(events, states) && OneFactPerTime(events)
  }

  /** Rows never step back in time, and none disappears. */
  ghost predicate NeverRewinds(was: map<string, AlertState>, now: map<string, AlertState>) {
    forall key :: key in was ==> key in now && was[key].lastSeen <= now[key].lastSeen
  }

  lemma LoggingKeepsSound(events: map<EventId, AlertEvent>, states: map<string, AlertState>, id: EventId, e: AlertEvent)
    requires Sound(events, states) && id !in events
    requires forall a :: a in events ==> !(events[a].key == e.key && events[a].at == e.at)
    requires e.active ==> e.key in states && e.at <= states[e.key].lastSeen
    ensures Sound(events[id := e], states)
  {
  }

  lemma WritingKeepsSound(events: map<EventId, AlertEvent>, states: map<string, AlertState>, id: EventId, e: AlertEvent,
                          row: AlertState)
    requires Sound(events, states) && id !in events
    requires forall a :: a in events ==> !(events[a].key == e.key && events[a].at == e.at)
    requires RowLogged(events[id := e], e.key, row)
    requires e.key in states ==> states[e.key].lastSeen <= row.lastSeen
    requires e.active ==> e.at <= row.lastSeen
    ensures Sound(events[id := e], states[e.key := row]) && NeverRewinds(states, states[e.key := row])
  {
  }

  // ------------------------------------------------------------------ one transaction

  datatype AlertLog = AlertLog(events: map<EventId, AlertEvent>, states: map<string, AlertState>)

  ghost predicate Known(events: map<EventId, AlertEvent>, e: AlertEvent) {
    exists a :: a in events && events[a] == e
  }

  ghost predicate Contradicted(events: map<EventId, AlertEvent>, e: AlertEvent) {
    exists a :: a in events && events[a].key == e.key && events[a].at == e.at && events[a] != e
  }

  /** A logged fact: a replay, a contradiction, late, or the new current row. */
  ghost function Log(log: AlertLog, id: EventId, e: AlertEvent): Result<AlertLog, AlertError> {
    var state := Lookup(log.states, e.key);
    if id in log.events && log.events[id] != e then Err(EventIdReused)
    else if id !in log.events && Contradicted(log.events, e) then Err(ConflictingFacts)
    else if Known(log.events, e) then (if e.active && state.None? then Err(NoCurrentState) else Ok(log))
    else
      var events := log.events[id := e];
      if state.Some? && e.at < state.value.lastSeen then Ok(log.(events := events))
      else if e.active then
        Ok(AlertLog(events, log.states[e.key := Raised(state, if e.severity.Some? then e.severity.value else Error,
                                                       if e.detail.Some? then e.detail.value else "", e.at, id)]))
      else if state.None? then Ok(log.(events := events))
      else
        var ended := state.value.(active := false, lastSeen := e.at, resolvedAt := Some(e.at), lastEvent := id);
        Ok(AlertLog(events, log.states[e.key := ended]))
  }

  predicate WellFormed(e: AlertEvent) {
    if e.active then e.severity.Some? && e.detail.Some? else e.severity.None? && e.detail.None?
  }

  /**
   * Logging keeps the journal sound, never steps a row back, touches no other
   * alert, and never meets a replayed activation without a row.
   */
  lemma LogKeepsSound(log: AlertLog, id: EventId, e: AlertEvent)
    requires Sound(log.events, log.states) && WellFormed(e)
    ensures var r := Log(log, id, e);
            && r != Err(NoCurrentState)
            && (r.Ok? ==>
                  && Sound(r.value.events, r.value.states) && NeverRewinds(log.states, r.value.states)
                  && (e.key in r.value.states ==> r.value.states == log.states[e.key := r.value.states[e.key]])
                  && (e.key !in r.value.states ==> r.value.states == log.states))
  {
    assert e.key in log.states ==>
             log.states == log.states[e.key := log.states[e.key]] && RowLogged(log.events, e.key, log.states[e.key]);
    if id in log.events && log.events[id] == e {
      assert Known(log.events, e);
    }
    if !(id in log.events && log.events[id] != e) && !(id !in log.events && Contradicted(log.events, e))
      && !Known(log.events, e) {
      assert forall a :: a in log.events ==> !(log.events[a].key == e.key && log.events[a].at == e.at);
      var n := Log(log, id, e).value;
      hide Log;
      if n.states == log.states {
        LoggingKeepsSound(log.events, log.states, id, e);
      } else {
        WritingKeepsSound(log.events, log.states, id, e, n.states[e.key]);
      }
    }
  }

  /** Logging one alert's event leaves it unchanged what is known of any other. */
  lemma LogKeepsOthers(log: AlertLog, id: EventId, e: AlertEvent)
    requires Log(log, id, e).Ok?
    ensures forall other: AlertEvent :: other.key != e.key ==>
              (Known(Log(log, id, e).value.events, other) <==> Known(log.events, other))
  {
    var n := Log(log, id, e).value;
    forall other: AlertEvent | other.key != e.key ensures Known(n.events, other) <==> Known(log.events, other) {
      if Known(log.events, other) {
        var a :| a in log.events && log.events[a] == other;
        assert a in n.events && n.events[a] == other;
      }
    }
  }

  /**
   * A fact is logged exactly when its id was not used for another one and, unless it is
   * logged under that id already, no other fact is logged for the same alert and time.
   * One that is logged already, under whatever id, is not logged again.
   */
  lemma LoggedExactlyWhen(log: AlertLog, id: EventId, e: AlertEvent)
    requires Sound(log.events, log.states) && WellFormed(e)
    ensures Log(log, id, e) == Err(EventIdReused) <==> id in log.events && log.events[id] != e
    ensures Log(log, id, e) == Err(ConflictingFacts) <==>
            id !in log.events &&
            exists a :: a in log.events && log.events[a].key == e.key && log.events[a].at == e.at && log.events[a] != e
    ensures Log(log, id, e).Ok? || Log(log, id, e) in {Err(EventIdReused), Err(ConflictingFacts)}
    ensures Log(log, id, e).Ok? ==>
              Log(log, id, e).value.events ==
              if exists a :: a in log.events && log.events[a] == e then log.events else log.events[id := e]
  {
    LogKeepsSound(log, id, e);
    hide Log, Sound, NeverRewinds, WellFormed;
    LogBranches(log, id, e);
  }

  lemma LogBranches(log: AlertLog, id: EventId, e: AlertEvent)
    ensures Log(log, id, e) == Err(EventIdReused) <==> id in log.events && log.events[id] != e
    ensures Log(log, id, e) == Err(ConflictingFacts) <==> id !in log.events && Contradicted(log.events, e)
    ensures Log(log, id, e).Ok? || Log(log, id, e) in {Err(EventIdReused), Err(ConflictingFacts), Err(NoCurrentState)}
    ensures Log(log, id, e).Ok? ==>
              Log(log, id, e).value.events == if Known(log.events, e) then log.events else log.events[id := e]
  {
    hide Raised, Lookup, Known, Contradicted;
  }

  /** A late fact leaves the row alone; a resolution that ends an episode keeps what the episode was. */
  lemma RowAfterResolution(log: AlertLog, id: EventId, e: AlertEvent)
    requires WellFormed(e) && Log(log, id, e).Ok? && e.key in log.states
    ensures e.at < log.states[e.key].lastSeen ==> Log(log, id, e).value.states == log.states
    ensures !e.active && log.states[e.key].lastSeen <= e.at && !Known(log.events, e) ==>
              var was, row := log.states[e.key], Log(log, id, e).value.states[e.key];
              && !row.active && row.resolvedAt == Some(e.at) && row.lastSeen == e.at && row.lastEvent == id
              && (row.severity, row.detail, row.firstSeen, row.occurrences)
                 == (was.severity, was.detail, was.firstSeen, was.occurrences)
    ensures !e.active && Known(log.events, e) ==> Log(log, id, e).value.states == log.states
  {
  }

  /** A committed resolution leaves the alert active exactly when its row is later, or the resolution is a replay. */
  lemma ResolutionShows(log: AlertLog, id: EventId, e: AlertEvent)
    requires WellFormed(e) && !e.active && Log(log, id, e).Ok?
    ensures var n := Log(log, id, e).value;
            (e.key in n.states && n.states[e.key].active) <==>
              e.key in log.states && log.states[e.key].active
                && (e.at < log.states[e.key].lastSeen || Known(log.events, e))
  {
  }

  /** A committed activation leaves the alert active, unless the row is already later. */
  lemma ActivationShows(log: AlertLog, id: EventId, e: AlertEvent)
    requires Sound(log.events, log.states) && WellFormed(e) && e.active && Log(log, id, e).Ok?
    ensures var n := Log(log, id, e).value;
            e.key in n.states && (n.states[e.key].active || e.at < n.states[e.key].lastSeen)
  {
    if Known(log.events, e) {
      StoredActive(log.events, log.states, e);
    }
  }

  /** A committed activation is its alert's row, severity and text included, unless the row is later. */
  lemma RaisedShows(log: AlertLog, id: EventId, e: AlertEvent)
    requires Sound(log.events, log.states) && WellFormed(e) && e.active && Log(log, id, e).Ok?
    ensures var n := Log(log, id, e).value;
            && e.key in n.states
            && var row := n.states[e.key];
               || e.at < row.lastSeen
               || (row.active && row.lastSeen == e.at && e.severity == Some(row.severity)
                   && e.detail == Some(row.detail))
  {
    hide NeverRewinds, Contradicted;
    if Known(log.events, e) {
      var a :| a in log.events && log.events[a] == e;
      assert RowLogged(log.events, e.key, log.states[e.key]);
    } else {
      hide Sound, Known;
    }
  }

  /**
   * An episode runs from an activation to its resolution: within it the first
   * sighting stays and each new event counts once; after it a new one starts.
   */
  lemma EpisodesAreCounted(log: AlertLog, id: EventId, e: AlertEvent)
    requires Sound(log.events, log.states) && WellFormed(e) && e.active && Log(log, id, e).Ok?
    requires e.key in log.states ==> log.states[e.key].lastSeen <= e.at
    ensures var was, row := Lookup(log.states, e.key), Log(log, id, e).value.states[e.key];
            if Known(log.events, e) then was == Some(row)
            else
              && row.active && row.lastSeen == e.at && row.lastEvent == id
              && e.severity == Some(row.severity) && e.detail == Some(row.detail)
              && if was.Some? && was.value.active then row.firstSeen == was.value.firstSeen
              && row.occurrences == was.value.occurrences + 1
                 else row.firstSeen == e.at && row.occurrences == 1
  {
    if Known(log.events, e) {
      StoredActive(log.events, log.states, e);
    }
  }

  /**
   * A resolution newer than an active row takes effect exactly when it had not
   * been logged before: one that was logged while the alert had no row is a
   * replay afterwards and is swallowed.
   */
  lemma ResolutionTakesEffectExactlyWhenNew(log: AlertLog, id: EventId, e: AlertEvent)
    requires Sound(log.events, log.states) && WellFormed(e) && !e.active && Log(log, id, e).Ok?
    requires e.key in log.states && log.states[e.key].active && log.states[e.key].lastSeen < e.at
    ensures !Log(log, id, e).value.states[e.key].active <==> !Known(log.events, e)
  {
  }

  /** How that comes about: resolved at 10 before any row, then raised by a late activation at 5. */
  lemma EarlyResolutionIsSwallowed(key: string, source: string)
    ensures var empty := AlertLog(map[], map[]);
            var resolved := AlertEvent(key, false, None, None, 10, source);
            var raised := AlertEvent(key, true, Some(Error), Some("late"), 5, source);
            var first := Log(empty, Derived(resolved), resolved);
            && first.Ok?
            && var second := Log(first.value, Derived(raised), raised);
               && second.Ok? && key in second.value.states && second.value.states[key].active
               && Log(second.value, Derived(resolved), resolved) == Ok(second.value)
  {
    var resolved := AlertEvent(key, false, None, None, 10, source);
    var raised := AlertEvent(key, true, Some(Error), Some("late"), 5, source);
    var second := Log(Log(AlertLog(map[], map[]), Derived(resolved), resolved).value, Derived(raised), raised).value;
    assert Derived(resolved) in second.events;
    assert Known(second.events, resolved);
  }

  /** A logged activation is in its row, unless something later is. */
  lemma StoredActive(events: map<EventId, AlertEvent>, states: map<string, AlertState>, e: AlertEvent)
    requires Sound(events, states) && e.active && Known(events, e)
    ensures e.key in states && e.at <= states[e.key].lastSeen
    ensures states[e.key].active || e.at < states[e.key].lastSeen
  {
    var a :| a in events && events[a] == e;
    assert RowLogged(events, e.key, states[e.key]);
  }

  // --------------------------------------------------------------------------- journal

  class OperationsAlertJournal {
    var events: map<EventId, AlertEvent>
    var states: map<string, AlertState>

    constructor ()
      ensures Stored() == AlertLog(map[], map[]) && Valid()
    {
      events, states := map[], map[];
    }

    ghost function Stored(): AlertLog
      reads this
    {
      AlertLog(events, states)
    }

    ghost predicate Valid()
      reads this
    {
      Sound(events, states)
    }

    method FindAt(key: string, at: int) returns (found: Option<EventId>)
      ensures found.Some? ==> found.value in events && events[found.value].key == key && events[found.value].at == at
      ensures found.None? ==> forall a :: a in events ==> !(events[a].key == key && events[a].at == at)
    {
      var left := events.Keys;
      while left != {}
        invariant left <= events.Keys
        invariant forall a :: a in events && a !in left ==> !(events[a].key == key && events[a].at == at)
      {
        var id :| id in left;
        if events[id].key == key && events[id].at == at {
          return Some(id);
        }
        left := left - {id};
      }
      found := None;
    }

    /** Logs the event, unless it is a replay (true) or contradicts what is logged. */
    method InsertEvent(id: EventId, e: AlertEvent) returns (r: Result<bool, AlertError>)
      requires OneFactPerTime(events)
      modifies `events
      ensures r == if id in old(events) && old(events)[id] != e then Err(EventIdReused)
                   else if id !in old(events) && Contradicted(old(events), e) then Err(ConflictingFacts)
                   else Ok(Known(old(events), e))
      ensures events == if r == Ok(false) then old(events)[id := e] else old(events)
    {
      if id in events {
        return if events[id] == e then Ok(true) else Err(EventIdReused);
      }
      var sameTime := FindAt(e.key, e.at);
      if sameTime.Some? {
        return if events[sameTime.value] == e then Ok(true) else Err(ConflictingFacts);
      }
      events := events[id := e];
      r := Ok(false);
    }

    /** Logs an alert seen active. */
    method RecordActive(key: string, severity: Severity, detail: string, at: int, source: string, given: Option<string>)
      returns (r: Result<AlertState, AlertError>)
      requires Valid()
      modifies this
      ensures var e := AlertEvent(key, true, Some(severity), Some(detail), at, source);
              var id := IdFor(given, e);
              var logged := Log(old(Stored()), id, e);
              if IsBlank(key) || IsBlank(detail) || IsBlank(source)
                || (given.Some? && given.value != "" && IsBlank(given.value)) then
                r == Err(Blank) && Stored() == old(Stored())
              else match logged
                   case Err(error) => r == Err(error) && Stored() == old(Stored())
                   case Ok(n) => Stored() == n && key in states && r == Ok(states[key])
    {
      hide IsBlank, Known, Contradicted, RowsLogged, ActivesHaveRows, OneFactPerTime;
      if IsBlank(key) || IsBlank(detail) || IsBlank(source)
        || (given.Some? && given.value != "" && IsBlank(given.value)) {
        return Err(Blank);
      }
      var e := AlertEvent(key, true, Some(severity), Some(detail), at, source);
      var id := IdFor(given, e);
      LogKeepsSound(Stored(), id, e);
      var duplicate := InsertEvent(id, e);
      if duplicate.Err? {
        return Err(duplicate.error);
      }
      if duplicate.value {
        return if key in states then Ok(states[key]) else Err(NoCurrentState);
      }
      if key in states && at < states[key].lastSeen {
        return Ok(states[key]);
      }
      var continues := key in states && states[key].active;
      var firstSeen := if continues then states[key].firstSeen else at;
      var occurrences := if continues then states[key].occurrences + 1 else 1;
      var row := AlertState(true, severity, detail, firstSeen, at, occurrences, None, id);
      states := states[key := row];
      r := Ok(row);
    }

    /** Logs a resolution; an alert without a row gets none. */
    method RecordResolved(key: string, at: int, source: string, given: Option<string>)
      returns (r: Result<Option<AlertState>, AlertError>)
      requires Valid()
      modifies this
      ensures var e := AlertEvent(key, false, None, None, at, source);
              var id := IdFor(given, e);
              var logged := Log(old(Stored()), id, e);
              if IsBlank(key) || IsBlank(source) || (given.Some? && given.value != "" && IsBlank(given.value))
                then r == Err(Blank) && Stored() == old(Stored())
              else match logged
                   case Err(error) => r == Err(error) && Stored() == old(Stored())
                   case Ok(n) => Stored() == n && r == Ok(Lookup(states, key))
    {
      if IsBlank(key) || IsBlank(source) || (given.Some? && given.value != "" && IsBlank(given.value)) {
        return Err(Blank);
      }
      var e := AlertEvent(key, false, None, None, at, source);
      var id := IdFor(given, e);
      var duplicate := InsertEvent(id, e);
      if duplicate.Err? {
        return Err(duplicate.error);
      }
      if duplicate.value || key !in states || at < states[key].lastSeen {
        return Ok(if key in states then Some(states[key]) else None);
      }
      var row := states[key].(active := false, lastSeen := at, resolvedAt := Some(at), lastEvent := id);
      states := states[key := row];
      r := Ok(Some(row));
    }
  }

  // ------------------------------------------------------------------------- telemetry

  datatype ActiveAlert = ActiveAlert(severity: Severity, detail: string, firstSeen: int, lastSeen: int,
                                     occurrences: nat)

  function AsAlert(s: AlertState): ActiveAlert {
    ActiveAlert(s.severity, s.detail, s.firstSeen, s.lastSeen, s.occurrences)
  }

  /** The alerts the stored rows call active. */
  function ActiveOf(states: map<string, AlertState>): map<string, ActiveAlert> {
    map key | key in states && states[key].active :: AsAlert(states[key])
  }

  datatype Mode = Disabled | Halted | OtherMode

  datatype HealthItem = HealthItem(component: string, reason: string)

  function HealthKey(component: string): string { "health:" + component }

  datatype Sight = Sight(alerts: map<string, ActiveAlert>, stored: Option<AlertLog>)

  /**
   * A resolution at this time does nothing: the row is later, or the journal logged
   * the very same resolution before.
   */
  ghost predicate Swallows(stored: Option<AlertLog>, key: string, at: int, source: string) {
    && stored.Some? && key in stored.value.states
    && (at < stored.value.states[key].lastSeen
        || Known(stored.value.events, AlertEvent(key, false, None, None, at, source)))
  }

  ghost predicate SameSwallows(was: Option<AlertLog>, now: Option<AlertLog>, key: string) {
    forall at, source :: Swallows(now, key, at, source) <==> Swallows(was, key, at, source)
  }

  /** Nothing about this alert changed. */
  ghost predicate SameAlert(was: Sight, now: Sight, key: string) {
    && (key in now.alerts <==> key in was.alerts)
    && (key in was.alerts ==> now.alerts[key] == was.alerts[key])
    && was.stored.Some? == now.stored.Some?
    && (was.stored.Some? ==> Lookup(now.stored.value.states, key) == Lookup(was.stored.value.states, key))
    && SameSwallows(was.stored, now.stored, key)
  }

  /** The alert shows with this severity and text, unless something later is known. */
  predicate Shows(now: Sight, key: string, severity: Severity, detail: string, at: int) {
    || (&& key in now.alerts && now.alerts[key].lastSeen == at
        && now.alerts[key].severity == severity && now.alerts[key].detail == detail)
    || if now.stored.Some?
       then key in now.stored.value.states && at < now.stored.value.states[key].lastSeen
       else key in now.alerts && at < now.alerts[key].lastSeen
  }

  /** The alert is gone, unless its resolution is swallowed. */
  ghost predicate Cleared(was: Sight, now: Sight, key: string, at: int, source: string) {
    key in now.alerts <==> key in was.alerts && Swallows(was.stored, key, at, source)
  }

  /** The sync is older than the last one and is ignored. */
  predicate Outdated(last: Option<int>, at: int) { last.Some? && at < last.value }

  lemma SelfSame(s: Sight)
    ensures forall q :: SameAlert(s, s, q) && SameSwallows(s.stored, s.stored, q)
  {
  }

  /** What an untouched alert carries through two operations. */
  lemma Chain(a: Sight, b: Sight, c: Sight)
    ensures forall q :: SameAlert(a, b, q) && SameAlert(b, c, q) ==> SameAlert(a, c, q)
    ensures forall q, at, source :: SameAlert(a, b, q) && Cleared(b, c, q, at, source) ==> Cleared(a, c, q, at, source)
    ensures forall q, at, source :: Cleared(a, b, q, at, source) && SameAlert(b, c, q) ==> Cleared(a, c, q, at, source)
    ensures forall q, severity, detail, at :: Shows(b, q, severity, detail, at) && SameAlert(b, c, q) ==>
              Shows(c, q, severity, detail, at)
  {
    hide Swallows;
  }

  lemma AbsentIsCleared(a: Sight, b: Sight)
    ensures forall q, at, source :: SameAlert(a, b, q) && q !in a.alerts ==> Cleared(a, b, q, at, source)
  {
    hide Swallows, SameSwallows;
  }

  lemma OthersKept(was: AlertLog, now: AlertLog, key: string, q: string)
    requires q != key
    requires Lookup(now.states, q) == Lookup(was.states, q)
    requires forall e: AlertEvent :: e.key != key ==> (Known(now.events, e) <==> Known(was.events, e))
    ensures SameSwallows(Some(was), Some(now), q)
  {
    hide Known;
  }

  /** Logging one alert's event changes nothing about any other. */
  lemma EveryOtherKept(was: AlertLog, id: EventId, e: AlertEvent)
    requires Sound(was.events, was.states) && WellFormed(e) && Log(was, id, e).Ok?
    ensures var n := Log(was, id, e).value;
            forall q :: q != e.key ==>
              Lookup(n.states, q) == Lookup(was.states, q) && SameSwallows(Some(was), Some(n), q)
  {
    LogKeepsSound(was, id, e);
    LogKeepsOthers(was, id, e);
    hide Log, Sound, Known, SameSwallows, NeverRewinds;
    forall q | q != e.key ensures SameSwallows(Some(was), Some(Log(was, id, e).value), q) {
      OthersKept(was, Log(was, id, e).value, e.key, q);
    }
  }

  class OperationsTelemetry {
    const journal: OperationsAlertJournal?
    var alerts: map<string, ActiveAlert>
    var lastHealthSync: Option<int>
    var lastExecutionSync: Option<int>
    var lastModeSync: Option<int>

    /** A rebuilt telemetry shows exactly the stored active alerts. */
    constructor (journal: OperationsAlertJournal?)
      requires journal != null ==> journal.Valid()
      ensures this.journal == journal && Agrees()
    {
      this.journal := journal;
      lastHealthSync, lastExecutionSync, lastModeSync := None, None, None;
      alerts := map[];
      new;
      if journal != null {
        var left := journal.states.Keys;
        while left != {}
          invariant left <= journal.states.Keys && unchanged(journal)
          invariant forall key :: key in alerts <==> key in journal.states && key !in left && journal.states[key].active
          invariant forall key :: key in alerts ==> alerts[key] == AsAlert(journal.states[key])
        {
          var key :| key in left;
          left := left - {key};
          if journal.states[key].active {
            alerts := alerts[key := AsAlert(journal.states[key])];
          }
        }
      }
    }

    /** With a journal, the alerts in memory are the stored active rows. */
    ghost predicate Agrees()
      reads this, journal
    {
      journal != null ==> journal.Valid() && alerts == ActiveOf(journal.states)
    }

    ghost function Rows(): map<string, AlertState>
      reads this, journal
    {
      if journal == null then map[] else journal.states
    }

    /** What is shown, and what the journal holds. */
    ghost function Seen(): Sight
      reads `alerts, journal
    {
      Sight(alerts, if journal == null then None else Some(journal.Stored()))
    }

    method Upsert(key: string, severity: Severity, detail: string, at: int, source: string)
      returns (error: Option<AlertError>)
      requires Agrees()
      modifies `alerts, journal
      ensures Agrees() && NeverRewinds(old(Rows()), Rows())
      ensures error != Some(NoCurrentState)
      ensures error.Some? ==> alerts == old(alerts)
      ensures forall q :: q != key ==> SameAlert(old(Seen()), Seen(), q)
      ensures error.None? ==> Shows(Seen(), key, severity, detail, at)
      ensures journal == null ==>
                && error.None?
                && alerts == if key in old(alerts) && at < old(alerts)[key].lastSeen then old(alerts)
                             else old(alerts)[key := if key in old(alerts)
                                                     then ActiveAlert(severity, detail, old(alerts)[key].firstSeen, at,
                                                                      old(alerts)[key].occurrences + 1)
                                                     else ActiveAlert(severity, detail, at, at, 1)]
    {
      SelfSame(Seen());
      hide Sound, Log, IsBlank, Known, SameSwallows;
      if journal != null {
        ghost var was := journal.Stored();
        ghost var e := AlertEvent(key, true, Some(severity), Some(detail), at, source);
        LogKeepsSound(was, Derived(e), e);
        if Log(was, Derived(e), e).Ok? {
          EveryOtherKept(was, Derived(e), e);
        }
        var state := journal.RecordActive(key, severity, detail, at, source, None);
        if state.Err? {
          return Some(state.error);
        }
        RaisedShows(was, Derived(e), e);
        if state.value.active {
          alerts := alerts[key := AsAlert(state.value)];
        } else {
          alerts := alerts - {key};
        }
        return None;
      }
      error := None;
      if key in alerts && at < alerts[key].lastSeen {
        return;
      }
      alerts := alerts[key := if key in alerts
                              then ActiveAlert(severity, detail, alerts[key].firstSeen, at,
                                               alerts[key].occurrences + 1)
                              else ActiveAlert(severity, detail, at, at, 1)];
    }

    method Resolve(key: string, at: int, source: string) returns (error: Option<AlertError>)
      requires Agrees()
      modifies `alerts, journal
      ensures Agrees() && NeverRewinds(old(Rows()), Rows())
      ensures error != Some(NoCurrentState)
      ensures error.Some? ==> alerts == old(alerts)
      ensures forall q :: q != key ==> SameAlert(old(Seen()), Seen(), q)
      ensures journal == null ==> error.None? && alerts == old(alerts) - {key}
      ensures error.None? ==> Cleared(old(Seen()), Seen(), key, at, source)
    {
      SelfSame(Seen());
      hide Sound, Log, IsBlank, Known, SameSwallows;
      if journal != null {
        ghost var was := journal.Stored();
        ghost var e := AlertEvent(key, false, None, None, at, source);
        LogKeepsSound(was, Derived(e), e);
        if Log(was, Derived(e), e).Ok? {
          EveryOtherKept(was, Derived(e), e);
          ResolutionShows(was, Derived(e), e);
        }
        var state := journal.RecordResolved(key, at, source, None);
        if state.Err? {
          return Some(state.error);
        }
        if state.value.Some? && state.value.value.active {
          alerts := alerts[key := AsAlert(state.value.value)];
          return None;
        }
      }
      alerts := alerts - {key};
      error := None;
    }

    /** Resolves every alert of the prefix that is not kept, and touches no other. */
    method ResolvePrefix(prefix: string, keep: set<string>, at: int, source: string) returns (error: Option<AlertError>)
      requires Agrees()
      modifies `alerts, journal
      ensures Agrees() && NeverRewinds(old(Rows()), Rows())
      ensures error != Some(NoCurrentState)
      ensures forall q :: q in keep || !(prefix <= q) ==> SameAlert(old(Seen()), Seen(), q)
      ensures error.None? ==> forall q :: q !in keep && prefix <= q ==> Cleared(old(Seen()), Seen(), q, at, source)
    {
      hide Sound, ActiveOf, SameAlert, Cleared, NeverRewinds;
      SelfNeverRewinds(Rows());
      SelfSame(Seen());
      error := None;
      var left := alerts.Keys;
      while left != {}
        invariant Agrees() && NeverRewinds(old(Rows()), Rows()) && error.None? && left <= old(alerts.Keys)
        invariant forall q :: q in keep || !(prefix <= q) || q in left || q !in old(alerts) ==>
                    SameAlert(old(Seen()), Seen(), q)
        invariant forall q :: q !in keep && prefix <= q && q in old(alerts) && q !in left ==>
                    Cleared(old(Seen()), Seen(), q, at, source)
      {
        var key :| key in left;
        left := left - {key};
        if prefix <= key && key !in keep {
          ghost var before, seen := Rows(), Seen();
          error := Resolve(key, at, source);
          RewindsTransitive(old(Rows()), before, Rows());
          Chain(old(Seen()), seen, Seen());
          if error.Some? {
            return;
          }
        }
      }
      AbsentIsCleared(old(Seen()), Seen());
    }

    /**
     * Takes over a health snapshot that is not older than the last one. Even
     * if it stops halfway on a contradiction, the alerts in memory stay the
     * stored ones; if it does not, every reported component shows and every
     * other one is cleared.
     */
    method SyncHealth(items: seq<HealthItem>, at: int) returns (error: Option<AlertError>)
      requires Agrees()
      modifies `alerts, `lastHealthSync, journal
      ensures Agrees() && NeverRewinds(old(Rows()), Rows())
      ensures error != Some(NoCurrentState)
      ensures Outdated(old(lastHealthSync), at) ==> unchanged(this) && Rows() == old(Rows())
      ensures lastHealthSync == if Outdated(old(lastHealthSync), at) then old(lastHealthSync) else Some(at)
      ensures error.None? && !Outdated(old(lastHealthSync), at) ==>
                && (forall i :: LastOf(items, i) ==>
                      Shows(Seen(), HealthKey(items[i].component), Error, items[i].reason, at))
                && (forall q :: "health:" <= q && q !in Reported(items) ==>
                      Cleared(old(Seen()), Seen(), q, at, "health"))
      ensures forall q :: !("health:" <= q) ==> SameAlert(old(Seen()), Seen(), q)
    {
      hide Sound, ActiveOf, SameAlert, Cleared, Shows, NeverRewinds;
      SelfNeverRewinds(Rows());
      SelfSame(Seen());
      if lastHealthSync.Some? && at < lastHealthSync.value {
        return None;
      }
      lastHealthSync := Some(at);
      assert Seen() == old(Seen());
      error := UpsertAll(items, at);
      ReportedAreHealth(items);
      if error.Some? {
        return;
      }
      ghost var before, seen := Rows(), Seen();
      error := ResolvePrefix("health:", Reported(items), at, "health");
      RewindsTransitive(old(Rows()), before, Rows());
      Chain(old(Seen()), seen, Seen());
    }

    /** Raises every reported component; an unreported one is not touched. */
    method UpsertAll(items: seq<HealthItem>, at: int) returns (error: Option<AlertError>)
      requires Agrees()
      modifies `alerts, journal
      ensures Agrees() && NeverRewinds(old(Rows()), Rows())
      ensures error != Some(NoCurrentState)
      ensures forall q :: q !in Reported(items) ==> SameAlert(old(Seen()), Seen(), q)
      ensures error.None? ==>
                forall i :: LastOf(items, i) ==>
                  Shows(Seen(), HealthKey(items[i].component), Error, items[i].reason, at)
    {
      hide Sound, ActiveOf, SameAlert, Shows, HealthKey, NeverRewinds;
      SelfNeverRewinds(Rows());
      SelfSame(Seen());
      error := None;
      for i := 0 to |items|
        invariant Agrees() && NeverRewinds(old(Rows()), Rows()) && error.None?
        invariant forall q :: q !in Reported(items) ==> SameAlert(old(Seen()), Seen(), q)
        invariant forall j :: LastOf(items[..i], j) ==>
                    Shows(Seen(), HealthKey(items[j].component), Error, items[j].reason, at)
      {
        ghost var before, seen := Rows(), Seen();
        var key := HealthKey(items[i].component);
        assert key in Reported(items);
        error := Upsert(key, Error, items[i].reason, at, "health");
        RewindsTransitive(old(Rows()), before, Rows());
        Chain(old(Seen()), seen, Seen());
        if error.Some? {
          return;
        }
        forall j | LastOf(items[..i + 1], j)
          ensures Shows(Seen(), HealthKey(items[j].component), Error, items[j].reason, at) {
          EarlierStaysLast(items, i, j);
        }
      }
      assert items[..|items|] == items;
    }

    /** Raises or resolves one alert. */
    method SyncOne(key: string, detail: Option<string>, at: int, source: string) returns (error: Option<AlertError>)
      requires Agrees()
      modifies `alerts, journal
      ensures Agrees() && NeverRewinds(old(Rows()), Rows()) && error != Some(NoCurrentState)
      ensures forall q :: q != key ==> SameAlert(old(Seen()), Seen(), q)
      ensures error.None? ==>
                if detail.Some? then Shows(Seen(), key, Error, detail.value, at)
                else Cleared(old(Seen()), Seen(), key, at, source)
    {
      hide Sound, ActiveOf, SameAlert, Cleared, Shows, NeverRewinds;
      if detail.Some? {
        error := Upsert(key, Error, detail.value, at, source);
      } else {
        error := Resolve(key, at, source);
      }
    }

    method SyncMode(mode: Mode, at: int) returns (error: Option<AlertError>)
      requires Agrees()
      modifies `alerts, `lastModeSync, journal
      ensures Agrees() && NeverRewinds(old(Rows()), Rows()) && error != Some(NoCurrentState)
      ensures Outdated(old(lastModeSync), at) ==> unchanged(this) && Rows() == old(Rows())
      ensures lastModeSync == if Outdated(old(lastModeSync), at) then old(lastModeSync) else Some(at)
      ensures error.None? && !Outdated(old(lastModeSync), at) ==>
                if mode == Halted then Shows(Seen(), "runtime:HALTED", Error, "runtime is HALTED", at)
                else Cleared(old(Seen()), Seen(), "runtime:HALTED", at, "mode")
      ensures forall q :: q != "runtime:HALTED" ==> SameAlert(old(Seen()), Seen(), q)
    {
      hide Sound, ActiveOf, SameAlert, Cleared, Shows, NeverRewinds;
      SelfNeverRewinds(Rows());
      SelfSame(Seen());
      if lastModeSync.Some? && at < lastModeSync.value {
        return None;
      }
      lastModeSync := Some(at);
      assert Seen() == old(Seen());
      error := SyncOne("runtime:HALTED", if mode == Halted then Some("runtime is HALTED") else None, at, "mode");
    }

    /** Raises or resolves both alerts of the execution report. */
    method SyncBoth(unknown: Option<string>, review: Option<string>, at: int) returns (error: Option<AlertError>)
      requires Agrees()
      modifies `alerts, journal
      ensures Agrees() && NeverRewinds(old(Rows()), Rows()) && error != Some(NoCurrentState)
      ensures error.None? ==>
                && (if unknown.Some? then Shows(Seen(), "execution:UNKNOWN", Error, unknown.value, at)
                    else Cleared(old(Seen()), Seen(), "execution:UNKNOWN", at, "execution"))
                && (if review.Some? then Shows(Seen(), "execution:MANUAL_REVIEW", Error, review.value, at)
                    else Cleared(old(Seen()), Seen(), "execution:MANUAL_REVIEW", at, "execution"))
      ensures forall q :: q != "execution:UNKNOWN" && q != "execution:MANUAL_REVIEW" ==>
                SameAlert(old(Seen()), Seen(), q)
    {
      hide Sound, ActiveOf, SameAlert, Cleared, Shows, NeverRewinds;
      assert "execution:UNKNOWN"[10] != "execution:MANUAL_REVIEW"[10];
      error := SyncOne("execution:UNKNOWN", unknown, at, "execution");
      if error.Some? {
        return;
      }
      ghost var before, seen := Rows(), Seen();
      error := SyncOne("execution:MANUAL_REVIEW", review, at, "execution");
      RewindsTransitive(old(Rows()), before, Rows());
      Chain(old(Seen()), seen, Seen());
    }

    /** Takes over the two counts, unless the report is older than the last one; `digits` writes a count out. */
    method SyncExecutionAmbiguity(unknownOrders: nat, manualReviews: nat, digits: nat -> string, at: int)
      returns (error: Option<AlertError>)
      requires Agrees()
      modifies `alerts, `lastExecutionSync, journal
      ensures Agrees() && NeverRewinds(old(Rows()), Rows()) && error != Some(NoCurrentState)
      ensures Outdated(old(lastExecutionSync), at) ==> unchanged(this) && Rows() == old(Rows())
      ensures lastExecutionSync == if Outdated(old(lastExecutionSync), at) then old(lastExecutionSync) else Some(at)
      ensures error.None? && !Outdated(old(lastExecutionSync), at) ==>
                && (if unknownOrders > 0
                    then Shows(Seen(), "execution:UNKNOWN", Error,
                               digits(unknownOrders) + " unresolved UNKNOWN order(s)", at)
                    else Cleared(old(Seen()), Seen(), "execution:UNKNOWN", at, "execution"))
                && (if manualReviews > 0
                    then Shows(Seen(), "execution:MANUAL_REVIEW", Error,
                               digits(manualReviews) + " order(s) require manual review", at)
                    else Cleared(old(Seen()), Seen(), "execution:MANUAL_REVIEW", at, "execution"))
      ensures forall q :: q != "execution:UNKNOWN" && q != "execution:MANUAL_REVIEW" ==>
                SameAlert(old(Seen()), Seen(), q)
    {
      hide Sound, ActiveOf, SameAlert, Cleared, Shows, NeverRewinds;
      SelfNeverRewinds(Rows());
      SelfSame(Seen());
      if lastExecutionSync.Some? && at < lastExecutionSync.value {
        return None;
      }
      lastExecutionSync := Some(at);
      assert Seen() == old(Seen());
      var unknown := if unknownOrders == 0 then None else Some(digits(unknownOrders) + " unresolved UNKNOWN order(s)");
      var review := if manualReviews == 0 then None
                    else Some(digits(manualReviews) + " order(s) require manual review");
      error := SyncBoth(unknown, review, at);
    }
  }

  /** The last report about its component. */
  predicate LastOf(items: seq<HealthItem>, i: int) {
    0 <= i < |items| && forall j :: i < j < |items| ==> items[j].component != items[i].component
  }

  lemma EarlierStaysLast(items: seq<HealthItem>, i: nat, j: nat)
    requires i < |items| && LastOf(items[..i + 1], j)
    ensures j == i || (LastOf(items[..i], j) && HealthKey(items[j].component) != HealthKey(items[i].component))
  {
    if j < i {
      assert items[..i + 1][i] == items[i] && items[..i + 1][j] == items[j];
      forall m | j < m < i ensures items[..i][m].component != items[..i][j].component {
        assert items[..i + 1][m].component != items[..i + 1][j].component;
      }
      assert HealthKey(items[j].component)[7..] == items[j].component;
      assert HealthKey(items[i].component)[7..] == items[i].component;
    }
  }

  /** The alert keys of the reported components. */
  function Reported(items: seq<HealthItem>): set<string> {
    set i | 0 <= i < |items| :: HealthKey(items[i].component)
  }

  lemma ReportedAreHealth(items: seq<HealthItem>)
    ensures forall q :: q in Reported(items) ==> "health:" <= q
    ensures forall i :: 0 <= i < |items| ==> HealthKey(items[i].component) in Reported(items)
  {
  }

  lemma SelfNeverRewinds(states: map<string, AlertState>)
    ensures NeverRewinds(states, states)
  {
  }

  lemma RewindsTransitive(a: map<string, AlertState>, b: map<string, AlertState>, c: map<string, AlertState>)
    requires NeverRewinds(a, b) && NeverRewinds(b, c)
    ensures NeverRewinds(a, c)
  {
  }
}
