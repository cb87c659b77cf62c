/** The session store and its two workers; each call moves the ghost view of its session. */
module SessionStore {
  import opened Messages
  import opened Consolidation
  import opened Results
  import opened Wrappers

  type SessionId = nat

  datatype SessionStatus = Active | Interrupted | Completed

  /** `inserted` counts the rows ever inserted for the session; it names the next one. */
  datatype SessionRow = SessionRow(userId: string, status: SessionStatus, updatedAt: int, watermark: nat, inserted: nat)

  datatype MessageRow = MessageRow(session: SessionId, row: Row)

  /** SELECT ... WHERE session_id = sid. */
  function RowsOf(messages: seq<MessageRow>, sid: SessionId): seq<Row> {
    if messages == [] then [] else RowIf(messages[0], sid) + RowsOf(messages[1..], sid)
  }

  function RowIf(m: MessageRow, sid: SessionId): seq<Row> {
    if m.session == sid then [m.row] else []
  }

  /** DELETE ... WHERE session_id = sid AND created_at < cutoff AND sequence_num <= watermark. */
  function DeleteExpired(messages: seq<MessageRow>, sid: SessionId, cutoff: int, watermark: nat): seq<MessageRow> {
    if messages == [] then []
    else
      (if messages[0].session == sid && Expired(messages[0].row, cutoff, watermark) then [] else [messages[0]])
      + DeleteExpired(messages[1..], sid, cutoff, watermark)
  }

  /** The cascade of DELETE FROM sessions. */
  function DeleteSessions(messages: seq<MessageRow>, gone: set<SessionId>): seq<MessageRow> {
    if messages == [] then []
    else (if messages[0].session in gone then [] else [messages[0]]) + DeleteSessions(messages[1..], gone)
  }

  function Inserted(sid: SessionId, rows: seq<Row>): seq<MessageRow> {
    seq(|rows|, i requires 0 <= i < |rows| => MessageRow(sid, rows[i]))
  }

  lemma {:induction false} RowsOfAppend(a: seq<MessageRow>, b: seq<MessageRow>, sid: SessionId)
    ensures RowsOf(a + b, sid) == RowsOf(a, sid) + RowsOf(b, sid)
  {
    if a == [] {
      assert a + b == b;
    } else {
      RowsOfAppend(a[1..], b, sid);
      assert (a + b)[1..] == a[1..] + b && (a + b)[0] == a[0];
      Associates(RowIf(a[0], sid), RowsOf(a[1..], sid), RowsOf(b, sid));
    }
  }

  lemma {:induction false} RowsOfCons(m: MessageRow, rest: seq<MessageRow>, sid: SessionId)
    ensures RowsOf([m] + rest, sid) == RowIf(m, sid) + RowsOf(rest, sid)
  {
    assert ([m] + rest)[1..] == rest;
  }

  lemma {:induction false} KeptCons(r: Row, rest: seq<Row>, cutoff: int, watermark: nat)
    ensures Kept([r] + rest, cutoff, watermark)
      == (if Expired(r, cutoff, watermark) then [] else [r]) + Kept(rest, cutoff, watermark)
  {
    assert ([r] + rest)[1..] == rest;
  }

  lemma {:induction false} RowsOfInserted(sid: SessionId, rows: seq<Row>, other: SessionId)
    ensures RowsOf(Inserted(sid, rows), other) == if other == sid then rows else []
  {
    if rows != [] {
      RowsOfInserted(sid, rows[1..], other);
      assert Inserted(sid, rows)[1..] == Inserted(sid, rows[1..]);
    }
  }

  /** INSERT of new rows: only their own session sees them. */
  lemma {:induction false} RowsAfterInsert(messages: seq<MessageRow>, sid: SessionId, rows: seq<Row>, other: SessionId)
    ensures RowsOf(messages + Inserted(sid, rows), other)
      == if other == sid then RowsOf(messages, sid) + rows else RowsOf(messages, other)
  {
    RowsOfAppend(messages, Inserted(sid, rows), other);
    RowsOfInserted(sid, rows, other);
    assert RowsOf(messages, other) + [] == RowsOf(messages, other);
  }

  lemma {:induction false} RowsOfDeleteExpired(messages: seq<MessageRow>, sid: SessionId, cutoff: int,
        watermark: nat, other: SessionId)
    ensures RowsOf(DeleteExpired(messages, sid, cutoff, watermark), other)
      == if other == sid then Kept(RowsOf(messages, sid), cutoff, watermark) else RowsOf(messages, other)
  {
    if messages != [] {
      var m, rest := messages[0], DeleteExpired(messages[1..], sid, cutoff, watermark);
      RowsOfDeleteExpired(messages[1..], sid, cutoff, watermark, other);
      RowsOfCons(m, rest, other);
      KeptCons(m.row, RowsOf(messages[1..], other), cutoff, watermark);
      if m.session == sid && Expired(m.row, cutoff, watermark) {
        assert DeleteExpired(messages, sid, cutoff, watermark) == rest;
      } else {
        assert DeleteExpired(messages, sid, cutoff, watermark) == [m] + rest;
        assert [] + RowsOf(messages[1..], other) == RowsOf(messages[1..], other);
        assert [] + RowsOf(rest, other) == RowsOf(rest, other);
      }
    }
  }

  lemma {:induction false} RowsOfDeleteSessions(messages: seq<MessageRow>, gone: set<SessionId>, other: SessionId)
    ensures RowsOf(DeleteSessions(messages, gone), other) == if other in gone then [] else RowsOf(messages, other)
  {
    if messages != [] {
      var rest := DeleteSessions(messages[1..], gone);
      RowsOfDeleteSessions(messages[1..], gone, other);
      RowsOfCons(messages[0], rest, other);
      if messages[0].session in gone {
        assert DeleteSessions(messages, gone) == rest;
      }
    }
  }

  datatype StoreError = NotFound | Database

  /** A session's state is what its row and its messages say, in the order of their numbers. */
  ghost predicate Agrees(st: State, session: SessionRow, rows: seq<Row>) {
    && st.rows == rows && Increasing(rows)
    && st.watermark == session.watermark && |st.appended| == session.inserted
  }

  ghost predicate AllAgree(view: map<SessionId, State>, sessions: map<SessionId, SessionRow>,
        messages: seq<MessageRow>) {
    && view.Keys == sessions.Keys
    && (forall sid | sid in sessions :: Agrees(view[sid], sessions[sid], RowsOf(messages, sid)))
    && (forall sid | sid !in sessions :: RowsOf(messages, sid) == [])
  }

  lemma {:induction false} CleanupKeepsAgreement(view: map<SessionId, State>, sessions: map<SessionId, SessionRow>,
        messages: seq<MessageRow>, sid: SessionId, cutoff: int, watermark: nat, effective: nat)
    requires AllAgree(view, sessions, messages) && sid in sessions
    requires effective == Min(watermark, sessions[sid].watermark) > 0
    ensures AllAgree(view[sid := Exec(view[sid], Cleanup(cutoff, watermark))], sessions,
                     DeleteExpired(messages, sid, cutoff, effective))
  {
    var kept := DeleteExpired(messages, sid, cutoff, effective);
    var after := view[sid := Exec(view[sid], Cleanup(cutoff, watermark))];
    forall other | other in sessions ensures Agrees(after[other], sessions[other], RowsOf(kept, other)) {
      RowsOfDeleteExpired(messages, sid, cutoff, effective, other);
      if other == sid { CleanupAgrees(view[sid], sessions[sid], RowsOf(messages, sid), cutoff, watermark); }
    }
    forall other | other !in sessions ensures RowsOf(kept, other) == [] {
      RowsOfDeleteExpired(messages, sid, cutoff, effective, other);
    }
  }

  lemma {:induction false} DeletionKeepsAgreement(view: map<SessionId, State>, sessions: map<SessionId, SessionRow>,
        messages: seq<MessageRow>, gone: set<SessionId>)
    requires AllAgree(view, sessions, messages)
    ensures AllAgree(view - gone, sessions - gone, DeleteSessions(messages, gone))
  {
    forall other
      ensures RowsOf(DeleteSessions(messages, gone), other) == if other in gone then [] else RowsOf(messages, other)
    {
      RowsOfDeleteSessions(messages, gone, other);
    }
  }

  lemma {:induction false} InsertKeepsAgreement(view: map<SessionId, State>, sessions: map<SessionId, SessionRow>,
        messages: seq<MessageRow>, sid: SessionId, st: State, session: SessionRow, rows: seq<Row>)
    requires AllAgree(view, sessions, messages) && sid in sessions
    requires Agrees(st, session, RowsOf(messages, sid) + rows)
    ensures AllAgree(view[sid := st], sessions[sid := session], messages + Inserted(sid, rows))
  {
    var after := messages + Inserted(sid, rows);
    StoredAgreeAfterInsert(view, sessions, messages, sid, st, session, rows, after);
    ForeignAfterInsert(view, sessions, messages, sid, rows, after);
    AgreementWith(view, sessions, sid, st, session, after);
  }

  lemma ForeignAfterInsert(view: map<SessionId, State>, sessions: map<SessionId, SessionRow>,
        messages: seq<MessageRow>, sid: SessionId, rows: seq<Row>, after: seq<MessageRow>)
    requires AllAgree(view, sessions, messages) && sid in sessions && after == messages + Inserted(sid, rows)
    ensures forall other | other !in sessions :: RowsOf(after, other) == []
  {
    forall other | other !in sessions ensures RowsOf(after, other) == [] {
      RowsAfterInsert(messages, sid, rows, other);
    }
  }

  lemma AgreementWith(view: map<SessionId, State>, sessions: map<SessionId, SessionRow>, sid: SessionId, st: State,
        session: SessionRow, after: seq<MessageRow>)
    requires view.Keys == sessions.Keys && sid in sessions
    requires forall other | other in sessions ::
      Agrees(if other == sid then st else view[other], if other == sid then session else sessions[other],
             RowsOf(after, other))
    requires forall other | other !in sessions :: RowsOf(after, other) == []
    ensures AllAgree(view[sid := st], sessions[sid := session], after)
  {
  }

  lemma StoredAgreeAfterInsert(view: map<SessionId, State>, sessions: map<SessionId, SessionRow>,
        messages: seq<MessageRow>, sid: SessionId, st: State, session: SessionRow, rows: seq<Row>,
        after: seq<MessageRow>)
    requires AllAgree(view, sessions, messages) && sid in sessions && after == messages + Inserted(sid, rows)
    requires Agrees(st, session, RowsOf(messages, sid) + rows)
    ensures forall other | other in sessions ::
      Agrees(if other == sid then st else view[other], if other == sid then session else sessions[other],
             RowsOf(after, other))
  {
    forall other | other in sessions
      ensures Agrees(if other == sid then st else view[other], if other == sid then session else sessions[other],
                     RowsOf(after, other))
    {
      AgreesAfterInsert(messages, sid, rows, view[other], st, sessions[other], session, other);
    }
  }

  lemma {:induction false} AgreesAfterInsert(messages: seq<MessageRow>, sid: SessionId, rows: seq<Row>, before: State,
        st: State, row: SessionRow, session: SessionRow, other: SessionId)
    requires Agrees(before, row, RowsOf(messages, other)) && Agrees(st, session, RowsOf(messages, sid) + rows)
    ensures var all := RowsOf(messages + Inserted(sid, rows), other);
      if other == sid then Agrees(st, session, all) else Agrees(before, row, all)
  {
    RowsAfterInsert(messages, sid, rows, other);
  }

  lemma {:induction false} AppendAgrees(before: State, row: SessionRow, stored: seq<Row>, added: seq<Message>, now: int,
        st: State, session: SessionRow, rows: seq<Row>)
    requires Agrees(before, row, stored)
    requires st == Exec(before, Step.Append(added, now)) && session == row.(inserted := row.inserted + |added|)
    requires rows == NewRows(added, row.inserted, MaxSequence(stored) + 1, now)
    ensures Agrees(st, session, stored + rows)
  {
    AppendKeepsNumbers(stored, MaxSequence(stored), rows);
  }

  lemma {:induction false} CleanupAgrees(st: State, session: SessionRow, rows: seq<Row>, cutoff: int, watermark: nat)
    requires Agrees(st, session, rows)
    ensures var effective := Min(watermark, session.watermark);
      Agrees(Exec(st, Cleanup(cutoff, watermark)), session,
             if effective == 0 then rows else Kept(rows, cutoff, effective))
  {
    KeptIsSubsequence(rows, cutoff, Min(watermark, session.watermark));
  }

  class SessionMemory {
    var sessions: map<SessionId, SessionRow>
    var messages: seq<MessageRow>
    ghost var view: map<SessionId, State>

    ghost predicate Valid()
      reads this
    {
      AllAgree(view, sessions, messages)
    }

    constructor ()
      ensures Valid() && sessions == map[] && view == map[]
    {
      sessions, messages, view := map[], [], map[];
    }

    method Create(sid: SessionId, user: string, now: int)
      requires Valid() && sid !in sessions
      modifies this
      ensures Valid() && view == old(view)[sid := FRESH]
      ensures sessions == old(sessions)[sid := SessionRow(user, Active, now, 0, 0)]
    {
      sessions := sessions[sid := SessionRow(user, Active, now, 0, 0)];
      view := view[sid := FRESH];
    }

    /** `append_message` and `append_turn`: one transaction numbers all its messages. */
    method Append(sid: SessionId, added: seq<Message>, now: int) returns (r: Result<(), StoreError>)
      requires Valid()
      modifies this
      ensures Valid()
      ensures sid !in old(sessions) ==> r == Err(NotFound) && view == old(view) && messages == old(messages)
      ensures sid in old(sessions) ==>
        r == Ok(()) && view == old(view)[sid := Exec(old(view)[sid], Step.Append(added, now))]
    {
      if sid !in sessions { return Err(NotFound); }
      var next := MaxSequence(RowsOf(messages, sid)) + 1;
      var rows := NewRows(added, sessions[sid].inserted, next, now);
      var session := sessions[sid].(inserted := sessions[sid].inserted + |added|);
      ghost var st := Exec(view[sid], Step.Append(added, now));
      AppendAgrees(view[sid], sessions[sid], RowsOf(messages, sid), added, now, st, session, rows);
      InsertKeepsAgreement(view, sessions, messages, sid, st, session, rows);
      messages, sessions, view := messages + Inserted(sid, rows), sessions[sid := session], view[sid := st];
      return Ok(());
    }

    /** The rows of a session are always in the order of their numbers: the table keeps
        the order of insertion, so that reading it back is ORDER BY sequence_num. */
    method LoadMessages(sid: SessionId) returns (transcript: seq<Message>)
      requires Valid()
      ensures var rows := if sid in sessions then view[sid].rows else [];
        Increasing(rows) && transcript == seq(|rows|, i requires 0 <= i < |rows| => rows[i].message)
    {
      var rows := RowsOf(messages, sid);
      transcript := seq(|rows|, i requires 0 <= i < |rows| => rows[i].message);
    }

    method GetWatermark(sid: SessionId) returns (r: Result<nat, StoreError>)
      requires Valid()
      ensures r == if sid in sessions then Ok(view[sid].watermark) else Err(Database)
    {
      if sid !in sessions { return Err(Database); }
      return Ok(sessions[sid].watermark);
    }

    method LoadMessagesAboveWatermark(sid: SessionId) returns (r: Result<seq<Row>, StoreError>)
      requires Valid()
      ensures r == if sid in sessions then Ok(Above(view[sid].rows, view[sid].watermark)) else Err(Database)
      ensures r.Ok? ==> Increasing(r.value) && forall row ::
        row in r.value <==> row in view[sid].rows && row.sequenceNum > view[sid].watermark
    {
      if sid !in sessions { return Err(Database); }
      AboveIs(view[sid].rows, view[sid].watermark);
      return Ok(Above(RowsOf(messages, sid), sessions[sid].watermark));
    }

    /** UPDATE ... SET consolidation_watermark = MAX(consolidation_watermark, ?). */
    method AdvanceWatermark(sid: SessionId, watermark: nat) returns (r: Result<(), StoreError>)
      requires Valid()
      modifies this`sessions, this`view
      ensures Valid() && sessions.Keys == old(sessions).Keys
      ensures sid !in old(sessions) ==> r == Err(NotFound) && view == old(view) && sessions == old(sessions)
      ensures sid in old(sessions) ==> r == Ok(())
      ensures sid in old(sessions) ==>
        view == old(view)[sid := old(view)[sid].(watermark := Max(old(view)[sid].watermark, watermark))]
    {
      if sid !in sessions { return Err(NotFound); }
      sessions := sessions[sid := sessions[sid].(watermark := Max(sessions[sid].watermark, watermark))];
      view := view[sid := view[sid].(watermark := Max(view[sid].watermark, watermark))];
      return Ok(());
    }

    method CleanupExpiredMessages(sid: SessionId, cutoff: int, watermark: nat) returns (r: Result<nat, StoreError>)
      requires Valid()
      modifies this`messages, this`view
      ensures Valid()
      ensures sid in sessions ==> r.Ok? && view == old(view)[sid := Exec(old(view)[sid], Cleanup(cutoff, watermark))]
                                  && r.value == |old(messages)| - |messages|
      ensures sid !in sessions ==> view == old(view) && messages == old(messages) && (r == Ok(0) || r == Err(Database))
    {
      if sid in sessions { UpdatedWithItself(view, sid); }
      if watermark == 0 { return Ok(0); }
      if sid !in sessions { return Err(Database); }
      var effective := Min(watermark, sessions[sid].watermark);
      if effective == 0 { return Ok(0); }
      var deleted := DeleteRows(sid, cutoff, watermark, effective);
      return Ok(deleted);
    }

    method DeleteRows(sid: SessionId, cutoff: int, watermark: nat, effective: nat) returns (deleted: nat)
      requires Valid() && sid in sessions && effective == Min(watermark, sessions[sid].watermark) > 0
      modifies this`messages, this`view
      ensures Valid() && view == old(view)[sid := Exec(old(view)[sid], Cleanup(cutoff, watermark))]
      ensures deleted == |old(messages)| - |messages|
    {
      var kept := DeleteExpired(messages, sid, cutoff, effective);
      CleanupKeepsAgreement(view, sessions, messages, sid, cutoff, watermark, effective);
      DeleteShortens(messages, sid, cutoff, effective);
      deleted := |messages| - |kept|;
      messages := kept;
      view := view[sid := Exec(view[sid], Cleanup(cutoff, watermark))];
    }

    method UpdateStatus(sid: SessionId, status: SessionStatus, now: int) returns (r: Result<(), StoreError>)
      requires Valid()
      modifies this`sessions
      ensures Valid()
      ensures if sid in old(sessions)
              then r == Ok(())
                   && sessions == old(sessions)[sid := old(sessions)[sid].(status := status, updatedAt := now)]
              else r == Err(NotFound) && sessions == old(sessions)
    {
      if sid !in sessions { return Err(NotFound); }
      sessions := sessions[sid := sessions[sid].(status := status, updatedAt := now)];
      return Ok(());
    }

    /** Ended sessions go with all their messages; every other session keeps all of its own. */
    method DeleteEndedSessionsBefore(cutoff: int) returns (deleted: nat)
      requires Valid()
      modifies this
      ensures Valid()
      ensures forall sid :: sid in sessions <==>
        sid in old(sessions) && (old(sessions)[sid].status == Active || old(sessions)[sid].updatedAt >= cutoff)
      ensures forall sid | sid in sessions :: sessions[sid] == old(sessions)[sid] && view[sid] == old(view)[sid]
      ensures deleted == |old(sessions)| - |sessions|
    {
      var gone := set sid | sid in sessions && sessions[sid].status != Active && sessions[sid].updatedAt < cutoff;
      DeletionKeepsAgreement(view, sessions, messages, gone);
      deleted := |gone|;
      assert (sessions - gone).Keys == sessions.Keys - gone;
      messages, sessions, view := DeleteSessions(messages, gone), sessions - gone, view - gone;
    }

    /** The worker's own books: what it holds, and what it did outside the store. */
    ghost method Book(sid: SessionId, st: State)
      requires Valid() && sid in sessions
      requires st == view[sid].(batch := st.batch, written := st.written, log := st.log, failures := st.failures)
      modifies this`view
      ensures Valid() && view == old(view)[sid := st]
    {
      view := view[sid := st];
    }

    /** Sessions with rows above the watermark, or below it and older than `now`. */
    function NeedingMaintenance(now: int): set<SessionId>
      reads this
    {
      set sid | sid in sessions && exists r | r in RowsOf(messages, sid) ::
        r.sequenceNum > sessions[sid].watermark || (r.sequenceNum <= sessions[sid].watermark && r.createdAt < now)
    }
  }

  lemma {:induction false} AboveIs(rows: seq<Row>, watermark: nat)
    requires Increasing(rows)
    ensures forall r :: r in Above(rows, watermark) <==> r in rows && r.sequenceNum > watermark
    ensures Increasing(Above(rows, watermark))
  {
    if rows != [] {
      AboveIs(rows[1..], watermark);
      assert forall r :: r in rows <==> r == rows[0] || r in rows[1..];
      var rest := Above(rows[1..], watermark);
      forall i | 0 <= i < |rest| ensures rows[0].sequenceNum < rest[i].sequenceNum { assert rest[i] in rows[1..]; }
    }
  }

  lemma {:induction false} DeleteShortens(messages: seq<MessageRow>, sid: SessionId, cutoff: int, watermark: nat)
    ensures |DeleteExpired(messages, sid, cutoff, watermark)| <= |messages|
  {
    if messages != [] { DeleteShortens(messages[1..], sid, cutoff, watermark); }
  }

  // ---- the workers ----

  datatype ConsolidationConfig = ConsolidationConfig(batchSize: nat, idleTimeout: nat)

  /** `n` rows written and passed, one after the other. */
  ghost function Passed(st: State, n: nat): State {
    if n == 0 then st else Pass(Passed(st, n - 1))
  }

  function Pass(st: State): State { Exec(Exec(st, Write), Advance) }

  lemma PassKeeps(st: State)
    requires Inv(st) && st.batch != [] && !st.written
    ensures Inv(Pass(st))
    ensures Pass(st) == st.(watermark := st.watermark + 1, log := st.log + [st.batch[0]], batch := st.batch[1..])
  {
    WriteKeeps(st);
    AdvanceKeeps(Exec(st, Write));
  }

  /** After `n` rows without failures: the watermark is `n` further, and the log longer
      by the first `n` rows above the old one. */
  ghost predicate PassedOk(st: State, after: State, n: nat) {
    var batch := Above(st.rows, st.watermark);
    && n <= |batch| && Inv(after)
    && after == st.(watermark := st.watermark + n, log := st.log + batch[..n], batch := batch[n..])
  }

  lemma LoadedOk(st: State)
    requires Inv(st) && st.batch == []
    ensures PassedOk(st, Exec(st, Load), 0)
  {
    LoadKeeps(st);
    assert st.log + [] == st.log;
  }

  lemma NextOk(st: State, before: State, n: nat)
    requires PassedOk(st, before, n) && !st.written && n < |Above(st.rows, st.watermark)|
    ensures PassedOk(st, Pass(before), n + 1)
  {
    var batch := Above(st.rows, st.watermark);
    PassKeeps(before);
    assert batch[..n + 1] == batch[..n] + [batch[n]];
    assert st.log + batch[..n] + [batch[n]] == st.log + batch[..n + 1];
  }

  lemma {:induction false} PassedAll(st: State, n: nat)
    requires Inv(st) && st.batch == [] && n <= |Above(st.rows, st.watermark)|
    ensures PassedOk(st, Passed(Exec(st, Load), n), n)
  {
    LoadedOk(st);
    var passed := Exec(st, Load);
    for i := 0 to n
      invariant passed == Passed(Exec(st, Load), i) && PassedOk(st, passed, i)
    {
      NextOk(st, passed, i);
      passed := Pass(passed);
    }
  }

  /** What can stop a batch: the write to long-term memory, or the store's own advance
      of the watermark after it. */
  datatype Refusal = OfWrite | OfAdvance

  ghost function AtRefusal(st: State, refusal: Refusal): State {
    if refusal.OfAdvance? then Exec(st, Write) else st
  }

  /** The rows of a batch, one after the other, until one is refused: `accepted` rows
      are written and passed before that. */
  ghost function PassedUntil(loaded: State, size: nat, accepted: nat, refusal: Refusal): State {
    if accepted < size then Exec(AtRefusal(Passed(loaded, accepted), refusal), Fail) else Passed(loaded, size)
  }

  /** A short batch waits until the session has been idle. */
  predicate Waits(config: ConsolidationConfig, size: nat, idle: int) {
    size < config.batchSize && idle < config.idleTimeout
  }

  /** One session of a consolidation tick, once its rows are loaded. */
  ghost function TickFrom(loaded: State, config: ConsolidationConfig, idle: int, accepted: nat,
        refusal: Refusal): State {
    if loaded.batch == [] || Waits(config, |loaded.batch|, idle) then Exec(loaded, Fail)
    else PassedUntil(loaded, |loaded.batch|, accepted, refusal)
  }

  ghost function SessionTick(st: State, config: ConsolidationConfig, idle: int, accepted: nat,
        refusal: Refusal): State {
    TickFrom(Exec(st, Load), config, idle, accepted, refusal)
  }

  /** What a session meets with in a tick: the time, the writes accepted before one is
      refused, and what refuses it. */
  datatype Fate = Fate(now: int, accepted: nat, refusal: Refusal)

  ghost function Ticked(st: State, config: ConsolidationConfig, updatedAt: int, fate: Fate): State {
    SessionTick(st, config, fate.now - updatedAt, fate.accepted, fate.refusal)
  }

  /** A write or an advance of the session's turn is refused. */
  predicate RefusesIn(st: State, config: ConsolidationConfig, updatedAt: int, fate: Fate) {
    var size := |Above(st.rows, st.watermark)|;
    && fate.accepted < size
    && (size >= config.batchSize || fate.now - updatedAt >= config.idleTimeout)
  }

  ghost function TickPasses(st: State, config: ConsolidationConfig, idle: int, accepted: nat): nat {
    var size := |Above(st.rows, st.watermark)|;
    if size < config.batchSize && idle < config.idleTimeout then 0 else if accepted < size then accepted else size
  }

  /** Rows written without being passed: one, if an advance was refused. */
  ghost function TickRepeats(st: State, config: ConsolidationConfig, idle: int, accepted: nat, refusal: Refusal): nat {
    var size := |Above(st.rows, st.watermark)|;
    var due := size >= config.batchSize || idle >= config.idleTimeout;
    if due && accepted < size && refusal.OfAdvance? then 1 else 0
  }

  /** `passed` rows logged and passed, and `repeats` more logged only. */
  ghost predicate TickOk(st: State, after: State, passed: nat, repeats: nat) {
    var above := Above(st.rows, st.watermark);
    && passed + repeats <= |above| && Inv(after)
    && after == st.(watermark := st.watermark + passed, log := st.log + above[..passed + repeats],
                    failures := st.failures + repeats)
  }

  /** A tick leaves the transcript alone; it logs the rows above the watermark in
      order, all of them unless one is refused, and moves the watermark as far.  Only
      when the store refuses to move it, the last row logged will be logged again. */
  lemma SessionTickConsolidates(st: State, config: ConsolidationConfig, idle: int, accepted: nat, refusal: Refusal)
    requires Inv(st) && st.batch == []
    ensures TickOk(st, SessionTick(st, config, idle, accepted, refusal),
                   TickPasses(st, config, idle, accepted), TickRepeats(st, config, idle, accepted, refusal))
  {
    var above, passed := Above(st.rows, st.watermark), TickPasses(st, config, idle, accepted);
    if |above| == 0 || Waits(config, |above|, idle) {
      WaitingChangesNothing(st);
    } else if passed == |above| {
      AllPassed(st);
    } else if refusal.OfAdvance? {
      WrittenThenStopped(st, passed);
    } else {
      PassedThenStopped(st, passed);
    }
  }

  /** The turn of a session with `n` rows above its watermark, in plain numbers.  If there
      are `batchSize` of them or it has been idle for `idleTimeout`, they are logged in order
      and the watermark moves past them, all of them or those before the first refusal;
      otherwise nothing changes. */
  lemma TurnsConsolidateExactly(st: State, config: ConsolidationConfig, updatedAt: int, fate: Fate)
    requires Inv(st) && st.batch == []
    ensures var after, n := Ticked(st, config, updatedAt, fate), |st.appended| - st.watermark;
      var due := n >= config.batchSize || fate.now - updatedAt >= config.idleTimeout;
      && (n == 0 || !due ==> after == st)
      && (due && fate.accepted >= n ==>
            after == st.(watermark := |st.appended|, log := st.log + st.appended[st.watermark..]))
      && (due && fate.accepted < n ==>
            var stop, repeats := st.watermark + fate.accepted, if fate.refusal.OfAdvance? then 1 else 0;
            after == st.(watermark := stop, log := st.log + st.appended[st.watermark..stop + repeats],
                         failures := st.failures + repeats))
      && (n > 0 && fate.accepted >= n ==> (after.watermark == |st.appended| <==> due))
  {
    var idle, log := fate.now - updatedAt, st.log;
    var passed := TickPasses(st, config, idle, fate.accepted);
    var repeats := TickRepeats(st, config, idle, fate.accepted, fate.refusal);
    TurnLogs(st, config, updatedAt, fate, passed, repeats);
    assert |Above(st.rows, st.watermark)| == |st.appended| - st.watermark;
    if passed + repeats == 0 { assert log + st.appended[st.watermark..st.watermark] == log; }
    if st.watermark + passed == |st.appended| {
      assert st.appended[st.watermark..|st.appended|] == st.appended[st.watermark..];
    }
  }

  lemma TurnLogs(st: State, config: ConsolidationConfig, updatedAt: int, fate: Fate, passed: nat, repeats: nat)
    requires Inv(st) && st.batch == []
    requires passed == TickPasses(st, config, fate.now - updatedAt, fate.accepted)
    requires repeats == TickRepeats(st, config, fate.now - updatedAt, fate.accepted, fate.refusal)
    ensures st.watermark + passed + repeats <= |st.appended|
    ensures Ticked(st, config, updatedAt, fate)
      == st.(watermark := st.watermark + passed, failures := st.failures + repeats,
             log := st.log + st.appended[st.watermark..st.watermark + passed + repeats])
  {
    SessionTickConsolidates(st, config, fate.now - updatedAt, fate.accepted, fate.refusal);
    var above := Above(st.rows, st.watermark);
    assert above == st.appended[st.watermark..];
    assert above[..passed + repeats] == st.appended[st.watermark..st.watermark + passed + repeats];
  }

  /** With the usual settings, ten messages are consolidated at once, however busy the session is;
      nine wait until it has been idle for half an hour. */
  lemma TenMessagesAreConsolidated(messages: seq<Message>, now: int, refusal: Refusal)
    requires 0 < |messages| <= 10
    ensures var config, st := ConsolidationConfig(10, 1800), Exec(FRESH, Step.Append(messages, now));
      && (|messages| == 10 ==> Ticked(st, config, now, Fate(now, 10, refusal)).log == st.appended)
      && (|messages| < 10 ==> Ticked(st, config, now, Fate(now + 1799, 10, refusal)).log == [])
      && Ticked(st, config, now, Fate(now + 1800, 10, refusal)).log == st.appended
  {
    var config, st := ConsolidationConfig(10, 1800), Exec(FRESH, Step.Append(messages, now));
    assert AlwaysKeepsHighest([]) && Inv(Consolidation.Run([])) by { RunKeeps([]); }
    AppendKeeps(FRESH, messages, now);
    assert st.watermark == 0 && st.log == [] && |st.appended| == |messages|;
    assert [] + st.appended[0..] == st.appended;
    TurnsConsolidateExactly(st, config, now, Fate(now, 10, refusal));
    TurnsConsolidateExactly(st, config, now, Fate(now + 1799, 10, refusal));
    TurnsConsolidateExactly(st, config, now, Fate(now + 1800, 10, refusal));
  }

  lemma AllPassed(st: State)
    requires Inv(st) && st.batch == []
    ensures var above := Above(st.rows, st.watermark); TickOk(st, Passed(Exec(st, Load), |above|), |above|, 0)
  {
    PassedAll(st, |Above(st.rows, st.watermark)|);
  }

  lemma {:induction false} PassedThenStopped(st: State, n: nat)
    requires Inv(st) && st.batch == [] && n <= |Above(st.rows, st.watermark)|
    ensures TickOk(st, Exec(Passed(Exec(st, Load), n), Fail), n, 0)
  {
    PassedAll(st, n);
    var passed := Passed(Exec(st, Load), n);
    assert Exec(passed, Fail) == passed.(batch := []);
    StoppedKeeps(passed);
  }

  lemma {:induction false} WrittenThenStopped(st: State, n: nat)
    requires Inv(st) && st.batch == [] && n < |Above(st.rows, st.watermark)|
    ensures TickOk(st, Exec(Exec(Passed(Exec(st, Load), n), Write), Fail), n, 1)
  {
    PassedAll(st, n);
    WrittenOk(st, Passed(Exec(st, Load), n), n);
  }

  lemma WrittenOk(st: State, passed: State, n: nat)
    requires PassedOk(st, passed, n) && !st.written && st.batch == [] && n < |Above(st.rows, st.watermark)|
    ensures TickOk(st, Exec(Exec(passed, Write), Fail), n, 1)
  {
    var above := Above(st.rows, st.watermark);
    assert above[..n + 1] == above[..n] + [above[n]];
    assert st.log + above[..n] + [above[n]] == st.log + above[..n + 1];
    WriteKeeps(passed);
    FailKeeps(Exec(passed, Write));
  }

  lemma StoppedKeeps(st: State)
    requires Inv(st) && !st.written
    ensures Inv(st.(batch := []))
  {
  }

  lemma WaitingChangesNothing(st: State)
    requires Inv(st) && st.batch == [] && !st.written
    ensures Exec(Exec(st, Load), Fail) == st && TickOk(st, st, 0, 0)
  {
    assert st.log + Above(st.rows, st.watermark)[..0] == st.log;
  }

  /** The batch in hand is the one the state holds, and stays so row by row. */
  ghost predicate InHand(loaded: State, batch: seq<Row>) {
    forall i | 0 <= i < |batch| :: ReadyFor(Passed(loaded, i), batch[i].sequenceNum)
  }

  ghost predicate ReadyFor(st: State, sequenceNum: nat) {
    st.batch != [] && !st.written && st.batch[0].sequenceNum == sequenceNum
  }

  lemma {:induction false} PassedBatch(loaded: State, n: nat)
    requires n <= |loaded.batch| && !loaded.written
    ensures Passed(loaded, n).batch == loaded.batch[n..] && !Passed(loaded, n).written
  {
    if n > 0 { PassedBatch(loaded, n - 1); }
  }

  lemma LoadedIsInHand(st: State)
    requires st.batch == []
    ensures InHand(Exec(st, Load), Exec(st, Load).batch)
  {
    var loaded := Exec(st, Load);
    forall i | 0 <= i < |loaded.batch| ensures ReadyFor(Passed(loaded, i), loaded.batch[i].sequenceNum) {
      PassedBatch(loaded, i);
    }
  }

  /** One row written to long-term memory and passed by the watermark. */
  method PassRow(store: SessionMemory, sid: SessionId, sequenceNum: nat)
    requires store.Valid() && sid in store.sessions && ReadyFor(store.view[sid], sequenceNum)
    modifies store
    ensures store.Valid() && sid in store.sessions
    ensures store.view == old(store.view)[sid := Pass(old(store.view)[sid])]
  {
    ghost var views, st := store.view, Exec(store.view[sid], Write);
    store.Book(sid, st);
    var advanced := store.AdvanceWatermark(sid, sequenceNum);
    store.Book(sid, Exec(st, Advance));
    UpdatedTwice(views, sid, st, st.(watermark := Max(st.watermark, sequenceNum)));
    UpdatedTwice(views, sid, st.(watermark := Max(st.watermark, sequenceNum)), Exec(st, Advance));
  }

  method PassBatch(store: SessionMemory, sid: SessionId, batch: seq<Row>, accepted: nat) returns (passed: nat)
    requires store.Valid() && sid in store.sessions && InHand(store.view[sid], batch)
    modifies store
    ensures store.Valid() && sid in store.sessions && passed == Min(accepted, |batch|)
    ensures store.view == old(store.view)[sid := Passed(old(store.view)[sid], passed)]
  {
    ghost var views, st := store.view, store.view[sid];
    passed := 0;
    while passed < |batch| && passed < accepted
      invariant store.Valid() && sid in store.sessions && passed <= |batch| && passed <= accepted
      invariant store.view == views[sid := st] && st == Passed(views[sid], passed)
    {
      assert ReadyFor(st, batch[passed].sequenceNum);
      PassRow(store, sid, batch[passed].sequenceNum);
      UpdatedTwice(views, sid, st, Pass(st));
      st := Pass(st);
      passed := passed + 1;
    }
  }

  method PassUntilRefused(store: SessionMemory, sid: SessionId, batch: seq<Row>, accepted: nat, refusal: Refusal)
    returns (ok: bool)
    requires store.Valid() && sid in store.sessions && InHand(store.view[sid], batch)
    modifies store
    ensures store.Valid() && ok == (accepted >= |batch|)
    ensures store.view == old(store.view)[sid := PassedUntil(old(store.view)[sid], |batch|, accepted, refusal)]
  {
    ghost var before := store.view;
    var passed := PassBatch(store, sid, batch, accepted);
    if passed == |batch| { return true; }
    ghost var st := AtRefusal(store.view[sid], refusal);
    store.Book(sid, st);
    UpdatedTwice(before, sid, Passed(before[sid], passed), st);
    store.Book(sid, Exec(st, Fail));
    UpdatedTwice(before, sid, st, Exec(st, Fail));
    return false;
  }

  /** The session's turn in a tick, `updatedAt` as the query listed it. */
  method ConsolidateSession(store: SessionMemory, config: ConsolidationConfig, sid: SessionId, updatedAt: int,
        fate: Fate) returns (ok: bool)
    requires store.Valid() && sid in store.sessions && store.view[sid].batch == []
    modifies store
    ensures store.Valid() && ok == !RefusesIn(old(store.view)[sid], config, updatedAt, fate)
    ensures store.view == old(store.view)[sid := Ticked(old(store.view)[sid], config, updatedAt, fate)]
  {
    ghost var views, st := store.view, Exec(store.view[sid], Load);
    LoadedIsInHand(store.view[sid]);
    var idle := fate.now - updatedAt;
    var loaded := store.LoadMessagesAboveWatermark(sid);
    store.Book(sid, st);
    ok := ConsolidateBatch(store, config, sid, loaded.value, idle, fate.accepted, fate.refusal);
    UpdatedTwice(views, sid, st, TickFrom(st, config, idle, fate.accepted, fate.refusal));
  }

  method ConsolidateBatch(store: SessionMemory, config: ConsolidationConfig, sid: SessionId, batch: seq<Row>, idle: int,
        accepted: nat, refusal: Refusal) returns (ok: bool)
    requires store.Valid() && sid in store.sessions && InHand(store.view[sid], batch) && batch == store.view[sid].batch
    modifies store
    ensures store.Valid()
    ensures ok == (accepted >= |batch| || (|batch| < config.batchSize && idle < config.idleTimeout))
    ensures store.view == old(store.view)[sid := TickFrom(old(store.view)[sid], config, idle, accepted, refusal)]
  {
    if |batch| == 0 {
      store.Book(sid, Exec(store.view[sid], Fail));
      return true;
    }
    if |batch| < config.batchSize && idle < config.idleTimeout {
      store.Book(sid, Exec(store.view[sid], Fail));
      return true;
    }
    ok := PassUntilRefused(store, sid, batch, accepted, refusal);
  }

  /** What a tick goes by: each session as the query listed it, and what it meets with. */
  datatype Listing = Listing(rows: map<SessionId, SessionRow>, fates: map<SessionId, Fate>) {
    ghost predicate Covers(view: map<SessionId, State>) { view.Keys == rows.Keys <= fates.Keys }

    ghost function After(view: map<SessionId, State>, config: ConsolidationConfig, sid: SessionId): State
      requires Covers(view) && sid in view
    {
      Ticked(view[sid], config, rows[sid].updatedAt, fates[sid])
    }

    ghost predicate Refuses(view: map<SessionId, State>, config: ConsolidationConfig, sid: SessionId)
      requires Covers(view)
    {
      sid in view && RefusesIn(view[sid], config, rows[sid].updatedAt, fates[sid])
    }
  }

  /** The sessions that a tick has visited are as their own turn leaves them, the others
      as they were. */
  ghost predicate Visited(before: map<SessionId, State>, after: map<SessionId, State>, listing: Listing,
        config: ConsolidationConfig, visited: seq<SessionId>)
    requires listing.Covers(before)
  {
    && after.Keys == before.Keys
    && forall sid | sid in before ::
         after[sid] == if sid in visited then listing.After(before, config, sid) else before[sid]
  }

  /** Of the first n listed sessions none refuses, but for the last one if the tick is not ok. */
  ghost predicate StoppedAt(before: map<SessionId, State>, listing: Listing, config: ConsolidationConfig,
        listed: seq<SessionId>, n: nat, ok: bool)
    requires listing.Covers(before) && n <= |listed|
  {
    forall i | 0 <= i < n :: listing.Refuses(before, config, listed[i]) <==> !ok && i == n - 1
  }

  predicate Resting(st: State) {
    st.batch == [] && !st.written
  }

  predicate NoneTwice(listed: seq<SessionId>) {
    forall i, j | 0 <= i < j < |listed| :: listed[i] != listed[j]
  }

  lemma VisitNext(before: map<SessionId, State>, middle: map<SessionId, State>, listing: Listing,
        config: ConsolidationConfig, listed: seq<SessionId>, n: nat)
    requires listing.Covers(before) && n < |listed| && NoneTwice(listed) && listed[n] in before
    requires Visited(before, middle, listing, config, listed[..n])
    ensures listed[n] in middle && middle[listed[n]] == before[listed[n]]
    ensures var sid := listed[n];
      Visited(before, middle[sid := listing.After(before, config, sid)], listing, config, listed[..n + 1])
  {
    assert listed[..n + 1] == listed[..n] + [listed[n]];
    assert listed[n] !in listed[..n];
  }

  /** The listed sessions one after the other, up to the first that refuses. */
  method VisitListed(store: SessionMemory, config: ConsolidationConfig, listed: seq<SessionId>, listing: Listing)
    returns (ok: bool, visited: nat)
    requires store.Valid() && NoneTwice(listed) && listing.rows == store.sessions && listing.Covers(store.view)
    requires forall sid | sid in listed :: sid in store.sessions && Resting(store.view[sid])
    modifies store
    ensures store.Valid() && visited <= |listed| && (ok ==> visited == |listed|) && (!ok ==> visited > 0)
    ensures Visited(old(store.view), store.view, listing, config, listed[..visited])
    ensures StoppedAt(old(store.view), listing, config, listed, visited, ok)
  {
    ghost var before := store.view;
    ok, visited := true, 0;
    while visited < |listed| && ok
      invariant visited <= |listed| && store.Valid() && (!ok ==> visited > 0)
      invariant Visited(before, store.view, listing, config, listed[..visited])
      invariant StoppedAt(before, listing, config, listed, visited, ok)
    {
      var sid := listed[visited];
      assert sid in listed && ok;
      VisitNext(before, store.view, listing, config, listed, visited);
      ok := ConsolidateSession(store, config, sid, listing.rows[sid].updatedAt, listing.fates[sid]);
      visited := visited + 1;
    }
  }

  /** A whole tick: the sessions that the query lists, until a write or an advance is
      refused, which ends the tick for those listed after it.  A tick that comes to its
      end leaves every session of the store as a turn of its own would. */
  method ConsolidationTick(store: SessionMemory, config: ConsolidationConfig, listed: seq<SessionId>, now: int,
        fates: map<SessionId, Fate>) returns (ok: bool, visited: nat)
    requires store.Valid() && NoneTwice(listed) && store.sessions.Keys <= fates.Keys
    requires forall sid :: sid in listed <==> sid in store.NeedingMaintenance(now)
    requires forall sid | sid in store.sessions :: Resting(store.view[sid])
    modifies store
    ensures store.Valid() && visited <= |listed| && (ok ==> visited == |listed|) && (!ok ==> visited > 0)
    ensures var listing := Listing(old(store.sessions), fates);
      && Visited(old(store.view), store.view, listing, config, listed[..visited])
      && StoppedAt(old(store.view), listing, config, listed, visited, ok)
      && (ok ==> forall sid | sid in store.view :: store.view[sid] == listing.After(old(store.view), config, sid))
  {
    ghost var before := store.view;
    UnlistedRest(store, config, now, fates);
    ok, visited := VisitListed(store, config, listed, Listing(store.sessions, fates));
    if ok { assert listed[..visited] == listed; }
  }

  /** A session that the query leaves out is as a turn of its own would leave it. */
  lemma UnlistedRest(store: SessionMemory, config: ConsolidationConfig, now: int, fates: map<SessionId, Fate>)
    requires store.Valid() && store.sessions.Keys <= fates.Keys
    requires forall sid | sid in store.sessions :: Resting(store.view[sid])
    ensures forall sid | sid in store.sessions && sid !in store.NeedingMaintenance(now) ::
      Ticked(store.view[sid], config, store.sessions[sid].updatedAt, fates[sid]) == store.view[sid]
  {
    forall sid | sid in store.sessions && sid !in store.NeedingMaintenance(now)
      ensures Ticked(store.view[sid], config, store.sessions[sid].updatedAt, fates[sid]) == store.view[sid]
    {
      OtherSessionsNeedNothing(store, sid, now, now, 0);
      NothingToDo(store.view[sid], config, fates[sid].now - store.sessions[sid].updatedAt, fates[sid]);
    }
  }

  lemma NothingToDo(st: State, config: ConsolidationConfig, idle: int, fate: Fate)
    requires Resting(st) && Above(st.rows, st.watermark) == []
    ensures SessionTick(st, config, idle, fate.accepted, fate.refusal) == st
  {
  }

  lemma UpdatedWithItself<K, V>(m: map<K, V>, k: K)
    requires k in m
    ensures m[k := m[k]] == m
  {
  }

  lemma UpdatedTwice<K, V>(m: map<K, V>, k: K, first: V, second: V)
    ensures m[k := first][k := second] == m[k := second]
  {
  }

  /** The message half of a cleanup tick, for one session. */
  method CleanupSession(store: SessionMemory, sid: SessionId, cutoff: int) returns (r: Result<nat, StoreError>)
    requires store.Valid()
    modifies store
    ensures store.Valid() && store.sessions == old(store.sessions)
    ensures sid !in store.sessions ==> r == Err(Database) && store.view == old(store.view)
    ensures sid in store.sessions ==>
      store.view == old(store.view)[sid := Exec(old(store.view)[sid], Cleanup(cutoff, old(store.view)[sid].watermark))]
  {
    var wm := store.GetWatermark(sid);
    if wm.Err? { return Err(Database); }
    r := store.CleanupExpiredMessages(sid, cutoff, wm.value);
  }

  lemma {:induction false} NothingAbove(rows: seq<Row>, watermark: nat)
    requires forall r | r in rows :: r.sequenceNum <= watermark
    ensures Above(rows, watermark) == []
  {
    if rows != [] {
      assert rows[0] in rows;
      NothingAbove(rows[1..], watermark);
    }
  }

  /** The query lists a session exactly if one of its rows is above the watermark or older than `now`. */
  lemma ListedExactly(store: SessionMemory, sid: SessionId, now: int)
    requires store.Valid()
    ensures sid in store.NeedingMaintenance(now)
       <==> sid in store.sessions && exists r | r in store.view[sid].rows ::
              r.sequenceNum > store.view[sid].watermark || r.createdAt < now
  {
  }

  /** The query misses nothing: for every session it leaves out, there is nothing to
      consolidate and nothing to clean up. */
  lemma OtherSessionsNeedNothing(store: SessionMemory, sid: SessionId, now: int, cutoff: int, watermark: nat)
    requires store.Valid() && sid in store.sessions && sid !in store.NeedingMaintenance(now) && cutoff <= now
    ensures var st := store.view[sid]; Above(st.rows, st.watermark) == [] && Exec(st, Cleanup(cutoff, watermark)) == st
  {
    var st := store.view[sid];
    forall r | r in st.rows ensures r.sequenceNum <= st.watermark && !(r.createdAt < now) {
      assert r in RowsOf(store.messages, sid);
    }
    NothingAbove(st.rows, st.watermark);
    NothingExpires(st.rows, cutoff, Min(watermark, st.watermark));
  }

  function Cleaned(st: State, cutoff: int): State { Exec(st, Cleanup(cutoff, st.watermark)) }

  lemma UnlistedStay(store: SessionMemory, now: int, cutoff: int)
    requires store.Valid() && cutoff <= now
    ensures forall sid | sid in store.sessions && sid !in store.NeedingMaintenance(now) ::
      Cleaned(store.view[sid], cutoff) == store.view[sid]
  {
    forall sid | sid in store.sessions && sid !in store.NeedingMaintenance(now)
      ensures Cleaned(store.view[sid], cutoff) == store.view[sid]
    {
      OtherSessionsNeedNothing(store, sid, now, cutoff, store.view[sid].watermark);
    }
  }

  method CleanListed(store: SessionMemory, listed: set<SessionId>, cutoff: int)
    requires store.Valid() && listed <= store.sessions.Keys
    modifies store
    ensures store.Valid() && store.sessions == old(store.sessions)
    ensures forall sid | sid in store.sessions ::
      store.view[sid] == if sid in listed then Cleaned(old(store.view)[sid], cutoff) else old(store.view)[sid]
  {
    var left := listed;
    while left != {}
      invariant store.Valid() && store.sessions == old(store.sessions) && left <= listed
      invariant forall sid | sid in store.sessions ::
        store.view[sid]
          == if sid in listed && sid !in left then Cleaned(old(store.view)[sid], cutoff) else old(store.view)[sid]
      decreases left
    {
      var sid :| sid in left;
      left := left - {sid};
      CleanOne(store, sid, cutoff);
    }
  }

  method CleanOne(store: SessionMemory, sid: SessionId, cutoff: int)
    requires store.Valid() && sid in store.sessions
    modifies store
    ensures store.Valid() && store.sessions == old(store.sessions)
    ensures store.view == old(store.view)[sid := Cleaned(old(store.view)[sid], cutoff)]
  {
    var _ := CleanupSession(store, sid, cutoff);
  }

  /** A cleanup tick: ended sessions first, then every session that the query lists.
      In the end each session that is left has been cleaned up at its own watermark. */
  method CleanupTick(store: SessionMemory, sessionCutoff: int, messageCutoff: int, now: int)
    requires store.Valid() && messageCutoff <= now
    modifies store
    ensures store.Valid()
    ensures forall sid :: sid in store.sessions <==>
      && sid in old(store.sessions)
      && (old(store.sessions)[sid].status == Active || old(store.sessions)[sid].updatedAt >= sessionCutoff)
    ensures forall sid | sid in store.sessions :: store.view[sid] == Cleaned(old(store.view)[sid], messageCutoff)
  {
    var deleted := store.DeleteEndedSessionsBefore(sessionCutoff);
    UnlistedStay(store, now, messageCutoff);
    CleanListed(store, store.NeedingMaintenance(now), messageCutoff);
  }
}
