/** One session behind the cache: its invocations one at a time, anything else in between. */
module CachedSession {
  import opened Messages
  import opened Wrappers
  import opened Consolidation
  import opened WorkingMemory

  datatype Turn =
    | Idle
    | Running(user: Message, history: seq<Message>)
    | Committed(user: Message, assistant: Message)

  /** `now` is the monotonic clock of the cache and `wall` the one that stamps rows.
      `origin` is what the cache entry was created with, `since` how many messages
      the session had then. */
  datatype CacheState = CacheState(
    now: nat, wall: nat, entries: Entries, stored: State, turn: Turn, origin: seq<Message>, since: int)

  datatype CacheStep =
    | Tick(elapsed: nat, wallElapsed: nat)
    | Worker(step: Step)
    | OtherStore(other: Key, messages: seq<Message>)
    | OtherTurn(other: Key, user: Message, assistant: Message)
    | Evict(evicted: Key)
    | Begin(input: string)
    | BeginPhase(input: string)
    | Abandon
    | Commit(reply: string)
    | CacheTurn

  datatype Config = Config(key: Key, ttl: nat)

  const NEW_SESSION := CacheState(0, 0, map[], FRESH, Idle, [], 0)

  function Texts(rows: seq<Row>): seq<Message> {
    seq(|rows|, i requires 0 <= i < |rows| => rows[i].message)
  }

  /** Everything ever said in the session, and what is still stored of it. */
  function Said(st: CacheState): seq<Message> { Texts(st.stored.appended) }

  function Transcript(st: CacheState): seq<Message> { Texts(st.stored.rows) }

  function Hit(cfg: Config, st: CacheState): Option<seq<Message>> {
    Lookup(st.entries, cfg.key, st.now, cfg.ttl)
  }

  /** A step that is not possible in a state does nothing. */
  function Exec(cfg: Config, st: CacheState, step: CacheStep): CacheState {
    match step
    case Tick(elapsed, wallElapsed) => st.(now := st.now + elapsed, wall := st.wall + wallElapsed)
    case Worker(step) => if step.Append? then st else st.(stored := Consolidation.Exec(st.stored, step))
    case OtherStore(other, messages) =>
      if other == cfg.key then st else st.(entries := Stored(st.entries, other, messages, st.now, cfg.ttl))
    case OtherTurn(other, user, assistant) =>
      if other == cfg.key then st else st.(entries := WithTurn(st.entries, other, user, assistant, st.now))
    case Evict(evicted) => st.(entries := st.entries - {evicted})
    case Begin(input) =>
      if !st.turn.Idle? then st
      else if Hit(cfg, st).Some? then st.(turn := Running(TextMessage(User, input), Hit(cfg, st).value))
      else
        st.(entries := Stored(st.entries, cfg.key, Transcript(st), st.now, cfg.ttl),
            turn := Running(TextMessage(User, input), Transcript(st)), origin := Transcript(st),
            since := |st.stored.appended|)
    case BeginPhase(input) =>
      if !st.turn.Idle? then st
      else st.(entries := st.entries - {cfg.key}, turn := Running(TextMessage(User, input), []))
    case Abandon => if st.turn.Running? then st.(turn := Idle) else st
    case Commit(reply) =>
      if !st.turn.Running? then st
      else
        var assistant := TextMessage(Assistant, reply);
        st.(stored := Consolidation.Exec(st.stored, Append([st.turn.user, assistant], st.wall)),
            turn := Committed(st.turn.user, assistant))
    case CacheTurn =>
      if !st.turn.Committed? then st
      else
        var entries := WithTurn(st.entries, cfg.key, st.turn.user, st.turn.assistant, st.now);
        var cached := st.(entries := entries, turn := Idle);
        if cfg.key in st.entries then cached else cached.(origin := [], since := |st.stored.appended| - 2)
  }

  function Run(cfg: Config, steps: seq<CacheStep>): CacheState {
    if steps == [] then NEW_SESSION else Exec(cfg, Run(cfg, steps[..|steps| - 1]), steps[|steps| - 1])
  }

  // ---- the invariant ----

  ghost predicate IsSuffix<T>(s: seq<T>, whole: seq<T>) {
    |s| <= |whole| && s == whole[|whole| - |s|..]
  }

  ghost predicate Stamped(rows: seq<Row>, wall: nat) {
    && (forall i, j | 0 <= i < j < |rows| :: rows[i].createdAt <= rows[j].createdAt)
    && (forall i | 0 <= i < |rows| :: rows[i].createdAt <= wall)
  }

  /** What is stored is the end of what was ever appended. */
  ghost predicate StoreOk(st: CacheState) {
    && Stamped(st.stored.appended, st.wall)
    && IsSuffix(st.stored.rows, st.stored.appended)
    && Increasing(st.stored.rows)
  }

  /** How much of what was said the cache has had a chance to see. */
  function Seen(st: CacheState): int {
    if st.turn.Committed? then |st.stored.appended| - 2 else |st.stored.appended|
  }

  ghost predicate TurnOk(st: CacheState) {
    st.turn.Committed? ==>
      |st.stored.appended| >= 2 && Said(st)[|Said(st)| - 2..] == [st.turn.user, st.turn.assistant]
  }

  /** The entry, expired or not: what it was created with, and all that was said since. */
  ghost predicate EntryOk(cfg: Config, st: CacheState) {
    cfg.key in st.entries ==>
      && 0 <= st.since <= Seen(st) <= |st.stored.appended|
      && st.entries[cfg.key].messages == st.origin + Said(st)[st.since..Seen(st)]
      && IsSuffix(st.origin, Said(st)[..st.since])
  }

  ghost predicate Inv(cfg: Config, st: CacheState) {
    StoreOk(st) && TurnOk(st) && EntryOk(cfg, st)
  }

  /** With rows stamped in order, cleanup takes away a beginning of the table. */
  lemma {:induction false} CleanupLeavesSuffix(rows: seq<Row>, cutoff: int, watermark: nat)
    requires Increasing(rows)
    requires forall i, j | 0 <= i < j < |rows| :: rows[i].createdAt <= rows[j].createdAt
    ensures IsSuffix(Kept(rows, cutoff, watermark), rows)
  {
    if rows != [] {
      CleanupLeavesSuffix(rows[1..], cutoff, watermark);
      if !Expired(rows[0], cutoff, watermark) { NothingExpires(rows[1..], cutoff, watermark); }
    }
  }

  lemma SuffixOfSuffix<T>(a: seq<T>, b: seq<T>, c: seq<T>)
    requires IsSuffix(a, b) && IsSuffix(b, c)
    ensures IsSuffix(a, c)
  {
  }

  lemma WorkerKeepsStore(st: CacheState, step: Step)
    requires StoreOk(st) && !step.Append?
    ensures StoreOk(st.(stored := Consolidation.Exec(st.stored, step)))
    ensures Consolidation.Exec(st.stored, step).appended == st.stored.appended
  {
    if step.Cleanup? {
      CleanupKeepsStore(st, step.cutoff, Min(step.watermark, st.stored.watermark));
    }
  }

  lemma {:induction false} CleanupKeepsStore(st: CacheState, cutoff: int, effective: nat)
    requires StoreOk(st)
    ensures StoreOk(st.(stored := st.stored.(rows := Kept(st.stored.rows, cutoff, effective))))
  {
    var rows, appended := st.stored.rows, st.stored.appended;
    SuffixStamped(rows, appended, st.wall);
    KeptIsSubsequence(rows, cutoff, effective);
    CleanupLeavesSuffix(rows, cutoff, effective);
    SuffixOfSuffix(Kept(rows, cutoff, effective), rows, appended);
  }

  lemma SuffixStamped(rows: seq<Row>, whole: seq<Row>, wall: nat)
    requires IsSuffix(rows, whole) && Stamped(whole, wall)
    ensures Stamped(rows, wall)
  {
  }

  lemma AppendKeepsStore(st: CacheState, messages: seq<Message>)
    requires StoreOk(st)
    ensures var after := Consolidation.Exec(st.stored, Append(messages, st.wall));
      StoreOk(st.(stored := after)) && Texts(after.appended) == Said(st) + messages
  {
    var added := NewRows(messages, |st.stored.appended|, MaxSequence(st.stored.rows) + 1, st.wall);
    AddedRowsKeepStore(st, added);
    TextsAppend(st.stored.appended, added, messages);
  }

  lemma AddedRowsKeepStore(st: CacheState, added: seq<Row>)
    requires StoreOk(st)
    requires forall i | 0 <= i < |added| ::
               added[i].sequenceNum == MaxSequence(st.stored.rows) + 1 + i && added[i].createdAt == st.wall
    ensures StoreOk(st.(stored := st.stored.(rows := st.stored.rows + added, appended := st.stored.appended + added)))
  {
    AppendKeepsNumbers(st.stored.rows, MaxSequence(st.stored.rows), added);
    SuffixAppend(st.stored.rows, st.stored.appended, added);
    StampedAppend(st.stored.appended, added, st.wall);
  }

  lemma TextsAppend(rows: seq<Row>, added: seq<Row>, messages: seq<Message>)
    requires |added| == |messages| && forall i | 0 <= i < |added| :: added[i].message == messages[i]
    ensures Texts(rows + added) == Texts(rows) + messages
  {
  }

  lemma SuffixAppend<T>(s: seq<T>, whole: seq<T>, more: seq<T>)
    requires IsSuffix(s, whole)
    ensures IsSuffix(s + more, whole + more)
  {
  }

  lemma StampedAppend(rows: seq<Row>, added: seq<Row>, wall: nat)
    requires Stamped(rows, wall) && forall i | 0 <= i < |added| :: added[i].createdAt == wall
    ensures Stamped(rows + added, wall)
  {
  }

  lemma TranscriptIsSuffix(st: CacheState)
    requires StoreOk(st)
    ensures IsSuffix(Transcript(st), Said(st))
  {
  }

  lemma BeginKeeps(cfg: Config, st: CacheState, input: string)
    requires Inv(cfg, st) && st.turn.Idle?
    ensures Inv(cfg, Exec(cfg, st, Begin(input)))
  {
    if Hit(cfg, st).None? { NewEntryOk(cfg, Exec(cfg, st, Begin(input))); }
  }

  lemma NewEntryOk(cfg: Config, st: CacheState)
    requires StoreOk(st) && !st.turn.Committed? && st.origin == Transcript(st) && st.since == |st.stored.appended|
    requires cfg.key in st.entries && st.entries[cfg.key].messages == Transcript(st)
    ensures EntryOk(cfg, st)
  {
    TranscriptIsSuffix(st);
    assert Said(st)[..|Said(st)|] == Said(st);
    assert Transcript(st) + Said(st)[|Said(st)|..] == Transcript(st);
  }

  lemma CommitKeeps(cfg: Config, st: CacheState, reply: string)
    requires Inv(cfg, st) && st.turn.Running?
    ensures Inv(cfg, Exec(cfg, st, Commit(reply)))
  {
    var turn := [st.turn.user, TextMessage(Assistant, reply)];
    AppendKeepsStore(st, turn);
    var said := Said(st) + turn;
    assert said[|said| - 2..] == turn;
    if cfg.key in st.entries {
      assert said[st.since..|Said(st)|] == Said(st)[st.since..];
      assert said[..st.since] == Said(st)[..st.since];
    }
  }

  lemma CacheTurnKeeps(cfg: Config, st: CacheState)
    requires Inv(cfg, st) && st.turn.Committed?
    ensures Inv(cfg, Exec(cfg, st, CacheTurn))
  {
    var said, turn := Said(st), [st.turn.user, st.turn.assistant];
    if cfg.key in st.entries {
      TurnExtends(st.origin, said, st.since, turn);
    } else {
      assert [] + said[|said| - 2..] == turn;
    }
  }

  lemma TurnExtends(origin: seq<Message>, said: seq<Message>, since: nat, turn: seq<Message>)
    requires |turn| <= |said| && since <= |said| - |turn| && said[|said| - |turn|..] == turn
    ensures origin + said[since..|said| - |turn|] + turn == origin + said[since..]
  {
    assert said[since..|said| - |turn|] + turn == said[since..];
  }

  /** The session's own entry stays what it is, or goes. */
  lemma EntriesKeep(cfg: Config, st: CacheState, entries: Entries)
    requires Inv(cfg, st)
    requires cfg.key in entries ==> cfg.key in st.entries && entries[cfg.key].messages == st.entries[cfg.key].messages
    ensures Inv(cfg, st.(entries := entries))
  {
  }

  lemma TimeKeeps(cfg: Config, st: CacheState, elapsed: nat, wallElapsed: nat)
    requires Inv(cfg, st)
    ensures Inv(cfg, st.(now := st.now + elapsed, wall := st.wall + wallElapsed))
  {
  }

  lemma TurnKeeps(cfg: Config, st: CacheState, turn: Turn)
    requires Inv(cfg, st) && !st.turn.Committed? && !turn.Committed?
    ensures Inv(cfg, st.(turn := turn))
  {
  }

  lemma WorkerKeeps(cfg: Config, st: CacheState, step: Step)
    requires Inv(cfg, st)
    ensures Inv(cfg, Exec(cfg, st, Worker(step)))
  {
    if !step.Append? { WorkerKeepsStore(st, step); }
  }

  lemma OthersKeep(cfg: Config, st: CacheState, step: CacheStep)
    requires Inv(cfg, st) && (step.OtherStore? || step.OtherTurn? || step.Evict?)
    ensures Inv(cfg, Exec(cfg, st, step))
  {
    EntriesKeep(cfg, st, Exec(cfg, st, step).entries);
  }

  lemma BeginPhaseKeeps(cfg: Config, st: CacheState, input: string)
    requires Inv(cfg, st)
    ensures Inv(cfg, Exec(cfg, st, BeginPhase(input)))
  {
    if st.turn.Idle? {
      var evicted := st.entries - {cfg.key};
      EntriesKeep(cfg, st, evicted);
      TurnKeeps(cfg, st.(entries := evicted), Running(TextMessage(User, input), []));
    }
  }

  lemma StepKeeps(cfg: Config, st: CacheState, step: CacheStep)
    requires Inv(cfg, st)
    ensures Inv(cfg, Exec(cfg, st, step))
  {
    match step
    case Tick(elapsed, wallElapsed) => TimeKeeps(cfg, st, elapsed, wallElapsed);
    case Worker(step) => WorkerKeeps(cfg, st, step);
    case OtherStore(_, _) => OthersKeep(cfg, st, step);
    case OtherTurn(_, _, _) => OthersKeep(cfg, st, step);
    case Evict(_) => OthersKeep(cfg, st, step);
    case Begin(input) => if st.turn.Idle? { BeginKeeps(cfg, st, input); }
    case BeginPhase(input) => BeginPhaseKeeps(cfg, st, input);
    case Abandon => if st.turn.Running? { TurnKeeps(cfg, st, Idle); }
    case Commit(reply) => if st.turn.Running? { CommitKeeps(cfg, st, reply); }
    case CacheTurn => if st.turn.Committed? { CacheTurnKeeps(cfg, st); }
  }

  lemma {:induction false} RunKeeps(cfg: Config, steps: seq<CacheStep>)
    ensures Inv(cfg, Run(cfg, steps))
  {
    if steps != [] {
      RunKeeps(cfg, steps[..|steps| - 1]);
      StepKeeps(cfg, Run(cfg, steps[..|steps| - 1]), steps[|steps| - 1]);
    }
  }

  // ---- the guarantees ----

  lemma HitIsOriginAndSince(cfg: Config, st: CacheState)
    requires Inv(cfg, st) && st.turn.Idle? && Hit(cfg, st).Some?
    ensures var hit := Hit(cfg, st).value;
      && 0 <= st.since <= |Said(st)| && hit == st.origin + Said(st)[st.since..]
      && IsSuffix(hit, Said(st))
  {
    SuffixAppend(st.origin, Said(st)[..st.since], Said(st)[st.since..]);
    assert Said(st)[..st.since] + Said(st)[st.since..] == Said(st);
  }

  /** Whenever an invocation may begin, a cache hit is what the entry was created with
      and every turn since: in particular, an end of everything ever said. */
  lemma {:induction false} EveryHitIsTheEndOfWhatWasSaid(cfg: Config, steps: seq<CacheStep>)
    requires Run(cfg, steps).turn.Idle? && Hit(cfg, Run(cfg, steps)).Some?
    ensures var st := Run(cfg, steps); var hit := Hit(cfg, st).value;
      && 0 <= st.since <= |Said(st)| && hit == st.origin + Said(st)[st.since..]
      && IsSuffix(hit, Said(st))
  {
    RunKeeps(cfg, steps);
    HitIsOriginAndSince(cfg, Run(cfg, steps));
  }

  lemma {:induction false} RunMore(cfg: Config, steps: seq<CacheStep>, step: CacheStep)
    ensures Run(cfg, steps + [step]) == Exec(cfg, Run(cfg, steps), step)
  {
    assert (steps + [step])[..|steps|] == steps;
  }

  lemma MissMakesTheEntry(cfg: Config, st: CacheState, input: string)
    requires st.turn.Idle? && Hit(cfg, st).None?
    ensures var after := Exec(cfg, st, Begin(input));
      && after.turn == Running(TextMessage(User, input), Transcript(st))
      && Hit(cfg, after) == Some(Transcript(st))
      && after.origin == Transcript(st) && after.since == |Said(st)|
  {
  }

  /** A miss reads the durable transcript, and makes the entry of exactly that. */
  lemma {:induction false} MissRehydrates(cfg: Config, steps: seq<CacheStep>, input: string)
    requires Run(cfg, steps).turn.Idle? && Hit(cfg, Run(cfg, steps)).None?
    ensures var before, after := Run(cfg, steps), Run(cfg, steps + [Begin(input)]);
      && after.turn == Running(TextMessage(User, input), Transcript(before))
      && Hit(cfg, after) == Some(Transcript(before))
      && after.origin == Transcript(before) && after.since == |Said(before)|
      && IsSuffix(Transcript(before), Said(before))
  {
    RunKeeps(cfg, steps);
    RunMore(cfg, steps, Begin(input));
    MissMakesTheEntry(cfg, Run(cfg, steps), input);
    TranscriptIsSuffix(Run(cfg, steps));
  }

  lemma TurnEndsTheEntry(cfg: Config, st: CacheState)
    requires st.turn.Committed?
    ensures var after := Exec(cfg, st, CacheTurn);
      && after.turn.Idle? && Hit(cfg, after).Some? && |Hit(cfg, after).value| >= 2
      && IsSuffix([st.turn.user, st.turn.assistant], Hit(cfg, after).value)
  {
    var hit := Hit(cfg, Exec(cfg, st, CacheTurn)).value;
    var kept := if cfg.key in st.entries then st.entries[cfg.key].messages else [];
    assert hit == kept + [st.turn.user, st.turn.assistant];
    assert hit[|hit| - 2..] == [st.turn.user, st.turn.assistant];
  }

  /** Whatever happened before, a finished turn is at the end of the next hit. */
  lemma {:induction false} FinishedTurnIsCached(cfg: Config, steps: seq<CacheStep>)
    requires Run(cfg, steps).turn.Committed?
    ensures var before, after := Run(cfg, steps), Run(cfg, steps + [CacheTurn]);
      && after.turn.Idle? && Hit(cfg, after).Some? && |Hit(cfg, after).value| >= 2
      && IsSuffix([before.turn.user, before.turn.assistant], Hit(cfg, after).value)
      && IsSuffix(Hit(cfg, after).value, Said(after))
  {
    RunMore(cfg, steps, CacheTurn);
    TurnEndsTheEntry(cfg, Run(cfg, steps));
    EveryHitIsTheEndOfWhatWasSaid(cfg, steps + [CacheTurn]);
  }

  /** Two invocations at once break this: both turns are stored in one order and cached in
      the other, and the hit is not even an end of what was said unless the turns read
      the same. */
  lemma OverlappingInvocationsDisagree(key: Key, ttl: nat, a: Message, b: Message, c: Message, d: Message)
    ensures var first := Consolidation.Exec(FRESH, Append([a, b], 0));
      var said := Texts(Consolidation.Exec(first, Append([c, d], 0)).appended);
      var entries := WithTurn(WithTurn(Stored(map[], key, [], 0, ttl), key, c, d, 0), key, a, b, 0);
      && said == [a, b, c, d]
      && Lookup(entries, key, 0, ttl) == Some([c, d, a, b])
      && (IsSuffix([c, d, a, b], said) <==> a == c && b == d)
  {
    var first := Consolidation.Exec(FRESH, Append([a, b], 0));
    assert Texts(first.appended) == [a, b];
    assert Texts(Consolidation.Exec(first, Append([c, d], 0)).appended) == [a, b, c, d];
    assert ([] + [c, d]) + [a, b] == [c, d, a, b];
    var hit, said := [c, d, a, b], [a, b, c, d];
    assert said[|said| - |hit|..] == said;
    assert hit[0] == c && hit[1] == d && said[0] == a && said[1] == b;
  }
}
