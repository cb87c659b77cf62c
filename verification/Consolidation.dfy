module Consolidation {
  import opened Messages
  import opened Wrappers

  /** A stored message.  `id` is the table's row id, never used twice. */
  datatype Row = Row(id: nat, sequenceNum: nat, createdAt: int, message: Message)

  /** One session's transcript, watermark and long-term log, which the steps below change in
      any order.  `batch` is what the worker has loaded and not finished; `written` is set
      between the write of its first row and the advance of the watermark.
      `appended`, `log` and `failures` record what happened: every row ever
      appended, every long-term write, and how often a write was not followed by
      its advance. */
  datatype State = State(
    rows: seq<Row>, watermark: nat, batch: seq<Row>, written: bool,
    appended: seq<Row>, log: seq<Row>, failures: nat)

  const FRESH := State([], 0, [], false, [], [], 0)

  /** MAX(sequence_num) over the rows that are left. */
  function MaxSequence(rows: seq<Row>): nat {
    if rows == [] then 0
    else
      var rest := MaxSequence(rows[1..]);
      if rows[0].sequenceNum >= rest then rows[0].sequenceNum else rest
  }

  lemma {:induction false} MaxSequenceIs(rows: seq<Row>)
    ensures forall i | 0 <= i < |rows| :: rows[i].sequenceNum <= MaxSequence(rows)
    ensures rows != [] ==> exists i | 0 <= i < |rows| :: rows[i].sequenceNum == MaxSequence(rows)
  {
    if rows != [] {
      MaxSequenceIs(rows[1..]);
      if rows[0].sequenceNum < MaxSequence(rows[1..]) {
        var i :| 0 <= i < |rows[1..]| && rows[1..][i].sequenceNum == MaxSequence(rows[1..]);
        assert rows[i + 1].sequenceNum == MaxSequence(rows);
      }
    }
  }

  function Above(rows: seq<Row>, watermark: nat): seq<Row> {
    if rows == [] then []
    else if rows[0].sequenceNum > watermark then [rows[0]] + Above(rows[1..], watermark)
    else Above(rows[1..], watermark)
  }

  predicate Expired(r: Row, cutoff: int, watermark: nat) {
    r.createdAt < cutoff && r.sequenceNum <= watermark
  }

  function Kept(rows: seq<Row>, cutoff: int, watermark: nat): seq<Row> {
    if rows == [] then []
    else if Expired(rows[0], cutoff, watermark) then Kept(rows[1..], cutoff, watermark)
    else [rows[0]] + Kept(rows[1..], cutoff, watermark)
  }

  datatype Step =
    | Append(messages: seq<Message>, now: int)
    | Load
    | Write
    | Advance
    | Fail
    | Cleanup(cutoff: int, watermark: nat)

  function NewRows(messages: seq<Message>, firstId: nat, firstSequence: nat, now: int): seq<Row> {
    seq(|messages|, i requires 0 <= i < |messages| => Row(firstId + i, firstSequence + i, now, messages[i]))
  }

  /** A step that is not possible in a state does nothing.  `Fail` gives up the batch:
      a write or an advance is refused, the worker is stopped, or it decides to wait. */
  function Exec(st: State, step: Step): State {
    match step
    case Append(messages, now) =>
      var added := NewRows(messages, |st.appended|, MaxSequence(st.rows) + 1, now);
      st.(rows := st.rows + added, appended := st.appended + added)
    case Load => if st.batch == [] then st.(batch := Above(st.rows, st.watermark), written := false) else st
    case Write => if st.batch != [] && !st.written then st.(log := st.log + [st.batch[0]], written := true) else st
    case Advance =>
      if st.batch != [] && st.written
      then st.(watermark := Max(st.watermark, st.batch[0].sequenceNum), batch := st.batch[1..], written := false)
      else st
    case Fail => st.(batch := [], written := false, failures := st.failures + if st.written then 1 else 0)
    case Cleanup(cutoff, watermark) =>
      var effective := Min(watermark, st.watermark);
      if effective == 0 then st else st.(rows := Kept(st.rows, cutoff, effective))
  }

  function Run(steps: seq<Step>): State {
    if steps == [] then FRESH else Exec(Run(steps[..|steps| - 1]), steps[|steps| - 1])
  }

  // ---- the hypothesis ----

  /** The step leaves the row with the highest number in place. */
  predicate KeepsHighest(st: State, step: Step) {
    st.rows != [] ==> MaxSequence(Exec(st, step).rows) >= MaxSequence(st.rows)
  }

  /** And so does every step of the run. */
  predicate AlwaysKeepsHighest(steps: seq<Step>) {
    steps == []
    || (AlwaysKeepsHighest(steps[..|steps| - 1]) && KeepsHighest(Run(steps[..|steps| - 1]), steps[|steps| - 1]))
  }

  // ---- the invariant ----

  /** The log without adjacent repeats. */
  function Collapse(log: seq<Row>): seq<Row> {
    if |log| <= 1 then log
    else if log[|log| - 1] == log[|log| - 2] then Collapse(log[..|log| - 1])
    else Collapse(log[..|log| - 1]) + [log[|log| - 1]]
  }

  ghost predicate Numbered(rows: seq<Row>) {
    forall i | 0 <= i < |rows| :: rows[i].id == i && rows[i].sequenceNum == i + 1
  }

  ghost predicate Increasing(rows: seq<Row>) {
    forall i, j | 0 <= i < j < |rows| :: rows[i].sequenceNum < rows[j].sequenceNum
  }

  /** The surviving rows: numbers go on where they stopped, and nothing above the
      watermark is missing. */
  ghost predicate RowsOk(st: State) {
    && Numbered(st.appended)
    && MaxSequence(st.rows) == |st.appended|
    && (forall r | r in st.rows :: r in st.appended)
    && Increasing(st.rows)
    && st.watermark <= |st.appended|
    && Above(st.rows, st.watermark) == st.appended[st.watermark..]
  }

  /** The worker's batch is the transcript from the watermark on, as far as it was loaded. */
  ghost predicate BatchOk(st: State) {
    && st.watermark + |st.batch| <= |st.appended|
    && st.batch == st.appended[st.watermark..st.watermark + |st.batch|]
  }

  /** The log is the transcript up to the watermark, plus at most one row; every
      repeat in it comes from a failure. */
  ghost predicate LogOk(st: State) {
    && st.watermark <= |st.appended|
    && (st.written ==> st.batch != [])
    && (|| (!st.written && Collapse(st.log) == st.appended[..st.watermark] && |st.log| <= st.watermark + st.failures)
        || (st.watermark < |st.appended| && Collapse(st.log) == st.appended[..st.watermark + 1]
            && |st.log| + (if st.written then 0 else 1) <= st.watermark + 1 + st.failures))
  }

  ghost predicate Inv(st: State) {
    RowsOk(st) && BatchOk(st) && LogOk(st)
  }

  lemma {:induction false} CollapseAppend(log: seq<Row>, r: Row)
    ensures Collapse(log + [r]) == if log != [] && log[|log| - 1] == r then Collapse(log) else Collapse(log) + [r]
  {
    var more := log + [r];
    assert more[..|more| - 1] == log;
  }

  lemma {:induction false} CollapseLast(log: seq<Row>)
    requires log != []
    ensures Collapse(log) != [] && Collapse(log)[|Collapse(log)| - 1] == log[|log| - 1]
  {
    if |log| > 1 { CollapseLast(log[..|log| - 1]); }
  }

  lemma {:induction false} CollapseHas(log: seq<Row>, r: Row)
    ensures r in Collapse(log) ==> r in log
  {
    if |log| > 1 { CollapseHas(log[..|log| - 1], r); }
  }

  lemma {:induction false} AboveAppend(a: seq<Row>, b: seq<Row>, watermark: nat)
    ensures Above(a + b, watermark) == Above(a, watermark) + Above(b, watermark)
  {
    if a == [] {
      assert a + b == b;
    } else {
      AboveAppend(a[1..], b, watermark);
      assert (a + b)[1..] == a[1..] + b && (a + b)[0] == a[0];
      if a[0].sequenceNum > watermark { Associates([a[0]], Above(a[1..], watermark), Above(b, watermark)); }
    }
  }

  lemma {:induction false} AboveAll(rows: seq<Row>, watermark: nat)
    requires forall i | 0 <= i < |rows| :: rows[i].sequenceNum > watermark
    ensures Above(rows, watermark) == rows
  {
    if rows != [] { AboveAll(rows[1..], watermark); }
  }

  /** Raising the watermark past one row drops just that row. */
  lemma {:induction false} AboveNext(rows: seq<Row>, watermark: nat)
    requires Increasing(rows)
    requires Above(rows, watermark) != [] && Above(rows, watermark)[0].sequenceNum == watermark + 1
    ensures Above(rows, watermark + 1) == Above(rows, watermark)[1..]
  {
    if rows[0].sequenceNum > watermark {
      assert Above(rows, watermark)[0] == rows[0];
      assert forall i | 0 <= i < |rows| - 1 :: rows[1..][i].sequenceNum > watermark + 1;
      AboveAll(rows[1..], watermark);
      AboveAll(rows[1..], watermark + 1);
    } else {
      AboveNext(rows[1..], watermark);
    }
  }

  lemma {:induction false} KeptIsSubsequence(rows: seq<Row>, cutoff: int, watermark: nat)
    requires Increasing(rows)
    ensures var kept := Kept(rows, cutoff, watermark);
      && (forall r :: r in kept <==> r in rows && !Expired(r, cutoff, watermark))
      && Increasing(kept)
  {
    if rows != [] {
      KeptIsSubsequence(rows[1..], cutoff, watermark);
      assert forall r :: r in rows <==> r == rows[0] || r in rows[1..];
      var rest := Kept(rows[1..], cutoff, watermark);
      forall i | 0 <= i < |rest| ensures rows[0].sequenceNum < rest[i].sequenceNum {
        assert rest[i] in rows[1..];
      }
    }
  }

  lemma {:induction false} NothingExpires(rows: seq<Row>, cutoff: int, watermark: nat)
    requires forall r | r in rows :: !Expired(r, cutoff, watermark)
    ensures Kept(rows, cutoff, watermark) == rows
  {
    if rows != [] {
      assert rows[0] in rows;
      NothingExpires(rows[1..], cutoff, watermark);
    }
  }

  /** Cleanup never touches what lies above the stored watermark. */
  lemma {:induction false} KeptAbove(rows: seq<Row>, cutoff: int, effective: nat, watermark: nat)
    requires effective <= watermark
    ensures Above(Kept(rows, cutoff, effective), watermark) == Above(rows, watermark)
  {
    if rows != [] { KeptAbove(rows[1..], cutoff, effective, watermark); }
  }

  lemma {:induction false} MaxOfIncreasing(rows: seq<Row>)
    requires Increasing(rows)
    ensures rows != [] ==> MaxSequence(rows) == rows[|rows| - 1].sequenceNum
  {
    MaxSequenceIs(rows);
  }

  lemma AppendKeeps(st: State, messages: seq<Message>, now: int)
    requires Inv(st)
    ensures Inv(Exec(st, Append(messages, now)))
  {
    var n := |st.appended|;
    var added := NewRows(messages, n, n + 1, now);
    var after := Exec(st, Append(messages, now));
    assert after.rows == st.rows + added && after.appended == st.appended + added;
    assert RowsOk(after) by { AppendKeepsRows(st, added, after); }
    assert after.appended[..st.watermark] == st.appended[..st.watermark];
    if st.watermark < n { assert after.appended[..st.watermark + 1] == st.appended[..st.watermark + 1]; }
    assert after.appended[st.watermark..st.watermark + |st.batch|]
      == st.appended[st.watermark..st.watermark + |st.batch|];
  }

  /** New rows carry on the numbering. */
  ghost predicate Continue(added: seq<Row>, n: nat) {
    forall i | 0 <= i < |added| :: added[i].id == n + i && added[i].sequenceNum == n + 1 + i
  }

  lemma {:induction false} AppendKeepsNumbers(rows: seq<Row>, n: nat, added: seq<Row>)
    requires Increasing(rows) && MaxSequence(rows) == n
    requires forall i | 0 <= i < |added| :: added[i].sequenceNum == n + 1 + i
    ensures Increasing(rows + added) && MaxSequence(rows + added) == n + |added|
  {
    MaxSequenceIs(rows);
    var all := rows + added;
    forall i, j | 0 <= i < j < |all| ensures all[i].sequenceNum < all[j].sequenceNum {
      if i < |rows| { assert all[i] == rows[i]; } else { assert all[i] == added[i - |rows|]; }
      if j < |rows| { assert all[j] == rows[j]; } else { assert all[j] == added[j - |rows|]; }
    }
    MaxOfIncreasing(all);
    if added == [] { assert all == rows; } else { assert all[|all| - 1] == added[|added| - 1]; }
  }

  lemma AppendKeepsRows(st: State, added: seq<Row>, after: State)
    requires RowsOk(st) && Continue(added, |st.appended|)
    requires after == st.(rows := st.rows + added, appended := st.appended + added)
    ensures RowsOk(after)
  {
    AppendKeepsNumbers(st.rows, |st.appended|, added);
    AppendKeepsAbove(st.rows, st.appended, added, st.watermark);
    AppendKeepsStored(st.rows, st.appended, added);
  }

  lemma {:induction false} AppendKeepsAbove(rows: seq<Row>, appended: seq<Row>, added: seq<Row>, watermark: nat)
    requires watermark <= |appended| && Above(rows, watermark) == appended[watermark..]
    requires forall i | 0 <= i < |added| :: added[i].sequenceNum > watermark
    ensures Above(rows + added, watermark) == (appended + added)[watermark..]
  {
    AboveAppend(rows, added, watermark);
    AboveAll(added, watermark);
    SliceOfAppend(appended, added, watermark);
  }

  lemma SliceOfAppend(appended: seq<Row>, added: seq<Row>, n: nat)
    requires n <= |appended|
    ensures (appended + added)[n..] == appended[n..] + added
  {
  }

  lemma AppendKeepsStored(rows: seq<Row>, appended: seq<Row>, added: seq<Row>)
    requires forall r | r in rows :: r in appended
    ensures forall r | r in rows + added :: r in appended + added
  {
    forall r | r in rows + added ensures r in appended + added {
      if r in rows { assert r in appended; } else { assert r in added; }
    }
  }

  lemma WriteKeeps(st: State)
    requires Inv(st) && st.batch != [] && !st.written
    ensures Inv(Exec(st, Write))
  {
    assert st.batch[0] == st.appended[st.watermark];
    LogOfWrite(st.appended, st.watermark, st.log, st.failures);
  }

  /** The next row of the transcript on top of the log, the first time or again. */
  lemma {:induction false} LogOfWrite(appended: seq<Row>, watermark: nat, log: seq<Row>, failures: nat)
    requires Numbered(appended) && watermark < |appended|
    requires (Collapse(log) == appended[..watermark] && |log| <= watermark + failures)
          || (Collapse(log) == appended[..watermark + 1] && |log| < watermark + 1 + failures)
    ensures var after := log + [appended[watermark]];
      Collapse(after) == appended[..watermark + 1] && |after| <= watermark + 1 + failures
  {
    var r := appended[watermark];
    CollapseAppend(log, r);
    assert appended[..watermark + 1] == appended[..watermark] + [r];
    if log != [] {
      CollapseLast(log);
      if Collapse(log) == appended[..watermark] {
        assert log[|log| - 1].id == watermark - 1 != r.id;
      }
    }
  }

  lemma AdvanceKeeps(st: State)
    requires Inv(st) && st.batch != [] && st.written
    ensures Inv(Exec(st, Advance)) && Exec(st, Advance).watermark == st.watermark + 1
  {
    assert st.batch[0] == st.appended[st.watermark];
    assert st.appended[st.watermark..][0] == st.appended[st.watermark];
    AboveNext(st.rows, st.watermark);
    assert st.appended[st.watermark..][1..] == st.appended[st.watermark + 1..];
  }

  lemma CleanupKeeps(st: State, cutoff: int, watermark: nat)
    requires Inv(st) && KeepsHighest(st, Cleanup(cutoff, watermark))
    ensures Inv(Exec(st, Cleanup(cutoff, watermark)))
  {
    var effective := Min(watermark, st.watermark);
    if effective > 0 { RowsKeep(st, Kept(st.rows, cutoff, effective), cutoff, effective); }
  }

  lemma {:induction false} RowsKeep(st: State, kept: seq<Row>, cutoff: int, effective: nat)
    requires Inv(st) && effective <= st.watermark && kept == Kept(st.rows, cutoff, effective)
    requires st.rows != [] ==> MaxSequence(kept) >= MaxSequence(st.rows)
    ensures Inv(st.(rows := kept))
  {
    KeptIsSubsequence(st.rows, cutoff, effective);
    KeptAbove(st.rows, cutoff, effective, st.watermark);
    SameMax(st.rows, kept);
    CleanupKeepsRows(st, kept);
  }

  lemma {:induction false} CleanupKeepsRows(st: State, kept: seq<Row>)
    requires RowsOk(st) && Increasing(kept) && (forall r | r in kept :: r in st.rows)
    requires Above(kept, st.watermark) == Above(st.rows, st.watermark) && MaxSequence(kept) == MaxSequence(st.rows)
    ensures RowsOk(st.(rows := kept))
  {
  }

  lemma {:induction false} SameMax(rows: seq<Row>, kept: seq<Row>)
    requires (forall r | r in kept :: r in rows) && (rows != [] ==> MaxSequence(kept) >= MaxSequence(rows))
    ensures MaxSequence(kept) == MaxSequence(rows)
  {
    MaxOfKept(rows, kept);
    if rows == [] && kept != [] { assert kept[0] in rows; }
  }

  lemma {:induction false} MaxOfKept(rows: seq<Row>, kept: seq<Row>)
    requires forall r | r in kept :: r in rows
    ensures MaxSequence(kept) <= MaxSequence(rows)
  {
    MaxSequenceIs(rows);
    MaxSequenceIs(kept);
    if kept != [] {
      var i :| 0 <= i < |kept| && kept[i].sequenceNum == MaxSequence(kept);
      assert kept[i] in rows;
    }
  }

  lemma LoadKeeps(st: State)
    requires Inv(st)
    ensures Inv(Exec(st, Load))
  {
    if st.batch == [] {
      assert st.appended[st.watermark..] == st.appended[st.watermark..|st.appended|];
    }
  }

  lemma FailKeeps(st: State)
    requires Inv(st)
    ensures Inv(Exec(st, Fail))
  {
  }

  lemma StepKeeps(st: State, step: Step)
    requires Inv(st) && KeepsHighest(st, step)
    ensures Inv(Exec(st, step))
  {
    match step
    case Append(messages, now) => AppendKeeps(st, messages, now);
    case Load => LoadKeeps(st);
    case Write => if st.batch != [] && !st.written { WriteKeeps(st); }
    case Advance => if st.batch != [] && st.written { AdvanceKeeps(st); }
    case Fail => FailKeeps(st);
    case Cleanup(cutoff, watermark) => CleanupKeeps(st, cutoff, watermark);
  }

  lemma {:induction false} RunKeeps(steps: seq<Step>)
    requires AlwaysKeepsHighest(steps)
    ensures Inv(Run(steps))
  {
    if steps != [] {
      RunKeeps(steps[..|steps| - 1]);
      StepKeeps(Run(steps[..|steps| - 1]), steps[|steps| - 1]);
    }
  }

  // ---- the guarantees ----

  /** Some run in which no cleanup removes the highest row leads to the state. */
  ghost predicate Reachable(st: State) {
    exists steps :: AlwaysKeepsHighest(steps) && Run(steps) == st
  }

  lemma ReachableIsOk(st: State)
    requires Reachable(st)
    ensures Inv(st)
  {
    var steps :| AlwaysKeepsHighest(steps) && Run(steps) == st;
    RunKeeps(steps);
  }

  lemma {:induction false} BelowIsLogged(st: State, r: Row)
    requires Inv(st) && r in st.appended && r.sequenceNum <= st.watermark
    ensures r in st.log
  {
    var i :| 0 <= i < |st.appended| && st.appended[i] == r;
    assert st.appended[..st.watermark][i] == r;
    if Collapse(st.log) != st.appended[..st.watermark] {
      assert st.appended[..st.watermark + 1][i] == r;
    }
    assert r in Collapse(st.log);
    CollapseHas(st.log, r);
  }

  /** Whatever cutoff and however stale a watermark a cleanup is given, it removes
      only messages that are in long-term memory. */
  lemma CleanupRemovesOnlyLoggedMessages(st: State, cutoff: int, watermark: nat, r: Row)
    requires Reachable(st)
    requires r in st.rows && r !in Exec(st, Cleanup(cutoff, watermark)).rows
    ensures r in st.log
  {
    ReachableIsOk(st);
    KeptIsSubsequence(st.rows, cutoff, Min(watermark, st.watermark));
    BelowIsLogged(st, r);
  }

  /** A cleanup removes exactly the rows that are older than the cutoff and within both the
      watermark it was given and the one that is stored; the others keep their order. */
  lemma CleanupRemovesExactly(st: State, cutoff: int, watermark: nat)
    requires Increasing(st.rows) && forall r | r in st.rows :: r.sequenceNum > 0
    ensures var after := Exec(st, Cleanup(cutoff, watermark));
      && (forall r :: r in after.rows <==>
            r in st.rows && !(r.createdAt < cutoff && r.sequenceNum <= watermark && r.sequenceNum <= st.watermark))
      && Increasing(after.rows) && after == st.(rows := after.rows)
  {
    KeptIsSubsequence(st.rows, cutoff, Min(watermark, st.watermark));
  }

  /** Appended messages are stored behind the others, in order, with the time and the next numbers. */
  lemma AppendStoresExactly(st: State, messages: seq<Message>, now: int)
    requires Inv(st)
    ensures var after, n := Exec(st, Append(messages, now)), |st.appended|;
      && |after.rows| == |st.rows| + |messages| && after.rows[..|st.rows|] == st.rows
      && |after.appended| == n + |messages| && after.appended[..n] == st.appended
      && (forall i: nat | i < |messages| ::
            && after.appended[n + i] == after.rows[|st.rows| + i]
            && after.appended[n + i].message == messages[i] && after.appended[n + i].createdAt == now
            && after.appended[n + i].sequenceNum == n + i + 1)
      && after == st.(rows := after.rows, appended := after.appended)
  {
  }

  lemma {:induction false} AboveMeans(rows: seq<Row>, watermark: nat, r: Row)
    requires r in Above(rows, watermark)
    ensures r in rows
  {
    if rows[0].sequenceNum <= watermark || r != rows[0] { AboveMeans(rows[1..], watermark, r); }
  }

  /** Every message ever appended is still stored, or it is in long-term memory. */
  lemma NothingIsLost(st: State, r: Row)
    requires Reachable(st) && r in st.appended
    ensures r in st.rows || r in st.log
  {
    ReachableIsOk(st);
    AppendedIsSomewhere(st, r);
  }

  lemma AppendedIsSomewhere(st: State, r: Row)
    requires Inv(st) && r in st.appended
    ensures r in st.rows || r in st.log
  {
    if r.sequenceNum <= st.watermark {
      BelowIsLogged(st, r);
    } else {
      var i :| 0 <= i < |st.appended| && st.appended[i] == r;
      assert st.appended[st.watermark..][i - st.watermark] == r;
      AboveMeans(st.rows, st.watermark, r);
    }
  }

  /** The long-term log is the transcript in order, at least once each: up to the
      watermark, plus at most one message, with one repeat at most for each failure. */
  lemma ConsolidationIsInOrderAtLeastOnce(st: State)
    requires Reachable(st)
    ensures st.watermark <= |st.appended|
    ensures || Collapse(st.log) == st.appended[..st.watermark]
            || (st.watermark < |st.appended| && Collapse(st.log) == st.appended[..st.watermark + 1])
    ensures |st.log| <= |Collapse(st.log)| + st.failures
  {
    ReachableIsOk(st);
  }

  /** The watermark never decreases, under any steps at all. */
  lemma {:induction false} WatermarkNeverDecreases(steps: seq<Step>, n: nat)
    requires n <= |steps|
    ensures Run(steps[..n]).watermark <= Run(steps).watermark
    decreases |steps|
  {
    if n < |steps| {
      var before := steps[..|steps| - 1];
      assert before[..n] == steps[..n];
      WatermarkNeverDecreases(before, n);
    } else {
      assert steps[..n] == steps;
    }
  }

  /** The table keeps its rows in the order of their numbers, under any steps at all. */
  lemma {:induction false} RowsStayOrdered(steps: seq<Step>)
    ensures Increasing(Run(steps).rows)
  {
    if steps != [] {
      var st, step := Run(steps[..|steps| - 1]), steps[|steps| - 1];
      RowsStayOrdered(steps[..|steps| - 1]);
      match step
      case Append(messages, now) =>
        var n := MaxSequence(st.rows);
        AppendKeepsNumbers(st.rows, n, NewRows(messages, |st.appended|, n + 1, now));
      case Cleanup(cutoff, watermark) =>
        KeptIsSubsequence(st.rows, cutoff, Min(watermark, st.watermark));
      case _ =>
    }
  }

  // ---- why the highest row has to survive ----

  /** What cleanup relies on: whatever is stored at or below the watermark is logged. */
  ghost predicate Protected(st: State) {
    forall r | r in st.rows && r.sequenceNum <= st.watermark :: r in st.log
  }

  /** Appending keeps that exactly when some stored row reaches the watermark. */
  lemma AppendIsProtectedExactly(st: State, messages: seq<Message>, now: int)
    requires Protected(st) && messages != []
    requires forall r | r in st.log :: r.id < |st.appended|
    ensures Protected(Exec(st, Append(messages, now))) <==> MaxSequence(st.rows) >= st.watermark
  {
    var after := Exec(st, Append(messages, now));
    var first := Row(|st.appended|, MaxSequence(st.rows) + 1, now, messages[0]);
    var added := NewRows(messages, |st.appended|, MaxSequence(st.rows) + 1, now);
    assert added[0] == first && first in after.rows;
    if MaxSequence(st.rows) < st.watermark {
      assert first !in st.log;
    }
  }

  lemma {:induction false} NewestExpired(rows: seq<Row>, cutoff: int, effective: nat)
    requires Increasing(rows) && rows != [] && MaxSequence(rows) > 0 && Expired(rows[|rows| - 1], cutoff, effective)
    ensures MaxSequence(Kept(rows, cutoff, effective)) < MaxSequence(rows)
  {
    var kept := Kept(rows, cutoff, effective);
    KeptIsSubsequence(rows, cutoff, effective);
    MaxOfIncreasing(rows);
    MaxSequenceIs(kept);
    if kept != [] {
      var i :| 0 <= i < |kept| && kept[i].sequenceNum == MaxSequence(kept);
      assert kept[i] in rows && kept[i] != rows[|rows| - 1];
    }
  }

  lemma {:induction false} NewestKept(rows: seq<Row>, cutoff: int, effective: nat)
    requires Increasing(rows) && rows != [] && !Expired(rows[|rows| - 1], cutoff, effective)
    ensures MaxSequence(Kept(rows, cutoff, effective)) >= MaxSequence(rows)
  {
    var kept := Kept(rows, cutoff, effective);
    KeptIsSubsequence(rows, cutoff, effective);
    MaxOfIncreasing(rows);
    MaxSequenceIs(kept);
    assert rows[|rows| - 1] in kept;
  }

  /** A cleanup leaves a row that reaches the watermark exactly when it does not
      remove the newest row, that is, when the newest row is not expired. */
  lemma CleanupKeepsNumberingExactly(st: State, cutoff: int, watermark: nat)
    requires Inv(st) && st.rows != [] && Min(watermark, st.watermark) > 0
    ensures var step := Cleanup(cutoff, watermark);
      && (MaxSequence(Exec(st, step).rows) >= st.watermark <==> KeepsHighest(st, step))
      && (KeepsHighest(st, step) <==> !Expired(st.rows[|st.rows| - 1], cutoff, Min(watermark, st.watermark)))
  {
    var effective := Min(watermark, st.watermark);
    MaxOfIncreasing(st.rows);
    if Expired(st.rows[|st.rows| - 1], cutoff, effective) {
      NewestExpired(st.rows, cutoff, effective);
    } else {
      NewestKept(st.rows, cutoff, effective);
    }
  }

  /** After a cleanup that removed the newest row, the next message gets a number
      that the watermark has already passed. */
  lemma NumberIsReused(st: State, cutoff: int, watermark: nat)
    requires Inv(st) && !KeepsHighest(st, Cleanup(cutoff, watermark))
    ensures MaxSequence(Exec(st, Cleanup(cutoff, watermark)).rows) < st.watermark
    ensures Increasing(Exec(st, Cleanup(cutoff, watermark)).rows)
  {
    CleanupKeepsNumberingExactly(st, cutoff, watermark);
    KeptIsSubsequence(st.rows, cutoff, Min(watermark, st.watermark));
  }

  /** A cleanup removes the newest row only when the worker is done with all rows. */
  lemma AllIsConsolidated(st: State, cutoff: int, watermark: nat)
    requires Inv(st) && !KeepsHighest(st, Cleanup(cutoff, watermark))
    ensures st.batch == [] && forall r | r in st.log :: r.id < |st.appended|
  {
    CleanupKeepsNumberingExactly(st, cutoff, watermark);
    MaxOfIncreasing(st.rows);
    assert st.watermark == |st.appended|;
    forall r | r in st.log ensures r.id < |st.appended| {
      LoggedIsCollapsed(st.log, r);
    }
  }

  lemma {:induction false} LoggedIsCollapsed(log: seq<Row>, r: Row)
    requires r in log
    ensures r in Collapse(log)
  {
    if |log| > 1 {
      var init, last := log[..|log| - 1], log[|log| - 1];
      assert log == init + [last];
      CollapseLast(init);
      if r in init { LoggedIsCollapsed(init, r); }
    }
  }

  lemma {:induction false} BelowWatermarkIsLost(rows: seq<Row>, lost: Row, watermark: nat, later: int)
    requires Increasing(rows) && lost.sequenceNum == MaxSequence(rows) + 1 <= watermark && lost.createdAt < later
    ensures lost !in Above(rows + [lost], watermark)
    ensures lost !in Kept(rows + [lost], later, watermark)
  {
    AppendKeepsNumbersOne(rows, lost);
    KeptIsSubsequence(rows + [lost], later, watermark);
    if lost in Above(rows + [lost], watermark) { AboveIsAbove(rows + [lost], watermark, lost); }
  }

  lemma {:induction false} AppendKeepsNumbersOne(rows: seq<Row>, r: Row)
    requires Increasing(rows) && r.sequenceNum == MaxSequence(rows) + 1
    ensures Increasing(rows + [r])
  {
    MaxSequenceIs(rows);
    var all := rows + [r];
    forall i, j | 0 <= i < j < |all| ensures all[i].sequenceNum < all[j].sequenceNum {
      assert all[i] == rows[i];
    }
  }

  /** Otherwise the next message is lost: the worker never sees it, and a later
      cleanup removes it although it was never written to long-term memory. */
  lemma NewestRowRemovedLosesNextMessage(st: State, cutoff: int, watermark: nat, m: Message, now: int, later: int)
    requires Inv(st) && !KeepsHighest(st, Cleanup(cutoff, watermark)) && now < later
    ensures var appended := Exec(Exec(st, Cleanup(cutoff, watermark)), Append([m], now));
      var lost := appended.appended[|st.appended|];
      var loaded := Exec(appended, Load);
      var cleaned := Exec(loaded, Cleanup(later, st.watermark));
      && lost.message == m && lost in appended.rows
      && lost !in loaded.batch && lost !in cleaned.rows && lost !in cleaned.log
  {
    var rows := Exec(st, Cleanup(cutoff, watermark)).rows;
    NumberIsReused(st, cutoff, watermark);
    AllIsConsolidated(st, cutoff, watermark);
    var lost := Row(|st.appended|, MaxSequence(rows) + 1, now, m);
    assert NewRows([m], |st.appended|, MaxSequence(rows) + 1, now) == [lost];
    BelowWatermarkIsLost(rows, lost, st.watermark, later);
  }

  lemma {:induction false} AboveIsAbove(rows: seq<Row>, watermark: nat, r: Row)
    requires r in Above(rows, watermark)
    ensures r.sequenceNum > watermark
  {
    if rows[0].sequenceNum <= watermark || r != rows[0] { AboveIsAbove(rows[1..], watermark, r); }
  }

  /** A whole run in which that happens: one message is consolidated and cleaned up,
      and the next one is gone without a trace. */
  lemma RunThatLosesAMessage(first: Message, second: Message)
    ensures var steps := [Append([first], 0), Load, Write, Advance, Cleanup(1, 1), Append([second], 2), Load,
                         Cleanup(3, 1)];
      exists r :: r in Run(steps).appended && r.message == second && r !in Run(steps).rows && r !in Run(steps).log
  {
    var steps := [Append([first], 0), Load, Write, Advance, Cleanup(1, 1), Append([second], 2), Load, Cleanup(3, 1)];
    EightSteps(steps);
    FirstGone(first);
    SecondLost(first, second);
    var two := Row(1, 1, 2, second);
    assert two in Run(steps).appended;
  }

  function AfterFirst(first: Message): State {
    State([], 1, [], false, [Row(0, 1, 0, first)], [Row(0, 1, 0, first)], 0)
  }

  lemma FirstGone(first: Message)
    ensures Exec(Exec(Exec(Exec(Exec(FRESH, Append([first], 0)), Load), Write), Advance), Cleanup(1, 1))
      == AfterFirst(first)
  {
    var one := Row(0, 1, 0, first);
    Single(one, 0, 1, 1);
    assert NewRows([first], 0, 1, 0) == [one];
    assert Exec(FRESH, Append([first], 0)) == State([one], 0, [], false, [one], [], 0);
  }

  lemma SecondLost(first: Message, second: Message)
    ensures Exec(Exec(Exec(AfterFirst(first), Append([second], 2)), Load), Cleanup(3, 1))
      == State([], 1, [], false, [Row(0, 1, 0, first), Row(1, 1, 2, second)], [Row(0, 1, 0, first)], 0)
  {
    var two := Row(1, 1, 2, second);
    Single(two, 1, 3, 1);
    assert NewRows([second], 1, 1, 2) == [two];
    assert [] + [two] == [two] && [Row(0, 1, 0, first)] + [two] == [Row(0, 1, 0, first), two];
  }

  lemma {:induction false} EightSteps(s: seq<Step>)
    requires |s| == 8
    ensures Run(s)
      == Exec(Exec(Exec(Exec(Exec(Exec(Exec(Exec(FRESH, s[0]), s[1]), s[2]), s[3]), s[4]), s[5]), s[6]), s[7])
  {
    assert s[..0] == [] && s[..8] == s;
    Unroll(s, 1);
    Unroll(s, 2);
    Unroll(s, 3);
    Unroll(s, 4);
    Unroll(s, 5);
    Unroll(s, 6);
    Unroll(s, 7);
    Unroll(s, 8);
  }

  lemma {:induction false} Single(r: Row, watermark: nat, cutoff: int, effective: nat)
    ensures Above([r], watermark) == if r.sequenceNum > watermark then [r] else []
    ensures Kept([r], cutoff, effective) == if Expired(r, cutoff, effective) then [] else [r]
    ensures MaxSequence([r]) == r.sequenceNum
  {
    assert [r][1..] == [];
  }

  lemma Unroll(steps: seq<Step>, n: nat)
    requires 0 < n <= |steps|
    ensures Run(steps[..n]) == Exec(Run(steps[..n - 1]), steps[n - 1])
  {
    assert steps[..n][..n - 1] == steps[..n - 1];
  }
}
