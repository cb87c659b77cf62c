/** The milestone scheduler: phases in dependency order, each as early as possible. */
module Milestones {
  import opened Results
  import opened Wrappers

  /** Dates are day numbers, up to the last day of the calendar. */
  datatype Phase = Phase(name: string, durationWeeks: nat, dependsOn: seq<string>)

  datatype Slot = Slot(name: string, begins: int, ends: int)

  datatype Plan = Plan(slots: seq<Slot>, projectEnd: int, totalWeeks: int, totalMonths: int)

  /** The second one is a panic: adding a duration leaves the calendar. */
  datatype ScheduleError = NotYetScheduled(phase: string, dependency: string) | PastCalendar(phase: string)

  const DAYS_PER_WEEK: nat := 7

  // ---- what the input means, without running anything ----

  /** The phase that a name stands for before position `i`: the last one so named. */
  function Resolve(phases: seq<Phase>, i: nat, name: string): Option<nat>
    requires i <= |phases|
  {
    if i == 0 then None
    else if phases[i - 1].name == name then Some(i - 1)
    else Resolve(phases, i - 1, name)
  }

  lemma {:induction false} ResolveIsLast(phases: seq<Phase>, i: nat, name: string)
    requires i <= |phases|
    ensures match Resolve(phases, i, name)
      case None => forall j | 0 <= j < i :: phases[j].name != name
      case Some(k) => k < i && phases[k].name == name && forall j | k < j < i :: phases[j].name != name
  {
    if i > 0 { ResolveIsLast(phases, i - 1, name); }
  }

  /** Every dependency names an earlier phase. */
  predicate InDependencyOrder(phases: seq<Phase>) {
    forall i | 0 <= i < |phases| :: DependenciesMet(phases, i)
  }

  predicate DependenciesMet(phases: seq<Phase>, i: nat)
    requires i < |phases|
  {
    forall d | 0 <= d < |phases[i].dependsOn| :: Resolve(phases, i, phases[i].dependsOn[d]).Some?
  }

  predicate DependsOn(phases: seq<Phase>, i: nat, k: nat)
    requires i < |phases|
  {
    exists d | 0 <= d < |phases[i].dependsOn| :: Resolve(phases, i, phases[i].dependsOn[d]) == Some(k)
  }

  /** Beginnings that respect the project's start and every dependency. */
  ghost predicate Feasible(phases: seq<Phase>, start: int, begins: seq<int>) {
    && |begins| == |phases|
    && (forall i | 0 <= i < |phases| :: begins[i] >= start)
    && (forall i, k | 0 <= i < |phases| && 0 <= k < |phases| && DependsOn(phases, i, k) ::
          begins[i] >= begins[k] + DAYS_PER_WEEK * phases[k].durationWeeks)
  }

  // ---- the schedule ----

  function LatestEnd(ends: map<string, int>, names: seq<string>, start: int): int
    requires forall d | 0 <= d < |names| :: names[d] in ends
  {
    if names == [] then start
    else if |names| == 1 then ends[names[0]]
    else
      var rest := LatestEnd(ends, names[1..], start);
      if ends[names[0]] > rest then ends[names[0]] else rest
  }

  /** The loop, as a state after the first `n` phases. */
  datatype Progress = Progress(ends: map<string, int>, slots: seq<Slot>)

  predicate Ready(ends: map<string, int>, phase: Phase) {
    forall d | 0 <= d < |phase.dependsOn| :: phase.dependsOn[d] in ends
  }

  function Scheduled(p: Progress, phase: Phase, start: int): Progress
    requires Ready(p.ends, phase)
  {
    var begins := LatestEnd(p.ends, phase.dependsOn, start);
    var ends := begins + DAYS_PER_WEEK * phase.durationWeeks;
    Progress(p.ends[phase.name := ends], p.slots + [Slot(phase.name, begins, ends)])
  }

  // ---- what each state of the loop satisfies ----

  /** The map holds, for each name, the end of the phase it stands for. */
  ghost predicate EndsOk(phases: seq<Phase>, n: nat, p: Progress)
    requires n <= |phases|
  {
    && |p.slots| == n
    && (forall name :: name in p.ends <==> Resolve(phases, n, name).Some?)
    && (forall name | name in p.ends ::
          Resolve(phases, n, name).value < n && p.ends[name] == p.slots[Resolve(phases, n, name).value].ends)
  }

  ghost predicate SlotOk(phases: seq<Phase>, start: int, slots: seq<Slot>, i: nat)
    requires i < |slots| <= |phases|
  {
    && slots[i].name == phases[i].name
    && slots[i].ends == slots[i].begins + DAYS_PER_WEEK * phases[i].durationWeeks
    && slots[i].begins >= start
    && (forall k | 0 <= k < i && DependsOn(phases, i, k) :: slots[i].begins >= slots[k].ends)
    && (|| slots[i].begins == start
        || exists k | 0 <= k < i :: DependsOn(phases, i, k) && slots[i].begins == slots[k].ends)
  }

  ghost predicate Inv(phases: seq<Phase>, start: int, n: nat, p: Progress)
    requires n <= |phases|
  {
    EndsOk(phases, n, p) && forall i | 0 <= i < n :: DependenciesMet(phases, i) && SlotOk(phases, start, p.slots, i)
  }

  lemma {:induction false} LatestEndIs(ends: map<string, int>, names: seq<string>, start: int)
    requires forall d | 0 <= d < |names| :: names[d] in ends
    ensures forall d | 0 <= d < |names| :: LatestEnd(ends, names, start) >= ends[names[d]]
    ensures if names == [] then LatestEnd(ends, names, start) == start
            else exists d | 0 <= d < |names| :: LatestEnd(ends, names, start) == ends[names[d]]
  {
    if |names| == 1 {
      assert LatestEnd(ends, names, start) == ends[names[0]];
    } else if |names| > 1 {
      var rest := names[1..];
      LatestEndIs(ends, rest, start);
      var e :| 0 <= e < |rest| && LatestEnd(ends, rest, start) == ends[rest[e]];
      assert rest[e] == names[e + 1];
      forall d | 0 <= d < |names| ensures LatestEnd(ends, names, start) >= ends[names[d]] {
        if d > 0 { assert names[d] == rest[d - 1]; }
      }
      assert LatestEnd(ends, names, start) == ends[names[0]] || LatestEnd(ends, names, start) == ends[names[e + 1]];
    }
  }

  lemma {:induction false} SlotKept(phases: seq<Phase>, start: int, slots: seq<Slot>, more: Slot, i: nat)
    requires i < |slots| < |slots + [more]| <= |phases| && SlotOk(phases, start, slots, i)
    ensures SlotOk(phases, start, slots + [more], i)
  {
    var all := slots + [more];
    assert all[i] == slots[i];
    if slots[i].begins != start {
      var k :| 0 <= k < i && DependsOn(phases, i, k) && slots[i].begins == slots[k].ends;
      assert all[k] == slots[k];
    }
  }

  lemma NewSlotOk(phases: seq<Phase>, start: int, n: nat, p: Progress)
    requires n < |phases| && Inv(phases, start, n, p) && Ready(p.ends, phases[n])
    ensures SlotOk(phases, start, Scheduled(p, phases[n], start).slots, n)
  {
    var names, slots := phases[n].dependsOn, Scheduled(p, phases[n], start).slots;
    LatestEndIs(p.ends, names, start);
    forall k | 0 <= k < n && DependsOn(phases, n, k) ensures slots[n].begins >= slots[k].ends {
      var d :| 0 <= d < |names| && Resolve(phases, n, names[d]) == Some(k);
      assert names[d] in p.ends;
    }
    if names != [] {
      var d :| 0 <= d < |names| && slots[n].begins == p.ends[names[d]];
      var k := Resolve(phases, n, names[d]).value;
      assert DependsOn(phases, n, k) && slots[n].begins == slots[k].ends;
      assert SlotOk(phases, start, p.slots, k);
    }
  }

  lemma NewEndsOk(phases: seq<Phase>, n: nat, p: Progress, start: int)
    requires n < |phases| && EndsOk(phases, n, p) && Ready(p.ends, phases[n])
    ensures EndsOk(phases, n + 1, Scheduled(p, phases[n], start))
  {
  }

  lemma ScheduledKeeps(phases: seq<Phase>, start: int, n: nat, p: Progress)
    requires n < |phases| && Inv(phases, start, n, p) && Ready(p.ends, phases[n])
    ensures Inv(phases, start, n + 1, Scheduled(p, phases[n], start))
  {
    var after := Scheduled(p, phases[n], start);
    NewSlotOk(phases, start, n, p);
    NewEndsOk(phases, n, p, start);
    forall i | 0 <= i < n + 1 ensures DependenciesMet(phases, i) && SlotOk(phases, start, after.slots, i) {
      if i < n {
        assert SlotOk(phases, start, p.slots, i);
        SlotKept(phases, start, p.slots, after.slots[n], i);
      } else {
        forall d | 0 <= d < |phases[n].dependsOn| ensures Resolve(phases, n, phases[n].dependsOn[d]).Some? {
          assert phases[n].dependsOn[d] in p.ends;
        }
      }
    }
  }

  // ---- chains ----

  lemma DependsOnEarlier(phases: seq<Phase>, i: nat, k: nat)
    requires i < |phases| && DependsOn(phases, i, k)
    ensures k < i
  {
    var d :| 0 <= d < |phases[i].dependsOn| && Resolve(phases, i, phases[i].dependsOn[d]) == Some(k);
    ResolveIsLast(phases, i, phases[i].dependsOn[d]);
  }

  /** Phases each of which depends on the one before. */
  ghost predicate IsChain(phases: seq<Phase>, chain: seq<nat>) {
    && (forall j | 0 <= j < |chain| :: chain[j] < |phases|)
    && (forall j | 0 < j < |chain| :: DependsOn(phases, chain[j], chain[j - 1]))
  }

  ghost predicate EndsBefore(chain: seq<nat>, n: nat) {
    chain != [] && chain[|chain| - 1] < n
  }

  function Weeks(phases: seq<Phase>, chain: seq<nat>): nat
    requires forall j | 0 <= j < |chain| :: chain[j] < |phases|
  {
    if chain == [] then 0 else Weeks(phases, chain[..|chain| - 1]) + phases[chain[|chain| - 1]].durationWeeks
  }

  ghost predicate SlotsOk(phases: seq<Phase>, start: int, slots: seq<Slot>) {
    |slots| <= |phases| && forall i | 0 <= i < |slots| :: SlotOk(phases, start, slots, i)
  }

  lemma {:induction false} ChainTakesItsTime(phases: seq<Phase>, start: int, slots: seq<Slot>, chain: seq<nat>)
    requires SlotsOk(phases, start, slots) && IsChain(phases, chain) && EndsBefore(chain, |slots|)
    ensures slots[chain[|chain| - 1]].ends >= start + DAYS_PER_WEEK * Weeks(phases, chain)
  {
    var last, before := chain[|chain| - 1], chain[..|chain| - 1];
    assert SlotOk(phases, start, slots, last);
    if before != [] {
      DependsOnEarlier(phases, last, chain[|chain| - 2]);
      ChainTakesItsTime(phases, start, slots, before);
    }
  }

  lemma ChainExtends(phases: seq<Phase>, chain: seq<nat>, i: nat)
    requires IsChain(phases, chain) && i < |phases|
    requires chain != [] ==> DependsOn(phases, i, chain[|chain| - 1])
    ensures IsChain(phases, chain + [i])
  {
    var more := chain + [i];
    forall j | 0 < j < |more| ensures DependsOn(phases, more[j], more[j - 1]) {
      if j < |chain| { assert more[j] == chain[j] && more[j - 1] == chain[j - 1]; }
    }
  }

  lemma {:induction false} WeeksExtend(phases: seq<Phase>, chain: seq<nat>, i: nat)
    requires forall j | 0 <= j < |chain + [i]| :: (chain + [i])[j] < |phases|
    ensures forall j | 0 <= j < |chain| :: chain[j] < |phases|
    ensures i < |phases| && Weeks(phases, chain + [i]) == Weeks(phases, chain) + phases[i].durationWeeks
  {
    var more := chain + [i];
    assert more[..|chain|] == chain && more[|chain|] == i;
    forall j | 0 <= j < |chain| ensures chain[j] < |phases| { assert more[j] == chain[j]; }
  }

  lemma {:induction false} EndIsSomeChain(phases: seq<Phase>, start: int, slots: seq<Slot>, i: nat)
    returns (chain: seq<nat>)
    requires SlotsOk(phases, start, slots) && i < |slots|
    ensures IsChain(phases, chain) && chain != [] && chain[|chain| - 1] == i
    ensures slots[i].ends == start + DAYS_PER_WEEK * Weeks(phases, chain)
  {
    assert SlotOk(phases, start, slots, i);
    var before: seq<nat> := [];
    if slots[i].begins != start {
      var k :| 0 <= k < i && DependsOn(phases, i, k) && slots[i].begins == slots[k].ends;
      before := EndIsSomeChain(phases, start, slots, k);
    }
    ChainExtends(phases, before, i);
    WeeksExtend(phases, before, i);
    chain := before + [i];
  }

  /** No chain of the first `n` phases leads past the last day of the calendar. */
  ghost predicate InCalendar(phases: seq<Phase>, n: nat, start: int, lastDay: int) {
    forall chain | IsChain(phases, chain) && EndsBefore(chain, n) ::
      start + DAYS_PER_WEEK * Weeks(phases, chain) <= lastDay
  }

  /** With one more phase, only its own end is left to look at. */
  lemma CalendarGoesOn(phases: seq<Phase>, start: int, lastDay: int, n: nat, slots: seq<Slot>)
    requires SlotsOk(phases, start, slots) && |slots| == n + 1 && InCalendar(phases, n, start, lastDay)
    ensures InCalendar(phases, n + 1, start, lastDay) <==> slots[n].ends <= lastDay
  {
    if slots[n].ends <= lastDay {
      forall chain | IsChain(phases, chain) && EndsBefore(chain, n + 1)
        ensures start + DAYS_PER_WEEK * Weeks(phases, chain) <= lastDay
      {
        if !EndsBefore(chain, n) { ChainTakesItsTime(phases, start, slots, chain); }
      }
    } else {
      var chain := EndIsSomeChain(phases, start, slots, n);
      assert EndsBefore(chain, n + 1);
    }
  }

  // ---- the tool ----

  /** No later phase takes over this one's name. */
  predicate Final(phases: seq<Phase>, i: nat)
    requires i < |phases|
  {
    forall j | i < j < |phases| :: phases[j].name != phases[i].name
  }

  /** The end of the project: the latest end among the phases that kept their names. */
  ghost predicate IsProjectEnd(phases: seq<Phase>, start: int, slots: seq<Slot>, end: int)
    requires |slots| == |phases|
  {
    && (forall i | 0 <= i < |phases| && Final(phases, i) :: slots[i].ends <= end)
    && (if phases == [] then end == start else exists i | 0 <= i < |phases| :: Final(phases, i) && slots[i].ends == end)
  }

  ghost predicate PlanOk(phases: seq<Phase>, start: int, plan: Plan) {
    && |plan.slots| == |phases|
    && (forall i | 0 <= i < |phases| :: SlotOk(phases, start, plan.slots, i))
    && IsProjectEnd(phases, start, plan.slots, plan.projectEnd)
    && WholeWeeks(plan.projectEnd - start, plan.totalWeeks)
    && NearestMonths(plan.totalWeeks, plan.totalMonths)
  }

  /** The weeks that a number of days is over. */
  predicate WholeWeeks(days: int, weeks: int) {
    7 * weeks <= days < 7 * (weeks + 1)
  }

  /** The months nearest to a number of weeks, at 4.33 weeks to a month; the greater one of two. */
  predicate NearestMonths(weeks: int, months: int) {
    433 * (2 * months - 1) <= 200 * weeks < 433 * (2 * months + 1)
  }

  /** The first dependency, in order of listing, that names no earlier phase. */
  ghost predicate FirstUnmet(phases: seq<Phase>, i: nat, d: nat)
    requires i < |phases| && d < |phases[i].dependsOn|
  {
    && Resolve(phases, i, phases[i].dependsOn[d]).None?
    && (forall j | 0 <= j < i :: DependenciesMet(phases, j))
    && (forall e | 0 <= e < d :: Resolve(phases, i, phases[i].dependsOn[e]).Some?)
  }

  ghost predicate UnmetAt(phases: seq<Phase>, start: int, lastDay: int, error: ScheduleError, i: nat, d: nat)
    requires error.NotYetScheduled?
  {
    && i < |phases| && d < |phases[i].dependsOn| && FirstUnmet(phases, i, d) && InCalendar(phases, i, start, lastDay)
    && error.phase == phases[i].name && error.dependency == phases[i].dependsOn[d]
  }

  ghost predicate CalendarEndsAt(phases: seq<Phase>, start: int, lastDay: int, error: ScheduleError, i: nat)
    requires error.PastCalendar?
  {
    && i < |phases| && error.phase == phases[i].name && (forall j | 0 <= j <= i :: DependenciesMet(phases, j))
    && InCalendar(phases, i, start, lastDay) && !InCalendar(phases, i + 1, start, lastDay)
  }

  /** The error is the first thing that goes wrong. */
  ghost predicate Reported(phases: seq<Phase>, start: int, lastDay: int, error: ScheduleError) {
    match error
    case NotYetScheduled(_, _) => exists i, d :: UnmetAt(phases, start, lastDay, error, i, d)
    case PastCalendar(_) => exists i :: CalendarEndsAt(phases, start, lastDay, error, i)
  }

  method LatestOf(ends: map<string, int>, names: seq<string>, start: int) returns (latest: int)
    requires forall d | 0 <= d < |names| :: names[d] in ends
    ensures latest == LatestEnd(ends, names, start)
  {
    if |names| == 0 { return start; }
    latest := ends[names[|names| - 1]];
    var d := |names| - 1;
    assert names[d..] == [names[d]];
    while d > 0
      invariant 0 <= d < |names| && latest == LatestEnd(ends, names[d..], start)
    {
      d := d - 1;
      assert names[d..][1..] == names[d + 1..];
      if ends[names[d]] > latest { latest := ends[names[d]]; }
    }
    assert names[0..] == names;
  }

  /** Iterates the values of the map in no particular order. */
  method LatestValue(ends: map<string, int>, start: int) returns (latest: int)
    ensures if ends == map[] then latest == start else latest in ends.Values
    ensures forall name | name in ends :: ends[name] <= latest
  {
    if ends == map[] { return start; }
    var names := ends.Keys;
    var first :| first in names;
    latest := ends[first];
    while names != {}
      invariant names <= ends.Keys && latest in ends.Values
      invariant forall name | name in ends && name !in names :: ends[name] <= latest
      decreases names
    {
      var name :| name in names;
      names := names - {name};
      if ends[name] > latest { latest := ends[name]; }
    }
  }

  /** A panic of the date addition is an error here. */
  method Execute(start: int, lastDay: int, phases: seq<Phase>) returns (r: Result<Plan, ScheduleError>)
    ensures r.Ok? <==> InDependencyOrder(phases) && InCalendar(phases, |phases|, start, lastDay)
    ensures r.Ok? ==> PlanOk(phases, start, r.value)
    ensures r.Err? ==> Reported(phases, start, lastDay, r.error)
  {
    var p := Progress(map[], []);
    for n := 0 to |phases|
      invariant Inv(phases, start, n, p) && InCalendar(phases, n, start, lastDay)
    {
      var phase := phases[n];
      for d := 0 to |phase.dependsOn|
        invariant forall e | 0 <= e < d :: phase.dependsOn[e] in p.ends
      {
        if phase.dependsOn[d] !in p.ends {
          assert FirstUnmet(phases, n, d) && !DependenciesMet(phases, n);
          r := Err(NotYetScheduled(phase.name, phase.dependsOn[d]));
          assert UnmetAt(phases, start, lastDay, r.error, n, d);
          return;
        }
      }
      var begins := LatestOf(p.ends, phase.dependsOn, start);
      var ends := begins + DAYS_PER_WEEK * phase.durationWeeks;
      ScheduledKeeps(phases, start, n, p);
      p := Progress(p.ends[phase.name := ends], p.slots + [Slot(phase.name, begins, ends)]);
      CalendarGoesOn(phases, start, lastDay, n, p.slots);
      if ends > lastDay {
        r := Err(PastCalendar(phase.name));
        assert forall j | 0 <= j <= n :: DependenciesMet(phases, j);
        assert CalendarEndsAt(phases, start, lastDay, r.error, n);
        return;
      }
    }
    var projectEnd := LatestValue(p.ends, start);
    EndOfMapIsProjectEnd(phases, start, p, projectEnd);
    var weeks := (projectEnd - start) / 7;
    var months := (weeks as real / 4.33 + 0.5).Floor;
    return Ok(Plan(p.slots, projectEnd, weeks, months));
  }

  lemma EndOfMapIsProjectEnd(phases: seq<Phase>, start: int, p: Progress, end: int)
    requires Inv(phases, start, |phases|, p)
    requires if p.ends == map[] then end == start else end in p.ends.Values
    requires forall name | name in p.ends :: p.ends[name] <= end
    ensures IsProjectEnd(phases, start, p.slots, end)
  {
    var n := |phases|;
    forall i | 0 <= i < n && Final(phases, i)
      ensures Resolve(phases, n, phases[i].name) == Some(i) && p.slots[i].ends <= end
    {
      ResolveIsLast(phases, n, phases[i].name);
      assert phases[i].name in p.ends;
    }
    if n > 0 {
      assert Final(phases, n - 1);
      assert phases[n - 1].name in p.ends;
      var name :| name in p.ends && p.ends[name] == end;
      ResolveIsLast(phases, n, name);
      assert Final(phases, Resolve(phases, n, name).value);
    }
  }

  // ---- what the schedule is good for ----

  /** The schedule respects everything, and nothing that does begins any phase earlier. */
  lemma ScheduleIsLeast(phases: seq<Phase>, start: int, plan: Plan)
    requires InDependencyOrder(phases) && PlanOk(phases, start, plan)
    ensures Feasible(phases, start, Begins(plan.slots))
    ensures forall begins, i | Feasible(phases, start, begins) && 0 <= i < |phases| :: plan.slots[i].begins <= begins[i]
  {
    forall i, k | 0 <= i < |phases| && 0 <= k < |phases| && DependsOn(phases, i, k)
      ensures plan.slots[i].begins >= plan.slots[k].begins + DAYS_PER_WEEK * phases[k].durationWeeks
    {
      DependsOnEarlier(phases, i, k);
      assert SlotOk(phases, start, plan.slots, i) && SlotOk(phases, start, plan.slots, k);
    }
    forall i | 0 <= i < |phases| ensures plan.slots[i].begins >= start { assert SlotOk(phases, start, plan.slots, i); }
    forall begins, i | Feasible(phases, start, begins) && 0 <= i < |phases| ensures plan.slots[i].begins <= begins[i] {
      NotEarlier(phases, start, plan, begins, i);
    }
  }

  function Begins(slots: seq<Slot>): seq<int> { seq(|slots|, i requires 0 <= i < |slots| => slots[i].begins) }

  lemma {:induction false} NotEarlier(phases: seq<Phase>, start: int, plan: Plan, begins: seq<int>, i: nat)
    requires PlanOk(phases, start, plan) && Feasible(phases, start, begins) && i < |phases|
    ensures plan.slots[i].begins <= begins[i]
  {
    var slots := plan.slots;
    assert SlotOk(phases, start, slots, i);
    if slots[i].begins != start {
      var k :| 0 <= k < i && DependsOn(phases, i, k) && slots[i].begins == slots[k].ends;
      NotEarlier(phases, start, plan, begins, k);
      assert SlotOk(phases, start, slots, k);
    }
  }

  // ---- what the end of the project is ----

  /** The chain's last phase has kept its name. */
  ghost predicate EndsFinally(phases: seq<Phase>, chain: seq<nat>)
    requires IsChain(phases, chain)
  {
    chain != [] ==> Final(phases, chain[|chain| - 1])
  }

  /** The project takes as long as the longest chain to a phase that kept its name. */
  lemma ProjectIsItsLongestFinalChain(phases: seq<Phase>, start: int, plan: Plan) returns (longest: seq<nat>)
    requires PlanOk(phases, start, plan)
    ensures IsChain(phases, longest) && EndsFinally(phases, longest)
    ensures plan.projectEnd == start + DAYS_PER_WEEK * Weeks(phases, longest)
    ensures plan.totalWeeks == Weeks(phases, longest)
    ensures forall chain | IsChain(phases, chain) && EndsFinally(phases, chain) ::
      Weeks(phases, chain) <= Weeks(phases, longest)
  {
    longest := [];
    if phases != [] {
      var i :| 0 <= i < |phases| && Final(phases, i) && plan.slots[i].ends == plan.projectEnd;
      longest := EndIsSomeChain(phases, start, plan.slots, i);
    }
    forall chain | IsChain(phases, chain) && EndsFinally(phases, chain)
      ensures Weeks(phases, chain) <= Weeks(phases, longest)
    {
      if chain != [] { ChainTakesItsTime(phases, start, plan.slots, chain); }
    }
  }

  ghost predicate MatchedByFinal(phases: seq<Phase>, chain: seq<nat>)
    requires IsChain(phases, chain)
  {
    exists other :: IsChain(phases, other) && EndsFinally(phases, other) && Weeks(phases, other) >= Weeks(phases, chain)
  }

  /** Each chain to a phase whose name a later phase takes over is matched by a chain, at
      least as long, to a phase that keeps its name. */
  ghost predicate ReusedNamesAreMatched(phases: seq<Phase>) {
    forall chain | IsChain(phases, chain) && !EndsFinally(phases, chain) :: MatchedByFinal(phases, chain)
  }

  /** No phase ends after the project, exactly when reused names hide no longer chain. */
  lemma ProjectEndsLastExactly(phases: seq<Phase>, start: int, plan: Plan)
    requires PlanOk(phases, start, plan)
    ensures (forall i | 0 <= i < |phases| :: plan.slots[i].ends <= plan.projectEnd) <==> ReusedNamesAreMatched(phases)
  {
    var longest := ProjectIsItsLongestFinalChain(phases, start, plan);
    if forall i | 0 <= i < |phases| :: plan.slots[i].ends <= plan.projectEnd {
      forall chain | IsChain(phases, chain) && !EndsFinally(phases, chain) ensures MatchedByFinal(phases, chain) {
        ChainTakesItsTime(phases, start, plan.slots, chain);
        assert Weeks(phases, longest) >= Weeks(phases, chain);
      }
    }
    if ReusedNamesAreMatched(phases) {
      forall i | 0 <= i < |phases| ensures plan.slots[i].ends <= plan.projectEnd {
        var chain := EndIsSomeChain(phases, start, plan.slots, i);
        assert EndsFinally(phases, chain) || MatchedByFinal(phases, chain);
      }
    }
  }

  predicate DistinctNames(phases: seq<Phase>) {
    forall i, j | 0 <= i < j < |phases| :: phases[i].name != phases[j].name
  }

  function NamesOf(phases: seq<Phase>): set<string> {
    set i | 0 <= i < |phases| :: phases[i].name
  }

  /** That is, there are as many names as phases. */
  lemma {:induction false} DistinctNamesExactly(phases: seq<Phase>)
    ensures |NamesOf(phases)| <= |phases|
    ensures DistinctNames(phases) <==> |NamesOf(phases)| == |phases|
  {
    if phases != [] {
      var init, last := phases[..|phases| - 1], phases[|phases| - 1];
      DistinctNamesExactly(init);
      OneNameMore(init, last);
      assert phases == init + [last];
    }
  }

  lemma OneNameMore(phases: seq<Phase>, last: Phase)
    ensures NamesOf(phases + [last]) == NamesOf(phases) + {last.name}
    ensures DistinctNames(phases + [last]) <==> DistinctNames(phases) && last.name !in NamesOf(phases)
  {
    var more := phases + [last];
    assert more[|phases|] == last && forall i | 0 <= i < |phases| :: more[i] == phases[i];
  }

  /** With unique names, as the tool asks for, nothing is hidden. */
  lemma DistinctNamesHideNothing(phases: seq<Phase>, start: int, plan: Plan)
    requires DistinctNames(phases) && PlanOk(phases, start, plan)
    ensures forall i | 0 <= i < |phases| :: plan.slots[i].ends <= plan.projectEnd
  {
    forall chain | IsChain(phases, chain) ensures EndsFinally(phases, chain) {}
    ProjectEndsLastExactly(phases, start, plan);
  }

  /** With a name used twice, the project can end before one of its phases. */
  lemma RepeatedNameHidesItsEnd(start: int, plan: Plan)
    requires PlanOk([Phase("A", 10, []), Phase("A", 1, [])], start, plan)
    ensures plan.projectEnd == start + 7 < plan.slots[0].ends
  {
    var phases := [Phase("A", 10, []), Phase("A", 1, [])];
    assert SlotOk(phases, start, plan.slots, 0) && SlotOk(phases, start, plan.slots, 1);
    assert phases[1].name == phases[0].name && !Final(phases, 0) && Final(phases, 1);
  }
}
