/** Task runs: the concurrency cap with its race, the status lifecycle, and the reaper.
    Each step is one atomic operation or critical section; a run of the system is any interleaving of them. */
module RunLifecycle {
  import opened Common

  const TTL_SECONDS := 600

  datatype Status = Running | Exited | Killed | Failed

  // How `cmd.Wait` came back.
  datatype Outcome = Clean | ExitCode(code: int) | OtherError

  // How far a run's goroutine has come. A run is created before it is launched; once it has finished, its done channel
  // is closed, then its slot released.
  datatype Stage = Created | Waiting | Finished | Closed | Released

  datatype Task = Task(status: Status, exitCode: int, finishedAt: nat, killed: bool, stage: Stage, closes: nat)

  const NewTask := Task(Running, 0, 0, false, Created, 0)

  // Where a `Start` call stands: entered, past the cap check, or counted but not yet in the map.
  datatype Phase = Entered | Passed | Counted(id: nat)

  // `tasks` are all runs ever created, `table` those the runner can still find, `stopping` the `Stop` calls that have
  // found their run and not yet marked it.
  datatype State = State(cap: int, active: int, tasks: map<nat, Task>, table: set<nat>,
                         starting: map<nat, Phase>, stopping: map<nat, nat>)

  function Initial(cap: int): State {
    State(cap, 0, map[], {}, map[], map[])
  }

  datatype Step =
    | Enter(call: nat)
    | Check(call: nat)
    | SpawnFails(call: nat)
    | Count(call: nat, id: nat)
    | Insert(call: nat)
    | FindToStop(call: nat, id: nat)
    | MarkKilled(call: nat)
    | Finish(id: nat, outcome: Outcome, now: nat)
    | CloseDone(id: nat)
    | Release(id: nat)
    | Reap(id: nat, now: nat)

  function Ended(t: Task, outcome: Outcome, now: nat): Task {
    t.(finishedAt := now, stage := Finished,
       status := if t.killed then Killed else if outcome.OtherError? then Failed else Exited,
       exitCode := if t.killed || outcome.OtherError? then t.exitCode else if outcome.ExitCode? then outcome.code else 0)
  }

  predicate Expired(t: Task, now: nat) {
    t.finishedAt > 0 && now - t.finishedAt > TTL_SECONDS
  }

  // Identifiers are never reused, and clocks do not read zero.
  predicate Enabled(s: State, step: Step) {
    match step
    case Enter(c) => c !in s.starting
    case Check(c) => c in s.starting && s.starting[c] == Entered
    case SpawnFails(c) => c in s.starting && s.starting[c] == Passed
    case Count(c, id) => c in s.starting && s.starting[c] == Passed && id !in s.tasks
    case Insert(c) => c in s.starting && s.starting[c].Counted? && s.starting[c].id in s.tasks
    case FindToStop(c, id) => c !in s.stopping && id in s.table && id in s.tasks
    case MarkKilled(c) => c in s.stopping && s.stopping[c] in s.tasks
    case Finish(id, _, now) => id in s.tasks && s.tasks[id].stage == Waiting && now > 0
    case CloseDone(id) => id in s.tasks && s.tasks[id].stage == Finished
    case Release(id) => id in s.tasks && s.tasks[id].stage == Closed
    case Reap(id, now) => id in s.table && id in s.tasks
  }

  function Do(s: State, step: Step): State {
    if !Enabled(s, step) then s
    else match step
         case Enter(c) => s.(starting := s.starting[c := Entered])
         case Check(c) =>
           if s.cap > 0 && s.active >= s.cap then s.(starting := s.starting - {c})
           else s.(starting := s.starting[c := Passed])
         case SpawnFails(c) => s.(starting := s.starting - {c})
         case Count(c, id) =>
           s.(active := s.active + 1, tasks := s.tasks[id := NewTask], starting := s.starting[c := Counted(id)])
         case Insert(c) =>
           var id := s.starting[c].id;
           s.(table := s.table + {id}, tasks := s.tasks[id := s.tasks[id].(stage := Waiting)], starting := s.starting - {c})
         case FindToStop(c, id) => s.(stopping := s.stopping[c := id])
         case MarkKilled(c) =>
           var id := s.stopping[c];
           s.(tasks := s.tasks[id := s.tasks[id].(killed := true)], stopping := s.stopping - {c})
         case Finish(id, outcome, now) => s.(tasks := s.tasks[id := Ended(s.tasks[id], outcome, now)])
         case CloseDone(id) =>
           s.(tasks := s.tasks[id := s.tasks[id].(stage := Closed, closes := s.tasks[id].closes + 1)])
         case Release(id) =>
           s.(active := s.active - 1, tasks := s.tasks[id := s.tasks[id].(stage := Released)])
         case Reap(id, now) => if Expired(s.tasks[id], now) then s.(table := s.table - {id}) else s
  }

  function Run(cap: int, steps: seq<Step>): State {
    if steps == [] then Initial(cap) else Do(Run(cap, ButLast(steps)), Last(steps))
  }

  // ---------------------------------------------------------------- what every reachable state keeps

  // The runs that hold a slot.
  function Holding(s: State): set<nat> {
    set id | id in s.tasks && s.tasks[id].stage != Released
  }

  predicate TaskOk(t: Task) {
    && (t.status == Running <==> t.stage == Created || t.stage == Waiting)
    && (t.finishedAt == 0 <==> t.status == Running)
    && t.closes == (if t.stage == Closed || t.stage == Released then 1 else 0)
  }

  predicate TasksOk(s: State) {
    forall id | id in s.tasks :: TaskOk(s.tasks[id])
  }

  // The map holds launched runs only, and every run that has not finished.
  predicate TableOk(s: State) {
    && (forall id | id in s.table :: id in s.tasks && s.tasks[id].stage != Created)
    && (forall id | id in s.tasks && s.tasks[id].stage == Waiting :: id in s.table)
  }

  // Each counted start has a created run of its own.
  predicate StartingOk(s: State) {
    && (forall c | c in s.starting && s.starting[c].Counted? ::
          s.starting[c].id in s.tasks && s.tasks[s.starting[c].id].stage == Created)
    && (forall c, d | c in s.starting && d in s.starting && s.starting[c].Counted? && s.starting[c] == s.starting[d] :: c == d)
  }

  predicate StoppingOk(s: State) {
    forall c | c in s.stopping :: s.stopping[c] in s.tasks
  }

  ghost predicate Inv(s: State) {
    s.active == |Holding(s)| && TasksOk(s) && TableOk(s) && StartingOk(s) && StoppingOk(s)
  }

  lemma HoldingStep(s: State, step: Step)
    requires Enabled(s, step) && StartingOk(s)
    ensures var h, h' := Holding(s), Holding(Do(s, step));
            match step
            case Count(_, id) => h' == h + {id} && id !in h
            case Release(id) => h' == h - {id} && id in h
            case _ => h' == h
  {
    assert !step.Count? && !step.Release? ==> forall id :: id in Holding(s) <==> id in Holding(Do(s, step));
  }

  lemma ActiveKeeps(s: State, step: Step)
    requires Enabled(s, step) && StartingOk(s) && s.active == |Holding(s)|
    ensures Do(s, step).active == |Holding(Do(s, step))|
  {
    HoldingStep(s, step);
  }

  lemma TasksKeep(s: State, step: Step)
    requires Enabled(s, step) && TasksOk(s) && StartingOk(s)
    ensures TasksOk(Do(s, step))
  {
    var t := Do(s, step);
    forall id | id in t.tasks ensures TaskOk(t.tasks[id]) {
      assert id in s.tasks ==> TaskOk(s.tasks[id]);
    }
  }

  lemma TableKeeps(s: State, step: Step)
    requires Enabled(s, step) && TableOk(s) && TasksOk(s)
    ensures TableOk(Do(s, step))
  {
    if step.Reap? {
      assert TaskOk(s.tasks[step.id]);
    }
  }

  lemma StartingKeeps(s: State, step: Step)
    requires Enabled(s, step) && StartingOk(s) && TableOk(s)
    ensures StartingOk(Do(s, step))
  {
    var t := Do(s, step);
    forall c | c in t.starting && t.starting[c].Counted?
      ensures t.starting[c].id in t.tasks && t.tasks[t.starting[c].id].stage == Created {
      if step.Insert? {
        assert c in s.starting && s.starting[c] != s.starting[step.call];
      }
    }
  }

  lemma StoppingKeeps(s: State, step: Step)
    requires Enabled(s, step) && StoppingOk(s)
    ensures StoppingOk(Do(s, step))
  {
  }

  lemma StepKeepsInv(s: State, step: Step)
    requires Inv(s)
    ensures Inv(Do(s, step))
  {
    if Enabled(s, step) {
      ActiveKeeps(s, step);
      TasksKeep(s, step);
      TableKeeps(s, step);
      StartingKeeps(s, step);
      StoppingKeeps(s, step);
    }
  }

  lemma {:induction false} Reachable(cap: int, steps: seq<Step>)
    ensures Inv(Run(cap, steps)) && Run(cap, steps).cap == cap
  {
    if steps != [] {
      Reachable(cap, ButLast(steps));
      StepKeepsInv(Run(cap, ButLast(steps)), Last(steps));
    }
  }

  // ---------------------------------------------------------------- an undisturbed start

  function StepOfStart(c: nat, id: nat, i: nat): Step {
    match i
    case 0 => Enter(c)
    case 1 => Check(c)
    case 2 => Count(c, id)
    case _ => Insert(c)
  }

  // Where a start has come after its first steps.
  function StartState(s: State, c: nat, id: nat, i: nat): State {
    match i
    case 0 => s
    case 1 => s.(starting := s.starting[c := Entered])
    case 2 => s.(starting := s.starting[c := Passed])
    case 3 => s.(active := s.active + 1, tasks := s.tasks[id := NewTask], starting := s.starting[c := Counted(id)])
    case _ => s.(active := s.active + 1, tasks := s.tasks[id := NewTask.(stage := Waiting)], table := s.table + {id})
  }

  lemma StartStep(s: State, c: nat, id: nat, i: nat)
    requires c !in s.starting && (s.cap <= 0 || s.active < s.cap) && id !in s.tasks && i < 4
    ensures Do(StartState(s, c, id, i), StepOfStart(c, id, i)) == StartState(s, c, id, i + 1)
    ensures StartState(s, c, id, i + 1).starting.Keys <= s.starting.Keys + {c}
  {
    if i == 3 {
      assert StartState(s, c, id, 3).starting - {c} == s.starting;
      assert s.tasks[id := NewTask][id := NewTask.(stage := Waiting)] == s.tasks[id := NewTask.(stage := Waiting)];
    }
  }

  lemma {:induction false} StartSound(s: State, c: nat, id: nat, i: nat)
    requires Inv(s) && c !in s.starting && (s.cap <= 0 || s.active < s.cap) && id !in s.tasks && i <= 4
    ensures Inv(StartState(s, c, id, i))
  {
    if i > 0 {
      StartSound(s, c, id, i - 1);
      StartStep(s, c, id, i - 1);
      StepKeepsInv(StartState(s, c, id, i - 1), StepOfStart(c, id, i - 1));
    }
  }

  // ---------------------------------------------------------------- the cap

  // The `Start` calls past the check and not yet counted.
  function PastCheck(s: State): set<nat> {
    set c | c in s.starting && s.starting[c] == Passed
  }

  // No more than k `Start` calls at any moment of the run.
  predicate Overlap(cap: int, steps: seq<Step>, k: nat) {
    |Run(cap, steps).starting| <= k && (steps != [] ==> Overlap(cap, ButLast(steps), k))
  }

  lemma PastCheckStep(s: State, step: Step)
    requires Enabled(s, step)
    ensures
      var p, q := PastCheck(s), PastCheck(Do(s, step));
      match step
      case Check(c) => if s.cap > 0 && s.active >= s.cap then q == p else q == p + {c} && c !in p
      case SpawnFails(c) => q == p - {c}
      case Count(c, _) => q == p - {c} && c in p
      case _ => q == p
  {
  }

  lemma PastCheckBound(s: State, k: nat)
    requires |s.starting| <= k
    ensures |PastCheck(s)| <= k
  {
    var keys := s.starting.Keys;
    assert PastCheck(s) <= keys;
    SubsetSize(PastCheck(s), keys);
  }

  lemma SubsetSize<T>(a: set<T>, b: set<T>)
    requires a <= b
    ensures |a| <= |b|
  {
    assert b == a + (b - a);
  }

  /** With at most k overlapping `Start` calls, active runs plus starts in the race window never exceed the cap by more
      than k - 1; so without overlap the cap is exact. */
  lemma {:induction false} CapHolds(cap: int, steps: seq<Step>, k: nat)
    requires cap > 0 && k >= 1 && Overlap(cap, steps, k)
    ensures Run(cap, steps).active + |PastCheck(Run(cap, steps))| <= cap + k - 1
  {
    var t := Run(cap, steps);
    if steps == [] {
      assert PastCheck(t) == {};
    } else {
      var s, step := Run(cap, ButLast(steps)), Last(steps);
      CapHolds(cap, ButLast(steps), k);
      Reachable(cap, ButLast(steps));
      PastCheckBound(t, k);
      if Enabled(s, step) {
        PastCheckStep(s, step);
        SubsetSize(PastCheck(s) - (if step.SpawnFails? then {step.call} else {}), PastCheck(s));
        if step.Count? {
          assert |PastCheck(s) - {step.call}| == |PastCheck(s)| - 1;
        }
      }
    }
  }

  lemma OverlapSnoc(cap: int, steps: seq<Step>, step: Step, s: State, k: nat)
    requires Run(cap, steps) == s && Overlap(cap, steps, k) && |Do(s, step).starting| <= k
    ensures Run(cap, steps + [step]) == Do(s, step) && Overlap(cap, steps + [step], k)
  {
    SnocParts(steps, step);
  }

  // Calls 0 to n - 1 have entered; those below `passed` are past the check, those below `counted` are counted.
  predicate Racing(s: State, n: nat, passed: nat, counted: nat) {
    && counted <= passed <= n
    && (forall c | c in s.starting :: c < n)
    && (forall c | 0 <= c < n :: c in s.starting &&
          if c < counted then s.starting[c].Counted? else s.starting[c] == if c < passed then Passed else Entered)
  }

  function Upto(n: nat): (r: set<nat>)
    ensures |r| == n && forall c: nat :: c in r <==> c < n
  {
    if n == 0 then {} else Upto(n - 1) + {n - 1}
  }

  lemma StartingBound(s: State, n: nat)
    requires forall c | c in s.starting :: c < n
    ensures |s.starting| <= n
  {
    SubsetSize(s.starting.Keys, Upto(n));
    assert |s.starting.Keys| == |s.starting|;
  }

  // One more step, the overlap still within bounds.
  lemma Then(cap: int, steps: seq<Step>, step: Step, s: State, n: nat, k: nat) returns (more: seq<Step>)
    requires s == Run(cap, steps) && Overlap(cap, steps, k) && n <= k && forall c | c in Do(s, step).starting :: c < n
    ensures Run(cap, more) == Do(s, step) && Overlap(cap, more, k)
  {
    StartingBound(Do(s, step), n);
    more := steps + [step];
    OverlapSnoc(cap, steps, step, s, k);
  }

  // A run that has had this many undisturbed starts and nothing else.
  predicate Filled(s: State, cap: int, n: nat) {
    s.cap == cap && s.starting == map[] && s.active == n && forall id | id in s.tasks :: id < n
  }

  lemma StartOne(cap: int, steps: seq<Step>, s: State, n: nat, k: nat) returns (more: seq<Step>)
    requires k >= 1 && s == Run(cap, steps) && Overlap(cap, steps, k) && Filled(s, cap, n) && n < cap
    ensures Overlap(cap, more, k) && Filled(Run(cap, more), cap, n + 1)
  {
    more := steps;
    for i := 0 to 4
      invariant Overlap(cap, more, k) && Run(cap, more) == StartState(s, 0, n, i)
    {
      StartStep(s, 0, n, i);
      more := Then(cap, more, StepOfStart(0, n, i), StartState(s, 0, n, i), 1, k);
    }
  }

  lemma Fill(cap: int, k: nat, n: nat) returns (steps: seq<Step>)
    requires k >= 1 && n < cap
    ensures Overlap(cap, steps, k) && Filled(Run(cap, steps), cap, n)
  {
    steps := [];
    for i := 0 to n
      invariant Overlap(cap, steps, k) && Filled(Run(cap, steps), cap, i)
    {
      steps := StartOne(cap, steps, Run(cap, steps), i, k);
    }
  }

  lemma EnterMore(s: State, n: nat)
    requires Racing(s, n, 0, 0)
    ensures Racing(Do(s, Enter(n)), n + 1, 0, 0) && Do(s, Enter(n)) == s.(starting := s.starting[n := Entered])
  {
  }

  lemma PassMore(s: State, k: nat, i: nat)
    requires Racing(s, k, i, 0) && i < k && s.active < s.cap
    ensures Racing(Do(s, Check(i)), k, i + 1, 0) && Do(s, Check(i)) == s.(starting := s.starting[i := Passed])
  {
  }

  // Call i of the race is counted, with the next identifier.
  predicate Counting(s: State, k: nat, i: nat, base: int, next: nat) {
    Racing(s, k, k, i) && s.active == base && forall id | id in s.tasks :: id < next
  }

  lemma CountMore(s: State, k: nat, i: nat, base: int, next: nat)
    requires Counting(s, k, i, base, next) && i < k
    ensures Counting(Do(s, Count(i, next)), k, i + 1, base + 1, next + 1)
    ensures forall c | c in Do(s, Count(i, next)).starting :: c < k
  {
    assert next !in s.tasks;
    assert Do(s, Count(i, next)).starting == s.starting[i := Counted(next)];
  }

  lemma AllEnter(cap: int, before: seq<Step>, n: nat, k: nat) returns (steps: seq<Step>)
    requires Overlap(cap, before, k) && Filled(Run(cap, before), cap, n)
    ensures Overlap(cap, steps, k) && Racing(Run(cap, steps), k, 0, 0)
    ensures Run(cap, steps) == Run(cap, before).(starting := Run(cap, steps).starting)
  {
    steps := before;
    for i := 0 to k
      invariant Overlap(cap, steps, k) && Racing(Run(cap, steps), i, 0, 0)
      invariant Run(cap, steps) == Run(cap, before).(starting := Run(cap, steps).starting)
    {
      EnterMore(Run(cap, steps), i);
      steps := Then(cap, steps, Enter(i), Run(cap, steps), i + 1, k);
    }
  }

  lemma AllPass(cap: int, before: seq<Step>, k: nat) returns (steps: seq<Step>)
    requires Overlap(cap, before, k) && Racing(Run(cap, before), k, 0, 0) && Run(cap, before).active < Run(cap, before).cap
    ensures Overlap(cap, steps, k) && Racing(Run(cap, steps), k, k, 0)
    ensures Run(cap, steps) == Run(cap, before).(starting := Run(cap, steps).starting)
  {
    steps := before;
    for i := 0 to k
      invariant Overlap(cap, steps, k) && Racing(Run(cap, steps), k, i, 0)
      invariant Run(cap, steps) == Run(cap, before).(starting := Run(cap, steps).starting)
    {
      PassMore(Run(cap, steps), k, i);
      steps := Then(cap, steps, Check(i), Run(cap, steps), k, k);
    }
  }

  lemma AllCount(cap: int, before: seq<Step>, k: nat, n: nat) returns (steps: seq<Step>)
    requires Overlap(cap, before, k) && Racing(Run(cap, before), k, k, 0)
    requires forall id | id in Run(cap, before).tasks :: id < n
    ensures Overlap(cap, steps, k) && Run(cap, steps).active == Run(cap, before).active + k
  {
    steps := before;
    var s, base := Run(cap, before), Run(cap, before).active;
    for i := 0 to k
      invariant s == Run(cap, steps) && Overlap(cap, steps, k) && Counting(s, k, i, base + i, n + i)
    {
      CountMore(s, k, i, base + i, n + i);
      steps := Then(cap, steps, Count(i, n + i), s, k, k);
      s := Do(s, Count(i, n + i));
    }
  }

  /** The bound is tight: for every cap and every overlap k some run reaches cap + k - 1 active runs. */
  lemma RaceExceedsCap(cap: int, k: nat) returns (steps: seq<Step>)
    requires cap > 0 && k >= 1
    ensures Overlap(cap, steps, k) && Run(cap, steps).active == cap + k - 1
  {
    steps := Fill(cap, k, cap - 1);
    steps := AllEnter(cap, steps, cap - 1, k);
    steps := AllPass(cap, steps, k);
    steps := AllCount(cap, steps, k, cap - 1);
  }

  /** So the cap is kept in all runs of a given overlap if and only if no two `Start` calls overlap. */
  lemma CapExactIffAlone(cap: int, k: nat)
    requires cap > 0 && k >= 1
    ensures (forall steps | Overlap(cap, steps, k) :: Run(cap, steps).active <= cap) <==> k == 1
  {
    if k == 1 {
      forall steps | Overlap(cap, steps, k) ensures Run(cap, steps).active <= cap {
        CapHolds(cap, steps, k);
      }
    } else {
      var steps := RaceExceedsCap(cap, k);
      assert Overlap(cap, steps, k) && Run(cap, steps).active > cap;
    }
  }

  // The runs the runner would list as running.
  function ListedRunning(s: State): set<nat> {
    set id | id in s.table && id in s.tasks && s.tasks[id].status == Running
  }

  /** Runs listed as running never outnumber the active count. */
  lemma RunningWithinActive(cap: int, steps: seq<Step>)
    ensures |ListedRunning(Run(cap, steps))| <= Run(cap, steps).active
  {
    Reachable(cap, steps);
    var s := Run(cap, steps);
    forall id | id in ListedRunning(s) ensures id in Holding(s) {
      assert TaskOk(s.tasks[id]);
    }
    SubsetSize(ListedRunning(s), Holding(s));
  }

  // ---------------------------------------------------------------- the lifecycle

  // How one run may change in one step.
  predicate Evolves(a: Task, b: Task, step: Step, id: nat) {
    && (a.status != Running ==> b.status == a.status && b.exitCode == a.exitCode && b.finishedAt == a.finishedAt)
    && (a.status == Running && b.status != Running ==> step.Finish? && step.id == id && b == Ended(a, step.outcome, step.now))
    && a.closes <= b.closes <= 1
  }

  lemma StepEvolves(s: State, step: Step, id: nat)
    requires Inv(s) && id in s.tasks
    ensures id in Do(s, step).tasks && Evolves(s.tasks[id], Do(s, step).tasks[id], step, id)
  {
    assert TaskOk(s.tasks[id]);
    if step.Insert? && Enabled(s, step) {
      assert TaskOk(s.tasks[s.starting[step.call].id]);
    }
  }

  /** Once a run has left `running` its status, exit code and finish time never change again. */
  lemma {:induction false} StatusIsFinal(cap: int, steps: seq<Step>, more: seq<Step>, id: nat)
    requires id in Run(cap, steps).tasks
    ensures
      var t, u := Run(cap, steps), Run(cap, steps + more);
      && id in u.tasks
      && (t.tasks[id].status != Running ==> u.tasks[id].status == t.tasks[id].status
                                            && u.tasks[id].exitCode == t.tasks[id].exitCode
                                            && u.tasks[id].finishedAt == t.tasks[id].finishedAt)
  {
    if more == [] {
      assert steps + more == steps;
    } else {
      StatusIsFinal(cap, steps, ButLast(more), id);
      Reachable(cap, steps + ButLast(more));
      assert steps + more == (steps + ButLast(more)) + [Last(more)];
      SnocParts(steps + ButLast(more), Last(more));
      StepEvolves(Run(cap, steps + ButLast(more)), Last(more), id);
    }
  }

  // Whether some step of the run is a `Stop` marking this run.
  predicate Marked(cap: int, steps: seq<Step>, id: nat) {
    steps != [] &&
    (Marked(cap, ButLast(steps), id)
     || (var s := Run(cap, ButLast(steps)); var step := Last(steps);
         step.MarkKilled? && Enabled(s, step) && s.stopping[step.call] == id))
  }

  // The steps before the one that finished the run; all of them if none did.
  function BeforeFinish(cap: int, steps: seq<Step>, id: nat): seq<Step> {
    if steps == [] then []
    else
      var s, step := Run(cap, ButLast(steps)), Last(steps);
      if step.Finish? && step.id == id && Enabled(s, step) then ButLast(steps)
      else if id in s.tasks && s.tasks[id].status != Running then BeforeFinish(cap, ButLast(steps), id)
      else steps
  }

  lemma FlagStep(s: State, step: Step, id: nat)
    requires StoppingOk(s)
    ensures
      var t := Do(s, step);
      var marks := step.MarkKilled? && Enabled(s, step) && s.stopping[step.call] == id;
      && (id in s.tasks ==> id in t.tasks && (t.tasks[id].killed <==> s.tasks[id].killed || marks))
      && (id !in s.tasks ==> !marks && (id in t.tasks ==> !t.tasks[id].killed))
  {
  }

  lemma {:induction false} FlagIsMarked(cap: int, steps: seq<Step>, id: nat)
    ensures id in Run(cap, steps).tasks ==> (Run(cap, steps).tasks[id].killed <==> Marked(cap, steps, id))
    ensures id !in Run(cap, steps).tasks ==> !Marked(cap, steps, id)
  {
    if steps != [] {
      FlagIsMarked(cap, ButLast(steps), id);
      Reachable(cap, ButLast(steps));
      FlagStep(Run(cap, ButLast(steps)), Last(steps), id);
    }
  }

  /** A run ends up killed exactly when `Stop` marked it before it finished, whatever the process's own exit was. */
  lemma {:induction false} KilledIffStoppedFirst(cap: int, steps: seq<Step>, id: nat)
    requires id in Run(cap, steps).tasks && Run(cap, steps).tasks[id].status != Running
    ensures Run(cap, steps).tasks[id].status == Killed <==> Marked(cap, BeforeFinish(cap, steps, id), id)
  {
    var before := ButLast(steps);
    var s, step := Run(cap, before), Last(steps);
    Reachable(cap, before);
    Reachable(cap, steps);
    if step.Finish? && step.id == id && Enabled(s, step) {
      FlagIsMarked(cap, before, id);
    } else {
      assert TaskOk(Run(cap, steps).tasks[id]);
      if id in s.tasks {
        StepEvolves(s, step, id);
        KilledIffStoppedFirst(cap, before, id);
      }
    }
  }

  // What a run says of itself once it is over: killed if it was stopped in time, else what became of its process.
  predicate Reports(t: Task, stopped: bool, outcome: Outcome, now: nat) {
    && t.finishedAt == now
    && if stopped then t.status == Killed && t.exitCode == 0
       else match outcome
            case Clean => t.status == Exited && t.exitCode == 0
            case ExitCode(code) => t.status == Exited && t.exitCode == code
            case OtherError => t.status == Failed && t.exitCode == 0
  }

  lemma CodeStep(s: State, step: Step, id: nat)
    requires TasksOk(s) && StartingOk(s) && id in Do(s, step).tasks && Do(s, step).tasks[id].status == Running
    requires id in s.tasks && s.tasks[id].status == Running ==> s.tasks[id].exitCode == 0
    ensures Do(s, step).tasks[id].exitCode == 0
  {
    if id in s.tasks {
      assert TaskOk(s.tasks[id]);
    }
  }

  lemma {:induction false} NoCodeWhileRunning(cap: int, steps: seq<Step>, id: nat)
    requires id in Run(cap, steps).tasks && Run(cap, steps).tasks[id].status == Running
    ensures Run(cap, steps).tasks[id].exitCode == 0
  {
    if steps != [] {
      var s := Run(cap, ButLast(steps));
      Reachable(cap, ButLast(steps));
      if id in s.tasks && s.tasks[id].status == Running {
        NoCodeWhileRunning(cap, ButLast(steps), id);
      }
      CodeStep(s, Last(steps), id);
    }
  }

  /** What a finish records then and for ever: the time, and killed for a run marked before, else the code the process exited
      with, or failed if there was none. */
  lemma FinishReports(cap: int, before: seq<Step>, id: nat, outcome: Outcome, now: nat, more: seq<Step>)
    requires Enabled(Run(cap, before), Finish(id, outcome, now))
    ensures var u := Run(cap, before + [Finish(id, outcome, now)] + more);
            id in u.tasks && Reports(u.tasks[id], Marked(cap, before, id), outcome, now)
  {
    var step := Finish(id, outcome, now);
    Reachable(cap, before);
    assert TaskOk(Run(cap, before).tasks[id]);
    NoCodeWhileRunning(cap, before, id);
    FlagIsMarked(cap, before, id);
    SnocParts(before, step);
    StatusIsFinal(cap, before + [step], more, id);
  }

  // The run was finished at this step, with this outcome and at this time.
  predicate FinishedBy(cap: int, steps: seq<Step>, n: nat, id: nat, outcome: Outcome, now: nat) {
    n < |steps| && steps[n] == Finish(id, outcome, now) && Enabled(Run(cap, steps[..n]), steps[n])
  }

  lemma FinishedEarlier(cap: int, before: seq<Step>, step: Step, n: nat, id: nat, outcome: Outcome, now: nat)
    requires FinishedBy(cap, before, n, id, outcome, now)
    ensures FinishedBy(cap, before + [step], n, id, outcome, now)
  {
    assert (before + [step])[..n] == before[..n];
  }

  // A run that is over was finished by some step.
  lemma {:induction false} SomeFinish(cap: int, steps: seq<Step>, id: nat) returns (n: nat, outcome: Outcome, now: nat)
    requires id in Run(cap, steps).tasks && Run(cap, steps).tasks[id].status != Running
    ensures FinishedBy(cap, steps, n, id, outcome, now)
  {
    var before, step := ButLast(steps), Last(steps);
    var s := Run(cap, before);
    Reachable(cap, before);
    assert steps == before + [step];
    if id in s.tasks && s.tasks[id].status != Running {
      n, outcome, now := SomeFinish(cap, before, id);
      FinishedEarlier(cap, before, step, n, id, outcome, now);
    } else {
      assert id in s.tasks ==> TaskOk(s.tasks[id]);
      if id in s.tasks {
        StepEvolves(s, step, id);
      }
      n, outcome, now := |before|, step.outcome, step.now;
      assert steps[..n] == before;
    }
  }

  /** Every run that is over got its report from the step that finished it; so it failed only if it was not stopped in time and
      its process came back with neither success nor an exit code. */
  lemma OverByFinish(cap: int, steps: seq<Step>, id: nat) returns (n: nat, outcome: Outcome, now: nat)
    requires id in Run(cap, steps).tasks && Run(cap, steps).tasks[id].status != Running
    ensures FinishedBy(cap, steps, n, id, outcome, now)
    ensures Reports(Run(cap, steps).tasks[id], Marked(cap, steps[..n], id), outcome, now)
    ensures Run(cap, steps).tasks[id].status == Failed <==> outcome == OtherError && !Marked(cap, steps[..n], id)
  {
    n, outcome, now := SomeFinish(cap, steps, id);
    assert steps == steps[..n] + [steps[n]] + steps[n + 1..];
    FinishReports(cap, steps[..n], id, outcome, now, steps[n + 1..]);
  }

  /** The done channel is closed once and only after the run finished; when the slot is released it has been closed. */
  lemma DoneClosesOnce(cap: int, steps: seq<Step>, id: nat)
    requires id in Run(cap, steps).tasks
    ensures
      var t := Run(cap, steps).tasks[id];
      t.closes <= 1 && (t.closes == 1 ==> t.status != Running) && (t.stage == Released ==> t.closes == 1)
  {
    Reachable(cap, steps);
    assert TaskOk(Run(cap, steps).tasks[id]);
  }

  /** Only the reaper takes a run out of the map, and only one that finished more than the time-to-live ago. */
  lemma ReapsOnlyFinished(cap: int, steps: seq<Step>, step: Step, id: nat)
    requires id in Run(cap, steps).table && id !in Do(Run(cap, steps), step).table
    ensures
      var s := Run(cap, steps);
      && id in s.tasks && s.tasks[id].status != Running && step.Reap? && step.id == id
      && step.now - s.tasks[id].finishedAt > TTL_SECONDS
  {
    Reachable(cap, steps);
    assert TaskOk(Run(cap, steps).tasks[id]);
  }

  /** The reaper takes out exactly the runs that finished more than the time-to-live before its clock reading. */
  lemma ReapsExpired(cap: int, steps: seq<Step>, id: nat, now: nat)
    requires id in Run(cap, steps).table
    ensures
      var s := Run(cap, steps);
      id in s.tasks && (id !in Do(s, Reap(id, now)).table <==> s.tasks[id].status != Running && now - s.tasks[id].finishedAt > 600)
  {
    Reachable(cap, steps);
    assert TaskOk(Run(cap, steps).tasks[id]);
  }

  /** So a launched run that has not finished can always be found. */
  lemma UnfinishedIsListed(cap: int, steps: seq<Step>, id: nat)
    requires id in Run(cap, steps).tasks && Run(cap, steps).tasks[id].status == Running
    ensures id in Run(cap, steps).table || Run(cap, steps).tasks[id].stage == Created
  {
    Reachable(cap, steps);
    assert TaskOk(Run(cap, steps).tasks[id]);
  }

  // ---------------------------------------------------------------- the runner object

  class Runner {
    const cap: int
    var active: int
    var tasks: map<nat, Task>
    var table: set<nat>
    ghost var starting: map<nat, Phase>
    ghost var stopping: map<nat, nat>

    ghost function Abs(): State
      reads this
    {
      State(cap, active, tasks, table, starting, stopping)
    }

    constructor (cap: int)
      ensures Abs() == Initial(cap)
    {
      this.cap := cap;
      active, tasks, table, starting, stopping := 0, map[], {}, map[], map[];
    }

    // The cap check alone.
    method CheckCap(ghost call: nat) returns (ok: bool)
      requires Enabled(Abs(), Check(call))
      modifies this`starting
      ensures Abs() == Do(old(Abs()), Check(call))
      ensures ok <==> cap <= 0 || active < cap
    {
      if cap > 0 && active >= cap {
        starting := starting - {call};
        return false;
      }
      starting := starting[call := Passed];
      return true;
    }

    // The new run takes a slot.
    method TakeSlot(ghost call: nat, id: nat)
      requires Enabled(Abs(), Count(call, id))
      modifies this
      ensures Abs() == Do(old(Abs()), Count(call, id))
    {
      tasks := tasks[id := NewTask];
      active := active + 1;
      starting := starting[call := Counted(id)];
    }

    // The new run is put in the map and its goroutines launched.
    method Launch(ghost call: nat, id: nat)
      requires Enabled(Abs(), Insert(call)) && starting[call].id == id
      modifies this
      ensures Abs() == Do(old(Abs()), Insert(call))
    {
      table := table + {id};
      tasks := tasks[id := tasks[id].(stage := Waiting)];
      starting := starting - {call};
    }

    // The run found earlier is marked, whether or not it is still in the map.
    method SetKilled(ghost call: nat, id: nat)
      requires Enabled(Abs(), MarkKilled(call)) && stopping[call] == id
      modifies this
      ensures Abs() == Do(old(Abs()), MarkKilled(call))
    {
      tasks := tasks[id := tasks[id].(killed := true)];
      stopping := stopping - {call};
    }

    /** `Start`, with no other call between its steps; `spawns` says whether the process could be started. The cap is then
        exact, a refused start changes nothing, and an accepted run can be found, is running and holds a slot. */
    method Start(ghost call: nat, argv: seq<string>, spawns: bool, id: nat) returns (ok: bool)
      requires Inv(Abs()) && call !in starting && id !in tasks
      modifies this
      ensures Inv(Abs()) && starting == old(starting) && stopping == old(stopping)
      ensures ok <==> argv != [] && (cap <= 0 || old(active) < cap) && spawns
      ensures ok ==> active == old(active) + 1 && (cap > 0 ==> active <= cap)
      ensures ok ==> table == old(table) + {id} && tasks == old(tasks)[id := NewTask.(stage := Waiting)]
      ensures !ok ==> active == old(active) && table == old(table) && tasks == old(tasks)
    {
      if |argv| == 0 {
        return false;
      }
      ghost var s := Abs();
      starting := starting[call := Entered];
      ok := CheckCap(call);
      if !ok {
        assert starting == s.starting;
        return;
      }
      if !spawns {
        starting := starting - {call};
        assert starting == s.starting;
        return false;
      }
      StartStep(s, call, id, 1);
      StartStep(s, call, id, 2);
      StartStep(s, call, id, 3);
      StartSound(s, call, id, 4);
      TakeSlot(call, id);
      Launch(call, id);
    }

    /** `Stop`, with no other step between: fails exactly for a run that cannot be found; otherwise that run alone is
        marked, and if it has still to finish it will have been killed, whatever its process says. */
    method Stop(ghost call: nat, id: nat) returns (ok: bool)
      requires Inv(Abs()) && call !in stopping
      modifies this
      ensures Inv(Abs()) && starting == old(starting) && stopping == old(stopping)
      ensures active == old(active) && table == old(table) && ok == (id in table)
      ensures tasks == if ok then old(tasks)[id := old(tasks)[id].(killed := true)] else old(tasks)
      ensures ok ==> forall outcome, now :: Ended(tasks[id], outcome, now).status == Killed
    {
      ok := id in table;
      if ok {
        ghost var s0 := Abs();
        stopping := stopping[call := id];
        StepKeepsInv(s0, FindToStop(call, id));
        ghost var s1 := Abs();
        assert s1.stopping - {call} == s0.stopping;
        SetKilled(call, id);
        StepKeepsInv(s1, MarkKilled(call));
      }
    }

    /** The critical section of `finish`: the run alone changes, and says what became of it. */
    method FinishLocked(id: nat, outcome: Outcome, now: nat)
      requires Enabled(Abs(), Finish(id, outcome, now))
      modifies this`tasks
      ensures Abs() == Do(old(Abs()), Finish(id, outcome, now))
      ensures id in tasks && tasks == old(tasks)[id := tasks[id]]
      ensures old(tasks)[id].exitCode == 0 ==> Reports(tasks[id], old(tasks)[id].killed, outcome, now)
    {
      var t := tasks[id].(finishedAt := now, stage := Finished);
      if t.killed {
        t := t.(status := Killed);
      } else {
        match outcome
        case Clean => t := t.(status := Exited, exitCode := 0);
        case ExitCode(code) => t := t.(status := Exited, exitCode := code);
        case OtherError => t := t.(status := Failed);
      }
      tasks := tasks[id := t];
    }

    /** One tick of the reaper: the map keeps exactly the runs that are not expired, and every unfinished one. */
    method ReapTick(now: nat)
      requires Inv(Abs())
      modifies this`table
      ensures table == set id | id in old(table) && !Expired(tasks[id], now)
      ensures forall id | id in old(table) ::
                id in tasks && (id in table <==> tasks[id].status == Running || now - tasks[id].finishedAt <= 600)
      ensures Inv(Abs())
    {
      var todo := table;
      while todo != {}
        invariant todo <= old(table) && table <= old(table) && Inv(Abs())
        invariant forall id | id in old(table) :: id in table <==> id in todo || !Expired(tasks[id], now)
      {
        assert exists id :: id in todo by { var id := Member(todo); }
        var id :| id in todo;
        todo := todo - {id};
        ghost var before := Abs();
        if Expired(tasks[id], now) {
          table := table - {id};
        }
        StepKeepsInv(before, Reap(id, now));
      }
      assert forall id | id in old(table) :: id in tasks && TaskOk(tasks[id]);
    }
  }
}
