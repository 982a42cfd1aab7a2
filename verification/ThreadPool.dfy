/**
 The worker pool every robot file request goes through: lazily created worker
 threads, one mutex, one condition variable, an atomic idle counter and
 cancellation per owner.

 One `Step` is one lock region, one atomic counter update, or one wake-up, so a
 sequence of steps is an interleaving of the threads. `MyThreadPool` at the end
 performs the same steps on fields updated in place.
 */
module ThreadPool {
  import opened Seqs

  /** `id` is the position in submission order; it tells apart two equal closures. */
  datatype Task = Task(id: nat, owner: nat)

  datatype Worker =
    | Claiming               // about to lock and look for work (also: notified in the wait)
    | Asleep                 // blocked in the condition wait, not notified
    | Taken(task: Task)      // popped a task and unlocked; still counted as idle
    | Running(task: Task)    // between the decrement and the increment: the callback runs

  /** One invocation of a task's callback, with the flag it was given. */
  datatype Call = Call(task: Task, cancelled: bool)

  datatype Pool = Pool(max: nat, idle: int, tasks: seq<Task>, workers: seq<Worker>,
                       submitted: seq<Task>, taken: seq<Task>, calls: seq<Call>)

  datatype Scope = Everyone | Owner(owner: nat)

  datatype Step =
    | Submit(owner: nat, wake: nat)   // `wake`: the sleeper that notify_one picks
    | Acquire(w: nat)                 // worker locks: sleeps, or pops the head
    | Begin(w: nat)                   // --idle and callback(false)
    | End(w: nat)                     // callback returned, ++idle
    | Spurious(w: nat)                // the wait returns without a notification
    | Clear(scope: Scope)             // callback(true) on the selected pending tasks

  // ---------------------------------------------------------------- behaviour

  function Selected(scope: Scope): Task -> bool {
    (t: Task) => scope.Everyone? || t.owner == scope.owner
  }

  function Unselected(scope: Scope): Task -> bool {
    (t: Task) => !(scope.Everyone? || t.owner == scope.owner)
  }

  function CallAll(ts: seq<Task>, cancelled: bool): (r: seq<Call>) {
    if ts == [] then [] else [Call(ts[0], cancelled)] + CallAll(ts[1..], cancelled)
  }

  predicate SomeAsleep(ws: seq<Worker>) {
    exists w :: 0 <= w < |ws| && ws[w].Asleep?
  }

  function Notify(ws: seq<Worker>, wake: nat): seq<Worker> {
    if wake < |ws| && ws[wake].Asleep? then ws[wake := Claiming] else ws
  }

  function Grow(p: Pool): Pool {
    if p.idle == 0 && |p.workers| < p.max
    then p.(workers := p.workers + [Claiming], idle := p.idle + 1)
    else p
  }

  function Init(max: nat): Pool {
    Pool(max, 1, [], [Claiming], [], [], [])
  }

  predicate Enabled(p: Pool, s: Step) {
    match s
    case Submit(_, wake) => SomeAsleep(p.workers) ==> wake < |p.workers| && p.workers[wake].Asleep?
    case Acquire(w) => w < |p.workers| && p.workers[w].Claiming?
    case Begin(w) => w < |p.workers| && p.workers[w].Taken?
    case End(w) => w < |p.workers| && p.workers[w].Running?
    case Spurious(w) => w < |p.workers| && p.workers[w].Asleep?
    case Clear(_) => true
  }

  function Apply(p: Pool, s: Step): Pool
    requires Enabled(p, s)
  {
    match s
    case Submit(owner, wake) =>
      var t := Task(|p.submitted|, owner);
      var q := Grow(p.(tasks := p.tasks + [t], submitted := p.submitted + [t]));
      q.(workers := Notify(q.workers, wake))
    case Acquire(w) =>
      if p.tasks == [] then p.(workers := p.workers[w := Asleep])
      else p.(workers := p.workers[w := Taken(p.tasks[0])],
              tasks := p.tasks[1..], taken := p.taken + [p.tasks[0]])
    case Begin(w) =>
      var t := p.workers[w].task;
      p.(workers := p.workers[w := Running(t)], idle := p.idle - 1,
         calls := p.calls + [Call(t, false)])
    case End(w) => p.(workers := p.workers[w := Claiming], idle := p.idle + 1)
    case Spurious(w) => p.(workers := p.workers[w := Claiming])
    case Clear(scope) =>
      p.(tasks := Filter(p.tasks, Unselected(scope)),
         calls := p.calls + CallAll(Filter(p.tasks, Selected(scope)), true))
  }

  /** `steps` can be taken one after the other from `p`. */
  predicate Legal(p: Pool, steps: seq<Step>)
    decreases |steps|
  {
    steps == [] || (Enabled(p, steps[0]) && Legal(Apply(p, steps[0]), steps[1..]))
  }

  function Exec(p: Pool, steps: seq<Step>): Pool
    requires Legal(p, steps)
    decreases |steps|
  {
    if steps == [] then p else Exec(Apply(p, steps[0]), steps[1..])
  }

  // ------------------------------------------------------- counting the workers

  function IsAsleep(w: Worker): nat { if w.Asleep? then 1 else 0 }
  function IsClaiming(w: Worker): nat { if w.Claiming? then 1 else 0 }
  function IsRunning(w: Worker): nat { if w.Running? then 1 else 0 }

  function Count(ws: seq<Worker>, f: Worker -> nat): nat {
    if ws == [] then 0 else f(ws[0]) + Count(ws[1..], f)
  }

  lemma {:induction false} CountUpdate(ws: seq<Worker>, f: Worker -> nat, i: nat, w: Worker)
    requires i < |ws|
    ensures Count(ws[i := w], f) + f(ws[i]) == Count(ws, f) + f(w)
  {
    if i == 0 {
      assert ws[0 := w][1..] == ws[1..];
    } else {
      CountUpdate(ws[1..], f, i - 1, w);
      assert ws[i := w][1..] == ws[1..][i - 1 := w];
    }
  }

  lemma {:induction false} CountAppend(ws: seq<Worker>, f: Worker -> nat, w: Worker)
    ensures Count(ws + [w], f) == Count(ws, f) + f(w)
  {
    if ws == [] {
      assert ws + [w] == [w];
    } else {
      CountAppend(ws[1..], f, w);
      assert (ws + [w])[1..] == ws[1..] + [w];
    }
  }

  lemma {:induction false} CountBound(ws: seq<Worker>, f: Worker -> nat)
    requires forall w :: f(w) <= 1
    ensures Count(ws, f) <= |ws|
    ensures Count(ws, f) == |ws| <==> forall i :: 0 <= i < |ws| ==> f(ws[i]) == 1
    ensures Count(ws, f) > 0 <==> exists i :: 0 <= i < |ws| && f(ws[i]) == 1
  {
    if ws != [] {
      CountBound(ws[1..], f);
      assert forall i :: 0 <= i < |ws| - 1 ==> ws[1..][i] == ws[i + 1];
      assert forall i :: 1 <= i < |ws| ==> ws[i] == ws[1..][i - 1];
      if i :| 0 <= i < |ws| && f(ws[i]) == 1 {
        assert i == 0 || ws[i] == ws[1..][i - 1];
      }
      if f(ws[0]) == 1 {
      } else if Count(ws[1..], f) > 0 {
        var i :| 0 <= i < |ws[1..]| && f(ws[1..][i]) == 1;
        assert ws[i + 1] == ws[1..][i];
      }
    }
  }

  lemma {:induction false} CountTwice(ws: seq<Worker>, f: Worker -> nat, i: nat, j: nat)
    requires i < j < |ws| && f(ws[i]) > 0 && f(ws[j]) > 0
    ensures Count(ws, f) >= 2
  {
    if i == 0 {
      CountAtLeast(ws[1..], f, j - 1);
    } else {
      CountTwice(ws[1..], f, i - 1, j - 1);
    }
  }

  lemma {:induction false} CountAtLeast(ws: seq<Worker>, f: Worker -> nat, i: nat)
    requires i < |ws|
    ensures Count(ws, f) >= f(ws[i])
  {
    if i > 0 {
      CountAtLeast(ws[1..], f, i - 1);
    }
  }

  function TakenOf(t: Task): Worker -> nat {
    (w: Worker) => if w == Taken(t) then 1 else 0
  }

  function RunningOf(t: Task): Worker -> nat {
    (w: Worker) => if w == Running(t) then 1 else 0
  }

  // ------------------------------------------------------------ callback history

  /** The tasks whose callback was invoked, in order of invocation. */
  function Called(calls: seq<Call>, cancelled: bool): seq<Task> {
    if calls == [] then []
    else if calls[0].cancelled == cancelled then [calls[0].task] + Called(calls[1..], cancelled)
    else Called(calls[1..], cancelled)
  }

  lemma {:induction false} CalledConcat(a: seq<Call>, b: seq<Call>, cancelled: bool)
    ensures Called(a + b, cancelled) == Called(a, cancelled) + Called(b, cancelled)
  {
    if a == [] {
      assert a + b == b;
    } else {
      CalledConcat(a[1..], b, cancelled);
      assert (a + b)[0] == a[0] && (a + b)[1..] == a[1..] + b;
      Assoc([a[0].task], Called(a[1..], cancelled), Called(b, cancelled));
    }
  }

  lemma {:induction false} CalledAll(ts: seq<Task>, cancelled: bool)
    ensures Called(CallAll(ts, cancelled), cancelled) == ts
    ensures Called(CallAll(ts, cancelled), !cancelled) == []
  {
    if ts != [] {
      CalledAll(ts[1..], cancelled);
      assert CallAll(ts, cancelled)[1..] == CallAll(ts[1..], cancelled);
    }
  }

  // ------------------------------------------------------------------ invariants

  /** How many places hold `t`: the queue, a worker that popped it, an invocation of it. */
  ghost function Places(p: Pool, t: Task): nat {
    multiset(p.tasks)[t] + Count(p.workers, TakenOf(t))
    + multiset(Called(p.calls, false))[t] + multiset(Called(p.calls, true))[t]
  }

  /** The idle counter is the thread count minus the workers inside a callback. */
  ghost predicate Accounted(p: Pool) {
    && p.idle == |p.workers| - Count(p.workers, IsRunning)
    && 1 <= |p.workers| <= (if p.max == 0 then 1 else p.max)
  }

  /** While any worker sleeps, at least as many awake claimants as tasks are waiting. */
  ghost predicate WorkConserving(p: Pool) {
    Count(p.workers, IsAsleep) > 0 ==> |p.tasks| <= Count(p.workers, IsClaiming)
  }

  ghost predicate Numbered(p: Pool) {
    forall i :: 0 <= i < |p.submitted| ==> p.submitted[i].id == i
  }

  /** Submitted tasks are never lost or duplicated, and running ones were called once. */
  ghost predicate Conserved(p: Pool) {
    && (forall t :: Places(p, t) == multiset(p.submitted)[t])
    && (forall t :: Count(p.workers, RunningOf(t)) <= multiset(Called(p.calls, false))[t])
  }

  function NotIn(gone: set<Task>): Task -> bool {
    (t: Task) => t !in gone
  }

  ghost function Cancelled(p: Pool): set<Task> {
    set t | t in Called(p.calls, true)
  }

  /** Dequeue history, then queue: the submissions in order, minus the cancelled ones. */
  ghost predicate InOrder(p: Pool) {
    p.taken + p.tasks == Filter(p.submitted, NotIn(Cancelled(p)))
  }

  ghost predicate Inv(p: Pool) {
    Accounted(p) && WorkConserving(p) && Numbered(p) && Conserved(p) && InOrder(p)
  }

  // -------------------------------------------------------- each step keeps them

  lemma AccountedStep(p: Pool, s: Step)
    requires Accounted(p) && Enabled(p, s)
    ensures Accounted(Apply(p, s))
  {
    match s
    case Submit(_, wake) =>
      CountAppend(p.workers, IsRunning, Claiming);
      var ws := Grow(p.(tasks := Apply(p, s).tasks)).workers;
      if wake < |ws| { CountUpdate(ws, IsRunning, wake, Claiming); }
    case Acquire(w) =>
      CountUpdate(p.workers, IsRunning, w, Apply(p, s).workers[w]);
    case Begin(w) =>
      CountUpdate(p.workers, IsRunning, w, Apply(p, s).workers[w]);
    case End(w) => CountUpdate(p.workers, IsRunning, w, Claiming);
    case Spurious(w) => CountUpdate(p.workers, IsRunning, w, Claiming);
    case Clear(_) =>
  }

  lemma FilterShrinks(ts: seq<Task>, keep: Task -> bool)
    ensures |Filter(ts, keep)| <= |ts|
  {
  }

  lemma WorkConservingSubmit(p: Pool, owner: nat, wake: nat)
    requires WorkConserving(p) && Enabled(p, Submit(owner, wake))
    ensures WorkConserving(Apply(p, Submit(owner, wake)))
  {
    var q := Grow(p.(tasks := p.tasks + [Task(|p.submitted|, owner)]));
    CountAppend(p.workers, IsAsleep, Claiming);
    CountAppend(p.workers, IsClaiming, Claiming);
    CountBound(p.workers, IsAsleep);
    if wake < |q.workers| && q.workers[wake].Asleep? {
      CountUpdate(q.workers, IsAsleep, wake, Claiming);
      CountUpdate(q.workers, IsClaiming, wake, Claiming);
    }
  }

  lemma WorkConservingStep(p: Pool, s: Step)
    requires WorkConserving(p) && Enabled(p, s)
    ensures WorkConserving(Apply(p, s))
  {
    match s
    case Submit(owner, wake) => WorkConservingSubmit(p, owner, wake);
    case Clear(scope) => FilterShrinks(p.tasks, Unselected(scope));
    case _ =>
      var q := Apply(p, s);
      CountUpdate(p.workers, IsAsleep, s.w, q.workers[s.w]);
      CountUpdate(p.workers, IsClaiming, s.w, q.workers[s.w]);
  }

  /** `start` changes the workers only by adding or waking claimants. */
  lemma SubmitCount(p: Pool, owner: nat, wake: nat, f: Worker -> nat)
    requires Enabled(p, Submit(owner, wake)) && f(Claiming) == f(Asleep) == 0
    ensures Count(Apply(p, Submit(owner, wake)).workers, f) == Count(p.workers, f)
  {
    var ws := Grow(p).workers;
    CountAppend(p.workers, f, Claiming);
    if wake < |ws| && ws[wake].Asleep? {
      CountUpdate(ws, f, wake, Claiming);
    }
  }

  lemma ConservedSubmit(p: Pool, owner: nat, wake: nat)
    requires Conserved(p) && Enabled(p, Submit(owner, wake))
    ensures Conserved(Apply(p, Submit(owner, wake)))
  {
    var q := Apply(p, Submit(owner, wake));
    forall t
      ensures Places(q, t) == multiset(q.submitted)[t]
      ensures Count(q.workers, RunningOf(t)) <= multiset(Called(q.calls, false))[t]
    {
      SubmitCount(p, owner, wake, TakenOf(t));
      SubmitCount(p, owner, wake, RunningOf(t));
      assert Places(p, t) == multiset(p.submitted)[t];
    }
  }

  lemma ConservedClear(p: Pool, scope: Scope)
    requires Conserved(p)
    ensures Conserved(Apply(p, Clear(scope)))
  {
    var q := Apply(p, Clear(scope));
    var gone := Filter(p.tasks, Selected(scope));
    FilterSplits(p.tasks, Selected(scope), Unselected(scope));
    CalledAll(gone, true);
    CalledConcat(p.calls, CallAll(gone, true), true);
    CalledConcat(p.calls, CallAll(gone, true), false);
    forall t
      ensures Places(q, t) == multiset(q.submitted)[t]
    {
      assert Places(p, t) == multiset(p.submitted)[t];
    }
  }

  /** A step of one worker that keeps the sum of its task's places keeps them all. */
  lemma ConservedWorker(p: Pool, s: Step)
    requires Conserved(p) && Enabled(p, s) && !s.Submit? && !s.Clear?
    ensures Conserved(Apply(p, s))
  {
    var q := Apply(p, s);
    if s.Begin? {
      var call := Call(p.workers[s.w].task, false);
      CalledConcat(p.calls, [call], true);
      CalledConcat(p.calls, [call], false);
      assert Called([call], true) == [] && Called([call], false) == [call.task];
    }
    forall t
      ensures Places(q, t) == multiset(q.submitted)[t]
      ensures Count(q.workers, RunningOf(t)) <= multiset(Called(q.calls, false))[t]
    {
      PlacesStep(p, s, t);
      assert Places(p, t) == multiset(p.submitted)[t];
    }
  }

  lemma PlacesStep(p: Pool, s: Step, t: Task)
    requires Enabled(p, s) && !s.Submit? && !s.Clear?
    requires s.Begin? ==>
      var task := p.workers[s.w].task;
      var calls := Apply(p, s).calls;
      Called(calls, false) == Called(p.calls, false) + [task] && Called(calls, true) == Called(p.calls, true)
    requires Count(p.workers, RunningOf(t)) <= multiset(Called(p.calls, false))[t]
    ensures var q := Apply(p, s);
      Places(q, t) == Places(p, t)
      && Count(q.workers, RunningOf(t)) <= multiset(Called(q.calls, false))[t]
  {
    if s.Acquire? {
      PlacesAcquire(p, s.w, t);
    } else {
      var q := Apply(p, s);
      CountUpdate(p.workers, TakenOf(t), s.w, q.workers[s.w]);
      CountUpdate(p.workers, RunningOf(t), s.w, q.workers[s.w]);
    }
  }

  lemma PlacesAcquire(p: Pool, w: nat, t: Task)
    requires Enabled(p, Acquire(w))
    ensures var q := Apply(p, Acquire(w));
      Places(q, t) == Places(p, t) && Count(q.workers, RunningOf(t)) == Count(p.workers, RunningOf(t))
  {
    var q := Apply(p, Acquire(w));
    CountUpdate(p.workers, TakenOf(t), w, q.workers[w]);
    CountUpdate(p.workers, RunningOf(t), w, q.workers[w]);
    if p.tasks != [] {
      assert p.tasks == [p.tasks[0]] + q.tasks;
    }
  }

  lemma FreshNotCancelled(p: Pool, t: Task)
    requires Numbered(p) && Conserved(p) && t.id == |p.submitted|
    ensures t !in Cancelled(p)
  {
    assert Places(p, t) == multiset(p.submitted)[t];
    assert t !in p.submitted;
    assert multiset(Called(p.calls, true))[t] == 0;
  }

  lemma InOrderSubmit(p: Pool, owner: nat, wake: nat)
    requires Numbered(p) && Conserved(p) && InOrder(p) && Enabled(p, Submit(owner, wake))
    ensures InOrder(Apply(p, Submit(owner, wake)))
  {
    var t := Task(|p.submitted|, owner);
    var q := Apply(p, Submit(owner, wake));
    assert Filter(p.submitted + [t], NotIn(Cancelled(p))) == Filter(p.submitted, NotIn(Cancelled(p))) + [t] by {
      FreshNotCancelled(p, t);
      FilterThen(p.submitted, t, NotIn(Cancelled(p)));
    }
    assert q.calls == p.calls && q.submitted == p.submitted + [t];
    Assoc(p.taken, p.tasks, [t]);
  }

  lemma FilterThen(ts: seq<Task>, t: Task, keep: Task -> bool)
    requires keep(t)
    ensures Filter(ts + [t], keep) == Filter(ts, keep) + [t]
  {
    FilterConcat(ts, [t], keep);
    assert [t][1..] == [] && Filter([t], keep) == [t];
  }

  /** A task that was ever dequeued is not still waiting. */
  lemma TakenNotPending(p: Pool, t: Task)
    requires Numbered(p) && InOrder(p) && t in p.taken
    ensures t !in p.tasks
  {
    var both := p.taken + p.tasks;
    var i :| 0 <= i < |p.taken| && p.taken[i] == t;
    FilterIncreasing(p.submitted, NotIn(Cancelled(p)));
    forall k | 0 <= k < |p.tasks|
      ensures p.tasks[k] != t
    {
      assert both[i].id < both[|p.taken| + k].id;
    }
  }

  lemma {:induction false} FilterIncreasing(s: seq<Task>, keep: Task -> bool)
    requires forall i, j :: 0 <= i < j < |s| ==> s[i].id < s[j].id
    ensures forall i, j :: 0 <= i < j < |Filter(s, keep)| ==> Filter(s, keep)[i].id < Filter(s, keep)[j].id
  {
    if s != [] {
      FilterIncreasing(s[1..], keep);
      forall j | 0 <= j < |Filter(s[1..], keep)|
        ensures s[0].id < Filter(s[1..], keep)[j].id
      {
        FilterMember(s[1..], keep, Filter(s[1..], keep)[j]);
      }
    }
  }

  lemma InOrderClear(p: Pool, scope: Scope)
    requires Numbered(p) && InOrder(p)
    ensures InOrder(Apply(p, Clear(scope)))
  {
    var q := Apply(p, Clear(scope));
    var gone := Filter(p.tasks, Selected(scope));
    CalledAll(gone, true);
    CalledConcat(p.calls, CallAll(gone, true), true);
    var removed := set t | t in gone;
    assert Cancelled(q) == Cancelled(p) + removed;
    FilterTwice(p.submitted, NotIn(Cancelled(p)), NotIn(removed), NotIn(Cancelled(q)));
    FilterConcat(p.taken, p.tasks, NotIn(removed));
    forall t | t in p.taken
      ensures NotIn(removed)(t)
    {
      TakenNotPending(p, t);
      FilterMember(p.tasks, Selected(scope), t);
    }
    FilterAll(p.taken, NotIn(removed));
    forall t | t in p.tasks
      ensures NotIn(removed)(t) == Unselected(scope)(t)
    {
      FilterMember(p.tasks, Selected(scope), t);
    }
    FilterAgree(p.tasks, NotIn(removed), Unselected(scope));
  }

  lemma InOrderWorker(p: Pool, s: Step)
    requires InOrder(p) && Enabled(p, s) && !s.Submit? && !s.Clear?
    ensures InOrder(Apply(p, s))
  {
    var q := Apply(p, s);
    if s.Begin? {
      CalledConcat(p.calls, [Call(p.workers[s.w].task, false)], true);
      assert Cancelled(q) == Cancelled(p);
    }
    assert q.taken + q.tasks == p.taken + p.tasks;
  }

  lemma ConservedStep(p: Pool, s: Step)
    requires Conserved(p) && Enabled(p, s)
    ensures Conserved(Apply(p, s))
  {
    match s
    case Submit(owner, wake) => ConservedSubmit(p, owner, wake);
    case Clear(scope) => ConservedClear(p, scope);
    case _ => ConservedWorker(p, s);
  }

  lemma InOrderStep(p: Pool, s: Step)
    requires Numbered(p) && Conserved(p) && InOrder(p) && Enabled(p, s)
    ensures InOrder(Apply(p, s))
  {
    match s
    case Submit(owner, wake) => InOrderSubmit(p, owner, wake);
    case Clear(scope) => InOrderClear(p, scope);
    case _ => InOrderWorker(p, s);
  }

  lemma NumberedStep(p: Pool, s: Step)
    requires Numbered(p) && Enabled(p, s)
    ensures Numbered(Apply(p, s))
  {
  }

  /** Every atomic step of every thread keeps the whole invariant. */
  lemma StepKeepsInv(p: Pool, s: Step)
    requires Inv(p) && Enabled(p, s)
    ensures Inv(Apply(p, s))
  {
    var q := Apply(p, s);
    assert Accounted(q) by { AccountedStep(p, s); }
    assert WorkConserving(q) by { WorkConservingStep(p, s); }
    assert Numbered(q) by { NumberedStep(p, s); }
    assert Conserved(q) by { ConservedStep(p, s); }
    assert InOrder(q) by { InOrderStep(p, s); }
  }

  lemma {:induction false} RunKeepsInv(p: Pool, steps: seq<Step>)
    requires Inv(p) && Legal(p, steps)
    ensures Inv(Exec(p, steps)) && Exec(p, steps).max == p.max
    decreases |steps|
  {
    if steps != [] {
      StepKeepsInv(p, steps[0]);
      RunKeepsInv(Apply(p, steps[0]), steps[1..]);
    }
  }

  /** All interleavings of a freshly built pool. */
  lemma Reachable(max: nat, steps: seq<Step>)
    requires Legal(Init(max), steps)
    ensures Inv(Exec(Init(max), steps)) && Exec(Init(max), steps).max == max
  {
    RunKeepsInv(Init(max), steps);
  }

  // ------------------------------------------------------------------ guarantees

  /** A submitted task is in exactly one place; its callback runs once at most, never both ways. */
  lemma ExactlyOnePlace(max: nat, steps: seq<Step>, t: Task)
    requires Legal(Init(max), steps)
    ensures var p := Exec(Init(max), steps);
      Places(p, t) == (if t in p.submitted then 1 else 0)
      && multiset(Called(p.calls, false))[t] + multiset(Called(p.calls, true))[t] <= 1
      && (Running(t) in p.workers ==>
            multiset(Called(p.calls, false))[t] == 1 && multiset(Called(p.calls, true))[t] == 0)
  {
    Reachable(max, steps);
    var p := Exec(Init(max), steps);
    SubmittedOnce(p, t);
    assert Places(p, t) == multiset(p.submitted)[t];
    if Running(t) in p.workers {
      var w :| 0 <= w < |p.workers| && p.workers[w] == Running(t);
      CountAtLeast(p.workers, RunningOf(t), w);
      assert Count(p.workers, RunningOf(t)) <= multiset(Called(p.calls, false))[t];
    }
  }

  lemma SubmittedOnce(p: Pool, t: Task)
    requires Numbered(p)
    ensures multiset(p.submitted)[t] == (if t in p.submitted then 1 else 0)
  {
    if t in p.submitted {
      var i :| 0 <= i < |p.submitted| && p.submitted[i] == t;
      assert p.submitted == p.submitted[..i] + [t] + p.submitted[i + 1..];
      assert t !in p.submitted[..i] && t !in p.submitted[i + 1..];
    }
  }

  /** Tasks leave the queue in submission order; only cancellation takes one out of turn. */
  lemma DequeuedInSubmissionOrder(max: nat, steps: seq<Step>)
    requires Legal(Init(max), steps)
    ensures var p := Exec(Init(max), steps);
      p.taken <= Filter(p.submitted, NotIn(Cancelled(p)))
      && (forall i, j :: 0 <= i < j < |p.taken| ==> p.taken[i].id < p.taken[j].id)
      && (forall i, k :: 0 <= i < |p.taken| && 0 <= k < |p.tasks| ==> p.taken[i].id < p.tasks[k].id)
  {
    Reachable(max, steps);
    var p := Exec(Init(max), steps);
    var both := p.taken + p.tasks;
    FilterIncreasing(p.submitted, NotIn(Cancelled(p)));
    forall i, k | 0 <= i < |p.taken| && 0 <= k < |p.tasks|
      ensures p.taken[i].id < p.tasks[k].id
    {
      assert both[i].id < both[|p.taken| + k].id;
    }
    forall i, j | 0 <= i < j < |p.taken|
      ensures p.taken[i].id < p.taken[j].id
    {
      assert both[i].id < both[j].id;
    }
  }

  /** No lost wakeup: with work pending, some worker alone can go on to dequeue the head. */
  lemma DequeueStaysReachable(max: nat, steps: seq<Step>) returns (more: seq<Step>)
    requires Legal(Init(max), steps) && Exec(Init(max), steps).tasks != []
    ensures var p := Exec(Init(max), steps);
      |more| <= 3 && (forall s :: s in more ==> s.Acquire? || s.Begin? || s.End?)
      && Legal(p, more)
      && Exec(p, more).taken == p.taken + [p.tasks[0]]
      && Exec(p, more).tasks == p.tasks[1..]
  {
    Reachable(max, steps);
    var p := Exec(Init(max), steps);
    var w := AwakeWorker(p);
    match p.workers[w]
    case Claiming =>
      more := [Acquire(w)];
      ExecCons(p, Acquire(w), []);
    case Running(_) =>
      more := [End(w), Acquire(w)];
      ExecCons(Apply(p, End(w)), Acquire(w), []);
      ExecCons(p, End(w), [Acquire(w)]);
    case Taken(_) =>
      more := [Begin(w), End(w), Acquire(w)];
      var q := Apply(p, Begin(w));
      ExecCons(Apply(q, End(w)), Acquire(w), []);
      ExecCons(q, End(w), [Acquire(w)]);
      ExecCons(p, Begin(w), [End(w), Acquire(w)]);
  }

  lemma ExecCons(p: Pool, s: Step, rest: seq<Step>)
    requires Enabled(p, s) && Legal(Apply(p, s), rest)
    ensures Legal(p, [s] + rest) && Exec(p, [s] + rest) == Exec(Apply(p, s), rest)
  {
    assert ([s] + rest)[1..] == rest;
  }

  function WorkLeft(w: Worker): nat {
    match w
    case Taken(_) => 2
    case Running(_) => 1
    case _ => 0
  }

  /** A worker inside or on its way into a callback, otherwise one free to take the head. */
  lemma WorkerToMove(p: Pool) returns (s: Step)
    requires Accounted(p) && WorkConserving(p)
    requires p.tasks != [] || exists w :: 0 <= w < |p.workers| && WorkLeft(p.workers[w]) > 0
    ensures (s.Acquire? && p.tasks != []) || s.Begin? || s.End?
    ensures Enabled(p, s)
  {
    if w :| 0 <= w < |p.workers| && WorkLeft(p.workers[w]) > 0 {
      s := if p.workers[w].Taken? then Begin(w) else End(w);
    } else {
      var v := AwakeWorker(p);
      s := Acquire(v);
    }
  }

  /** Workers by themselves run everything that is queued. */
  lemma {:induction false} WorkersDrain(p: Pool) returns (more: seq<Step>)
    requires Inv(p)
    ensures (forall s :: s in more ==> s.Acquire? || s.Begin? || s.End?) && Legal(p, more)
    ensures var q := Exec(p, more);
      && Inv(q) && q.submitted == p.submitted && q.tasks == []
      && Called(q.calls, true) == Called(p.calls, true)
      && forall w :: 0 <= w < |q.workers| ==> q.workers[w].Claiming? || q.workers[w].Asleep?
    decreases 3 * |p.tasks| + Count(p.workers, WorkLeft)
  {
    if p.tasks == [] && forall w :: 0 <= w < |p.workers| ==> WorkLeft(p.workers[w]) == 0 {
      more := [];
    } else {
      var s := WorkerToMove(p);
      var q := Apply(p, s);
      StepKeepsInv(p, s);
      CountUpdate(p.workers, WorkLeft, s.w, q.workers[s.w]);
      if s.Begin? {
        CalledConcat(p.calls, [Call(p.workers[s.w].task, false)], true);
        assert Called([Call(p.workers[s.w].task, false)], true) == [];
      }
      var rest := WorkersDrain(q);
      more := [s] + rest;
      ExecCons(p, s, rest);
    }
  }

  lemma {:induction false} CountZero(ws: seq<Worker>, f: Worker -> nat)
    requires forall i :: 0 <= i < |ws| ==> f(ws[i]) == 0
    ensures Count(ws, f) == 0
  {
    if ws != [] {
      CountZero(ws[1..], f);
    }
  }

  /**
   From every reachable state the workers alone can go on until every submitted task was
   called exactly once: with true if it was cancelled before, otherwise with false.
   */
  lemma EveryTaskCanBeCalled(max: nat, steps: seq<Step>) returns (more: seq<Step>)
    requires Legal(Init(max), steps)
    ensures var p := Exec(Init(max), steps);
      && (forall s :: s in more ==> s.Acquire? || s.Begin? || s.End?) && Legal(p, more)
      && var q := Exec(p, more);
         && q.tasks == [] && q.submitted == p.submitted
         && forall t :: t in p.submitted ==>
              && multiset(Called(q.calls, true))[t] == (if t in Cancelled(p) then 1 else 0)
              && multiset(Called(q.calls, false))[t] == (if t in Cancelled(p) then 0 else 1)
  {
    Reachable(max, steps);
    var p := Exec(Init(max), steps);
    more := WorkersDrain(p);
    forall t | t in p.submitted
      ensures var q := Exec(p, more);
        && multiset(Called(q.calls, true))[t] == (if t in Cancelled(p) then 1 else 0)
        && multiset(Called(q.calls, false))[t] == (if t in Cancelled(p) then 0 else 1)
    {
      IdleHasCalled(Exec(p, more), t);
    }
  }

  /** With nothing queued and nobody busy, a submitted task was called once. */
  lemma IdleHasCalled(q: Pool, t: Task)
    requires Inv(q) && q.tasks == [] && t in q.submitted
    requires forall w :: 0 <= w < |q.workers| ==> q.workers[w].Claiming? || q.workers[w].Asleep?
    ensures multiset(Called(q.calls, true))[t] == (if t in Called(q.calls, true) then 1 else 0)
    ensures multiset(Called(q.calls, false))[t] == 1 - multiset(Called(q.calls, true))[t]
  {
    SubmittedOnce(q, t);
    CountZero(q.workers, TakenOf(t));
    assert Places(q, t) == multiset(q.submitted)[t];
    assert t in Called(q.calls, true) <==> multiset(Called(q.calls, true))[t] > 0;
  }

  lemma AwakeWorker(p: Pool) returns (w: nat)
    requires Accounted(p) && WorkConserving(p) && p.tasks != []
    ensures w < |p.workers| && !p.workers[w].Asleep?
  {
    CountBound(p.workers, IsAsleep);
    CountBound(p.workers, IsClaiming);
    if Count(p.workers, IsAsleep) > 0 {
      var i :| 0 <= i < |p.workers| && IsClaiming(p.workers[i]) == 1;
      w := i;
    } else {
      w := 0;
    }
  }

  /** The stronger form: a worker sleeps only while every pending task has an awake claimant. */
  lemma SleepersOnlyWhenCovered(max: nat, steps: seq<Step>, w: nat)
    requires Legal(Init(max), steps)
    requires w < |Exec(Init(max), steps).workers| && Exec(Init(max), steps).workers[w].Asleep?
    ensures var p := Exec(Init(max), steps); |p.tasks| <= Count(p.workers, IsClaiming)
  {
    Reachable(max, steps);
    CountAtLeast(Exec(Init(max), steps).workers, IsAsleep, w);
  }

  /** The idle counter never underflows, and lazy creation never exceeds the maximum. */
  lemma IdleCounterExact(max: nat, steps: seq<Step>)
    requires Legal(Init(max), steps) && max >= 1
    ensures var p := Exec(Init(max), steps);
      0 <= p.idle == |p.workers| - Count(p.workers, IsRunning) && |p.workers| <= max
  {
    Reachable(max, steps);
    CountBound(Exec(Init(max), steps).workers, IsRunning);
  }

  /**
   Whether a submission finds, or creates, a worker free to take it. It does not
   when every worker is busy and either the pool is full or one of them has popped
   its task but not yet decremented the idle counter.
   */
  lemma SubmissionFindsClaimant(p: Pool, owner: nat, wake: nat)
    requires Inv(p) && Enabled(p, Submit(owner, wake))
    ensures Count(Apply(p, Submit(owner, wake)).workers, IsClaiming) == 0 <==>
      && (forall w :: w in p.workers ==> w.Taken? || w.Running?)
      && (|p.workers| >= p.max || exists w :: w in p.workers && w.Taken?)
  {
    var ws := Apply(p, Submit(owner, wake)).workers;
    CountBound(ws, IsClaiming);
    if SomeAsleep(p.workers) {
      assert p.workers[wake] in p.workers && ws[wake].Claiming?;
    } else if w :| 0 <= w < |p.workers| && p.workers[w].Claiming? {
      assert p.workers[w] in p.workers && ws[w].Claiming?;
    } else {
      assert forall w :: 0 <= w < |p.workers| ==> p.workers[w].Taken? || p.workers[w].Running?;
      BusySubmit(p, owner, wake);
    }
  }

  lemma BusySubmit(p: Pool, owner: nat, wake: nat)
    requires Accounted(p) && Enabled(p, Submit(owner, wake))
    requires forall w :: 0 <= w < |p.workers| ==> p.workers[w].Taken? || p.workers[w].Running?
    ensures var ws := Apply(p, Submit(owner, wake)).workers;
      (forall w :: 0 <= w < |ws| ==> !ws[w].Claiming?)
      <==> |p.workers| >= p.max || exists w :: w in p.workers && w.Taken?
  {
    CountBound(p.workers, IsRunning);
    var ws := Apply(p, Submit(owner, wake)).workers;
    if p.idle == 0 && |p.workers| < p.max {
      assert ws[|p.workers|].Claiming?;
      assert forall w :: 0 <= w < |p.workers| ==> IsRunning(p.workers[w]) == 1;
    } else {
      assert ws == p.workers;
    }
  }

  /** That gap is reached: one worker, room for another, and a task that nobody is free to take. */
  lemma LateDecrementLeavesTaskWaiting()
    ensures var steps := [Submit(7, 0), Acquire(0), Submit(7, 0), Begin(0)];
      Legal(Init(2), steps)
      && var p := Exec(Init(2), steps);
         |p.tasks| == 1 && |p.workers| == 1 < p.max && p.workers[0].Running?
  {
    var a := Apply(Init(2), Submit(7, 0));
    var b := Apply(a, Acquire(0));
    var c := Apply(b, Submit(7, 0));
    assert c.workers == [Taken(Task(0, 7))] && c.tasks == [Task(1, 7)];
    ExecCons(c, Begin(0), []);
    ExecCons(b, Submit(7, 0), [Begin(0)]);
    ExecCons(a, Acquire(0), [Submit(7, 0), Begin(0)]);
    ExecCons(Init(2), Submit(7, 0), [Acquire(0), Submit(7, 0), Begin(0)]);
  }

  lemma ClearCalls(p: Pool, scope: Scope, t: Task)
    requires Inv(p) && Conserved(Apply(p, Clear(scope)))
    ensures var q := Apply(p, Clear(scope));
      (t in q.tasks <==> t in p.tasks && !Selected(scope)(t))
      && multiset(Called(q.calls, true))[t] == multiset(Called(p.calls, true))[t]
         + (if t in p.tasks && Selected(scope)(t) then 1 else 0)
  {
    var q := Apply(p, Clear(scope));
    var gone := Filter(p.tasks, Selected(scope));
    FilterMember(p.tasks, Unselected(scope), t);
    SubmittedOnce(p, t);
    assert Places(p, t) == multiset(p.submitted)[t];
    assert Places(q, t) == multiset(q.submitted)[t];
    CalledAll(gone, true);
    CalledConcat(p.calls, CallAll(gone, true), false);
    assert Called(q.calls, false) == Called(p.calls, false);
    assert t in p.tasks <==> multiset(p.tasks)[t] > 0;
    assert t in q.tasks <==> multiset(q.tasks)[t] > 0;
  }

  /** After cancelling an owner, the queue holds the other owners' tasks in their old order. */
  lemma ClearRemovesExactlyTheOwner(p: Pool, owner: nat, t: Task)
    requires Inv(p)
    ensures var q := Apply(p, Clear(Owner(owner)));
      (t in q.tasks <==> t in p.tasks && t.owner != owner)
      && multiset(Called(q.calls, true))[t] == multiset(Called(p.calls, true))[t]
         + (if t in p.tasks && t.owner == owner then 1 else 0)
      && (forall i, j :: 0 <= i < j < |q.tasks| ==> q.tasks[i].id < q.tasks[j].id)
  {
    var q := Apply(p, Clear(Owner(owner)));
    StepKeepsInv(p, Clear(Owner(owner)));
    ClearCalls(p, Owner(owner), t);
    PendingIdsDistinct(q);
  }

  /** The owners named by the submissions of a run, in order. */
  function SubmitOwners(steps: seq<Step>): seq<nat> {
    if steps == [] then []
    else if steps[0].Submit? then [steps[0].owner] + SubmitOwners(steps[1..])
    else SubmitOwners(steps[1..])
  }

  lemma {:induction false} OwnersSubmitted(p: Pool, steps: seq<Step>)
    requires Legal(p, steps)
    ensures var q := Exec(p, steps);
      var owners := SubmitOwners(steps);
      && |q.submitted| == |p.submitted| + |owners| && p.submitted <= q.submitted
      && forall i :: 0 <= i < |owners| ==> q.submitted[|p.submitted| + i].owner == owners[i]
    decreases |steps|
  {
    if steps != [] {
      OwnersSubmitted(Apply(p, steps[0]), steps[1..]);
    }
  }

  /**
   Over every run each task is kept under the owner whose submission it was, and cancelling
   an owner cancels exactly the queued tasks that this owner submitted.
   */
  lemma ClearCancelsWhatTheOwnerSubmitted(max: nat, steps: seq<Step>, owner: nat, i: nat)
    requires Legal(Init(max), steps) && i < |SubmitOwners(steps)|
    ensures var p := Exec(Init(max), steps);
      var q := Apply(p, Clear(Owner(owner)));
      && i < |p.submitted| && var t := p.submitted[i];
         && t == Task(i, SubmitOwners(steps)[i])
         && (t in q.tasks <==> t in p.tasks && SubmitOwners(steps)[i] != owner)
         && multiset(Called(q.calls, true))[t] == multiset(Called(p.calls, true))[t]
            + (if t in p.tasks && SubmitOwners(steps)[i] == owner then 1 else 0)
         && multiset(Called(q.calls, false))[t] == multiset(Called(p.calls, false))[t]
  {
    Reachable(max, steps);
    OwnersSubmitted(Init(max), steps);
    var p := Exec(Init(max), steps);
    var t := p.submitted[i];
    ClearRemovesExactlyTheOwner(p, owner, t);
    ClearCallsInOrder(p, Owner(owner));
  }

  /** The callbacks of a cancellation come after all others, with true, in the order of submission. */
  lemma ClearCallsInOrder(p: Pool, scope: Scope)
    requires Inv(p)
    ensures var q := Apply(p, Clear(scope));
      && p.calls <= q.calls && Called(q.calls, false) == Called(p.calls, false)
      && (forall k :: |p.calls| <= k < |q.calls| ==> q.calls[k].cancelled && q.calls[k].task in p.tasks)
      && forall j, k :: |p.calls| <= j < k < |q.calls| ==> q.calls[j].task.id < q.calls[k].task.id
  {
    var gone := Filter(p.tasks, Selected(scope));
    PendingIdsDistinct(p);
    FilterIncreasing(p.tasks, Selected(scope));
    forall k | 0 <= k < |gone|
      ensures gone[k] in p.tasks
    {
      FilterMember(p.tasks, Selected(scope), gone[k]);
    }
    CallAllAt(gone, true);
    CalledAll(gone, true);
    CalledConcat(p.calls, CallAll(gone, true), false);
  }

  lemma {:induction false} CallAllAt(ts: seq<Task>, cancelled: bool)
    ensures |CallAll(ts, cancelled)| == |ts|
    ensures forall k :: 0 <= k < |ts| ==> CallAll(ts, cancelled)[k] == Call(ts[k], cancelled)
  {
    if ts != [] {
      CallAllAt(ts[1..], cancelled);
    }
  }

  /** Cancelling everything empties the queue and calls every queued task back once with true. */
  lemma ClearAllCancelsEverything(p: Pool, t: Task)
    requires Inv(p)
    ensures var q := Apply(p, Clear(Everyone));
      && q.tasks == []
      && multiset(Called(q.calls, true))[t] == multiset(Called(p.calls, true))[t] + (if t in p.tasks then 1 else 0)
  {
    var q := Apply(p, Clear(Everyone));
    StepKeepsInv(p, Clear(Everyone));
    ClearCalls(p, Everyone, t);
    if q.tasks != [] {
      FilterMember(p.tasks, Unselected(Everyone), q.tasks[0]);
    }
  }

  /** A submission wakes one sleeper if there is any, and adds one worker exactly if nobody is idle and there is room. */
  lemma SubmitWakesOne(p: Pool, owner: nat, wake: nat)
    requires Inv(p) && Enabled(p, Submit(owner, wake))
    ensures var q := Apply(p, Submit(owner, wake));
      && Count(q.workers, IsAsleep) == Count(p.workers, IsAsleep) - (if SomeAsleep(p.workers) then 1 else 0)
      && |q.workers| == |p.workers| + (if p.idle == 0 && |p.workers| < p.max then 1 else 0)
      && forall w :: 0 <= w < |p.workers| && !p.workers[w].Asleep? ==> q.workers[w] == p.workers[w]
  {
    var ws := Grow(p).workers;
    CountAppend(p.workers, IsAsleep, Claiming);
    if wake < |ws| && ws[wake].Asleep? {
      CountUpdate(ws, IsAsleep, wake, Claiming);
      assert p.workers[wake].Asleep?;
    } else {
      assert !SomeAsleep(p.workers);
    }
  }

  /** Queued tasks are in submission order, hence distinct. */
  lemma PendingIdsDistinct(p: Pool)
    requires Inv(p)
    ensures forall j, k :: 0 <= j < k < |p.tasks| ==> p.tasks[j].id < p.tasks[k].id
  {
    FilterIncreasing(p.submitted, NotIn(Cancelled(p)));
    var both := p.taken + p.tasks;
    forall j, k | 0 <= j < k < |p.tasks|
      ensures p.tasks[j].id < p.tasks[k].id
    {
      assert both[|p.taken| + j].id < both[|p.taken| + k].id;
    }
  }

  lemma CutAt(ts: seq<Task>, i: nat)
    requires i < |ts|
    ensures ts[i..] == [ts[i]] + ts[i + 1..] && ts[..i + 1] == ts[..i] + [ts[i]]
    ensures ts[i..][0] == ts[i] && ts[i..][1..] == ts[i + 1..]
  {
  }

  lemma EveryoneSelected(ts: seq<Task>)
    ensures Filter(ts, Selected(Everyone)) == ts && Filter(ts, Unselected(Everyone)) == []
  {
    FilterAll(ts, Selected(Everyone));
    FilterNone(ts, Unselected(Everyone));
  }

  // ------------------------------------------------------------ the object itself

  /** The pool with its fields updated in place; each method is one lock region or update. */
  class MyThreadPool {
    const maxThreadCount: nat
    var idleCount: int
    var tasks: seq<Task>
    var threads: seq<Worker>
    // history, for the specification only
    var submitted: seq<Task>
    ghost var taken: seq<Task>
    ghost var calls: seq<Call>

    ghost function View(): Pool
      reads this
    {
      Pool(maxThreadCount, idleCount, tasks, threads, submitted, taken, calls)
    }

    constructor (maxThreads: nat)
      ensures View() == Init(maxThreads)
    {
      maxThreadCount := maxThreads;
      idleCount := 0;
      tasks, threads := [], [];
      submitted, taken, calls := [], [], [];
      new;
      CreateThread(1);
    }

    method CreateThread(count: nat)
      modifies this`idleCount, this`threads
      ensures idleCount == old(idleCount) + count
      ensures threads == old(threads) + seq(count, _ => Claiming)
    {
      var n := 0;
      while n < count
        invariant n <= count
        invariant idleCount == old(idleCount) + n
        invariant threads == old(threads) + seq(n, _ => Claiming)
      {
        idleCount := idleCount + 1;
        threads := threads + [Claiming];
        n := n + 1;
      }
    }

    /** Wakes one sleeper if there is one; which one is not specified. */
    method NotifyOne() returns (wake: nat)
      modifies this`threads
      ensures SomeAsleep(old(threads)) ==> wake < |old(threads)| && old(threads)[wake].Asleep?
      ensures threads == Notify(old(threads), wake)
    {
      wake := |threads|;
      if SomeAsleep(threads) {
        wake :| wake < |threads| && threads[wake].Asleep?;
        threads := threads[wake := Claiming];
      }
    }

    method Start(owner: nat) returns (wake: nat)
      modifies this
      ensures Enabled(old(View()), Submit(owner, wake))
      ensures View() == Apply(old(View()), Submit(owner, wake))
    {
      var t := Task(|submitted|, owner);
      submitted := submitted + [t];
      tasks := tasks + [t];
      if idleCount == 0 && |threads| < maxThreadCount {
        CreateThread(1);
        assert seq(1, _ => Claiming) == [Claiming];
      }
      assert SomeAsleep(old(threads)) ==> SomeAsleep(threads) by {
        if w :| 0 <= w < |old(threads)| && old(threads)[w].Asleep? {
          assert threads[w].Asleep?;
        }
      }
      wake := NotifyOne();
    }

    method ClearAll()
      modifies this`tasks, this`calls
      ensures View() == Apply(old(View()), Clear(Everyone))
    {
      EveryoneSelected(tasks);
      while tasks != []
        invariant calls + CallAll(tasks, true) == old(calls) + CallAll(old(tasks), true)
        decreases |tasks|
      {
        var task := tasks[0];
        tasks := tasks[1..];
        Assoc(calls, [Call(task, true)], CallAll(tasks, true));
        calls := calls + [Call(task, true)];
      }
    }

    /** Walks the list, calling back and erasing the tasks of `owner`. */
    method ClearOwner(owner: nat)
      modifies this`tasks, this`calls
      ensures View() == Apply(old(View()), Clear(Owner(owner)))
    {
      ghost var scope := Owner(owner);
      var next := 0;
      while next < |tasks|
        invariant next <= |tasks|
        invariant tasks[..next] + Filter(tasks[next..], Unselected(scope))
                  == Filter(old(tasks), Unselected(scope))
        invariant calls + CallAll(Filter(tasks[next..], Selected(scope)), true)
                  == old(calls) + CallAll(Filter(old(tasks), Selected(scope)), true)
        decreases |tasks| - next
      {
        CutAt(tasks, next);
        var t := tasks[next];
        ghost var later := tasks[next + 1..];
        if t.owner == owner {
          Assoc(calls, [Call(t, true)], CallAll(Filter(later, Selected(scope)), true));
          calls := calls + [Call(t, true)];
          tasks := tasks[..next] + tasks[next + 1..];
          assert tasks[next..] == later;
        } else {
          Assoc(tasks[..next], [t], Filter(later, Unselected(scope)));
          next := next + 1;
        }
      }
      assert tasks[..next] == tasks && tasks[next..] == [];
    }

    /** The lock region of a worker: sleep on an empty queue, otherwise pop its head. */
    method RunLocked(w: nat)
      requires w < |threads| && threads[w].Claiming?
      modifies this`tasks, this`threads, this`taken
      ensures View() == Apply(old(View()), Acquire(w))
    {
      if tasks == [] {
        threads := threads[w := Asleep];
      } else {
        var task := tasks[0];
        tasks := tasks[1..];
        taken := taken + [task];
        threads := threads[w := Taken(task)];
      }
    }

    method RunBegin(w: nat)
      requires w < |threads| && threads[w].Taken?
      modifies this`idleCount, this`threads, this`calls
      ensures View() == Apply(old(View()), Begin(w))
    {
      var task := threads[w].task;
      idleCount := idleCount - 1;
      calls := calls + [Call(task, false)];
      threads := threads[w := Running(task)];
    }

    method RunEnd(w: nat)
      requires w < |threads| && threads[w].Running?
      modifies this`idleCount, this`threads
      ensures View() == Apply(old(View()), End(w))
    {
      idleCount := idleCount + 1;
      threads := threads[w := Claiming];
    }
  }
}
