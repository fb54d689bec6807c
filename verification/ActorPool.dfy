/** The actor thread pool: tasks of one actor run one at a time and in order,
    on a pool of threads that all actors share.  Actors are numbered. */
module ActorPool {
  import opened Text

  datatype Job<+R> = Job(act: nat, run: R)

  /** The shared state: who is playing, the waiting tasks of each actor (the
      weak hash map), and the jobs handed to the executor in FIFO order. */
  datatype Pool<+R> = Pool(playing: set<nat>, acts: map<nat, seq<R>>, queue: seq<Job<R>>)

  function Waiting<R>(p: Pool<R>, act: nat): seq<R> {
    if act in p.acts then p.acts[act] else []
  }

  function Submitted<R>(p: Pool<R>, act: nat, r: R): Pool<R> {
    if act in p.playing then p.(acts := p.acts[act := Waiting(p, act) + [r]])
    else p.(playing := p.playing + {act}, queue := p.queue + [Job(act, r)])
  }

  function Completed<R>(p: Pool<R>, act: nat): Pool<R> {
    var pending := Waiting(p, act);
    if pending == [] then p.(playing := p.playing - {act}, acts := p.acts[act := []])
    else p.(acts := p.acts[act := pending[1..]], queue := p.queue + [Job(act, pending[0])])
  }

  /** The class; each method body is one block of the source that holds the
      monitor of `act`. */
  class ActorThreadPool<R> {
    var acts: map<nat, seq<R>>
    var playingNow: set<nat>
    var threads: seq<Job<R>>

    ghost function Abs(): Pool<R>
      reads this
    {
      Pool(playingNow, acts, threads)
    }

    constructor ()
      ensures Abs() == Pool({}, map[], [])
    {
      acts, playingNow, threads := map[], {}, [];
    }

    method Submit(act: nat, r: R)
      modifies this
      ensures Abs() == Submitted(old(Abs()), act, r)
    {
      if act !in playingNow {
        playingNow := playingNow + {act};
        Execute(r, act);
      } else {
        var pending := PendingRunnablesOf(act);
        acts := acts[act := pending + [r]];
      }
    }

    /** Looks the queue up and creates it when it is missing. */
    method PendingRunnablesOf(act: nat) returns (pending: seq<R>)
      modifies this`acts
      ensures pending == Waiting(old(Abs()), act)
      ensures acts == old(acts)[act := pending]
    {
      if act !in acts {
        acts := acts[act := []];
      }
      pending := acts[act];
    }

    method Execute(r: R, act: nat)
      modifies this`threads
      ensures threads == old(threads) + [Job(act, r)]
    {
      threads := threads + [Job(act, r)];
    }

    method Complete(act: nat)
      modifies this
      ensures Abs() == Completed(old(Abs()), act)
    {
      var pending := PendingRunnablesOf(act);
      if |pending| == 0 {
        playingNow := playingNow - {act};
      } else {
        acts := acts[act := pending[1..]];
        Execute(pending[0], act);
      }
    }
  }

  // ----- Runs -----

  /** The pool with the jobs that threads are working on, and what has been
      submitted and finished so far. */
  datatype World<+R> = World(pool: Pool<R>, running: seq<Job<R>>, threads: nat,
                             submitted: map<nat, seq<R>>, finished: map<nat, seq<R>>)

  datatype Step<+R> =
    | Submit(act: nat, r: R)
    | Start              // a free thread takes the first job
    | Complete(i: nat)   // the task of a running job has returned or thrown
    | Collect(act: nat)  // the garbage collector drops an entry of the weak map

  function Hist<R>(m: map<nat, seq<R>>, act: nat): seq<R> {
    if act in m then m[act] else []
  }

  /** The tasks of one actor among some jobs. */
  function Of<R>(jobs: seq<Job<R>>, act: nat): seq<R> {
    if jobs == [] then []
    else Of(jobs[..|jobs| - 1], act) + (if jobs[|jobs| - 1].act == act then [jobs[|jobs| - 1].run] else [])
  }

  function Without<T>(s: seq<T>, i: nat): seq<T>
    requires i < |s|
  {
    s[..i] + s[i + 1..]
  }

  predicate Enabled<R>(w: World<R>, step: Step<R>) {
    match step
    case Submit(_, _) => true
    case Start => w.pool.queue != [] && |w.running| < w.threads
    case Complete(i) => i < |w.running|
    case Collect(act) =>
      // playingNow and every job refer to their actor strongly.
      && act !in w.pool.playing
      && (forall j | 0 <= j < |w.running| :: w.running[j].act != act)
      && (forall j | 0 <= j < |w.pool.queue| :: w.pool.queue[j].act != act)
  }

  function Apply<R>(w: World<R>, step: Step<R>): World<R>
    requires Enabled(w, step)
  {
    match step
    case Submit(act, r) =>
      w.(pool := Submitted(w.pool, act, r), submitted := w.submitted[act := Hist(w.submitted, act) + [r]])
    case Start =>
      w.(pool := w.pool.(queue := w.pool.queue[1..]), running := w.running + [w.pool.queue[0]])
    case Complete(i) =>
      var job := w.running[i];
      w.(pool := Completed(w.pool, job.act), running := Without(w.running, i),
         finished := w.finished[job.act := Hist(w.finished, job.act) + [job.run]])
    case Collect(act) =>
      w.(pool := w.pool.(acts := w.pool.acts - {act}))
  }

  function Initial<R>(threads: nat): World<R> {
    World(Pool({}, map[], []), [], threads, map[], map[])
  }

  predicate Legal<R>(w: World<R>, steps: seq<Step<R>>)
    decreases |steps|
  {
    steps == [] || (Enabled(w, steps[0]) && Legal(Apply(w, steps[0]), steps[1..]))
  }

  function After<R>(w: World<R>, steps: seq<Step<R>>): World<R>
    requires Legal(w, steps)
    decreases |steps|
  {
    if steps == [] then w else After(Apply(w, steps[0]), steps[1..])
  }

  // ----- The invariant -----

  predicate InvAct<R(==)>(w: World<R>, a: nat) {
    && Hist(w.finished, a) + Of(w.running, a) + Of(w.pool.queue, a) + Waiting(w.pool, a) == Hist(w.submitted, a)
    && |Of(w.running, a)| + |Of(w.pool.queue, a)| == (if a in w.pool.playing then 1 else 0)
    && (a !in w.pool.playing ==> Waiting(w.pool, a) == [])
  }

  ghost predicate Inv<R>(w: World<R>) {
    && (forall a: nat :: InvAct(w, a))
    && |w.running| + |w.pool.queue| == |w.pool.playing|
    && |w.running| <= w.threads
  }

  lemma OfSnoc<R>(jobs: seq<Job<R>>, j: Job<R>, a: nat)
    ensures Of(jobs + [j], a) == Of(jobs, a) + (if j.act == a then [j.run] else [])
  {
    assert (jobs + [j])[..|jobs|] == jobs;
  }

  lemma {:induction false} OfAppend<R>(x: seq<Job<R>>, y: seq<Job<R>>, a: nat)
    ensures Of(x + y, a) == Of(x, a) + Of(y, a)
  {
    if y == [] {
      assert x + y == x;
    } else {
      var n := |y| - 1;
      OfAppend(x, y[..n], a);
      assert x + y == (x + y[..n]) + [y[n]];
      OfSnoc(x + y[..n], y[n], a);
    }
  }

  lemma OfOne<R>(j: Job<R>, a: nat)
    ensures Of([j], a) == if j.act == a then [j.run] else []
  {
    assert [j][..0] == [];
  }

  /** Taking one job out of a list in which its actor occurs once. */
  lemma OfWithout<R>(jobs: seq<Job<R>>, i: nat, a: nat)
    requires i < |jobs|
    ensures jobs[i].act != a ==> Of(Without(jobs, i), a) == Of(jobs, a)
    ensures |Of(Without(jobs, i), a)| == |Of(jobs, a)| - (if jobs[i].act == a then 1 else 0)
    ensures jobs[i].act == a && |Of(jobs, a)| == 1 ==> Of(jobs, a) == [jobs[i].run]
  {
    var before, job, behind := jobs[..i], [jobs[i]], jobs[i + 1..];
    assert jobs == before + (job + behind);
    OfAppend(before, job + behind, a);
    OfAppend(job, behind, a);
    OfAppend(before, behind, a);
    OfOne(jobs[i], a);
    hide Of;
    if jobs[i].act != a {
      assert [] + Of(behind, a) == Of(behind, a);
    } else if |Of(jobs, a)| == 1 {
      assert Of(before, a) == [] && Of(behind, a) == [];
    }
  }

  lemma {:induction false} OfNone<R>(jobs: seq<Job<R>>, a: nat)
    ensures Of(jobs, a) == [] <==> forall j | 0 <= j < |jobs| :: jobs[j].act != a
  {
    if jobs != [] {
      OfNone(jobs[..|jobs| - 1], a);
    }
  }

  lemma SubmitKeepsAct<R>(w: World<R>, act: nat, r: R, a: nat)
    requires Inv(w)
    ensures InvAct(Apply(w, Submit(act, r)), a)
  {
    var w' := Apply(w, Submit(act, r));
    assert InvAct(w, a);
    OfSnoc(w.pool.queue, Job(act, r), a);
    var before := Hist(w.finished, a) + Of(w.running, a);
    if a != act {
      assert Of(w'.pool.queue, a) == Of(w.pool.queue, a);
    } else if act in w.pool.playing {
      assert Waiting(w'.pool, a) == Waiting(w.pool, a) + [r];
      Assoc(before + Of(w.pool.queue, a), Waiting(w.pool, a), [r]);
    } else {
      assert Of(w'.pool.queue, a) == [r] && Waiting(w'.pool, a) == [];
      assert Of(w.pool.queue, a) == [] && before + [] + [] + [r] == before + [r] + [];
    }
  }

  lemma SubmitKeeps<R>(w: World<R>, act: nat, r: R)
    requires Inv(w)
    ensures Inv(Apply(w, Submit(act, r)))
  {
    forall a: nat
      ensures InvAct(Apply(w, Submit(act, r)), a)
    {
      SubmitKeepsAct(w, act, r, a);
    }
  }

  /** The first job of the queue becomes the last running one. */
  lemma StartMoves<R>(w: World<R>, a: nat) returns (one: seq<R>)
    requires Enabled(w, Start)
    ensures var w' := Apply(w, Start);
            && Of(w'.running, a) == Of(w.running, a) + one && Of(w.pool.queue, a) == one + Of(w'.pool.queue, a)
            && Waiting(w'.pool, a) == Waiting(w.pool, a) && Hist(w'.finished, a) == Hist(w.finished, a)
            && Hist(w'.submitted, a) == Hist(w.submitted, a) && w'.pool.playing == w.pool.playing
  {
    var j, rest := w.pool.queue[0], w.pool.queue[1..];
    OfSnoc(w.running, j, a);
    assert w.pool.queue == [j] + rest;
    OfAppend([j], rest, a);
    OfOne(j, a);
    one := Of([j], a);
  }

  lemma StartKeepsAct<R>(w: World<R>, a: nat)
    requires Inv(w) && Enabled(w, Start)
    ensures InvAct(Apply(w, Start), a)
  {
    assert InvAct(w, a);
    hide Inv, Apply, Enabled, Of, Waiting, Hist;
    var one := StartMoves(w, a);
    MoveOne(Hist(w.finished, a), Of(w.running, a), one, Of(Apply(w, Start).pool.queue, a));
  }

  lemma MoveOne<T>(done: seq<T>, running: seq<T>, one: seq<T>, queued: seq<T>)
    ensures done + (running + one) + queued == done + running + (one + queued)
  {
  }

  lemma StartKeeps<R>(w: World<R>)
    requires Inv(w) && Enabled(w, Start)
    ensures Inv(Apply(w, Start))
  {
    forall a: nat
      ensures InvAct(Apply(w, Start), a)
    {
      StartKeepsAct(w, a);
    }
  }

  /** The actor whose task has finished: its only job becomes the last of the
      finished ones, and the first waiting task, if any, becomes its job. */
  lemma CompleteMoves<R>(w: World<R>, i: nat)
    requires Inv(w) && Enabled(w, Complete(i))
    ensures InvAct(Apply(w, Complete(i)), w.running[i].act)
    ensures w.running[i].act in w.pool.playing
  {
    var job := w.running[i];
    var a := job.act;
    var w' := Apply(w, Complete(i));
    assert InvAct(w, a);
    OfWithout(w.running, i, a);
    var pending, done := Waiting(w.pool, a), Hist(w.finished, a);
    assert Of(w.running, a) == [job.run] && Of(w.pool.queue, a) == [];
    assert Of(w'.running, a) == [] && Hist(w'.finished, a) == done + [job.run];
    if pending == [] {
      assert Of(w'.pool.queue, a) == [] && Waiting(w'.pool, a) == [];
    } else {
      OfSnoc(w.pool.queue, Job(a, pending[0]), a);
      assert Of(w'.pool.queue, a) == [pending[0]] && Waiting(w'.pool, a) == pending[1..];
    }
    Shift(done, job.run, pending);
  }

  lemma Shift<R>(done: seq<R>, r: R, pending: seq<R>)
    ensures pending == [] ==> done + [r] + [] + [] == done + [r] + [] + pending
    ensures pending != [] ==>
              (done + [r]) + [] + [pending[0]] + pending[1..] == done + [r] + [] + pending
    ensures (done + [r]) + [] + [] + [] == done + [r] + [] + []
  {
  }

  lemma CompleteLeaves<R>(w: World<R>, i: nat, a: nat)
    requires Inv(w) && Enabled(w, Complete(i)) && w.running[i].act != a
    ensures InvAct(Apply(w, Complete(i)), a)
  {
    var job := w.running[i];
    assert InvAct(w, a);
    OfWithout(w.running, i, a);
    var pending := Waiting(w.pool, job.act);
    if pending != [] {
      OfSnoc(w.pool.queue, Job(job.act, pending[0]), a);
    }
    var w' := Apply(w, Complete(i));
    assert Of(w'.running, a) == Of(w.running, a) && Of(w'.pool.queue, a) == Of(w.pool.queue, a);
    assert Waiting(w'.pool, a) == Waiting(w.pool, a) && Hist(w'.finished, a) == Hist(w.finished, a);
  }

  lemma CompleteKeeps<R>(w: World<R>, i: nat)
    requires Inv(w) && Enabled(w, Complete(i))
    ensures Inv(Apply(w, Complete(i)))
  {
    CompleteMoves(w, i);
    forall a: nat
      ensures InvAct(Apply(w, Complete(i)), a)
    {
      if a != w.running[i].act {
        CompleteLeaves(w, i, a);
      }
    }
  }

  /** Dropping an entry loses nothing: its queue is empty. */
  lemma CollectKeeps<R>(w: World<R>, act: nat)
    requires Inv(w) && Enabled(w, Collect(act))
    ensures Inv(Apply(w, Collect(act)))
    ensures Waiting(w.pool, act) == []
  {
    var w' := Apply(w, Collect(act));
    assert InvAct(w, act);
    forall a: nat
      ensures InvAct(w', a)
    {
      assert InvAct(w, a);
    }
  }

  lemma StepKeeps<R>(w: World<R>, step: Step<R>)
    requires Inv(w) && Enabled(w, step)
    ensures Inv(Apply(w, step))
  {
    match step
    case Submit(act, r) => SubmitKeeps(w, act, r);
    case Start => StartKeeps(w);
    case Complete(i) => CompleteKeeps(w, i);
    case Collect(act) => CollectKeeps(w, act);
  }

  lemma {:induction false} RunKeeps<R>(w: World<R>, steps: seq<Step<R>>)
    requires Inv(w) && Legal(w, steps)
    ensures Inv(After(w, steps))
    decreases |steps|
  {
    if steps != [] {
      StepKeeps(w, steps[0]);
      RunKeeps(Apply(w, steps[0]), steps[1..]);
    }
  }

  lemma InitialInv<R>(threads: nat)
    ensures Inv(Initial<R>(threads))
  {
    forall a: nat
      ensures InvAct(Initial<R>(threads), a)
    {
    }
  }

  // ----- What follows for every run -----

  /** For each actor the finished tasks, the one in flight and the waiting ones
      are the submitted tasks in order; at most one is in flight, and exactly
      one when the actor is playing; only a playing actor has waiting tasks. */
  lemma PoolIsSafe<R>(threads: nat, steps: seq<Step<R>>, a: nat)
    requires Legal(Initial(threads), steps)
    ensures var w := After(Initial(threads), steps);
            && Hist(w.finished, a) + Of(w.running, a) + Of(w.pool.queue, a) + Waiting(w.pool, a)
               == Hist(w.submitted, a)
            && (a in w.pool.playing <==> |Of(w.running, a)| + |Of(w.pool.queue, a)| == 1)
            && (a !in w.pool.playing <==> |Of(w.running, a)| + |Of(w.pool.queue, a)| == 0)
            && (Waiting(w.pool, a) != [] ==> a in w.pool.playing)
            && |w.running| + |w.pool.queue| == |w.pool.playing|
  {
    InitialInv<R>(threads);
    RunKeeps(Initial(threads), steps);
    assert InvAct(After(Initial(threads), steps), a);
  }

  // ----- Progress -----

  ghost function Pick(s: set<nat>): (x: nat)
    requires s != {}
    ensures x in s
  {
    var x :| x in s;
    x
  }

  ghost function Sum<R>(keys: set<nat>, m: map<nat, seq<R>>): nat
    requires keys <= m.Keys
  {
    if keys == {} then 0
    else
      var k := Pick(keys);
      |m[k]| + Sum(keys - {k}, m)
  }

  lemma {:induction false} SumPick<R>(keys: set<nat>, m: map<nat, seq<R>>, k: nat)
    requires k in keys && keys <= m.Keys
    ensures Sum(keys, m) == |m[k]| + Sum(keys - {k}, m)
  {
    var y := Pick(keys);
    if y != k {
      SumPick(keys - {y}, m, k);
      SumPick(keys - {k}, m, y);
      assert keys - {y} - {k} == keys - {k} - {y};
    }
  }

  lemma {:induction false} SumSame<R>(keys: set<nat>, m: map<nat, seq<R>>, n: map<nat, seq<R>>)
    requires keys <= m.Keys && keys <= n.Keys
    requires forall k | k in keys :: |m[k]| == |n[k]|
    ensures Sum(keys, m) == Sum(keys, n)
  {
    if keys != {} {
      SumSame(keys - {Pick(keys)}, m, n);
    }
  }

  lemma SumSet<R>(m: map<nat, seq<R>>, k: nat, s: seq<R>)
    ensures Sum(m.Keys, m) + |s| ==
            Sum(m[k := s].Keys, m[k := s]) + (if k in m then |m[k]| else 0)
  {
    var n := m[k := s];
    SumPick(n.Keys, n, k);
    assert n.Keys - {k} == m.Keys - {k};
    SumSame(m.Keys - {k}, m, n);
    if k in m {
      SumPick(m.Keys, m, k);
    } else {
      assert m.Keys - {k} == m.Keys;
    }
  }

  /** Two for each task that has not started yet, one for each running one. */
  ghost function Work<R>(w: World<R>): nat {
    2 * (|w.pool.queue| + Sum(w.pool.acts.Keys, w.pool.acts)) + |w.running|
  }

  lemma WorkShrinks<R>(w: World<R>, step: Step<R>)
    requires Inv(w) && Enabled(w, step) && (step.Start? || step.Complete?)
    ensures Work(Apply(w, step)) == Work(w) - 1
  {
    if step.Complete? {
      var act := w.running[step.i].act;
      var pending := Waiting(w.pool, act);
      var rest := if pending == [] then [] else pending[1..];
      SumSet(w.pool.acts, act, rest);
      var w' := Apply(w, step);
      assert w'.pool.acts == w.pool.acts[act := rest];
      assert |w'.running| == |w.running| - 1;
      assert |w'.pool.queue| == |w.pool.queue| + (if pending == [] then 0 else 1);
    } else {
      var w' := Apply(w, step);
      assert w'.pool.acts == w.pool.acts;
      assert |w'.pool.queue| == |w.pool.queue| - 1;
    }
  }

  lemma CollectKeepsWork<R>(w: World<R>, act: nat)
    requires Inv(w) && Enabled(w, Collect(act))
    ensures Work(Apply(w, Collect(act))) == Work(w)
  {
    CollectKeeps(w, act);
    var m, n := w.pool.acts, w.pool.acts - {act};
    SumSame(n.Keys, m, n);
    if act in m {
      SumPick(m.Keys, m, act);
      assert m.Keys - {act} == n.Keys;
    } else {
      assert n == m;
    }
  }

  /** The starts and completions of a run. */
  function Moves<R>(steps: seq<Step<R>>): nat {
    if steps == [] then 0 else (if steps[0].Collect? then 0 else 1) + Moves(steps[1..])
  }

  /** Once submissions stop, the pool starts and completes tasks `Work` times at
      most, whatever the garbage collector does in between. */
  lemma {:induction false} RunsAreBounded<R>(w: World<R>, steps: seq<Step<R>>)
    requires Inv(w) && Legal(w, steps) && forall j | 0 <= j < |steps| :: !steps[j].Submit?
    ensures Moves(steps) + Work(After(w, steps)) == Work(w)
    decreases |steps|
  {
    if steps != [] {
      assert !steps[0].Submit?;
      assert forall j | 0 <= j < |steps[1..]| :: steps[1..][j] == steps[j + 1];
      if steps[0].Collect? {
        CollectKeepsWork(w, steps[0].act);
      } else {
        WorkShrinks(w, steps[0]);
      }
      StepKeeps(w, steps[0]);
      RunsAreBounded(Apply(w, steps[0]), steps[1..]);
    }
  }

  /** When neither a start nor a completion is possible, every submitted task
      has run, in order, and nobody is playing. */
  lemma QuiescentIsDone<R>(w: World<R>)
    requires Inv(w) && w.threads > 0
    requires !Enabled(w, Start) && !Enabled(w, Complete(0))
    ensures w.pool.playing == {}
    ensures forall a: nat :: Hist(w.finished, a) == Hist(w.submitted, a) && Waiting(w.pool, a) == []
  {
    assert w.running == [] && w.pool.queue == [];
    forall a: nat
      ensures Hist(w.finished, a) == Hist(w.submitted, a) && Waiting(w.pool, a) == []
    {
      assert InvAct(w, a);
      assert Hist(w.finished, a) + [] + [] + [] == Hist(w.finished, a);
    }
  }

  // ----- Fairness -----

  lemma {:induction false} OfCounts<R>(jobs: seq<Job<R>>, i: nat, j: nat)
    requires i < j < |jobs| && jobs[i].act == jobs[j].act
    ensures |Of(jobs, jobs[i].act)| >= 2
  {
    var n := |jobs| - 1;
    if j < n {
      OfCounts(jobs[..n], i, j);
    } else {
      OfNone(jobs[..n], jobs[i].act);
    }
  }

  ghost function ActsOf<R>(jobs: seq<Job<R>>): set<nat> {
    set j | 0 <= j < |jobs| :: jobs[j].act
  }

  lemma {:induction false} DistinctActs<R>(jobs: seq<Job<R>>)
    requires forall i, j | 0 <= i < j < |jobs| :: jobs[i].act != jobs[j].act
    ensures |ActsOf(jobs)| == |jobs|
  {
    if jobs != [] {
      var n := |jobs| - 1;
      DistinctActs(jobs[..n]);
      assert ActsOf(jobs) == ActsOf(jobs[..n]) + {jobs[n].act};
    }
  }

  /** A job in the executor's queue waits behind at most one task of each other
      playing actor. */
  lemma JobsAheadAreFew<R>(w: World<R>, i: nat)
    requires Inv(w) && i < |w.pool.queue|
    ensures var ahead := w.running + w.pool.queue[..i];
            && |ActsOf(ahead)| == |ahead|
            && ActsOf(ahead) <= w.pool.playing - {w.pool.queue[i].act}
            && |ahead| <= |w.pool.playing| - 1
  {
    var all := w.running + w.pool.queue;
    forall x, y | 0 <= x < y < |all|
      ensures all[x].act != all[y].act
    {
      assert InvAct(w, all[x].act);
      if all[x].act == all[y].act {
        OfCounts(all, x, y);
        OfAppend(w.running, w.pool.queue, all[x].act);
        assert false;
      }
    }
    forall x | 0 <= x < |all|
      ensures all[x].act in w.pool.playing
    {
      assert InvAct(w, all[x].act);
      OfAppend(w.running, w.pool.queue, all[x].act);
      OfNone(all, all[x].act);
    }
    var ahead := w.running + w.pool.queue[..i];
    var at := |w.running| + i;
    assert all[at] == w.pool.queue[i];
    assert forall x | 0 <= x < |ahead| :: ahead[x] == all[x];
    DistinctActs(ahead);
  }

  function Starts<R>(steps: seq<Step<R>>): nat {
    if steps == [] then 0 else (if steps[0].Start? then 1 else 0) + Starts(steps[1..])
  }

  /** And nothing overtakes it: the start with its number in the queue is its own,
      whatever is submitted and completed in between. */
  lemma {:induction false} StartsInOrder<R>(w: World<R>, steps: seq<Step<R>>, i: nat)
    requires Legal(w, steps) && i < |w.pool.queue| && Starts(steps) <= i
    ensures var w' := After(w, steps);
            && i - Starts(steps) < |w'.pool.queue|
            && w'.pool.queue[i - Starts(steps)] == w.pool.queue[i]
            && (Starts(steps) == i && Enabled(w', Start) ==>
                  Apply(w', Start).running == w'.running + [w.pool.queue[i]])
    decreases |steps|
  {
    if steps != [] {
      StartsInOrder(Apply(w, steps[0]), steps[1..], if steps[0].Start? then i - 1 else i);
    }
  }
}
