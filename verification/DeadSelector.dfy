/** The death of the selector thread: when it comes about, and what it leaves. */
module DeadSelector {
  import opened FrameCodec
  import opened WritePath
  import opened SelectorThread

  /** A turn that meets a cancelled key where nothing catches it: isWritable, or
      interestOps behind the loop that writes. */
  predicate Fatal(s: State, step: WriteStep) {
    && step.Turn? && step.bad
    && match s.pc
       case AtKey(c, _) => c in s.conns && !s.conns[c].open
       case AtIdle(c, _) => step.n != 1 && c in s.conns && !s.conns[c].open
       case _ => false
  }

  lemma DeadStep(s: State, step: WriteStep)
    requires CanDo(s, step)
    ensures Do(s, step).pc.Dead? <==> s.pc.Dead? || Fatal(s, step)
  {
    if step.Turn? {
      DeadTurn(s, step.n, step.bad);
      hide DoTurn;
    }
  }

  lemma DeadTurn(s: State, n: nat, bad: bool)
    requires CanDo(s, Turn(n, bad))
    ensures DoTurn(s, n, bad).pc.Dead? <==> Fatal(s, Turn(n, bad))
  {
  }

  /** A run up to its step `k`, and from there. */
  lemma {:induction false} RunSplit(s: State, steps: seq<WriteStep>, k: nat)
    requires LegalRun(s, steps) && k <= |steps|
    ensures LegalRun(s, steps[..k]) && LegalRun(RunTo(s, steps[..k]), steps[k..])
    ensures RunTo(RunTo(s, steps[..k]), steps[k..]) == RunTo(s, steps)
    decreases k
  {
    hide CanDo, Do;
    if k == 0 {
      assert steps[..0] == [] && steps[0..] == steps;
    } else {
      RunSplit(Do(s, steps[0]), steps[1..], k - 1);
      assert steps[..k][0] == steps[0] && steps[..k][1..] == steps[1..][..k - 1];
      assert steps[k..] == steps[1..][k - 1..];
    }
  }

  lemma LastStep(s: State, steps: seq<WriteStep>)
    requires LegalRun(s, steps) && steps != []
    ensures var n := |steps| - 1;
            && LegalRun(s, steps[..n]) && CanDo(RunTo(s, steps[..n]), steps[n])
            && RunTo(s, steps) == Do(RunTo(s, steps[..n]), steps[n])
  {
    var n := |steps| - 1;
    RunSplit(s, steps, n);
    assert steps[n..][0] == steps[n] && steps[n..][1..] == [];
    hide CanDo, Do;
  }

  /** The state of a run in front of its step `k`. */
  function Before(steps: seq<WriteStep>, k: nat): State
    requires LegalRun(START, steps) && k <= |steps|
  {
    RunSplit(START, steps, k);
    RunTo(START, steps[..k])
  }

  /** After a run the selector thread is dead exactly when some turn of it was
      fatal. */
  lemma {:induction false} DeadIff(steps: seq<WriteStep>)
    requires LegalRun(START, steps)
    ensures RunTo(START, steps).pc.Dead? <==> exists k :: 0 <= k < |steps| && Fatal(Before(steps, k), steps[k])
    decreases |steps|
  {
    hide CanDo, Do, Fatal, LegalRun;
    if steps == [] {
      NothingRun();
    } else {
      var n := |steps| - 1;
      LastStep(START, steps);
      DeadIff(steps[..n]);
      DeadStep(RunTo(START, steps[..n]), steps[n]);
      assert Before(steps, n) == RunTo(START, steps[..n]);
      forall k | 0 <= k < n
        ensures Before(steps[..n], k) == Before(steps, k) && steps[..n][k] == steps[k]
      {
        assert steps[..n][..k] == steps[..k];
      }
      if RunTo(START, steps[..n]).pc.Dead? {
        var k :| 0 <= k < n && Fatal(Before(steps[..n], k), steps[..n][k]);
        assert Fatal(Before(steps, k), steps[k]);
      }
      if exists k :: 0 <= k < |steps| && Fatal(Before(steps, k), steps[k]) {
        var k :| 0 <= k < |steps| && Fatal(Before(steps, k), steps[k]);
        if k < n {
          assert Fatal(Before(steps[..n], k), steps[..n][k]);
        }
      }
    }
  }

  lemma NothingRun()
    ensures LegalRun(START, []) && RunTo(START, []) == START && START.pc == AtSelect
  {
  }

  // ----- The key was valid before -----

  /** The selector thread is dealing with this connection. */
  predicate Handling(pc: Pc, c: nat) {
    match pc
    case AtKey(d, _) => d == c
    case AtLoop(d, _) => d == c
    case AtPeek(d, _) => d == c
    case AtWrite(d, _, _) => d == c
    case AtRemove(d, _, _) => d == c
    case AtEmpty(d, _) => d == c
    case AtIdle(d, _) => d == c
    case _ => false
  }

  /** isValid is asked of the key of this connection, which is open. */
  predicate FoundValid(s: State, c: nat) {
    s.pc.AtKeys? && s.pc.keys != [] && s.pc.keys[0] == c && OpenConn(s, c)
  }

  lemma HandlingStep(s: State, step: WriteStep, c: nat)
    requires CanDo(s, step) && Handling(Do(s, step).pc, c)
    ensures Handling(s.pc, c) || FoundValid(s, c)
  {
    if step.Turn? {
      HandlingTurn(s, step.n, step.bad, c);
      hide DoTurn;
    }
  }

  lemma HandlingTurn(s: State, n: nat, bad: bool, c: nat)
    requires CanDo(s, Turn(n, bad)) && Handling(DoTurn(s, n, bad).pc, c)
    ensures Handling(s.pc, c) || FoundValid(s, c)
  {
    if s.pc.AtKeys? {
    } else if s.pc.AtTasks? || s.pc.AtTask? {
      assert false;
    }
  }

  /** Whatever connection the selector thread is dealing with, its key was valid
      when that began; so a fatal turn meets one that was closed since. */
  lemma {:induction false} WasValid(steps: seq<WriteStep>, c: nat)
    requires LegalRun(START, steps) && Handling(RunTo(START, steps).pc, c)
    ensures exists k :: 0 <= k < |steps| && FoundValid(Before(steps, k), c)
    decreases |steps|
  {
    hide CanDo, Do, FoundValid, LegalRun;
    if steps == [] {
      NothingRun();
      assert false;
    } else {
      var n := |steps| - 1;
      LastStep(START, steps);
      HandlingStep(RunTo(START, steps[..n]), steps[n], c);
      assert Before(steps, n) == RunTo(START, steps[..n]);
      if !FoundValid(Before(steps, n), c) {
        WasValid(steps[..n], c);
        var k :| 0 <= k < n && FoundValid(Before(steps[..n], k), c);
        assert steps[..n][..k] == steps[..k];
        assert FoundValid(Before(steps, k), c);
      }
    }
  }

  // ----- What is left -----

  /** No byte is written, no buffer leaves a queue, no request is run and no
      interest changes; queues and requests only grow. */
  ghost predicate Stuck(s: State, s': State) {
    && s'.pc.Dead? && s.tasks <= s'.tasks
    && (forall b | b in s.bufs :: b in s'.bufs && s'.bufs[b] == s.bufs[b])
    && (forall c | c in s.conns ::
          && c in s'.conns && s'.conns[c].out == s.conns[c].out
          && s.conns[c].queue <= s'.conns[c].queue && s'.conns[c].wantsWrite == s.conns[c].wantsWrite)
  }

  lemma StuckStep(s: State, step: WriteStep)
    requires QueuesOk(s) && s.pc.Dead? && CanDo(s, step)
    ensures Stuck(s, Do(s, step))
  {
  }

  lemma StuckTwice(s: State, s': State, s'': State)
    requires Stuck(s, s') && Stuck(s', s'')
    ensures Stuck(s, s'')
  {
    forall c | c in s.conns
      ensures c in s''.conns && s.conns[c].queue <= s''.conns[c].queue
    {
      assert s.conns[c].queue <= s'.conns[c].queue <= s''.conns[c].queue;
    }
  }

  lemma {:induction false} StaysStuck(s: State, steps: seq<WriteStep>)
    requires WriteInv(s) && s.pc.Dead? && LegalRun(s, steps)
    ensures Stuck(s, RunTo(s, steps))
    decreases |steps|
  {
    hide WriteInv, CanDo, Do;
    if steps != [] {
      HasQueues(s);
      StuckStep(s, steps[0]);
      WriteStepKeeps(s, steps[0]);
      hide Stuck;
      IsDead(s, Do(s, steps[0]));
      StaysStuck(Do(s, steps[0]), steps[1..]);
      StuckTwice(s, Do(s, steps[0]), RunTo(s, steps));
    }
  }

  lemma HasQueues(s: State)
    requires WriteInv(s)
    ensures QueuesOk(s)
  {
  }

  lemma IsDead(s: State, s': State)
    requires Stuck(s, s')
    ensures s'.pc.Dead?
  {
  }

  /** Once the selector thread is dead, in no continuation of the run is anything
      written, for any connection, or any request run. */
  lemma DeadForEver(steps: seq<WriteStep>, more: seq<WriteStep>)
    requires LegalRun(START, steps) && RunTo(START, steps).pc.Dead? && LegalRun(RunTo(START, steps), more)
    ensures Stuck(RunTo(START, steps), RunTo(RunTo(START, steps), more))
  {
    hide LegalRun, RunTo, Stuck, WriteInv;
    WriteRunKeeps(START, steps);
    StaysStuck(RunTo(START, steps), more);
  }

  // ----- A run -----

  /** A connection with a message queued, whose key has been selected. */
  function Watching(c: nat, msg: string, pc: Pc): State {
    State(map[c := Wire([0], true, true, false, "", [msg])], map[0 := Encode(msg)], 1, [], false, map[], pc)
  }

  function Opening(c: nat, t: nat, msg: string): seq<WriteStep> {
    [Accept(c), AddBuffer(t, c, msg), AddTask(t, false), WakeUp(t)]
  }

  const FOUR_TURNS := [Turn(0, false), Turn(0, false), Turn(0, false), Turn(0, false)]

  lemma Opens(c: nat, t: nat, msg: string)
    ensures var s := Watching(c, msg, AtSelect);
            && LegalRun(START, Opening(c, t, msg))
            && RunTo(START, Opening(c, t, msg)) ==
               s.(conns := s.conns[c := s.conns[c].(wantsWrite := false)], tasks := [c], token := true)
  {
    var w := Wire([], false, true, false, "", []);
    var s1 := START.(conns := map[c := w]);
    var w' := w.(queue := [0], sent := [msg]);
    var s2 := State(map[c := w'], map[0 := Encode(msg)], 1, [], false, map[t := Queued(c)], AtSelect);
    var s3 := s2.(tasks := [c], senders := map[t := Asked]);
    RunOne(START, Accept(c));
    assert Do(START, Accept(c)) == s1;
    assert s1.conns[c := w'] == s2.conns && s1.bufs[0 := Encode(msg)] == s2.bufs;
    assert [] + [0] == [0] && [] + [msg] == [msg];
    assert s1.senders[t := Queued(c)] == s2.senders && s2.senders[t := Asked] == s3.senders && s2.tasks + [c] == [c];
    assert Do(s1, AddBuffer(t, c, msg)) == s2 && Do(s2, AddTask(t, false)) == s3;
    assert Do(s3, WakeUp(t)) == s3.(token := true, senders := map[]) by {
      assert s3.senders - {t} == map[];
    }
    assert CanDo(s1, AddBuffer(t, c, msg)) && CanDo(s2, AddTask(t, false)) && CanDo(s3, WakeUp(t));
    hide CanDo, Do, LegalRun, RunTo;
    RunSnoc(START, [Accept(c)], AddBuffer(t, c, msg));
    RunSnoc(START, [Accept(c)] + [AddBuffer(t, c, msg)], AddTask(t, false));
    RunSnoc(START, [Accept(c)] + [AddBuffer(t, c, msg)] + [AddTask(t, false)], WakeUp(t));
    assert [Accept(c)] + [AddBuffer(t, c, msg)] + [AddTask(t, false)] + [WakeUp(t)] == Opening(c, t, msg);
  }

  /** The request is run, and the selector goes to sleep again. */
  lemma Watches(c: nat, msg: string)
    ensures var s := Watching(c, msg, AtSelect);
            var was := s.(conns := s.conns[c := s.conns[c].(wantsWrite := false)], tasks := [c], token := true);
            LegalRun(was, [Select([])] + FOUR_TURNS) && RunTo(was, [Select([])] + FOUR_TURNS) == s
  {
    var s, turn := Watching(c, msg, AtSelect), Turn(0, false);
    var was := s.(conns := s.conns[c := s.conns[c].(wantsWrite := false)], tasks := [c], token := true);
    var s1 := was.(token := false, pc := AtTasks([]));
    var s2 := s1.(tasks := [], pc := AtTask(c, []));
    var s3, s4 := Watching(c, msg, AtTasks([])), Watching(c, msg, AtKeys([]));
    RunOne(was, Select([]));
    assert Do(was, Select([])) == s1;
    assert Do(s1, turn) == s2 && Do(s2, turn) == s3 && Do(s3, turn) == s4 && Do(s4, turn) == s;
    assert CanDo(s1, turn) && CanDo(s2, turn) && CanDo(s3, turn) && CanDo(s4, turn);
    hide CanDo, Do, LegalRun, RunTo;
    RunSnoc(was, [Select([])], turn);
    RunSnoc(was, [Select([])] + [turn], turn);
    RunSnoc(was, [Select([])] + [turn] + [turn], turn);
    RunSnoc(was, [Select([])] + [turn] + [turn] + [turn], turn);
    assert [Select([])] + [turn] + [turn] + [turn] + [turn] == [Select([])] + FOUR_TURNS;
  }

  function Killing(c: nat): seq<WriteStep> {
    [Select([c]), Turn(0, false), Turn(0, false), Close(c), Turn(0, true)]
  }

  /** The key is selected, found valid, cancelled, and asked again. */
  lemma Kills(c: nat, msg: string)
    ensures LegalRun(Watching(c, msg, AtSelect), Killing(c))
    ensures RunTo(Watching(c, msg, AtSelect), Killing(c)).pc.Dead?
  {
    var s, turn := Watching(c, msg, AtSelect), Turn(0, false);
    var s1, s2, s3 := Watching(c, msg, AtTasks([c])), Watching(c, msg, AtKeys([c])), Watching(c, msg, AtKey(c, []));
    var s4 := s3.(conns := s3.conns[c := s3.conns[c].(open := false)]);
    RunOne(s, Select([c]));
    assert Do(s, Select([c])) == s1;
    assert [c][1..] == [] && [c][0] == c;
    assert Do(s1, turn) == s2 && Do(s2, turn) == s3 && Do(s3, Close(c)) == s4 && Do(s4, Turn(0, true)).pc.Dead?;
    assert CanDo(s1, turn) && CanDo(s2, turn) && CanDo(s3, Close(c)) && CanDo(s4, Turn(0, true));
    hide CanDo, Do, LegalRun, RunTo;
    RunSnoc(s, [Select([c])], turn);
    RunSnoc(s, [Select([c])] + [turn], turn);
    RunSnoc(s, [Select([c])] + [turn] + [turn], Close(c));
    RunSnoc(s, [Select([c])] + [turn] + [turn] + [Close(c)], Turn(0, true));
    assert [Select([c])] + [turn] + [turn] + [Close(c)] + [Turn(0, true)] == Killing(c);
  }

  /** A run from the beginning: a connection is accepted, a message is queued for
      it, its key is selected and found valid, the connection is closed, and the
      selector thread dies. */
  lemma SelectorCanDie(c: nat, t: nat, msg: string)
    ensures var steps := Opening(c, t, msg) + ([Select([])] + FOUR_TURNS) + Killing(c);
            LegalRun(START, steps) && RunTo(START, steps).pc.Dead?
  {
    hide *;
    Opens(c, t, msg);
    Watches(c, msg);
    Kills(c, msg);
    RunAppend(START, Opening(c, t, msg), [Select([])] + FOUR_TURNS);
    RunAppend(START, Opening(c, t, msg) + ([Select([])] + FOUR_TURNS), Killing(c));
  }
}
