/** The reactor's code as it is written: each method runs a piece of it in one
    go, and is proved to take only steps of the write path's state machine. */
module SelectorThread {
  import opened FrameCodec
  import opened WritePath

  /** What the channel makes of one write: how many bytes it takes, or that it
      fails after an unknown number. */
  datatype Take = Takes(n: nat) | Fails(n: nat)

  lemma {:induction false} RunAppend(s: State, steps: seq<WriteStep>, more: seq<WriteStep>)
    requires LegalRun(s, steps) && LegalRun(RunTo(s, steps), more)
    ensures LegalRun(s, steps + more)
    ensures RunTo(s, steps + more) == RunTo(RunTo(s, steps), more)
    decreases |steps|
  {
    if steps == [] {
      assert steps + more == more;
    } else {
      RunAppend(Do(s, steps[0]), steps[1..], more);
      assert (steps + more)[1..] == steps[1..] + more;
    }
  }

  lemma RunNone(s: State)
    ensures LegalRun(s, []) && RunTo(s, []) == s
  {
  }

  lemma RunOne(s: State, step: WriteStep)
    requires CanDo(s, step)
    ensures LegalRun(s, [step]) && RunTo(s, [step]) == Do(s, step)
  {
    assert [step][1..] == [];
  }

  lemma RunSnoc(s: State, steps: seq<WriteStep>, step: WriteStep)
    requires LegalRun(s, steps) && CanDo(RunTo(s, steps), step)
    ensures LegalRun(s, steps + [step])
    ensures RunTo(s, steps + [step]) == Do(RunTo(s, steps), step)
  {
    RunOne(RunTo(s, steps), step);
    RunAppend(s, steps, [step]);
  }

  const TWO_TURNS := [Turn(0, false), Turn(0, false)]

  /** A queued request is removed and run. */
  lemma RunsTask(s: State, keys: seq<nat>)
    requires s.pc == AtTasks(keys) && s.tasks != [] && s.tasks[0] in s.conns
    ensures LegalRun(s, TWO_TURNS)
    ensures var c := s.tasks[0];
            RunTo(s, TWO_TURNS) == s.(tasks := s.tasks[1..], conns :=
              if s.conns[c].open then s.conns[c := s.conns[c].(wantsWrite := true)] else s.conns)
  {
    var s1 := Do(s, Turn(0, false));
    RunOne(s, Turn(0, false));
    RunOne(s1, Turn(0, false));
    assert TWO_TURNS[1..] == [Turn(0, false)];
  }

  lemma RunsDry(s: State, keys: seq<nat>)
    requires s.pc == AtTasks(keys) && s.tasks == []
    ensures CanDo(s, Turn(0, false)) && Do(s, Turn(0, false)) == s.(pc := AtKeys(keys))
  {
  }

  /** The open connections among these are watched for writing. */
  function Watched(conns: map<nat, Wire>, asked: seq<nat>): map<nat, Wire> {
    map c | c in conns :: if c in asked && conns[c].open then conns[c].(wantsWrite := true) else conns[c]
  }

  lemma WatchedNext(conns: map<nat, Wire>, all: seq<nat>, i: nat)
    requires i < |all| && all[i] in conns
    ensures var c, now := all[i], Watched(conns, all[..i]);
            && c in now
            && Watched(conns, all[..i + 1]) == if now[c].open then now[c := now[c].(wantsWrite := true)] else now
  {
    assert all[..i + 1] == all[..i] + [all[i]];
  }

  function Chunk(s: State, c: nat, take: Take): nat
    requires c in s.conns && s.conns[c].queue != [] && s.conns[c].queue[0] in s.bufs
  {
    var n := |s.bufs[s.conns[c].queue[0]]|;
    if take.n < n then take.n else n
  }

  /** One round of the loop in continueWrite. */
  function Round(s: State, c: nat, keys: seq<nat>, take: Take): State
    requires c in s.conns && s.conns[c].queue != [] && s.conns[c].queue[0] in s.bufs
  {
    var w, top, n := s.conns[c], s.conns[c].queue[0], Chunk(s, c, take);
    var chunk, rest := s.bufs[top][..n], s.bufs[top][n..];
    if take.Fails? then
      s.(conns := s.conns[c := w.(open := false, failed := true)], bufs := s.bufs[top := rest], pc := AtLoop(c, keys))
    else if rest != "" then
      s.(conns := s.conns[c := w.(out := w.out + chunk)], bufs := s.bufs[top := rest], pc := AtKeys(keys))
    else
      s.(conns := s.conns[c := w.(out := w.out + chunk, queue := w.queue[1..])], bufs := s.bufs[top := rest],
         pc := AtLoop(c, keys))
  }

  function RoundSteps(n: nat, take: Take): seq<WriteStep> {
    TWO_TURNS + if take.Fails? then [Turn(n, true)] else [Turn(n, false), Turn(0, false)]
  }

  /** The first buffer is peeked at. */
  lemma RunsPeek(s: State, c: nat, keys: seq<nat>)
    requires s.pc == AtLoop(c, keys) && c in s.conns && s.conns[c].open && s.conns[c].queue != []
    ensures LegalRun(s, TWO_TURNS) && RunTo(s, TWO_TURNS) == s.(pc := AtWrite(c, s.conns[c].queue[0], keys))
  {
    var step := Turn(0, false);
    var s1 := s.(pc := AtPeek(c, keys));
    RunOne(s, step);
    assert Do(s, step) == s1;
    assert Do(s1, step) == s1.(pc := AtWrite(c, s.conns[c].queue[0], keys));
    hide Do;
    RunSnoc(s, [step], step);
    assert TWO_TURNS == [step] + [step];
  }

  /** The write, and the removal when all was written. */
  lemma RunsWrite(s: State, c: nat, keys: seq<nat>, take: Take)
    requires c in s.conns && s.conns[c].open && s.conns[c].queue != [] && s.conns[c].queue[0] in s.bufs
    ensures var s2, n := s.(pc := AtWrite(c, s.conns[c].queue[0], keys)), Chunk(s, c, take);
            && CanDo(s2, Turn(n, take.Fails?))
            && var s3 := Do(s2, Turn(n, take.Fails?));
               if take.Fails? then s3 == Round(s, c, keys, take)
               else CanDo(s3, Turn(0, false)) && Do(s3, Turn(0, false)) == Round(s, c, keys, take)
  {
  }

  lemma RunsRound(s: State, c: nat, keys: seq<nat>, take: Take)
    requires s.pc == AtLoop(c, keys) && c in s.conns && s.conns[c].open
    requires s.conns[c].queue != [] && s.conns[c].queue[0] in s.bufs
    ensures var steps := RoundSteps(Chunk(s, c, take), take);
            LegalRun(s, steps) && RunTo(s, steps) == Round(s, c, keys, take)
  {
    hide LegalRun, RunTo, Do, CanDo;
    var n, step := Chunk(s, c, take), Turn(0, false);
    var s2 := s.(pc := AtWrite(c, s.conns[c].queue[0], keys));
    RunsPeek(s, c, keys);
    RunsWrite(s, c, keys, take);
    RunOne(s2, Turn(n, take.Fails?));
    if take.Takes? {
      RunSnoc(s2, [Turn(n, false)], step);
      assert [Turn(n, false)] + [step] == [Turn(n, false), step];
      RunAppend(s, TWO_TURNS, [Turn(n, false), step]);
    } else {
      RunAppend(s, TWO_TURNS, [Turn(n, true)]);
    }
  }

  /** Behind the loop. */
  lemma RunsOut(s: State, c: nat, keys: seq<nat>)
    requires s.pc == AtLoop(c, keys) && c in s.conns && (s.conns[c].queue == [] || !s.conns[c].open)
    ensures LegalRun(s, TWO_TURNS)
    ensures RunTo(s, TWO_TURNS) == s.(pc := if s.conns[c].queue == [] then AtIdle(c, keys) else AtKeys(keys))
  {
    var step := Turn(0, false);
    var s1 := s.(pc := AtEmpty(c, keys));
    RunOne(s, step);
    assert Do(s, step) == s1;
    hide LegalRun, RunTo;
    RunSnoc(s, [step], step);
    assert TWO_TURNS == [step] + [step];
  }

  /** What becomes of a connection whose queue has been seen empty. */
  lemma RunsIdle(s: State, c: nat, keys: seq<nat>, n: nat, bad: bool)
    requires s.pc == AtIdle(c, keys) && c in s.conns
    ensures CanDo(s, Turn(n, bad))
    ensures Do(s, Turn(n, bad)) ==
            if n == 1 then s.(conns := s.conns[c := s.conns[c].(open := false)], pc := AtKeys(keys))
            else if s.conns[c].open then s.(conns := s.conns[c := s.conns[c].(wantsWrite := false)], pc := AtKeys(keys))
            else s.(pc := if bad then Dead else AtKeys(keys))
  {
  }

  // ----- What one call writes -----

  predicate Distinct(queue: seq<nat>) {
    forall i, j | 0 <= i < j < |queue| :: queue[i] != queue[j]
  }

  /** The first `k` buffers of the queue are taken whole, one a write. */
  predicate TakenWhole(bufs: map<nat, string>, queue: seq<nat>, takes: seq<Take>, k: nat) {
    && k <= |queue| && k <= |takes|
    && forall i | 0 <= i < k :: queue[i] in bufs && takes[i].Takes? && |bufs[queue[i]]| <= takes[i].n
  }

  predicate OnlyConn(s: State, s': State, c: nat) {
    && c in s.conns && c in s'.conns && s'.conns == s.conns[c := s'.conns[c]]
    && s'.tasks == s.tasks && s'.token == s.token && s'.senders == s.senders && s'.next == s.next
  }

  /** The first `k` buffers are off the queue and on the channel. */
  predicate WholeSoFar(s: State, s': State, c: nat, takes: seq<Take>, k: nat) {
    && OnlyConn(s, s', c) && TakenWhole(s.bufs, s.conns[c].queue, takes, k)
    && var w, q := s.conns[c], s.conns[c].queue;
       && s'.conns[c] == w.(queue := q[k..], out := w.out + Left(s.bufs, q[..k]))
       && forall i | k <= i < |q| :: q[i] in s.bufs && q[i] in s'.bufs && s'.bufs[q[i]] == s.bufs[q[i]]
  }

  /** The write of buffer `k` is the last one: it fails, or takes only a part. */
  predicate Stopped(s: State, s': State, c: nat, takes: seq<Take>, k: nat) {
    && OnlyConn(s, s', c) && TakenWhole(s.bufs, s.conns[c].queue, takes, k)
    && var w, w', q := s.conns[c], s'.conns[c], s.conns[c].queue;
       && k < |takes| && k < |q| && q[k] in s.bufs && q[k] in s'.bufs
       && w'.queue == q[k..] && w'.wantsWrite == w.wantsWrite && w'.sent == w.sent
       && var gone, last := Left(s.bufs, q[..k]), s.bufs[q[k]];
          match takes[k]
          case Fails(_) => !w'.open && w'.failed && w'.out == w.out + gone
          case Takes(n) =>
            && n < |last| && w'.open && w'.failed == w.failed
            && w'.out == w.out + gone + last[..n] && s'.bufs[q[k]] == last[n..]
  }

  /** What one call of continueWrite does: buffers go as long as they are taken
      whole; the end of an open queue changes nothing more than the interest and
      the connection itself. */
  predicate Wrote(s: State, s': State, c: nat, takes: seq<Take>, k: nat) {
    && OnlyConn(s, s', c)
    && var w, w', q := s.conns[c], s'.conns[c], s.conns[c].queue;
       if w.open && k < |q| then Stopped(s, s', c, takes, k)
       else
         && k == (if w.open then |q| else 0) && TakenWhole(s.bufs, q, takes, k)
         && w' == w.(queue := q[k..], out := w.out + Left(s.bufs, q[..k]), open := w'.open, wantsWrite := w'.wantsWrite)
  }

  /** The loop's invariant: the last write has failed, or all were whole. */
  predicate SoFar(s: State, now: State, c: nat, takes: seq<Take>, k: nat) {
    && c in s.conns && c in now.conns
    && if s.conns[c].open && !now.conns[c].open then Stopped(s, now, c, takes, k)
       else WholeSoFar(s, now, c, takes, k) && (!s.conns[c].open ==> k == 0)
  }

  lemma NothingTaken(s: State, c: nat, takes: seq<Take>)
    requires c in s.conns && forall i | 0 <= i < |s.conns[c].queue| :: s.conns[c].queue[i] in s.bufs
    ensures SoFar(s, s, c, takes, 0)
  {
    var w := s.conns[c];
    assert w.queue[..0] == [] && w.queue[0..] == w.queue;
    assert w.out + "" == w.out;
  }

  lemma LeftNext(w: Wire, bufs: map<nat, string>, k: nat)
    requires k < |w.queue| && w.queue[k] in bufs
    ensures w.queue[k..][0] == w.queue[k] && w.queue[k..][1..] == w.queue[k + 1..]
    ensures w.out + Left(bufs, w.queue[..k]) + bufs[w.queue[k]] == w.out + Left(bufs, w.queue[..k + 1])
  {
    assert w.queue[..k + 1] == w.queue[..k] + [w.queue[k]];
    LeftSnoc(bufs, w.queue[..k], w.queue[k]);
  }

  /** What is still queued, and that the next round can be run. */
  lemma SoFarGives(s: State, now: State, c: nat, takes: seq<Take>, k: nat)
    requires WholeSoFar(s, now, c, takes, k)
    ensures c in s.conns && c in now.conns && k <= |s.conns[c].queue| && now.conns[c].open == s.conns[c].open
    ensures now.conns[c].queue == s.conns[c].queue[k..]
    ensures now.conns[c].queue != [] ==> k < |s.conns[c].queue| && now.conns[c].queue[0] in now.bufs
    ensures k == |s.conns[c].queue| || !s.conns[c].open ==> now.conns[c].wantsWrite == s.conns[c].wantsWrite
  {
    hide Left;
  }

  /** One round takes the next buffer whole, or is the last. */
  lemma RoundWrites(s: State, now: State, c: nat, keys: seq<nat>, takes: seq<Take>, k: nat)
    requires WholeSoFar(s, now, c, takes, k) && Distinct(s.conns[c].queue)
    requires k < |s.conns[c].queue| && k < |takes| && now.conns[c].open
    ensures now.conns[c].queue != [] && now.conns[c].queue[0] in now.bufs
    ensures var next := Round(now, c, keys, takes[k]);
            && c in next.conns
            && if next.pc.AtLoop? && next.conns[c].open then WholeSoFar(s, next, c, takes, k + 1)
               else Stopped(s, next, c, takes, k) && (next.conns[c].open <==> takes[k].Takes?)
  {
    hide Left;
    LeftNext(s.conns[c], s.bufs, k);
    var q := s.conns[c].queue;
    assert now.conns[c].queue[0] == q[k];
    assert forall i | k < i < |q| :: q[i] != q[k];
  }

  /** Behind the loop. */
  lemma EndOfCall(s: State, now: State, c: nat, takes: seq<Take>, k: nat)
    requires c in now.conns && (now.conns[c].queue == [] || !now.conns[c].open)
    requires SoFar(s, now, c, takes, k)
    ensures Wrote(s, now, c, takes, k)
    ensures now.conns[c].queue == [] ==> now.conns[c].open == s.conns[c].open
    ensures now.conns[c].queue != [] ==> now.conns[c].wantsWrite == s.conns[c].wantsWrite
  {
    hide Left;
  }

  lemma EndOfStop(s: State, now: State, c: nat, takes: seq<Take>, k: nat)
    requires Stopped(s, now, c, takes, k) && s.conns[c].open
    ensures Wrote(s, now, c, takes, k) && now.conns[c].queue != [] && now.conns[c].wantsWrite == s.conns[c].wantsWrite
  {
    hide Left, TakenWhole;
  }

  lemma Ends(s: State, now: State, s': State, c: nat, takes: seq<Take>, k: nat)
    requires Wrote(s, now, c, takes, k) && s' == now.(pc := s'.pc)
    ensures Wrote(s, s', c, takes, k)
  {
    hide Left, TakenWhole;
  }

  /** Closing, or stopping to watch. */
  lemma IdleWrites(s: State, now: State, s': State, c: nat, takes: seq<Take>, k: nat)
    requires Wrote(s, now, c, takes, k) && now.conns[c].queue == []
    requires OnlyConn(now, s', c) && s'.conns[c] == now.conns[c].(open := s'.conns[c].open,
                                                                  wantsWrite := s'.conns[c].wantsWrite)
    ensures Wrote(s, s', c, takes, k)
  {
    hide Left, TakenWhole;
  }

  /** The steps of the rounds so far lead here. */
  predicate Doing(s: State, steps: seq<WriteStep>, now: State, c: nat, takes: seq<Take>, k: nat) {
    LegalRun(s, steps) && RunTo(s, steps) == now && SoFar(s, now, c, takes, k)
  }

  lemma StartsDoing(s: State, c: nat, takes: seq<Take>)
    requires c in s.conns && forall i | 0 <= i < |s.conns[c].queue| :: s.conns[c].queue[i] in s.bufs
    ensures Doing(s, [], s, c, takes, 0)
  {
    RunNone(s);
    NothingTaken(s, c, takes);
    hide SoFar;
  }

  /** Another round would have less to do. */
  predicate Shorter(now: State, next: State, c: nat) {
    && c in now.conns && c in next.conns
    && var q, q' := now.conns[c].queue, next.conns[c].queue;
       |q'| <= |q| && (next.pc.AtLoop? && next.conns[c].open ==> |q'| < |q|)
  }

  lemma RoundShortens(now: State, c: nat, keys: seq<nat>, take: Take)
    requires c in now.conns && now.conns[c].queue != [] && now.conns[c].queue[0] in now.bufs
    ensures Shorter(now, Round(now, c, keys, take), c)
  {
  }

  /** Everything about one round: what it writes, its steps, and what it means
      for the call. */
  lemma NextRound(s: State, steps: seq<WriteStep>, now: State, c: nat, keys: seq<nat>, takes: seq<Take>, k: nat)
    returns (more: seq<WriteStep>)
    requires Doing(s, steps, now, c, takes, k) && now.pc == AtLoop(c, keys) && c in s.conns && c in now.conns
    requires Distinct(s.conns[c].queue) && |s.conns[c].queue| <= |takes|
    requires now.conns[c].open && now.conns[c].queue != []
    ensures k < |s.conns[c].queue| && now.conns[c].queue[0] in now.bufs && s.conns[c].open
    ensures Shorter(now, Round(now, c, keys, takes[k]), c)
    ensures var next := Round(now, c, keys, takes[k]);
            && c in next.conns
            && (next.pc.AtLoop? ==> Doing(s, more, next, c, takes, if next.conns[c].open then k + 1 else k))
            && (next.pc.AtKeys? ==>
                  && LegalRun(s, more) && RunTo(s, more) == next && Wrote(s, next, c, takes, k)
                  && next.conns[c].queue != [] && next.conns[c].wantsWrite == s.conns[c].wantsWrite)
  {
    hide LegalRun, RunTo, CanDo, Do, RoundSteps, Chunk, Round, Left, Distinct, WholeSoFar, Stopped, Wrote, TakenWhole,
         OnlyConn;
    SoFarGives(s, now, c, takes, k);
    RunsRound(now, c, keys, takes[k]);
    more := RoundSteps(Chunk(now, c, takes[k]), takes[k]);
    RunAppend(s, steps, more);
    RoundWrites(s, now, c, keys, takes, k);
    RoundShortens(now, c, keys, takes[k]);
    var next := Round(now, c, keys, takes[k]);
    if next.pc.AtKeys? {
      EndOfStop(s, next, c, takes, k);
    }
    more := steps + more;
  }

  /** Behind the loop, up to the idle test. */
  lemma NoMoreRounds(s: State, steps: seq<WriteStep>, now: State, c: nat, keys: seq<nat>, takes: seq<Take>, k: nat)
    returns (more: seq<WriteStep>)
    requires Doing(s, steps, now, c, takes, k) && now.pc == AtLoop(c, keys)
    requires c in now.conns && (now.conns[c].queue == [] || !now.conns[c].open)
    ensures LegalRun(s, more) && Wrote(s, RunTo(s, more), c, takes, k) && c in s.conns
    ensures RunTo(s, more) == now.(pc := if now.conns[c].queue == [] then AtIdle(c, keys) else AtKeys(keys))
    ensures now.conns[c].queue == [] ==> now.conns[c].open == s.conns[c].open
    ensures now.conns[c].queue != [] ==> now.conns[c].wantsWrite == s.conns[c].wantsWrite
  {
    EndOfCall(s, now, c, takes, k);
    hide LegalRun, RunTo, CanDo, Do, Left, WholeSoFar, Stopped, Wrote, TakenWhole, OnlyConn;
    RunsOut(now, c, keys);
    RunAppend(s, steps, TWO_TURNS);
    more := steps + TWO_TURNS;
    Ends(s, now, RunTo(s, more), c, takes, k);
  }

  /** The idle test itself. */
  lemma Idled(s: State, steps: seq<WriteStep>, now: State, s': State, c: nat, takes: seq<Take>, k: nat,
              last: WriteStep) returns (more: seq<WriteStep>)
    requires LegalRun(s, steps) && RunTo(s, steps) == now && Wrote(s, now, c, takes, k)
    requires CanDo(now, last) && Do(now, last) == s'
    requires c in now.conns && c in s'.conns && now.conns[c].queue == [] && OnlyConn(now, s', c)
    requires s'.conns[c] == now.conns[c].(open := s'.conns[c].open, wantsWrite := s'.conns[c].wantsWrite)
    ensures LegalRun(s, more) && RunTo(s, more) == s' && Wrote(s, s', c, takes, k)
  {
    hide LegalRun, RunTo, CanDo, Do, Wrote, OnlyConn;
    RunSnoc(s, steps, last);
    IdleWrites(s, now, s', c, takes, k);
    more := steps + [last];
  }

  // ----- What one send does -----

  /** The buffer is queued. */
  function Enqueued(s: State, c: nat, msg: string): State
    requires c in s.conns
  {
    var w := s.conns[c];
    s.(conns := s.conns[c := w.(queue := w.queue + [s.next], sent := w.sent + [msg])],
       bufs := s.bufs[s.next := Encode(msg)], next := s.next + 1)
  }

  /** A send in one piece. */
  lemma SendSteps(s: State, t: nat, c: nat, msg: string) returns (steps: seq<WriteStep>)
    requires c in s.conns && t !in s.senders
    ensures LegalRun(s, steps)
    ensures RunTo(s, steps) ==
            if s.conns[c].open then Enqueued(s, c, msg).(tasks := s.tasks + [c], token := true)
            else Enqueued(s, c, msg)
  {
    var s1 := Enqueued(s, c, msg).(senders := s.senders[t := Queued(c)]);
    var keyGone := !s.conns[c].open;
    assert Do(s, AddBuffer(t, c, msg)) == s1;
    RunOne(s, AddBuffer(t, c, msg));
    Removed(s.senders, t, Queued(c), Asked);
    Removed(s.senders, t, Asked, Queued(c));
    var s2 := if keyGone then Enqueued(s, c, msg)
              else Enqueued(s, c, msg).(tasks := s.tasks + [c], senders := s.senders[t := Asked]);
    assert CanDo(s1, AddTask(t, keyGone)) && Do(s1, AddTask(t, keyGone)) == s2;
    assert !keyGone ==> CanDo(s2, WakeUp(t)) && Do(s2, WakeUp(t)) == s2.(token := true, senders := s.senders);
    hide LegalRun, RunTo, CanDo, Do, Enqueued;
    RunSnoc(s, [AddBuffer(t, c, msg)], AddTask(t, keyGone));
    steps := [AddBuffer(t, c, msg)] + [AddTask(t, keyGone)];
    if !keyGone {
      RunSnoc(s, steps, WakeUp(t));
      steps := steps + [WakeUp(t)];
    }
  }

  lemma Removed(senders: map<nat, Sender>, t: nat, x: Sender, y: Sender)
    requires t !in senders
    ensures senders[t := x] - {t} == senders && senders[t := y][t := x] == senders[t := x]
  {
  }

  class Reactor {
    var conns: map<nat, Wire>
    var bufs: map<nat, string>
    var next: nat
    var tasks: seq<nat>
    var token: bool
    var senders: map<nat, Sender>

    ghost function Abs(pc: Pc): State
      reads this
    {
      State(conns, bufs, next, tasks, token, senders, pc)
    }

    constructor ()
      ensures Abs(AtSelect) == START
    {
      conns, bufs, next, tasks, token, senders := map[], map[], 0, [], false, map[];
    }

    /** send, on a thread of the pool: queue the buffer, ask for write interest
        unless the key is gone, and wake the selector up. */
    method Send(thread: nat, conn: nat, msg: string, ghost pc: Pc) returns (ghost steps: seq<WriteStep>)
      requires conn in conns && thread !in senders
      modifies this
      ensures LegalRun(old(Abs(pc)), steps) && RunTo(old(Abs(pc)), steps) == Abs(pc)
      ensures conns == old(conns)[conn := old(conns)[conn].(queue := old(conns)[conn].queue + [old(next)],
                                                           sent := old(conns)[conn].sent + [msg])]
      ensures bufs == old(bufs)[old(next) := Encode(msg)] && next == old(next) + 1 && senders == old(senders)
      ensures if old(conns)[conn].open then tasks == old(tasks) + [conn] && token
              else tasks == old(tasks) && token == old(token)
    {
      steps := SendSteps(Abs(pc), thread, conn, msg);
      hide LegalRun, RunTo, Encode;
      ghost var others := senders;
      var w := conns[conn];
      bufs := bufs[next := Encode(msg)];
      conns := conns[conn := w.(queue := w.queue + [next], sent := w.sent + [msg])];
      next := next + 1;
      senders := senders[thread := Queued(conn)];
      var keyGone := !w.open;
      if !keyGone {
        tasks := tasks + [conn];
        senders := senders[thread := Asked];
        token := true;
      }
      senders := senders - {thread};
      assert senders == others;
    }

    /** runSelectionThreadTasks: every queued request is run, and those of
        connections that are still open take effect. */
    method RunSelectionThreadTasks(ghost keys: seq<nat>) returns (ghost steps: seq<WriteStep>)
      requires forall c | c in tasks :: c in conns
      modifies this
      ensures LegalRun(old(Abs(AtTasks(keys))), steps)
      ensures RunTo(old(Abs(AtTasks(keys))), steps) == Abs(AtKeys(keys))
      ensures tasks == [] && conns == Watched(old(conns), old(tasks))
      ensures bufs == old(bufs) && next == old(next) && token == old(token) && senders == old(senders)
    {
      ghost var before, all := Abs(AtTasks(keys)), tasks;
      ghost var i := 0;
      steps := [];
      assert all[..0] == [];
      RunNone(before);
      hide LegalRun, RunTo, CanDo, Do;
      while tasks != []
        invariant i <= |all| && tasks == all[i..] && conns == Watched(old(conns), all[..i])
        invariant forall c | c in all :: c in old(conns)
        invariant bufs == old(bufs) && next == old(next) && token == old(token) && senders == old(senders)
        invariant LegalRun(before, steps) && RunTo(before, steps) == Abs(AtTasks(keys))
        decreases |tasks|
      {
        var conn := tasks[0];
        assert conn == all[i] && all[i] in all;
        WatchedNext(old(conns), all, i);
        RunsTask(Abs(AtTasks(keys)), keys);
        RunAppend(before, steps, TWO_TURNS);
        hide Watched;
        steps := steps + TWO_TURNS;
        tasks := tasks[1..];
        assert tasks == all[i + 1..];
        if conns[conn].open {
          conns := conns[conn := conns[conn].(wantsWrite := true)];
        }
        i := i + 1;
      }
      assert all[..i] == all;
      RunsDry(Abs(AtTasks(keys)), keys);
      RunSnoc(before, steps, Turn(0, false));
      steps := steps + [Turn(0, false)];
    }

    /** One round of continueWrite: the first buffer is written, and removed when
        nothing of it is left over.  When the write fails the connection is
        closed. */
    method WriteFirst(conn: nat, take: Take, ghost keys: seq<nat>) returns (leftOver: bool)
      requires conn in conns && conns[conn].open && conns[conn].queue != [] && conns[conn].queue[0] in bufs
      modifies this`conns, this`bufs
      ensures Abs(if leftOver then AtKeys(keys) else AtLoop(conn, keys)) ==
              Round(old(Abs(AtLoop(conn, keys))), conn, keys, take)
    {
      var top := conns[conn].queue[0];
      var n := if take.n < |bufs[top]| then take.n else |bufs[top]|;
      var w, chunk := conns[conn], bufs[top][..n];
      bufs := bufs[top := bufs[top][n..]];
      leftOver := false;
      if take.Fails? {
        conns := conns[conn := w.(open := false, failed := true)];
      } else if bufs[top] != "" {
        conns := conns[conn := w.(out := w.out + chunk)];
        leftOver := true;
      } else {
        conns := conns[conn := w.(out := w.out + chunk, queue := w.queue[1..])];
      }
    }

    /** continueWrite, on the selector thread.  It writes buffers off the queue as
        long as the channel takes them whole, stops early when a buffer is left
        over, and stops watching when it has seen the queue empty; then a
        cancelled key would throw. */
    method ContinueWrite(conn: nat, takes: seq<Take>, shouldTerminate: bool, keyCancelled: bool, ghost keys: seq<nat>)
      returns (ghost steps: seq<WriteStep>, ghost pc: Pc, k: nat)
      requires conn in conns && Distinct(conns[conn].queue)
      requires forall i | 0 <= i < |conns[conn].queue| :: conns[conn].queue[i] in bufs
      requires |conns[conn].queue| <= |takes|
      modifies this
      ensures LegalRun(old(Abs(AtLoop(conn, keys))), steps) && RunTo(old(Abs(AtLoop(conn, keys))), steps) == Abs(pc)
      ensures Wrote(old(Abs(AtLoop(conn, keys))), Abs(pc), conn, takes, k)
      ensures conn in conns
      ensures if conns[conn].queue != []
              then pc == AtKeys(keys) && conns[conn].wantsWrite == old(conns)[conn].wantsWrite
              else
                && conns[conn].open == (old(conns)[conn].open && !shouldTerminate)
                && (conns[conn].open ==> !conns[conn].wantsWrite)
                && pc == if keyCancelled && !shouldTerminate && !conns[conn].open then Dead else AtKeys(keys)
    {
      ghost var before := Abs(AtLoop(conn, keys));
      k, steps := 0, [];
      StartsDoing(before, conn, takes);
      hide LegalRun, RunTo, CanDo, Do, Left, Distinct, Doing, Wrote, OnlyConn, Chunk, Round;
      while conns[conn].queue != [] && conns[conn].open
        invariant conn in conns && Doing(before, steps, Abs(AtLoop(conn, keys)), conn, takes, k)
        decreases |conns[conn].queue|, conns[conn].open
      {
        steps := NextRound(before, steps, Abs(AtLoop(conn, keys)), conn, keys, takes, k);
        var leftOver := WriteFirst(conn, takes[k], keys);
        if leftOver {
          pc := AtKeys(keys);
          return;
        }
        if conns[conn].open {
          k := k + 1;
        }
      }
      steps := NoMoreRounds(before, steps, Abs(AtLoop(conn, keys)), conn, keys, takes, k);
      pc := AtKeys(keys);
      if conns[conn].queue == [] {
        ghost var now := Abs(AtIdle(conn, keys));
        pc := Idle(conn, shouldTerminate, keyCancelled, keys);
        steps := Idled(before, steps, now, Abs(pc), conn, takes, k,
                       Turn(if shouldTerminate then 1 else 0, !shouldTerminate && keyCancelled));
      }
    }

    /** Behind the loop: an empty queue closes the connection or ends the interest
        in writing. */
    method Idle(conn: nat, shouldTerminate: bool, keyCancelled: bool, ghost keys: seq<nat>) returns (ghost pc: Pc)
      requires conn in conns && conns[conn].queue == []
      modifies this`conns
      ensures var last := Turn(if shouldTerminate then 1 else 0, !shouldTerminate && keyCancelled);
              && CanDo(old(Abs(AtIdle(conn, keys))), last)
              && Do(old(Abs(AtIdle(conn, keys))), last) == Abs(pc)
      ensures OnlyConn(old(Abs(AtIdle(conn, keys))), Abs(pc), conn)
      ensures conns[conn] == old(conns)[conn].(open := conns[conn].open, wantsWrite := conns[conn].wantsWrite)
      ensures conns[conn].open == (old(conns)[conn].open && !shouldTerminate)
      ensures conns[conn].open ==> !conns[conn].wantsWrite
      ensures pc == if keyCancelled && !shouldTerminate && !conns[conn].open then Dead else AtKeys(keys)
    {
      pc := AtKeys(keys);
      RunsIdle(Abs(AtIdle(conn, keys)), conn, keys, if shouldTerminate then 1 else 0, !shouldTerminate && keyCancelled);
      hide CanDo, Do;
      if shouldTerminate {
        conns := conns[conn := conns[conn].(open := false)];
      } else if conns[conn].open {
        conns := conns[conn := conns[conn].(wantsWrite := false)];
      } else if keyCancelled {
        pc := Dead;
      }
    }
  }
}
