/** What the selector thread does with the keys of one selection. */
module SelectorRounds {
  import opened WritePath
  import opened SelectorThread
  import opened DeadSelector

  /** The keys that have not had their turn yet. */
  function Waiting(pc: Pc): seq<nat> {
    match pc
    case AtSelect => []
    case Dead => []
    case AtTasks(keys) => keys
    case AtTask(_, keys) => keys
    case AtKeys(keys) => keys
    case AtKey(_, keys) => keys
    case AtLoop(_, keys) => keys
    case AtPeek(_, keys) => keys
    case AtWrite(_, _, keys) => keys
    case AtRemove(_, _, keys) => keys
    case AtEmpty(_, keys) => keys
    case AtIdle(_, keys) => keys
  }

  /** A key had its turn: its connection, whether its key was valid then, and
      whether the selector thread went on to deal with it. */
  datatype Visit = Visit(conn: nat, valid: bool, handled: bool)

  function VisitIn(s: State, step: WriteStep): seq<Visit>
    requires CanDo(s, step)
  {
    if step.Turn? && s.pc.AtKeys? && s.pc.keys != [] then
      var c := s.pc.keys[0];
      [Visit(c, OpenConn(s, c), Handling(Do(s, step).pc, c))]
    else []
  }

  function Visits(s: State, steps: seq<WriteStep>): seq<Visit>
    requires LegalRun(s, steps)
    decreases |steps|
  {
    if steps == [] then [] else VisitIn(s, steps[0]) + Visits(Do(s, steps[0]), steps[1..])
  }

  function Conns(visits: seq<Visit>): (r: seq<nat>)
    ensures |r| == |visits|
  {
    seq(|visits|, i requires 0 <= i < |visits| => visits[i].conn)
  }

  predicate NoSelect(steps: seq<WriteStep>) {
    forall k | 0 <= k < |steps| :: !steps[k].Select?
  }

  lemma LookingWaits(s: State, n: nat, bad: bool)
    requires CanDo(s, Turn(n, bad)) && !DoTurn(s, n, bad).pc.Dead? && !Touches(s.pc)
    ensures Waiting(DoTurn(s, n, bad).pc) == if s.pc.AtKeys? && s.pc.keys != [] then s.pc.keys[1..] else Waiting(s.pc)
  {
    TurnKeepsConns(s, n, bad);
    match s.pc
    case AtTasks(_) =>
    case AtKeys(_) =>
    case AtKey(_, _) =>
    case AtLoop(_, _) =>
    case AtPeek(_, _) =>
    case AtEmpty(_, _) =>
  }

  lemma ActingWaits(s: State, n: nat, bad: bool)
    requires CanDo(s, Turn(n, bad)) && !DoTurn(s, n, bad).pc.Dead? && Touches(s.pc)
    ensures Waiting(DoTurn(s, n, bad).pc) == Waiting(s.pc)
  {
    match s.pc
    case AtTask(c, _) =>
    case AtWrite(c, top, _) =>
    case AtRemove(c, top, _) =>
    case AtIdle(c, _) =>
  }

  lemma TurnWaits(s: State, n: nat, bad: bool)
    requires CanDo(s, Turn(n, bad)) && !DoTurn(s, n, bad).pc.Dead?
    ensures Waiting(DoTurn(s, n, bad).pc) == if s.pc.AtKeys? && s.pc.keys != [] then s.pc.keys[1..] else Waiting(s.pc)
  {
    hide DoTurn, CanDo, Waiting;
    if Touches(s.pc) {
      ActingWaits(s, n, bad);
    } else {
      LookingWaits(s, n, bad);
    }
  }

  lemma TurnVisits(s: State, n: nat, bad: bool)
    requires CanDo(s, Turn(n, bad)) && !DoTurn(s, n, bad).pc.Dead?
    ensures Conns(VisitIn(s, Turn(n, bad))) + Waiting(DoTurn(s, n, bad).pc) == Waiting(s.pc)
    ensures forall i | 0 <= i < |VisitIn(s, Turn(n, bad))| ::
              VisitIn(s, Turn(n, bad))[i].handled == VisitIn(s, Turn(n, bad))[i].valid
  {
    TurnWaits(s, n, bad);
    if s.pc.AtKeys? && s.pc.keys != [] {
      var c := s.pc.keys[0];
      assert DoTurn(s, n, bad).pc == if s.conns[c].open then AtKey(c, s.pc.keys[1..]) else AtKeys(s.pc.keys[1..]);
    }
    hide DoTurn;
  }

  lemma StepVisits(s: State, step: WriteStep)
    requires CanDo(s, step) && !step.Select? && !Do(s, step).pc.Dead?
    ensures Conns(VisitIn(s, step)) + Waiting(Do(s, step).pc) == Waiting(s.pc)
    ensures forall i | 0 <= i < |VisitIn(s, step)| :: VisitIn(s, step)[i].handled == VisitIn(s, step)[i].valid
  {
    if step.Turn? {
      TurnVisits(s, step.n, step.bad);
      hide DoTurn;
    }
  }

  lemma ConnsAppend(a: seq<Visit>, b: seq<Visit>)
    ensures Conns(a + b) == Conns(a) + Conns(b)
  {
  }

  lemma StaysDead(s: State, step: WriteStep)
    requires CanDo(s, step) && s.pc.Dead?
    ensures Do(s, step).pc.Dead?
  {
  }

  lemma {:induction false} DeadToTheEnd(s: State, steps: seq<WriteStep>)
    requires LegalRun(s, steps) && s.pc.Dead?
    ensures RunTo(s, steps).pc.Dead?
    decreases |steps|
  {
    hide CanDo, Do;
    if steps != [] {
      StaysDead(s, steps[0]);
      DeadToTheEnd(Do(s, steps[0]), steps[1..]);
    }
  }

  lemma {:induction false} VisitsAddUp(s: State, steps: seq<WriteStep>)
    requires LegalRun(s, steps) && NoSelect(steps) && !RunTo(s, steps).pc.Dead?
    ensures Conns(Visits(s, steps)) + Waiting(RunTo(s, steps).pc) == Waiting(s.pc)
    ensures forall i | 0 <= i < |Visits(s, steps)| :: Visits(s, steps)[i].handled == Visits(s, steps)[i].valid
    decreases |steps|
  {
    hide CanDo, Do, VisitIn, Waiting, Conns;
    if steps == [] {
      NoVisits(Waiting(s.pc));
    } else {
      var s1, v := Do(s, steps[0]), VisitIn(s, steps[0]);
      var more := Visits(s1, steps[1..]);
      assert !steps[0].Select? && NoSelect(steps[1..]);
      if s1.pc.Dead? {
        DeadToTheEnd(s1, steps[1..]);
      }
      StepVisits(s, steps[0]);
      VisitsAddUp(s1, steps[1..]);
      ConnsAppend(v, more);
      JoinThree(Conns(v), Conns(more), Waiting(RunTo(s, steps).pc));
    }
  }

  lemma NoVisits(keys: seq<nat>)
    ensures Conns([]) + keys == keys
  {
  }

  lemma JoinThree<T>(a: seq<T>, b: seq<T>, c: seq<T>)
    ensures (a + b) + c == a + (b + c)
  {
  }

  /** From one selection to the next, unless the selector thread dies in between,
      every selected key has its turn, once and in order: one that is found valid
      then is dealt with, any other is passed over. */
  lemma EveryKeyHasItsTurn(s: State, keys: seq<nat>, steps: seq<WriteStep>)
    requires CanDo(s, Select(keys)) && NoSelect(steps)
    requires LegalRun(Do(s, Select(keys)), steps) && !RunTo(Do(s, Select(keys)), steps).pc.Dead?
    ensures var visits, s' := Visits(Do(s, Select(keys)), steps), RunTo(Do(s, Select(keys)), steps);
            && Conns(visits) <= keys
            && (s'.pc.AtSelect? ==> Conns(visits) == keys)
            && forall i | 0 <= i < |visits| :: visits[i].handled == visits[i].valid
  {
    hide LegalRun, RunTo, Conns, Visits;
    VisitsAddUp(Do(s, Select(keys)), steps);
    var visits, s' := Visits(Do(s, Select(keys)), steps), RunTo(Do(s, Select(keys)), steps);
    assert Conns(visits) + Waiting(s'.pc) == keys;
    if s'.pc.AtSelect? {
      NoKeys(Conns(visits));
    }
  }

  lemma NoKeys(keys: seq<nat>)
    ensures keys + [] == keys
  {
  }

  /** Why this connection is left for now: it is closed, the channel has not taken
      the whole buffer, a message has come in behind the loop, or an empty queue
      is no longer watched. */
  predicate IsLeft(s: State, s': State, c: nat)
    requires c in s.conns && c in s'.conns
  {
    var w, w' := s.conns[c], s'.conns[c];
    || !w'.open
    || (s.pc.AtRemove? && w'.queue == w.queue != [] && w.queue[0] in s.bufs && s.bufs[w.queue[0]] != "")
    || (s.pc.AtEmpty? && w'.queue == w.queue != [])
    || (s.pc.AtIdle? && !w'.wantsWrite)
  }

  /** The selector thread turns away from a connection it deals with for one of
      these reasons only. */
  lemma TurnsAway(s: State, step: WriteStep, c: nat)
    requires PcOk(s) && CanDo(s, step) && Handling(s.pc, c) && !Handling(Do(s, step).pc, c)
    ensures c in s.conns && c in Do(s, step).conns && IsLeft(s, Do(s, step), c)
  {
    assert step.Turn?;
    if Touches(s.pc) {
      ActsAndTurns(s, step.n, step.bad, c);
    } else {
      LooksAndTurns(s, step.n, step.bad, c);
    }
    hide DoTurn, IsLeft;
  }

  lemma LooksAndTurns(s: State, n: nat, bad: bool, c: nat)
    requires PcOk(s) && CanDo(s, Turn(n, bad)) && Handling(s.pc, c) && !Handling(DoTurn(s, n, bad).pc, c)
    requires !Touches(s.pc)
    ensures c in s.conns && c in DoTurn(s, n, bad).conns && IsLeft(s, DoTurn(s, n, bad), c)
  {
    TurnKeepsConns(s, n, bad);
    match s.pc
    case AtKey(_, _) =>
    case AtLoop(_, _) =>
    case AtPeek(_, _) =>
    case AtEmpty(_, _) =>
  }

  lemma ActsAndTurns(s: State, n: nat, bad: bool, c: nat)
    requires PcOk(s) && CanDo(s, Turn(n, bad)) && Handling(s.pc, c) && !Handling(DoTurn(s, n, bad).pc, c)
    requires Touches(s.pc)
    ensures c in s.conns && c in DoTurn(s, n, bad).conns && IsLeft(s, DoTurn(s, n, bad), c)
  {
    match s.pc
    case AtWrite(_, top, _) =>
    case AtRemove(_, top, _) =>
    case AtIdle(_, _) =>
  }
}
