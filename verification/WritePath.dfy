/** The writing half of the reactor: any thread may queue a message for any
    connection and ask the selector thread to watch for writability; the
    selector thread runs such requests, writes what the channels take, and
    stops watching a connection whose queue it has seen empty.  The queue
    operations, the interest set and the wake-up are separate steps. */
module WritePath {
  import opened Text
  import opened FrameCodec

  /** One connection.  `queue` holds buffers by number; `sent` is the history
      of messages in the order in which their buffers were queued. */
  datatype Wire = Wire(queue: seq<nat>, wantsWrite: bool, open: bool, failed: bool,
                       out: string, sent: seq<string>)

  /** Where a thread stands in `send` and `updateInterestedOps`. */
  datatype Sender = Queued(conn: nat) | Asked

  /** Where the selector thread stands; `keys` are the selected keys that are
      still to be handled. */
  datatype Pc =
    | AtSelect
    | AtTasks(keys: seq<nat>)                        // selectorTasks.isEmpty()
    | AtTask(conn: nat, keys: seq<nat>)              // a removed task is run
    | AtKeys(keys: seq<nat>)                         // key.isValid()
    | AtKey(conn: nat, keys: seq<nat>)               // key.isWritable()
    | AtLoop(conn: nat, keys: seq<nat>)              // !writeQueue.isEmpty() && chan.isOpen()
    | AtPeek(conn: nat, keys: seq<nat>)
    | AtWrite(conn: nat, top: nat, keys: seq<nat>)
    | AtRemove(conn: nat, top: nat, keys: seq<nat>)  // top.hasRemaining()
    | AtEmpty(conn: nat, keys: seq<nat>)             // writeQueue.isEmpty() behind the loop
    | AtIdle(conn: nat, keys: seq<nat>)              // shouldTerminate() or interestOps(OP_READ)
    | Dead                                           // an uncaught CancelledKeyException

  datatype State = State(
    conns: map<nat, Wire>,
    bufs: map<nat, string>,     // what each buffer still has to be written
    next: nat,                  // buffers created so far
    tasks: seq<nat>,            // selectorTasks: read and write interest for a connection
    token: bool,                // a pending wake-up
    senders: map<nat, Sender>,  // threads in the middle of a send
    pc: Pc)

  datatype WriteStep =
    | Accept(conn: nat)
    | Close(conn: nat)
    | AddBuffer(thread: nat, conn: nat, msg: string)
    | AddTask(thread: nat, keyGone: bool)
    | WakeUp(thread: nat)
    | Select(keys: seq<nat>)
    | Turn(n: nat, bad: bool)   // one step of the selector thread elsewhere

  predicate OpenConn(s: State, c: nat) {
    c in s.conns && s.conns[c].open
  }

  predicate CanDo(s: State, step: WriteStep) {
    match step
    case Accept(c) => c !in s.conns
    case Close(c) => c in s.conns
    case AddBuffer(t, c, _) => t !in s.senders && c in s.conns
    case AddTask(t, keyGone) =>
      t in s.senders && s.senders[t].Queued? && (keyGone ==> !OpenConn(s, s.senders[t].conn))
    case WakeUp(t) => t in s.senders && s.senders[t].Asked?
    case Select(keys) =>
      s.pc.AtSelect? && forall k | k in keys :: k in s.conns && s.conns[k].open && s.conns[k].wantsWrite
    case Turn(n, _) =>
      match s.pc
      case AtSelect => false
      case Dead => false
      case AtTasks(_) => true
      case AtKeys(keys) => keys == [] || keys[0] in s.conns
      case AtTask(c, _) => c in s.conns
      case AtKey(c, _) => c in s.conns
      case AtLoop(c, _) => c in s.conns
      case AtPeek(c, _) => c in s.conns && s.conns[c].queue != []
      case AtWrite(c, top, _) => c in s.conns && top in s.bufs && n <= |s.bufs[top]|
      case AtRemove(c, top, _) => c in s.conns && top in s.bufs && (s.bufs[top] == "" ==> s.conns[c].queue != [])
      case AtEmpty(c, _) => c in s.conns
      case AtIdle(c, _) => c in s.conns
  }

  function Set(s: State, c: nat, w: Wire): State {
    s.(conns := s.conns[c := w])
  }

  function DoTurn(s: State, n: nat, bad: bool): State
    requires CanDo(s, Turn(n, bad))
  {
    match s.pc
    case AtTasks(keys) =>
      if s.tasks == [] then s.(pc := AtKeys(keys))
      else s.(tasks := s.tasks[1..], pc := AtTask(s.tasks[0], keys))
    case AtTask(c, keys) =>
      // interestOps of a cancelled key throws; the loop catches it.
      if s.conns[c].open then Set(s, c, s.conns[c].(wantsWrite := true)).(pc := AtTasks(keys))
      else s.(pc := AtTasks(keys))
    case AtKeys(keys) =>
      if keys == [] then s.(pc := AtSelect)
      else if s.conns[keys[0]].open then s.(pc := AtKey(keys[0], keys[1..]))
      else s.(pc := AtKeys(keys[1..]))
    case AtKey(c, keys) =>
      // A key cancelled in between: the read half may have noticed and
      // returned, otherwise isWritable throws and nobody catches it.
      if s.conns[c].open then s.(pc := AtLoop(c, keys))
      else if bad then s.(pc := Dead)
      else s.(pc := AtKeys(keys))
    case AtLoop(c, keys) =>
      if s.conns[c].queue != [] && s.conns[c].open then s.(pc := AtPeek(c, keys))
      else s.(pc := AtEmpty(c, keys))
    case AtPeek(c, keys) => s.(pc := AtWrite(c, s.conns[c].queue[0], keys))
    case AtWrite(c, top, keys) =>
      var w := s.conns[c];
      if bad || !w.open then
        // An IOException: the channel is closed, and what happened to the
        // first n bytes is unknown.
        Set(s, c, w.(open := false, failed := true))
          .(bufs := s.bufs[top := s.bufs[top][n..]], pc := AtLoop(c, keys))
      else
        Set(s, c, w.(out := w.out + s.bufs[top][..n]))
          .(bufs := s.bufs[top := s.bufs[top][n..]], pc := AtRemove(c, top, keys))
    case AtRemove(c, top, keys) =>
      if s.bufs[top] != "" then s.(pc := AtKeys(keys))
      else Set(s, c, s.conns[c].(queue := s.conns[c].queue[1..])).(pc := AtLoop(c, keys))
    case AtEmpty(c, keys) =>
      if s.conns[c].queue == [] then s.(pc := AtIdle(c, keys)) else s.(pc := AtKeys(keys))
    case AtIdle(c, keys) =>
      // n == 1: the protocol wants to terminate.
      if n == 1 then Set(s, c, s.conns[c].(open := false)).(pc := AtKeys(keys))
      else if s.conns[c].open then Set(s, c, s.conns[c].(wantsWrite := false)).(pc := AtKeys(keys))
      else if bad then s.(pc := Dead)
      else s.(pc := AtKeys(keys))
  }

  function Do(s: State, step: WriteStep): State
    requires CanDo(s, step)
  {
    match step
    case Accept(c) => Set(s, c, Wire([], false, true, false, "", []))
    case Close(c) => Set(s, c, s.conns[c].(open := false))
    case AddBuffer(t, c, msg) =>
      var w := s.conns[c];
      Set(s, c, w.(queue := w.queue + [s.next], sent := w.sent + [msg]))
        .(bufs := s.bufs[s.next := Encode(msg)], next := s.next + 1,
          senders := s.senders[t := Queued(c)])
    case AddTask(t, keyGone) =>
      if keyGone then s.(senders := s.senders - {t})
      else s.(tasks := s.tasks + [s.senders[t].conn], senders := s.senders[t := Asked])
    case WakeUp(t) => s.(token := true, senders := s.senders - {t})
    case Select(keys) => s.(token := false, pc := AtTasks(keys))
    case Turn(n, bad) => DoTurn(s, n, bad)
  }

  const START := State(map[], map[], 0, [], false, map[], AtSelect)

  predicate LegalRun(s: State, steps: seq<WriteStep>)
    decreases |steps|
  {
    steps == [] || (CanDo(s, steps[0]) && LegalRun(Do(s, steps[0]), steps[1..]))
  }

  function RunTo(s: State, steps: seq<WriteStep>): State
    requires LegalRun(s, steps)
    decreases |steps|
  {
    if steps == [] then s else RunTo(Do(s, steps[0]), steps[1..])
  }

  // ----- The invariant -----

  /** Buffers are queued on one connection each, in the order of their numbers. */
  ghost predicate QueuesOk(s: State) {
    && (forall c, i | c in s.conns && 0 <= i < |s.conns[c].queue| :: s.conns[c].queue[i] in s.bufs)
    && (forall b | b in s.bufs :: b < s.next)
    && (forall c, i, j | c in s.conns && 0 <= i < j < |s.conns[c].queue| ::
          s.conns[c].queue[i] != s.conns[c].queue[j])
    && (forall c, d, i, j | c in s.conns && d in s.conns && c != d
          && 0 <= i < |s.conns[c].queue| && 0 <= j < |s.conns[d].queue| ::
          s.conns[c].queue[i] != s.conns[d].queue[j])
  }

  function Left(bufs: map<nat, string>, queue: seq<nat>): string {
    if queue == [] then ""
    else (if queue[0] in bufs then bufs[queue[0]] else "") + Left(bufs, queue[1..])
  }

  predicate DataOk(s: State, c: nat)
    requires c in s.conns
  {
    var w := s.conns[c];
    !w.failed ==> w.out + Left(s.bufs, w.queue) == EncodeAll(w.sent)
  }

  /** The connections the selector thread is dealing with exist, and the buffer
      it peeked at is still the first. */
  predicate PcOk(s: State) {
    match s.pc
    case AtSelect => true
    case Dead => true
    case AtTasks(keys) => (forall k | k in keys :: k in s.conns)
    case AtKeys(keys) => (forall k | k in keys :: k in s.conns)
    case AtTask(c, keys) => c in s.conns && (forall k | k in keys :: k in s.conns)
    case AtKey(c, keys) => c in s.conns && (forall k | k in keys :: k in s.conns)
    case AtLoop(c, keys) => c in s.conns && (forall k | k in keys :: k in s.conns)
    case AtPeek(c, keys) => c in s.conns && s.conns[c].queue != [] && (forall k | k in keys :: k in s.conns)
    case AtWrite(c, top, keys) =>
      c in s.conns && s.conns[c].queue != [] && s.conns[c].queue[0] == top && (forall k | k in keys :: k in s.conns)
    case AtRemove(c, top, keys) =>
      c in s.conns && s.conns[c].queue != [] && s.conns[c].queue[0] == top && (forall k | k in keys :: k in s.conns)
    case AtEmpty(c, keys) => c in s.conns && (forall k | k in keys :: k in s.conns)
    case AtIdle(c, keys) => c in s.conns && (forall k | k in keys :: k in s.conns)
  }

  ghost predicate SomeSender(s: State, x: Sender) {
    exists t :: t in s.senders && s.senders[t] == x
  }

  /** A request for write interest is under way. */
  ghost predicate Requested(s: State, c: nat) {
    c in s.tasks || (s.pc.AtTask? && s.pc.conn == c) || SomeSender(s, Queued(c))
  }

  ghost predicate WakeOk(s: State, c: nat)
    requires c in s.conns
  {
    var w := s.conns[c];
    w.open && w.queue != [] ==>
      && (w.wantsWrite || Requested(s, c))
      && (s.pc.AtIdle? && s.pc.conn == c ==> Requested(s, c))
  }

  ghost predicate SleepOk(s: State) {
    s.pc.AtTasks? || s.pc.AtTask? || (s.tasks != [] ==> s.token || SomeSender(s, Asked))
  }

  ghost predicate NamesOk(s: State) {
    && (forall c | c in s.tasks :: c in s.conns)
    && (forall t | t in s.senders && s.senders[t].Queued? :: s.senders[t].conn in s.conns)
  }

  ghost predicate WriteInv(s: State) {
    && QueuesOk(s) && PcOk(s) && NamesOk(s) && SleepOk(s)
    && (forall c | c in s.conns :: DataOk(s, c))
    && (forall c | c in s.conns :: WakeOk(s, c))
  }

  // ----- Data -----

  lemma {:induction false} LeftSame(b: map<nat, string>, b': map<nat, string>, queue: seq<nat>)
    requires forall i | 0 <= i < |queue| :: queue[i] in b && queue[i] in b' && b[queue[i]] == b'[queue[i]]
    ensures Left(b', queue) == Left(b, queue)
  {
    if queue != [] {
      assert forall i | 0 <= i < |queue[1..]| :: queue[1..][i] == queue[i + 1];
      LeftSame(b, b', queue[1..]);
    }
  }

  lemma {:induction false} LeftSnoc(b: map<nat, string>, queue: seq<nat>, x: nat)
    requires x in b
    ensures Left(b, queue + [x]) == Left(b, queue) + b[x]
  {
    if queue == [] {
      assert queue + [x] == [x] && [x][1..] == [];
      assert b[x] + "" == b[x];
    } else {
      LeftSnoc(b, queue[1..], x);
      assert (queue + [x])[1..] == queue[1..] + [x];
      Assoc(if queue[0] in b then b[queue[0]] else "", Left(b, queue[1..]), b[x]);
    }
  }

  lemma {:induction false} EncodeAllSnoc(messages: seq<string>, m: string)
    ensures EncodeAll(messages + [m]) == EncodeAll(messages) + Encode(m)
  {
    if messages == [] {
      assert messages + [m] == [m] && [m][1..] == [];
      assert Encode(m) + "" == Encode(m);
    } else {
      EncodeAllSnoc(messages[1..], m);
      assert (messages + [m])[1..] == messages[1..] + [m];
      Assoc(Encode(messages[0]), EncodeAll(messages[1..]), Encode(m));
    }
  }

  lemma AddBufferData(s: State, t: nat, c: nat, msg: string, d: nat)
    requires QueuesOk(s) && CanDo(s, AddBuffer(t, c, msg)) && d in s.conns && DataOk(s, d)
    ensures DataOk(Do(s, AddBuffer(t, c, msg)), d)
  {
    var s' := Do(s, AddBuffer(t, c, msg));
    var w := s.conns[d];
    LeftSame(s.bufs, s'.bufs, w.queue);
    if d == c {
      LeftSnoc(s'.bufs, w.queue, s.next);
      EncodeAllSnoc(w.sent, msg);
      Assoc(w.out, Left(s.bufs, w.queue), Encode(msg));
    }
  }

  /** A write moves bytes from the first buffer of its connection to the
      channel and leaves every other queue alone. */
  lemma WriteData(s: State, n: nat, bad: bool, d: nat)
    requires QueuesOk(s) && PcOk(s) && s.pc.AtWrite? && CanDo(s, Turn(n, bad))
    requires d in s.conns && DataOk(s, d)
    ensures DataOk(DoTurn(s, n, bad), d)
  {
    var s' := DoTurn(s, n, bad);
    var w := s.conns[d];
    if d == s.pc.conn {
      var top := s.pc.top;
      LeftSame(s.bufs, s'.bufs, w.queue[1..]);
      if !bad && w.open {
        var chunk, later := s.bufs[top][..n], s.bufs[top][n..];
        assert s.bufs[top] == chunk + later;
        assert w.out + ((chunk + later) + Left(s.bufs, w.queue[1..]))
            == (w.out + chunk) + (later + Left(s.bufs, w.queue[1..]));
      }
    } else {
      LeftSame(s.bufs, s'.bufs, w.queue);
    }
  }

  lemma RemoveData(s: State, n: nat, bad: bool, d: nat)
    requires PcOk(s) && s.pc.AtRemove? && CanDo(s, Turn(n, bad)) && d in s.conns && DataOk(s, d)
    ensures DataOk(DoTurn(s, n, bad), d)
  {
    var w := s.conns[d];
    if d == s.pc.conn && s.bufs[s.pc.top] == "" {
      assert Left(s.bufs, w.queue) == "" + Left(s.bufs, w.queue[1..]);
    }
  }

  /** Where the selector thread changes a connection. */
  predicate Touches(pc: Pc) {
    pc.AtTask? || pc.AtWrite? || pc.AtRemove? || pc.AtIdle?
  }

  lemma TurnKeepsConns(s: State, n: nat, bad: bool)
    requires CanDo(s, Turn(n, bad)) && !Touches(s.pc)
    ensures DoTurn(s, n, bad).conns == s.conns && DoTurn(s, n, bad).bufs == s.bufs
  {
  }

  lemma TurnMovesNoData(s: State, n: nat, bad: bool, d: nat)
    requires CanDo(s, Turn(n, bad)) && d in s.conns && !s.pc.AtWrite? && !s.pc.AtRemove?
    ensures d in DoTurn(s, n, bad).conns
    ensures var w, w' := s.conns[d], DoTurn(s, n, bad).conns[d];
            w'.queue == w.queue && w'.out == w.out && w'.sent == w.sent && w'.failed == w.failed
  {
    if !Touches(s.pc) {
      TurnKeepsConns(s, n, bad);
      hide DoTurn, CanDo;
    } else if s.pc.AtTask? {
    } else {
      assert s.pc.AtIdle?;
    }
  }

  lemma TurnKeepsBuffers(s: State, n: nat, bad: bool)
    requires CanDo(s, Turn(n, bad)) && !s.pc.AtWrite?
    ensures DoTurn(s, n, bad).bufs == s.bufs
  {
    if !Touches(s.pc) {
      TurnKeepsConns(s, n, bad);
      hide DoTurn, CanDo;
    } else {
      match s.pc
      case AtTask(c, _) =>
      case AtRemove(c, top, _) =>
      case AtIdle(c, _) =>
    }
  }

  lemma TurnData(s: State, n: nat, bad: bool, d: nat)
    requires QueuesOk(s) && PcOk(s) && CanDo(s, Turn(n, bad)) && d in s.conns && DataOk(s, d)
    ensures d in DoTurn(s, n, bad).conns && DataOk(DoTurn(s, n, bad), d)
  {
    if s.pc.AtWrite? {
      WriteData(s, n, bad, d);
      TurnKeys(s, n, bad);
    } else if s.pc.AtRemove? {
      RemoveData(s, n, bad, d);
      TurnKeys(s, n, bad);
    } else {
      TurnMovesNoData(s, n, bad, d);
      TurnKeepsBuffers(s, n, bad);
      hide DoTurn;
    }
  }

  // ----- Queues and names -----

  lemma TurnKeys(s: State, n: nat, bad: bool)
    requires CanDo(s, Turn(n, bad))
    ensures DoTurn(s, n, bad).conns.Keys == s.conns.Keys && DoTurn(s, n, bad).bufs.Keys == s.bufs.Keys
  {
    if !Touches(s.pc) {
      TurnKeepsConns(s, n, bad);
      hide DoTurn, CanDo;
    } else {
      match s.pc
      case AtTask(c, _) =>
      case AtWrite(c, top, _) =>
      case AtRemove(c, top, _) =>
      case AtIdle(c, _) =>
    }
  }

  /** The selector thread creates nothing and leaves the senders alone. */
  lemma TurnShape(s: State, n: nat, bad: bool)
    requires CanDo(s, Turn(n, bad))
    ensures var s' := DoTurn(s, n, bad);
            && s'.conns.Keys == s.conns.Keys && s'.next == s.next && s'.bufs.Keys == s.bufs.Keys
            && s'.senders == s.senders && s'.token == s.token
  {
    TurnKeys(s, n, bad);
    match s.pc
    case AtTask(c, _) =>
    case AtWrite(c, top, _) =>
    case AtRemove(c, top, _) =>
    case AtIdle(c, _) =>
    case _ =>
  }

  /** Only a removal changes a queue, and it drops the first entry. */
  lemma TurnQueue(s: State, n: nat, bad: bool, c: nat)
    requires CanDo(s, Turn(n, bad)) && c in s.conns
    ensures c in DoTurn(s, n, bad).conns
    ensures var q, q' := s.conns[c].queue, DoTurn(s, n, bad).conns[c].queue;
            q' == q || (s.pc.AtRemove? && s.pc.conn == c && q != [] && q' == q[1..])
  {
    if !Touches(s.pc) {
      TurnKeepsConns(s, n, bad);
      hide DoTurn, CanDo;
    } else {
      match s.pc
      case AtTask(d, _) =>
      case AtWrite(d, top, _) =>
      case AtRemove(d, top, _) =>
      case AtIdle(d, _) =>
    }
  }

  lemma TurnQueues(s: State, n: nat, bad: bool)
    requires QueuesOk(s) && CanDo(s, Turn(n, bad))
    ensures QueuesOk(DoTurn(s, n, bad))
  {
    var s' := DoTurn(s, n, bad);
    TurnShape(s, n, bad);
    forall c, i | c in s.conns && 0 <= i < |s'.conns[c].queue|
      ensures var k := |s.conns[c].queue| - |s'.conns[c].queue|;
              0 <= k <= 1 && s'.conns[c].queue[i] == s.conns[c].queue[i + k]
    {
      TurnQueue(s, n, bad, c);
    }
  }

  lemma TurnTasks(s: State, n: nat, bad: bool)
    requires CanDo(s, Turn(n, bad))
    ensures var s' := DoTurn(s, n, bad);
            if s.pc.AtTasks? && s.tasks != [] then
              s'.tasks == s.tasks[1..] && s'.pc == AtTask(s.tasks[0], s.pc.keys)
            else s'.tasks == s.tasks
  {
  }

  lemma TurnNames(s: State, n: nat, bad: bool)
    requires NamesOk(s) && CanDo(s, Turn(n, bad))
    ensures NamesOk(DoTurn(s, n, bad))
  {
    TurnShape(s, n, bad);
    TurnTasks(s, n, bad);
    var s' := DoTurn(s, n, bad);
    hide DoTurn, CanDo;
    assert forall c | c in s'.tasks :: c in s.tasks;
  }

  lemma TurnFromList(s: State, n: nat, bad: bool)
    requires PcOk(s) && NamesOk(s) && CanDo(s, Turn(n, bad)) && (s.pc.AtTasks? || s.pc.AtKeys?)
    ensures PcOk(DoTurn(s, n, bad))
  {
    match s.pc
    case AtTasks(_) =>
      if s.tasks != [] {
        assert s.tasks[0] in s.tasks;
      }
    case AtKeys(keys) =>
      if keys != [] {
        assert keys[0] in keys && forall k | k in keys[1..] :: k in keys;
      }
  }

  lemma TurnFromConn(s: State, n: nat, bad: bool)
    requires PcOk(s) && CanDo(s, Turn(n, bad)) && !s.pc.AtTasks? && !s.pc.AtKeys?
    ensures PcOk(DoTurn(s, n, bad))
  {
    if !Touches(s.pc) {
      TurnKeepsConns(s, n, bad);
    } else {
      match s.pc
      case AtTask(c, _) =>
      case AtWrite(c, top, _) =>
      case AtRemove(c, top, _) =>
      case AtIdle(c, _) =>
    }
  }

  lemma TurnPc(s: State, n: nat, bad: bool)
    requires PcOk(s) && NamesOk(s) && CanDo(s, Turn(n, bad))
    ensures PcOk(DoTurn(s, n, bad)) && NamesOk(DoTurn(s, n, bad))
  {
    hide DoTurn, PcOk, NamesOk, CanDo;
    TurnNames(s, n, bad);
    if s.pc.AtTasks? || s.pc.AtKeys? {
      TurnFromList(s, n, bad);
    } else {
      TurnFromConn(s, n, bad);
    }
  }

  // ----- Waking up -----

  lemma TurnSleep(s: State, n: nat, bad: bool)
    requires SleepOk(s) && CanDo(s, Turn(n, bad))
    ensures SleepOk(DoTurn(s, n, bad))
  {
    var s' := DoTurn(s, n, bad);
    assert s'.senders == s.senders && s'.token == s.token;
    if SomeSender(s, Asked) {
      assert SomeSender(s', Asked);
    }
  }

  /** A request stays under way until the selector thread carries it out. */
  lemma TurnRequested(s: State, n: nat, bad: bool, c: nat)
    requires CanDo(s, Turn(n, bad)) && Requested(s, c) && !(s.pc.AtTask? && s.pc.conn == c)
    ensures Requested(DoTurn(s, n, bad), c)
  {
    var s' := DoTurn(s, n, bad);
    TurnShape(s, n, bad);
    TurnTasks(s, n, bad);
    hide DoTurn, CanDo;
    if SomeSender(s, Queued(c)) {
      assert SomeSender(s', Queued(c));
    } else if s.pc.AtTasks? && s.tasks != [] {
      assert c in s.tasks ==> c in s'.tasks || c == s.tasks[0];
    }
  }

  lemma WritingWatches(s: State, n: nat, bad: bool, c: nat)
    requires CanDo(s, Turn(n, bad)) && c in s.conns && (s.pc.AtWrite? || s.pc.AtRemove?)
    ensures var s' := DoTurn(s, n, bad);
            c in s'.conns && (s'.conns[c].open ==> s.conns[c].open) && s'.conns[c].wantsWrite == s.conns[c].wantsWrite
  {
  }

  /** What one turn does to the interest of a connection. */
  lemma TurnWatches(s: State, n: nat, bad: bool, c: nat)
    requires CanDo(s, Turn(n, bad)) && c in s.conns
    ensures c in DoTurn(s, n, bad).conns
    ensures var w, w' := s.conns[c], DoTurn(s, n, bad).conns[c];
            && (w'.open ==> w.open)
            && (w'.wantsWrite == w.wantsWrite || (w'.wantsWrite && s.pc.AtTask?) || (s.pc.AtIdle? && s.pc.conn == c))
            && (s.pc.AtTask? && s.pc.conn == c && w.open ==> w'.wantsWrite)
  {
    if !Touches(s.pc) {
      TurnKeepsConns(s, n, bad);
      hide DoTurn, CanDo;
    } else if s.pc.AtWrite? || s.pc.AtRemove? {
      WritingWatches(s, n, bad, c);
      hide DoTurn, CanDo;
    } else {
      match s.pc
      case AtTask(d, _) =>
      case AtIdle(d, _) =>
    }
  }

  lemma TurnIdles(s: State, n: nat, bad: bool)
    requires CanDo(s, Turn(n, bad)) && DoTurn(s, n, bad).pc.AtIdle?
    ensures s.pc.AtEmpty? && var s' := DoTurn(s, n, bad);
            s'.conns == s.conns && s'.pc.conn in s.conns && s.conns[s'.pc.conn].queue == []
  {
    if Touches(s.pc) {
      match s.pc
      case AtTask(c, _) =>
      case AtWrite(c, top, _) =>
      case AtRemove(c, top, _) =>
      case AtIdle(c, _) =>
    }
  }

  lemma TurnWake(s: State, n: nat, bad: bool, c: nat)
    requires QueuesOk(s) && PcOk(s) && NamesOk(s) && CanDo(s, Turn(n, bad))
    requires c in s.conns && WakeOk(s, c)
    ensures c in DoTurn(s, n, bad).conns && WakeOk(DoTurn(s, n, bad), c)
  {
    hide QueuesOk, PcOk, NamesOk, Requested, DoTurn, CanDo;
    TurnQueue(s, n, bad, c);
    TurnWatches(s, n, bad, c);
    if DoTurn(s, n, bad).pc.AtIdle? {
      TurnIdles(s, n, bad);
    }
    if Requested(s, c) && !(s.pc.AtTask? && s.pc.conn == c) {
      TurnRequested(s, n, bad, c);
    }
  }

  // ----- The other steps -----

  lemma OtherQueues(s: State, step: WriteStep)
    requires QueuesOk(s) && CanDo(s, step) && !step.Turn?
    ensures QueuesOk(Do(s, step))
  {
    if step.AddBuffer? {
      AddBufferQueues(s, step.thread, step.conn, step.msg);
    }
  }

  lemma AddBufferQueues(s: State, t: nat, c: nat, msg: string)
    requires QueuesOk(s) && CanDo(s, AddBuffer(t, c, msg))
    ensures QueuesOk(Do(s, AddBuffer(t, c, msg)))
  {
    var s' := Do(s, AddBuffer(t, c, msg));
    assert s.next !in s.bufs;
    forall d, i | d in s'.conns && 0 <= i < |s'.conns[d].queue|
      ensures s'.conns[d].queue[i] in s'.bufs
      ensures (d == c && i == |s.conns[c].queue| && s'.conns[d].queue[i] == s.next)
              || (i < |s.conns[d].queue| && s'.conns[d].queue[i] == s.conns[d].queue[i]
                  && s'.conns[d].queue[i] != s.next)
    {
    }
  }

  lemma OtherPc(s: State, step: WriteStep)
    requires PcOk(s) && NamesOk(s) && CanDo(s, step) && !step.Turn?
    ensures PcOk(Do(s, step)) && NamesOk(Do(s, step))
  {
  }

  lemma OtherSleep(s: State, step: WriteStep)
    requires SleepOk(s) && CanDo(s, step) && !step.Turn?
    ensures SleepOk(Do(s, step))
  {
    var s' := Do(s, step);
    if step.AddTask? && !step.keyGone {
      assert step.thread in s'.senders && s'.senders[step.thread] == Asked;
      assert SomeSender(s', Asked);
    } else if !step.WakeUp? && SomeSender(s, Asked) {
      var t :| t in s.senders && s.senders[t] == Asked;
      assert t in s'.senders && s'.senders[t] == Asked;
      assert SomeSender(s', Asked);
    }
  }

  lemma OtherWake(s: State, step: WriteStep, c: nat)
    requires CanDo(s, step) && !step.Turn? && NamesOk(s)
    requires c in s.conns && WakeOk(s, c)
    ensures c in Do(s, step).conns && WakeOk(Do(s, step), c)
  {
    var s' := Do(s, step);
    if step.AddBuffer? && step.conn == c {
      assert step.thread in s'.senders && s'.senders[step.thread] == Queued(c);
      assert SomeSender(s', Queued(c));
    } else if SomeSender(s, Queued(c)) {
      var t :| t in s.senders && s.senders[t] == Queued(c);
      if !(step.AddTask? && step.thread == t) {
        assert t in s'.senders && s'.senders[t] == Queued(c);
        assert SomeSender(s', Queued(c));
      } else if !step.keyGone {
        assert s'.tasks[|s.tasks|] == c;
      }
    }
    assert c in s.tasks ==> c in s'.tasks;
  }

  // ----- Every run -----

  lemma TurnKeeps(s: State, n: nat, bad: bool)
    requires WriteInv(s) && CanDo(s, Turn(n, bad))
    ensures WriteInv(Do(s, Turn(n, bad)))
  {
    var s' := DoTurn(s, n, bad);
    TurnShape(s, n, bad);
    TurnQueues(s, n, bad);
    TurnPc(s, n, bad);
    TurnSleep(s, n, bad);
    forall c | c in s'.conns
      ensures DataOk(s', c) && WakeOk(s', c)
    {
      TurnData(s, n, bad, c);
      TurnWake(s, n, bad, c);
    }
  }

  lemma OtherKeeps(s: State, step: WriteStep)
    requires WriteInv(s) && CanDo(s, step) && !step.Turn?
    ensures WriteInv(Do(s, step))
  {
    var s' := Do(s, step);
    OtherQueues(s, step);
    OtherPc(s, step);
    OtherSleep(s, step);
    forall c | c in s'.conns
      ensures DataOk(s', c) && WakeOk(s', c)
    {
      if c in s.conns {
        OtherWake(s, step, c);
        OtherData(s, step, c);
      }
    }
  }

  lemma OtherData(s: State, step: WriteStep, c: nat)
    requires QueuesOk(s) && CanDo(s, step) && !step.Turn? && c in s.conns && DataOk(s, c)
    ensures c in Do(s, step).conns && DataOk(Do(s, step), c)
  {
    if step.AddBuffer? {
      AddBufferData(s, step.thread, step.conn, step.msg, c);
    }
  }

  lemma WriteStepKeeps(s: State, step: WriteStep)
    requires WriteInv(s) && CanDo(s, step)
    ensures WriteInv(Do(s, step))
  {
    if step.Turn? {
      TurnKeeps(s, step.n, step.bad);
    } else {
      OtherKeeps(s, step);
    }
  }

  lemma {:induction false} WriteRunKeeps(s: State, steps: seq<WriteStep>)
    requires WriteInv(s) && LegalRun(s, steps)
    ensures WriteInv(RunTo(s, steps))
    decreases |steps|
  {
    if steps != [] {
      WriteStepKeeps(s, steps[0]);
      WriteRunKeeps(Do(s, steps[0]), steps[1..]);
    }
  }

  /** No lost wake-up: an open connection with something to write is watched for
      writability, or a request for that is queued or being run, or the thread
      that queued the message has not asked yet.  When the selector thread has
      seen the queue empty and is about to stop watching, one of the latter
      holds, so the request outlives that step. */
  lemma NoLostWakeUp(steps: seq<WriteStep>, c: nat)
    requires LegalRun(START, steps)
    ensures var s := RunTo(START, steps);
            OpenConn(s, c) && s.conns[c].queue != [] ==>
              && (s.conns[c].wantsWrite || Requested(s, c))
              && (s.pc.AtIdle? && s.pc.conn == c ==> Requested(s, c))
  {
    WriteRunKeeps(START, steps);
    var s := RunTo(START, steps);
    assert c in s.conns ==> WakeOk(s, c);
  }

  /** The selector thread does not go to sleep on a queued request: outside the
      loop that runs requests, a queued one comes with a pending wake-up or with
      a thread that is about to call it. */
  lemma NeverSleepsOnWork(steps: seq<WriteStep>)
    requires LegalRun(START, steps)
    ensures var s := RunTo(START, steps);
            (s.pc.AtSelect? || s.pc.AtKeys?) && s.tasks != [] ==> s.token || SomeSender(s, Asked)
  {
    WriteRunKeeps(START, steps);
  }

  /** So when the selector thread is blocked and nobody is in the middle of a
      send, every open connection with something to write is being watched. */
  lemma NoStall(steps: seq<WriteStep>, c: nat)
    requires LegalRun(START, steps)
    requires var s := RunTo(START, steps); s.pc.AtSelect? && !s.token && s.senders == map[]
    ensures var s := RunTo(START, steps);
            && s.tasks == []
            && (OpenConn(s, c) && s.conns[c].queue != [] ==> s.conns[c].wantsWrite)
  {
    WriteRunKeeps(START, steps);
    var s := RunTo(START, steps);
    assert !SomeSender(s, Asked) && !SomeSender(s, Queued(c));
    assert c in s.conns ==> WakeOk(s, c);
  }

  /** While no write has failed, the bytes on the channel and the bytes still
      queued are the encodings of all messages in the order of queueing, and
      what the peer decodes is a prefix of these messages. */
  lemma OutputIsConserved(steps: seq<WriteStep>, c: nat)
    requires LegalRun(START, steps)
    requires c in RunTo(START, steps).conns && !RunTo(START, steps).conns[c].failed
    ensures var s := RunTo(START, steps);
            var w := s.conns[c];
            && w.out + Left(s.bufs, w.queue) == EncodeAll(w.sent)
            && ((forall m | m in w.sent :: Free(m, NUL)) ==> Frames(w.out) <= w.sent)
  {
    WriteRunKeeps(START, steps);
    var s := RunTo(START, steps);
    var w := s.conns[c];
    assert DataOk(s, c);
    if forall m | m in w.sent :: Free(m, NUL) {
      DecodeInvertsEncode(w.sent, "");
      assert EncodeAll(w.sent) + "" == EncodeAll(w.sent);
      FramesGrow(w.out, Left(s.bufs, w.queue));
    }
  }

  /** When the selector thread decides whether to remove the first buffer of a
      queue, that is still the buffer it has peeked at and written. */
  lemma RemovesWhatItWrote(steps: seq<WriteStep>)
    requires LegalRun(START, steps) && RunTo(START, steps).pc.AtRemove?
    ensures var s := RunTo(START, steps);
            && s.pc.conn in s.conns && s.conns[s.pc.conn].queue != []
            && s.conns[s.pc.conn].queue[0] == s.pc.top && s.pc.top in s.bufs
  {
    WriteRunKeeps(START, steps);
  }
}
