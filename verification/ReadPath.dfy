/** The reading half of the reactor: the selector thread leases a buffer, reads
    a chunk into it and submits a task; pool threads decode the chunk byte by
    byte and hand frames to the protocol.  Every statement that touches shared
    state is a step of its own. */
module ReadPath {
  import opened Text
  import opened FrameCodec
  import opened ActorPool

  const CAPACITY := 8192

  /** A buffer between flip and the next clear: `data[pos..limit]` is unread. */
  datatype ByteBuffer = ByteBuffer(data: string, pos: nat, limit: nat)

  /** What a decoder was given up to a frame over which process threw, and what
      was then dropped: the rest of that chunk. */
  datatype Piece = Piece(given: string, dropped: string)

  datatype ReadTask = ReadTask(ticket: nat, buf: nat)

  /** Where the selector thread stands in continueRead and handleReadWrite. */
  datatype Selector = Idle | Leased(conn: nat, buf: nat) | Filled(conn: nat, buf: nat)

  /** Who may touch a buffer (an auxiliary variable; no step looks at it). */
  datatype Owner = InPool | BySelector | ByTask(ticket: nat)

  datatype State = State(
    work: World<ReadTask>,
    buffers: nat,                     // buffers allocated so far
    mem: map<nat, ByteBuffer>,        // their contents
    free: seq<nat>,                   // BUFFER_POOL
    selector: Selector,
    released: set<nat>,               // tasks that have given their buffer back
    threw: set<nat>,                  // tasks in which process has thrown
    decoders: map<nat, string>,       // the bytes each decoder holds
    frames: map<nat, seq<string>>,    // the frames handed to each protocol
    received: map<nat, string>,       // all bytes read from each channel
    consumed: map<nat, string>,       // all bytes given to each decoder
    passed: map<nat, string>,         // the same, with the bytes dropped after an exception
    pieces: map<nat, seq<Piece>>,     // how these two fit together
    taken: map<nat, string>,          // the bytes given to each decoder since the last exception
    tickets: nat,                     // tasks created so far
    born: map<nat, (nat, nat)>,       // auxiliary: ticket -> connection, number
    owner: map<nat, Owner>)

  datatype ReadStep =
    | Lease(conn: nat)
    | Fill(chunk: string)        // chan.read and flip; the chunk may be empty
    | GiveUp                     // chan.read returned -1 or failed
    | Hand                       // pool.submit
    | StartTask
    | DecodeByte(i: nat, throws: bool)
    | Release(i: nat)
    | CompleteTask(i: nat)
    | CollectAct(act: nat)

  function Held(m: map<nat, string>, a: nat): string {
    if a in m then m[a] else ""
  }

  function FramesOf(s: State, a: nat): seq<string> {
    if a in s.frames then s.frames[a] else []
  }

  function PiecesOf(s: State, a: nat): seq<Piece> {
    if a in s.pieces then s.pieces[a] else []
  }

  function Given(pieces: seq<Piece>): string {
    if pieces == [] then "" else Given(pieces[..|pieces| - 1]) + pieces[|pieces| - 1].given
  }

  function Both(pieces: seq<Piece>): string {
    if pieces == [] then ""
    else Both(pieces[..|pieces| - 1]) + (pieces[|pieces| - 1].given + pieces[|pieces| - 1].dropped)
  }

  function Zeros(n: nat): (z: string)
    ensures |z| == n
  {
    seq(n, _ => NUL)
  }

  predicate CanDecode(s: State, i: nat) {
    && i < |s.work.running|
    && var t := s.work.running[i].run;
       && t.buf in s.mem && t.ticket !in s.released && t.ticket !in s.threw
       && s.mem[t.buf].pos < s.mem[t.buf].limit <= |s.mem[t.buf].data|
  }

  predicate Can(s: State, step: ReadStep) {
    match step
    case Lease(_) => s.selector.Idle?
    case Fill(chunk) =>
      s.selector.Leased? && s.selector.buf in s.mem && |chunk| <= |s.mem[s.selector.buf].data|
    case GiveUp => s.selector.Leased?
    case Hand => s.selector.Filled?
    case StartTask => Enabled(s.work, Start)
    case DecodeByte(i, throws) =>
      && CanDecode(s, i)
      && (throws ==> s.mem[s.work.running[i].run.buf].data[s.mem[s.work.running[i].run.buf].pos] == NUL)
    case Release(i) =>
      && i < |s.work.running|
      && var t := s.work.running[i].run;
         && t.buf in s.mem && t.ticket !in s.released
         && (t.ticket in s.threw || s.mem[t.buf].pos == s.mem[t.buf].limit)
    case CompleteTask(i) =>
      i < |s.work.running| && s.work.running[i].run.ticket in s.released
    case CollectAct(act) => Enabled(s.work, Collect(act))
  }

  function DoLease(s: State, conn: nat): State {
    var pooled := s.free != [] && s.free[0] in s.mem;
    var b := if pooled then s.free[0] else s.buffers;
    var data := if pooled then s.mem[b].data else Zeros(CAPACITY);
    s.(free := if pooled then s.free[1..] else s.free,
       buffers := if pooled then s.buffers else b + 1,
       mem := s.mem[b := ByteBuffer(data, 0, |data|)],
       selector := Leased(conn, b),
       owner := s.owner[b := BySelector])
  }

  function DoFill(s: State, chunk: string): State
    requires Can(s, Fill(chunk))
  {
    var Leased(conn, b) := s.selector;
    s.(mem := s.mem[b := ByteBuffer(chunk + s.mem[b].data[|chunk|..], 0, |chunk|)],
       received := s.received[conn := Held(s.received, conn) + chunk],
       selector := Filled(conn, b))
  }

  function DoHand(s: State): State
    requires Can(s, Hand)
  {
    var Filled(conn, b) := s.selector;
    var ticket := s.tickets;
    s.(work := Apply(s.work, Submit(conn, ReadTask(ticket, b))), selector := Idle,
       tickets := ticket + 1, born := s.born[ticket := (conn, |Hist(s.work.submitted, conn)|)],
       owner := s.owner[b := ByTask(ticket)])
  }

  /** What an exception drops: the rest of the task's buffer. */
  function Drops(s: State, i: nat, throws: bool): string
    requires CanDecode(s, i)
  {
    var buff := s.mem[s.work.running[i].run.buf];
    if throws then buff.data[buff.pos + 1..buff.limit] else ""
  }

  function DoDecode(s: State, i: nat, throws: bool): State
    requires CanDecode(s, i)
  {
    var Job(a, t) := s.work.running[i];
    var buff := s.mem[t.buf];
    var b := buff.data[buff.pos];
    var (acc, found) := DecodeStep(Held(s.decoders, a), b);
    s.(mem := s.mem[t.buf := buff.(pos := buff.pos + 1)],
       decoders := s.decoders[a := acc],
       frames := s.frames[a := FramesOf(s, a) + One(found)],
       consumed := s.consumed[a := Held(s.consumed, a) + [b]],
       passed := s.passed[a := Held(s.passed, a) + ([b] + Drops(s, i, throws))],
       pieces := if throws then s.pieces[a := PiecesOf(s, a) + [Piece(Held(s.taken, a) + [b], Drops(s, i, throws))]]
                 else s.pieces,
       taken := s.taken[a := if throws then "" else Held(s.taken, a) + [b]],
       threw := if throws then s.threw + {t.ticket} else s.threw)
  }

  function DoRelease(s: State, i: nat): State
    requires Can(s, Release(i))
  {
    var t := s.work.running[i].run;
    s.(free := s.free + [t.buf], released := s.released + {t.ticket}, owner := s.owner[t.buf := InPool])
  }

  function Do(s: State, step: ReadStep): State
    requires Can(s, step)
  {
    match step
    case Lease(conn) => DoLease(s, conn)
    case Fill(chunk) => DoFill(s, chunk)
    case GiveUp =>
      s.(free := s.free + [s.selector.buf], selector := Idle, owner := s.owner[s.selector.buf := InPool])
    case Hand => DoHand(s)
    case StartTask => s.(work := Apply(s.work, Start))
    case DecodeByte(i, throws) => DoDecode(s, i, throws)
    case Release(i) => DoRelease(s, i)
    case CompleteTask(i) => s.(work := Apply(s.work, Complete(i)))
    case CollectAct(act) => s.(work := Apply(s.work, Collect(act)))
  }

  function Begin(threads: nat): State {
    State(Initial(threads), 0, map[], [], Idle, {}, {}, map[], map[], map[], map[], map[], map[], map[], 0, map[],
          map[])
  }

  predicate LegalRun(s: State, steps: seq<ReadStep>)
    decreases |steps|
  {
    steps == [] || (Can(s, steps[0]) && LegalRun(Do(s, steps[0]), steps[1..]))
  }

  function RunTo(s: State, steps: seq<ReadStep>): State
    requires LegalRun(s, steps)
    decreases |steps|
  {
    if steps == [] then s else RunTo(Do(s, steps[0]), steps[1..])
  }

  // ----- The invariant -----

  /** All read tasks of a connection, and how many of them have finished. */
  function Tasks(s: State, a: nat): seq<ReadTask> {
    Hist(s.work.submitted, a)
  }

  function Done(s: State, a: nat): nat {
    |Hist(s.work.finished, a)|
  }

  ghost predicate BuffersOk(s: State) {
    && s.owner.Keys == s.mem.Keys
    && (forall b :: b in s.mem <==> 0 <= b < s.buffers)
    && (forall b | b in s.mem :: s.mem[b].pos <= s.mem[b].limit <= |s.mem[b].data| == CAPACITY)
  }

  ghost predicate PoolOk(s: State) {
    && (forall i, j | 0 <= i < j < |s.free| :: s.free[i] != s.free[j])
    && (forall i | 0 <= i < |s.free| :: s.free[i] in s.owner && s.owner[s.free[i]] == InPool)
    && (forall b | b in s.owner && s.owner[b] == InPool :: b in s.free)
  }

  ghost predicate SelectorOk(s: State) {
    && (!s.selector.Idle? ==> s.selector.buf in s.owner && s.owner[s.selector.buf] == BySelector)
    && (s.selector.Leased? ==> s.selector.buf in s.mem && s.mem[s.selector.buf].pos == 0)
    && (forall b | b in s.owner && s.owner[b] == BySelector :: !s.selector.Idle? && s.selector.buf == b)
  }

  predicate TaskOk(s: State, a: nat, i: nat)
    requires i < |Tasks(s, a)|
  {
    var t := Tasks(s, a)[i];
    && t.ticket in s.born && s.born[t.ticket] == (a, i)
    && (i >= Done(s, a) && t.ticket !in s.released ==>
          t.buf in s.owner && s.owner[t.buf] == ByTask(t.ticket))
  }

  ghost predicate TasksOk(s: State) {
    && (forall a: nat, i: nat | i < |Tasks(s, a)| :: TaskOk(s, a, i))
    && (forall k :: k in s.born <==> 0 <= k < s.tickets)
    && (forall k | k in s.released :: k in s.born)
    && (forall k | k in s.threw :: k in s.born)
  }

  predicate HeldByTask(s: State, b: nat, k: nat) {
    && k in s.born && k !in s.released
    && var (a, i) := s.born[k];
       Done(s, a) <= i < |Tasks(s, a)| && Tasks(s, a)[i] == ReadTask(k, b)
  }

  ghost predicate OwnersOk(s: State) {
    forall b | b in s.owner && s.owner[b].ByTask? :: HeldByTask(s, b, s.owner[b].ticket)
  }

  function Unread(s: State, b: nat): string {
    if b in s.mem && s.mem[b].pos <= s.mem[b].limit <= |s.mem[b].data|
    then s.mem[b].data[s.mem[b].pos..s.mem[b].limit] else ""
  }

  /** The bytes a task will still give to the decoder. */
  function Ahead(s: State, t: ReadTask): string {
    if t.ticket in s.released || t.ticket in s.threw then "" else Unread(s, t.buf)
  }

  function Rest(s: State, tasks: seq<ReadTask>): string {
    if tasks == [] then "" else Ahead(s, tasks[0]) + Rest(s, tasks[1..])
  }

  /** The bytes the selector thread has read and not handed over yet. */
  function InHand(s: State, a: nat): string {
    if s.selector.Filled? && s.selector.conn == a then Unread(s, s.selector.buf) else ""
  }

  predicate DataOk(s: State, a: nat) {
    && (Held(s.decoders, a), FramesOf(s, a)) == Decode("", Held(s.consumed, a))
    && Done(s, a) <= |Tasks(s, a)|
    && Held(s.passed, a) + (Rest(s, Tasks(s, a)[Done(s, a)..]) + InHand(s, a)) == Held(s.received, a)
    && PiecesOk(s, a)
  }

  /** Exceptions come behind a frame. */
  predicate PiecesOk(s: State, a: nat) {
    && Held(s.consumed, a) == Given(PiecesOf(s, a)) + Held(s.taken, a)
    && Held(s.passed, a) == Both(PiecesOf(s, a)) + Held(s.taken, a)
    && forall k | 0 <= k < |PiecesOf(s, a)| :: EndsInNul(PiecesOf(s, a)[k].given)
  }

  predicate EndsInNul(given: string) {
    given != "" && given[|given| - 1] == NUL
  }

  ghost predicate ReadInv(s: State) {
    && Inv(s.work)
    && BuffersOk(s) && PoolOk(s) && SelectorOk(s) && TasksOk(s) && OwnersOk(s)
    && forall a: nat :: DataOk(s, a)
  }

  // ----- Helpers -----

  lemma DoneInRange(s: State, a: nat)
    requires Inv(s.work)
    ensures Done(s, a) <= |Tasks(s, a)|
  {
    assert InvAct(s.work, a);
  }

  /** The job a thread works on is the first unfinished task of its actor. */
  lemma RunningIsFirst(s: State, i: nat)
    requires Inv(s.work) && i < |s.work.running|
    ensures var Job(a, t) := s.work.running[i];
            Done(s, a) < |Tasks(s, a)| && Tasks(s, a)[Done(s, a)] == t
  {
    var Job(a, t) := s.work.running[i];
    assert InvAct(s.work, a);
    OfWithout(s.work.running, i, a);
    assert Of(s.work.running, a) == [t];
  }

  /** Steps that change no unread byte of these tasks leave their rest alone. */
  lemma {:induction false} RestSame(s: State, s': State, tasks: seq<ReadTask>)
    requires forall j | 0 <= j < |tasks| :: Ahead(s', tasks[j]) == Ahead(s, tasks[j])
    ensures Rest(s', tasks) == Rest(s, tasks)
  {
    if tasks != [] {
      assert forall j | 0 <= j < |tasks[1..]| :: tasks[1..][j] == tasks[j + 1];
      RestSame(s, s', tasks[1..]);
    }
  }

  lemma {:induction false} RestSnoc(s: State, tasks: seq<ReadTask>, t: ReadTask)
    ensures Rest(s, tasks + [t]) == Rest(s, tasks) + Ahead(s, t)
  {
    if tasks == [] {
      assert tasks + [t] == [t] && [t][1..] == [];
      assert Rest(s, [t]) == Ahead(s, t) + "";
    } else {
      RestSnoc(s, tasks[1..], t);
      assert (tasks + [t])[1..] == tasks[1..] + [t];
      Assoc(Ahead(s, tasks[0]), Rest(s, tasks[1..]), Ahead(s, t));
    }
  }

  /** A step that touches no buffer of an unfinished task. */
  lemma AheadSame(s: State, s': State, a: nat, b: nat)
    requires TasksOk(s) && Done(s, a) <= |Tasks(s, a)|
    requires s'.released == s.released && s'.threw == s.threw
    requires forall c | c != b :: Unread(s', c) == Unread(s, c)
    requires b in s.owner ==> !s.owner[b].ByTask?
    ensures Rest(s', Tasks(s, a)[Done(s, a)..]) == Rest(s, Tasks(s, a)[Done(s, a)..])
  {
    var open := Tasks(s, a)[Done(s, a)..];
    forall j | 0 <= j < |open|
      ensures Ahead(s', open[j]) == Ahead(s, open[j])
    {
      assert TaskOk(s, a, Done(s, a) + j);
    }
    RestSame(s, s', open);
  }

  /** The parts of the state that only the tasks look at. */
  predicate SameTasks(s: State, s': State) {
    && s'.work == s.work && s'.tickets == s.tickets && s'.born == s.born
    && s'.released == s.released && s'.threw == s.threw
    && s'.decoders == s.decoders && s'.frames == s.frames && s'.consumed == s.consumed
    && s'.passed == s.passed && s'.pieces == s.pieces && s'.taken == s.taken
  }

  lemma SameWork(s: State, s': State)
    requires SameTasks(s, s')
    ensures s'.work == s.work
  {
  }

  lemma TasksSame(s: State, s': State)
    requires TasksOk(s) && OwnersOk(s) && SameTasks(s, s')
    requires forall b | b in s.owner && s.owner[b].ByTask? :: b in s'.owner && s'.owner[b] == s.owner[b]
    requires forall b | b in s'.owner && s'.owner[b].ByTask? :: b in s.owner && s.owner[b] == s'.owner[b]
    ensures TasksOk(s') && OwnersOk(s')
  {
    forall a: nat, i: nat | i < |Tasks(s', a)|
      ensures TaskOk(s', a, i)
    {
      assert TaskOk(s, a, i);
    }
    forall b | b in s'.owner && s'.owner[b].ByTask?
      ensures HeldByTask(s', b, s'.owner[b].ticket)
    {
      assert HeldByTask(s, b, s.owner[b].ticket);
    }
  }

  lemma PiecesSame(s: State, s': State, a: nat)
    requires PiecesOk(s, a) && PiecesOf(s', a) == PiecesOf(s, a) && Held(s'.consumed, a) == Held(s.consumed, a)
    requires Held(s'.passed, a) == Held(s.passed, a) && Held(s'.taken, a) == Held(s.taken, a)
    ensures PiecesOk(s', a)
  {
  }

  /** The parts of DataOk that a step may change, put together again. */
  lemma DataAgain(s: State, s': State, a: nat)
    requires DataOk(s, a)
    requires PiecesOf(s', a) == PiecesOf(s, a) && Held(s'.consumed, a) == Held(s.consumed, a)
    requires Held(s'.passed, a) == Held(s.passed, a) && Held(s'.taken, a) == Held(s.taken, a)
    requires Held(s'.decoders, a) == Held(s.decoders, a) && FramesOf(s', a) == FramesOf(s, a)
    requires Held(s'.received, a) == Held(s.received, a) && Done(s', a) <= |Tasks(s', a)|
    requires Rest(s', Tasks(s', a)[Done(s', a)..]) + InHand(s', a) ==
             Rest(s, Tasks(s, a)[Done(s, a)..]) + InHand(s, a)
    ensures DataOk(s', a)
  {
    PiecesSame(s, s', a);
    hide PiecesOk, Rest, InHand, Tasks, Done, PiecesOf, Decode;
  }

  lemma DataSame(s: State, s': State, a: nat)
    requires DataOk(s, a) && SameTasks(s, s')
    requires Rest(s', Tasks(s, a)[Done(s, a)..]) == Rest(s, Tasks(s, a)[Done(s, a)..])
    requires InHand(s', a) == InHand(s, a) && Held(s'.received, a) == Held(s.received, a)
    ensures DataOk(s', a)
  {
    DoneStays(s, s', a);
    hide Rest, InHand, DataOk;
    DataAgain(s, s', a);
  }

  lemma DoneStays(s: State, s': State, a: nat)
    requires DataOk(s, a) && s'.work == s.work
    ensures Tasks(s', a) == Tasks(s, a) && Done(s', a) == Done(s, a) <= |Tasks(s, a)|
  {
  }

  /** A step of the selector thread that reads nothing and touches a buffer of
      no task. */
  lemma QuietStep(s: State, s': State, b: nat)
    requires TasksOk(s) && OwnersOk(s) && SameTasks(s, s') && (forall a: nat :: DataOk(s, a))
    requires s'.received == s.received && !s.selector.Filled? && !s'.selector.Filled?
    requires b in s'.owner && !s'.owner[b].ByTask? && s'.owner == s.owner[b := s'.owner[b]]
    requires b in s.owner ==> !s.owner[b].ByTask?
    requires forall c | c != b :: Unread(s', c) == Unread(s, c)
    ensures TasksOk(s') && OwnersOk(s') && forall a: nat :: DataOk(s', a)
  {
    TasksSame(s, s');
    forall a: nat
      ensures DataOk(s', a)
    {
      assert DataOk(s, a);
      AheadSame(s, s', a, b);
      DataSame(s, s', a);
    }
  }

  // ----- Lease -----

  lemma LeaseBuffers(s: State, conn: nat)
    requires BuffersOk(s) && PoolOk(s) && Can(s, Lease(conn))
    ensures BuffersOk(DoLease(s, conn))
    ensures var s' := DoLease(s, conn);
            var b := s'.selector.buf;
            && s'.selector == Leased(conn, b)
            && (if s.free == [] then b == s.buffers else b == s.free[0] && s.owner[b] == InPool)
            && s'.owner == s.owner[b := BySelector]
            && b in s'.mem && s'.mem[b].pos == 0
            && forall c | c != b :: Unread(s', c) == Unread(s, c)
  {
    if s.free != [] {
      assert s.free[0] in s.owner;
    }
  }

  lemma LeasePool(s: State, conn: nat)
    requires BuffersOk(s) && PoolOk(s) && Can(s, Lease(conn))
    ensures PoolOk(DoLease(s, conn))
  {
    var s' := DoLease(s, conn);
    if s.free != [] {
      assert s.free[0] in s.owner;
      forall b | b in s'.owner && s'.owner[b] == InPool
        ensures b in s'.free
      {
        assert b in s.free;
      }
    } else {
      assert s.buffers !in s.owner;
    }
  }

  lemma LeaseQuiet(s: State, conn: nat)
    requires BuffersOk(s) && PoolOk(s) && Can(s, Lease(conn))
    ensures var s' := DoLease(s, conn);
            var b := s'.selector.buf;
            && b in s'.owner && !s'.owner[b].ByTask? && s'.owner == s.owner[b := s'.owner[b]]
            && (b in s.owner ==> !s.owner[b].ByTask?)
  {
    LeaseBuffers(s, conn);
    hide Zeros, Unread;
    if s.free != [] {
      hide BuffersOk;
    } else {
      hide PoolOk;
    }
  }

  lemma LeaseSame(s: State, conn: nat)
    ensures SameTasks(s, DoLease(s, conn)) && DoLease(s, conn).received == s.received
  {
  }

  lemma LeaseKeeps(s: State, conn: nat)
    requires ReadInv(s) && Can(s, Lease(conn))
    ensures ReadInv(Do(s, Lease(conn)))
  {
    hide BuffersOk, PoolOk, SelectorOk, TasksOk, OwnersOk, DataOk, Inv, SameTasks, DoLease, Unread;
    LeaseBuffers(s, conn);
    LeasePool(s, conn);
    LeaseSelector(s, conn);
    LeaseQuiet(s, conn);
    LeaseSame(s, conn);
    SameWork(s, DoLease(s, conn));
    var s' := DoLease(s, conn);
    QuietStep(s, s', s'.selector.buf);
  }

  lemma LeaseSelector(s: State, conn: nat)
    requires BuffersOk(s) && PoolOk(s) && SelectorOk(s) && Can(s, Lease(conn))
    ensures SelectorOk(DoLease(s, conn))
  {
    LeaseBuffers(s, conn);
  }

  // ----- Fill -----

  lemma FillBuffers(s: State, chunk: string)
    requires BuffersOk(s) && SelectorOk(s) && Can(s, Fill(chunk))
    ensures var s', b := DoFill(s, chunk), s.selector.buf;
            && BuffersOk(s') && SelectorOk(s')
            && Unread(s', b) == chunk
            && forall c | c != b :: Unread(s', c) == Unread(s, c)
  {
    var s', b := DoFill(s, chunk), s.selector.buf;
    assert s'.mem.Keys == s.mem.Keys;
  }

  lemma FillAct(s: State, chunk: string, a: nat)
    requires BuffersOk(s) && SelectorOk(s) && TasksOk(s) && DataOk(s, a) && Can(s, Fill(chunk))
    ensures DataOk(DoFill(s, chunk), a)
  {
    var s' := DoFill(s, chunk);
    var Leased(conn, b) := s.selector;
    FillBuffers(s, chunk);
    hide BuffersOk;
    AheadSame(s, s', a, b);
    if a == conn {
      FillData(Held(s.passed, a), Rest(s, Tasks(s, a)[Done(s, a)..]), chunk);
    } else {
      DataSame(s, s', a);
    }
    hide TasksOk, SelectorOk, Rest, Decode;
  }

  lemma FillShape(s: State, chunk: string)
    requires PoolOk(s) && Can(s, Fill(chunk))
    ensures SameTasks(s, DoFill(s, chunk)) && PoolOk(DoFill(s, chunk)) && DoFill(s, chunk).owner == s.owner
    ensures DoFill(s, chunk).work == s.work
  {
  }

  lemma FillKeeps(s: State, chunk: string)
    requires ReadInv(s) && Can(s, Fill(chunk))
    ensures ReadInv(Do(s, Fill(chunk)))
  {
    hide BuffersOk, PoolOk, SelectorOk, TasksOk, OwnersOk, DataOk, Inv, DoFill, SameTasks, Unread;
    FillBuffers(s, chunk);
    FillShape(s, chunk);
    TasksSame(s, DoFill(s, chunk));
    forall a: nat
      ensures DataOk(DoFill(s, chunk), a)
    {
      FillAct(s, chunk, a);
    }
  }

  lemma FillData(c: string, rest: string, chunk: string)
    ensures c + (rest + "") + chunk == c + (rest + chunk)
  {
    assert rest + "" == rest;
  }

  // ----- Give up -----

  /** Giving a buffer back keeps the pool free of duplicates. */
  lemma ReturnedPool(s: State, s': State, b: nat)
    requires PoolOk(s) && b in s.owner && s.owner[b] != InPool
    requires s'.free == s.free + [b] && s'.owner == s.owner[b := InPool]
    ensures PoolOk(s')
  {
    forall c | c in s'.owner && s'.owner[c] == InPool
      ensures c in s'.free
    {
      if c == b {
        assert s'.free[|s.free|] == b;
      } else {
        assert c in s.free;
      }
    }
  }

  lemma GiveUpKeeps(s: State)
    requires ReadInv(s) && Can(s, GiveUp)
    ensures ReadInv(Do(s, GiveUp))
  {
    hide Inv, TasksOk, OwnersOk, DataOk, PoolOk;
    var s' := Do(s, GiveUp);
    var b := s.selector.buf;
    ReturnedPool(s, s', b);
    assert BuffersOk(s') && SelectorOk(s');
    assert forall c :: Unread(s', c) == Unread(s, c);
    hide BuffersOk, SelectorOk;
    QuietStep(s, s', b);
  }

  // ----- Hand -----

  /** The task list of one connection grows by one task, which takes over the
      selector thread's buffer. */
  lemma HandTasks(s: State)
    requires Inv(s.work) && TasksOk(s) && OwnersOk(s) && SelectorOk(s) && Can(s, Hand)
    ensures var s' := DoHand(s);
            TasksOk(s') && OwnersOk(s') && SelectorOk(s')
  {
    var s' := DoHand(s);
    var Filled(conn, b) := s.selector;
    DoneInRange(s, conn);
    forall a: nat, i: nat | i < |Tasks(s', a)|
      ensures TaskOk(s', a, i)
    {
      if a != conn || i < |Tasks(s, a)| {
        assert TaskOk(s, a, i);
        assert Tasks(s', a)[i] == Tasks(s, a)[i];
      }
    }
    forall c | c in s'.owner && s'.owner[c].ByTask?
      ensures HeldByTask(s', c, s'.owner[c].ticket)
    {
      if c != b {
        assert HeldByTask(s, c, s.owner[c].ticket);
      }
    }
  }

  /** The bytes in hand become the last of the connection's tasks. */
  lemma HandRest(s: State, a: nat)
    requires Inv(s.work) && TasksOk(s) && OwnersOk(s) && SelectorOk(s) && Can(s, Hand) && Done(s, a) <= |Tasks(s, a)|
    ensures var s' := DoHand(s);
            && Done(s', a) <= |Tasks(s', a)|
            && Rest(s', Tasks(s', a)[Done(s', a)..]) + InHand(s', a) ==
               Rest(s, Tasks(s, a)[Done(s, a)..]) + InHand(s, a)
  {
    var s' := DoHand(s);
    var Filled(conn, b) := s.selector;
    var t := ReadTask(s.tickets, b);
    var open := Tasks(s, a)[Done(s, a)..];
    RestSame(s, s', open);
    if a == conn {
      assert Tasks(s', a)[Done(s', a)..] == open + [t];
      RestSnoc(s', open, t);
      assert Ahead(s', t) == Unread(s, b) == InHand(s, a) && InHand(s', a) == "";
      hide Rest, Ahead, InHand, Unread, Inv, TasksOk, OwnersOk, SelectorOk;
      assert Rest(s', open) + Ahead(s', t) + "" == Rest(s, open) + InHand(s, a);
    } else {
      assert Tasks(s', a)[Done(s', a)..] == open;
    }
  }

  lemma HandData(s: State, a: nat)
    requires Inv(s.work) && TasksOk(s) && OwnersOk(s) && SelectorOk(s) && Can(s, Hand) && DataOk(s, a)
    ensures DataOk(DoHand(s), a)
  {
    HandRest(s, a);
    hide Inv, TasksOk, OwnersOk, SelectorOk, Rest, InHand, Tasks, Done, DataOk;
    DataAgain(s, DoHand(s), a);
  }

  lemma HandKeeps(s: State)
    requires ReadInv(s) && Can(s, Hand)
    ensures ReadInv(Do(s, Hand))
  {
    var s' := DoHand(s);
    StepKeeps(s.work, Submit(s.selector.conn, ReadTask(s.tickets, s.selector.buf)));
    HandTasks(s);
    assert BuffersOk(s') && PoolOk(s');
    forall a: nat
      ensures DataOk(s', a)
    {
      HandData(s, a);
    }
  }

  // ----- Start, complete, collect -----

  predicate Moves(s: State, step: Step<ReadTask>) {
    && Enabled(s.work, step) && !step.Submit?
    && (step.Complete? ==> s.work.running[step.i].run.ticket in s.released)
  }

  /** At most one task of one connection becomes finished, and that one has
      given its buffer back. */
  lemma PoolStepProgress(s: State, step: Step<ReadTask>, a: nat)
    requires Inv(s.work) && Moves(s, step)
    ensures var s' := s.(work := Apply(s.work, step));
            && Tasks(s', a) == Tasks(s, a)
            && Done(s, a) <= Done(s', a) <= |Tasks(s, a)|
            && Done(s', a) <= Done(s, a) + 1
            && (Done(s', a) > Done(s, a) ==> Tasks(s, a)[Done(s, a)].ticket in s.released)
  {
    var s' := s.(work := Apply(s.work, step));
    StepKeeps(s.work, step);
    DoneInRange(s, a);
    DoneInRange(s', a);
    if step.Complete? {
      RunningIsFirst(s, step.i);
    }
  }

  lemma RestBehind(s: State, open: seq<ReadTask>)
    requires open != [] && Ahead(s, open[0]) == ""
    ensures Rest(s, open[1..]) == Rest(s, open)
  {
    hide Ahead;
  }

  lemma PoolStepRest(s: State, step: Step<ReadTask>, a: nat)
    requires Inv(s.work) && Moves(s, step)
    ensures var s' := s.(work := Apply(s.work, step));
            && Done(s', a) <= |Tasks(s', a)| && Done(s, a) <= |Tasks(s, a)|
            && Rest(s', Tasks(s', a)[Done(s', a)..]) == Rest(s, Tasks(s, a)[Done(s, a)..])
            && InHand(s', a) == InHand(s, a)
  {
    var s' := s.(work := Apply(s.work, step));
    PoolStepProgress(s, step, a);
    hide Apply, Enabled, Inv, Moves, Tasks, Done, Ahead, Rest;
    var open, open' := Tasks(s, a)[Done(s, a)..], Tasks(s', a)[Done(s', a)..];
    RestSame(s, s', open');
    if Done(s', a) > Done(s, a) {
      assert open' == open[1..];
      RestBehind(s, open);
    } else {
      assert open' == open;
    }
  }

  lemma PoolStepData(s: State, step: Step<ReadTask>, a: nat)
    requires Inv(s.work) && Moves(s, step) && DataOk(s, a)
    ensures DataOk(s.(work := Apply(s.work, step)), a)
  {
    PoolStepRest(s, step, a);
    hide Inv, Moves, Rest, InHand, DataOk, Apply, Enabled, Tasks, Done;
    DataAgain(s, s.(work := Apply(s.work, step)), a);
  }

  lemma PoolStepTasks(s: State, step: Step<ReadTask>)
    requires Inv(s.work) && TasksOk(s) && OwnersOk(s) && Moves(s, step)
    ensures var s' := s.(work := Apply(s.work, step)); TasksOk(s') && OwnersOk(s')
  {
    var s' := s.(work := Apply(s.work, step));
    assert s'.work.submitted == s.work.submitted;
    hide TasksOk, OwnersOk, Inv, Apply, Enabled, Moves, Tasks, Done;
    forall a: nat
      ensures Done(s, a) <= Done(s', a) <= |Tasks(s, a)|
      ensures forall i: nat | Done(s, a) <= i < Done(s', a) :: Tasks(s, a)[i].ticket in s.released
    {
      PoolStepProgress(s, step, a);
    }
    FewerOpen(s, s');
  }

  /** Steps of the pool that submit nothing leave the buffers alone. */
  lemma PoolStepKeeps(s: State, step: Step<ReadTask>)
    requires ReadInv(s) && Moves(s, step)
    ensures ReadInv(s.(work := Apply(s.work, step)))
  {
    var s' := s.(work := Apply(s.work, step));
    assert BuffersOk(s') && PoolOk(s') && SelectorOk(s');
    hide BuffersOk, PoolOk, SelectorOk, TasksOk, OwnersOk, DataOk, Inv, Apply, Enabled, Moves;
    StepMoves(s, step);
    PoolStepTasks(s, step);
    forall a: nat
      ensures DataOk(s', a)
    {
      PoolStepData(s, step, a);
    }
  }

  lemma StepMoves(s: State, step: Step<ReadTask>)
    requires Inv(s.work) && Moves(s, step)
    ensures Inv(Apply(s.work, step))
  {
    StepKeeps(s.work, step);
  }

  /** Tasks may finish once they have released their buffer. */
  lemma FewerOpen(s: State, s': State)
    requires TasksOk(s) && OwnersOk(s) && s' == s.(work := s'.work)
    requires s'.work.submitted == s.work.submitted
    requires forall a: nat :: Done(s, a) <= Done(s', a) <= |Tasks(s, a)|
    requires forall a: nat, i: nat | Done(s, a) <= i < Done(s', a) :: Tasks(s, a)[i].ticket in s.released
    ensures TasksOk(s') && OwnersOk(s')
  {
    forall a: nat, i: nat | i < |Tasks(s', a)|
      ensures TaskOk(s', a, i)
    {
      assert TaskOk(s, a, i);
    }
    forall b | b in s'.owner && s'.owner[b].ByTask?
      ensures HeldByTask(s', b, s'.owner[b].ticket)
    {
      assert HeldByTask(s, b, s.owner[b].ticket);
    }
  }

  // ----- Release -----

  lemma ReleaseKeeps(s: State, i: nat)
    requires ReadInv(s) && Can(s, Release(i))
    ensures ReadInv(Do(s, Release(i)))
  {
    var s' := DoRelease(s, i);
    var Job(act, t) := s.work.running[i];
    RunningIsFirst(s, i);
    assert TaskOk(s, act, Done(s, act));
    ReturnedPool(s, s', t.buf);
    assert BuffersOk(s') && SelectorOk(s');
    ReleaseTasks(s, i);
    forall a: nat
      ensures DataOk(s', a)
    {
      assert DataOk(s, a);
      ReleaseData(s, i, a);
    }
  }

  lemma ReleaseTasks(s: State, i: nat)
    requires Inv(s.work) && TasksOk(s) && OwnersOk(s) && Can(s, Release(i))
    ensures TasksOk(DoRelease(s, i)) && OwnersOk(DoRelease(s, i))
  {
    var s' := DoRelease(s, i);
    var Job(act, t) := s.work.running[i];
    RunningIsFirst(s, i);
    assert TaskOk(s, act, Done(s, act));
    forall a: nat, j: nat | j < |Tasks(s', a)|
      ensures TaskOk(s', a, j)
    {
      assert TaskOk(s, a, j);
    }
    forall b | b in s'.owner && s'.owner[b].ByTask?
      ensures HeldByTask(s', b, s'.owner[b].ticket)
    {
      assert HeldByTask(s, b, s.owner[b].ticket);
      assert HeldByTask(s, t.buf, t.ticket);
    }
  }

  lemma ReleaseRest(s: State, i: nat, a: nat)
    requires Inv(s.work) && TasksOk(s) && Can(s, Release(i)) && Done(s, a) <= |Tasks(s, a)|
    ensures var open := Tasks(s, a)[Done(s, a)..];
            Rest(DoRelease(s, i), open) == Rest(s, open)
  {
    var s' := DoRelease(s, i);
    var Job(act, t) := s.work.running[i];
    RunningIsFirst(s, i);
    assert TaskOk(s, act, Done(s, act));
    var open := Tasks(s, a)[Done(s, a)..];
    forall j | 0 <= j < |open|
      ensures Ahead(s', open[j]) == Ahead(s, open[j])
    {
      assert TaskOk(s, a, Done(s, a) + j);
      if open[j].ticket == t.ticket {
        assert open[j] == t && (t.ticket in s.threw || s.mem[t.buf].pos == s.mem[t.buf].limit);
      }
    }
    hide Inv, TasksOk, TaskOk, Ahead, Rest;
    RestSame(s, s', open);
  }

  lemma ReleaseData(s: State, i: nat, a: nat)
    requires Inv(s.work) && TasksOk(s) && Can(s, Release(i)) && DataOk(s, a)
    ensures DataOk(DoRelease(s, i), a)
  {
    ReleaseRest(s, i, a);
    assert Done(DoRelease(s, i), a) <= |Tasks(DoRelease(s, i), a)|;
    hide Inv, TasksOk, Rest, DataOk;
    DataAgain(s, DoRelease(s, i), a);
  }

  // ----- Decode -----

  lemma SliceHead(data: string, pos: nat, limit: nat)
    requires pos < limit <= |data|
    ensures data[pos..limit] == [data[pos]] + data[pos + 1..limit]
  {
  }

  /** The byte decoded, and what is dropped with it. */
  function Passing(s: State, i: nat, throws: bool): string
    requires CanDecode(s, i)
  {
    var buff := s.mem[s.work.running[i].run.buf];
    [buff.data[buff.pos]] + Drops(s, i, throws)
  }

  /** The task's buffer loses its first unread byte, and after an exception all
      the others; no other buffer changes. */
  lemma DecodeAhead(s: State, i: nat, throws: bool)
    requires Inv(s.work) && TasksOk(s) && SelectorOk(s) && CanDecode(s, i)
    ensures var s' := DoDecode(s, i, throws);
            var Job(a, t) := s.work.running[i];
            && Ahead(s, t) == Passing(s, i, throws) + Ahead(s', t)
            && (forall c | c != t.buf :: Unread(s', c) == Unread(s, c))
            && (forall c :: InHand(s', c) == InHand(s, c))
            && t.buf in s.owner && s.owner[t.buf] == ByTask(t.ticket)
  {
    var s' := DoDecode(s, i, throws);
    var Job(a, t) := s.work.running[i];
    RunningIsFirst(s, i);
    assert TaskOk(s, a, Done(s, a));
    SliceHead(s.mem[t.buf].data, s.mem[t.buf].pos, s.mem[t.buf].limit);
    assert Unread(s', t.buf) == s.mem[t.buf].data[s.mem[t.buf].pos + 1..s.mem[t.buf].limit];
    if throws {
      assert Passing(s, i, throws) + "" == Passing(s, i, throws);
    } else {
      assert Drops(s, i, throws) == "" && Passing(s, i, throws) == [s.mem[t.buf].data[s.mem[t.buf].pos]];
    }
  }

  /** The read that is decoded owns its buffer, and is known by its number. */
  lemma DecodeOwner(s: State, i: nat)
    requires Inv(s.work) && TasksOk(s) && CanDecode(s, i)
    ensures var Job(act, t) := s.work.running[i];
            && Done(s, act) < |Tasks(s, act)| && Tasks(s, act)[Done(s, act)] == t
            && t.buf in s.owner && s.owner[t.buf] == ByTask(t.ticket)
            && t.ticket in s.born && s.born[t.ticket] == (act, Done(s, act))
  {
    var Job(act, t) := s.work.running[i];
    RunningIsFirst(s, i);
    assert TaskOk(s, act, Done(s, act));
    hide Inv, TasksOk, Tasks, Done;
  }

  lemma DecodeOtherTask(s: State, i: nat, throws: bool, a: nat, k: nat)
    requires CanDecode(s, i) && k < |Tasks(s, a)| && Done(s, a) <= k && TaskOk(s, a, k)
    requires var Job(act, t) := s.work.running[i];
             && t.buf in s.owner && s.owner[t.buf] == ByTask(t.ticket)
             && t.ticket in s.born && s.born[t.ticket] != (a, k)
    ensures Ahead(DoDecode(s, i, throws), Tasks(s, a)[k]) == Ahead(s, Tasks(s, a)[k])
  {
    hide DecodeStep, Held, PiecesOf, FramesOf, Drops;
  }

  /** All other open reads keep what they have to read. */
  lemma DecodeOthersAhead(s: State, i: nat, throws: bool, a: nat, n: nat)
    requires Inv(s.work) && TasksOk(s) && CanDecode(s, i) && Done(s, a) <= n <= |Tasks(s, a)|
    requires a == s.work.running[i].act ==> n > Done(s, a)
    ensures Rest(DoDecode(s, i, throws), Tasks(s, a)[n..]) == Rest(s, Tasks(s, a)[n..])
  {
    DecodeOwner(s, i);
    hide Inv, DoDecode, CanDecode, Ahead, Rest, TaskOk, Tasks, Done;
    var rest := Tasks(s, a)[n..];
    forall j | 0 <= j < |rest|
      ensures Ahead(DoDecode(s, i, throws), rest[j]) == Ahead(s, rest[j])
    {
      assert TaskOk(s, a, n + j);
      DecodeOtherTask(s, i, throws, a, n + j);
    }
    hide TasksOk;
    RestSame(s, DoDecode(s, i, throws), rest);
  }

  lemma DecodeRest(s: State, i: nat, throws: bool)
    requires Inv(s.work) && TasksOk(s) && SelectorOk(s) && CanDecode(s, i)
    ensures var s' := DoDecode(s, i, throws);
            var Job(a, t) := s.work.running[i];
            && Done(s, a) < |Tasks(s, a)|
            && var open := Tasks(s, a)[Done(s, a)..];
               Rest(s, open) == Passing(s, i, throws) + Rest(s', open)
  {
    var s' := DoDecode(s, i, throws);
    var Job(a, t) := s.work.running[i];
    DecodeOwner(s, i);
    DecodeAhead(s, i, throws);
    DecodeOthersAhead(s, i, throws, a, Done(s, a) + 1);
    hide Inv, TasksOk, SelectorOk, CanDecode, DoDecode, Ahead, Unread, InHand, Passing, Tasks, Done;
    var open := Tasks(s, a)[Done(s, a)..];
    assert open[0] == t && open[1..] == Tasks(s, a)[Done(s, a) + 1..];
    Assoc(Passing(s, i, throws), Ahead(s', t), Rest(s, open[1..]));
  }

  lemma PiecesNext(pieces: seq<Piece>, p: Piece)
    ensures Given(pieces + [p]) == Given(pieces) + p.given
    ensures Both(pieces + [p]) == Both(pieces) + (p.given + p.dropped)
  {
    assert (pieces + [p])[..|pieces|] == pieces;
  }

  /** The history of what was given and what was dropped grows in step. */
  lemma PiecesGrow(p: seq<Piece>, t: string, b: string, d: string)
    ensures Given(p + [Piece(t + b, d)]) + "" == (Given(p) + t) + b
    ensures Both(p + [Piece(t + b, d)]) + "" == (Both(p) + t) + (b + d)
    ensures Given(p) + (t + b) == (Given(p) + t) + b && Both(p) + (t + b) == (Both(p) + t) + (b + "")
  {
    PiecesNext(p, Piece(t + b, d));
    hide Given, Both;
    assert Given(p) + (t + b) + "" == (Given(p) + t) + b;
    assert Both(p) + ((t + b) + d) + "" == (Both(p) + t) + (b + d);
    assert b + "" == b;
  }

  lemma DecodePieces(s: State, i: nat, throws: bool)
    requires CanDecode(s, i) && PiecesOk(s, s.work.running[i].act)
    requires throws ==> s.mem[s.work.running[i].run.buf].data[s.mem[s.work.running[i].run.buf].pos] == NUL
    ensures PiecesOk(DoDecode(s, i, throws), s.work.running[i].act)
  {
    var s' := DoDecode(s, i, throws);
    var a := s.work.running[i].act;
    var buff := s.mem[s.work.running[i].run.buf];
    var b, d, p, t := [buff.data[buff.pos]], Drops(s, i, throws), PiecesOf(s, a), Held(s.taken, a);
    PiecesGrow(p, t, b, d);
    assert !throws ==> d == "";
    assert throws ==> EndsInNul(t + b);
    assert PiecesOf(s', a) == if throws then p + [Piece(t + b, d)] else p;
    assert Held(s'.consumed, a) == Held(s.consumed, a) + b && Held(s'.passed, a) == Held(s.passed, a) + (b + d);
    assert Held(s'.taken, a) == if throws then "" else t + b;
    hide Given, Both, Drops, DoDecode, PiecesOf, EndsInNul;
  }

  /** The byte that is decoded, with what is dropped behind it, moves from the
      unread bytes of the connection to those that have passed. */
  lemma DecodeMoves(s: State, i: nat, throws: bool)
    requires Inv(s.work) && TasksOk(s) && SelectorOk(s)
    requires CanDecode(s, i) && DataOk(s, s.work.running[i].act)
    ensures var s', a := DoDecode(s, i, throws), s.work.running[i].act;
            && Tasks(s', a) == Tasks(s, a) && Done(s', a) == Done(s, a) <= |Tasks(s, a)|
            && Held(s'.passed, a) + (Rest(s', Tasks(s', a)[Done(s', a)..]) + InHand(s', a)) == Held(s'.received, a)
  {
    var s' := DoDecode(s, i, throws);
    var a := s.work.running[i].act;
    DecodeRest(s, i, throws);
    DecodeAhead(s, i, throws);
    var open := Tasks(s, a)[Done(s, a)..];
    assert Held(s'.passed, a) == Held(s.passed, a) + Passing(s, i, throws);
    hide PiecesOk, Inv, TasksOk, SelectorOk, Rest, Ahead, Drops, InHand, Passing, Decode;
    MoveBytes(Held(s.passed, a), Passing(s, i, throws), Rest(s', open), InHand(s, a));
  }

  lemma DecodeDecodes(s: State, i: nat, throws: bool)
    requires CanDecode(s, i)
    requires var a := s.work.running[i].act; (Held(s.decoders, a), FramesOf(s, a)) == Decode("", Held(s.consumed, a))
    ensures var s', a := DoDecode(s, i, throws), s.work.running[i].act;
            (Held(s'.decoders, a), FramesOf(s', a)) == Decode("", Held(s'.consumed, a))
  {
    var Job(a, t) := s.work.running[i];
    DecodeNext("", Held(s.consumed, a), s.mem[t.buf].data[s.mem[t.buf].pos]);
    assert FramesOf(s, a) + [] == FramesOf(s, a);
    hide Decode, Drops;
  }

  lemma DecodeData(s: State, i: nat, throws: bool)
    requires Inv(s.work) && TasksOk(s) && SelectorOk(s)
    requires Can(s, DecodeByte(i, throws)) && DataOk(s, s.work.running[i].act)
    ensures DataOk(DoDecode(s, i, throws), s.work.running[i].act)
  {
    DecodeMoves(s, i, throws);
    DecodeDecodes(s, i, throws);
    DecodePieces(s, i, throws);
    hide PiecesOk, Inv, TasksOk, SelectorOk, Rest, InHand, DoDecode, Decode, Tasks, Done;
  }

  lemma MoveBytes(c: string, b: string, rest: string, hand: string)
    ensures c + ((b + rest) + hand) == (c + b) + (rest + hand)
  {
  }

  lemma DecodeOthersRest(s: State, i: nat, throws: bool, a: nat)
    requires Inv(s.work) && TasksOk(s) && SelectorOk(s) && CanDecode(s, i)
    requires a != s.work.running[i].act && Done(s, a) <= |Tasks(s, a)|
    ensures var s', open := DoDecode(s, i, throws), Tasks(s, a)[Done(s, a)..];
            Rest(s', open) == Rest(s, open) && InHand(s', a) == InHand(s, a)
  {
    hide Inv, TasksOk, SelectorOk, CanDecode, DoDecode, Ahead, Unread, InHand, Rest, Tasks, Done, Passing;
    DecodeAhead(s, i, throws);
    DecodeOthersAhead(s, i, throws, a, Done(s, a));
  }

  lemma DecodeDoneSame(s: State, i: nat, throws: bool, a: nat)
    requires CanDecode(s, i) && Done(s, a) <= |Tasks(s, a)|
    ensures var s' := DoDecode(s, i, throws); Tasks(s', a) == Tasks(s, a) && Done(s', a) == Done(s, a) <= |Tasks(s', a)|
  {
  }

  lemma DecodeOthersHeld(s: State, i: nat, throws: bool, a: nat)
    requires CanDecode(s, i) && a != s.work.running[i].act
    ensures var s' := DoDecode(s, i, throws);
            && Held(s'.decoders, a) == Held(s.decoders, a) && FramesOf(s', a) == FramesOf(s, a)
            && Held(s'.consumed, a) == Held(s.consumed, a) && Held(s'.received, a) == Held(s.received, a)
            && Held(s'.passed, a) == Held(s.passed, a) && PiecesOf(s', a) == PiecesOf(s, a)
            && Held(s'.taken, a) == Held(s.taken, a)
  {
    hide Drops, DecodeStep;
  }

  lemma DecodeOthers(s: State, i: nat, throws: bool, a: nat)
    requires Inv(s.work) && TasksOk(s) && SelectorOk(s)
    requires CanDecode(s, i) && a != s.work.running[i].act && DataOk(s, a)
    ensures DataOk(DoDecode(s, i, throws), a)
  {
    DecodeOthersRest(s, i, throws, a);
    DecodeDoneSame(s, i, throws, a);
    DecodeOthersHeld(s, i, throws, a);
    hide Inv, TasksOk, SelectorOk, Rest, InHand, DataOk, Tasks, Done, DoDecode, CanDecode, Held, FramesOf, PiecesOf;
    DataAgain(s, DoDecode(s, i, throws), a);
  }

  lemma DecodeTasks(s: State, i: nat, throws: bool)
    requires Inv(s.work) && TasksOk(s) && OwnersOk(s) && CanDecode(s, i)
    ensures TasksOk(DoDecode(s, i, throws)) && OwnersOk(DoDecode(s, i, throws))
  {
    var s' := DoDecode(s, i, throws);
    var Job(act, t) := s.work.running[i];
    RunningIsFirst(s, i);
    assert TaskOk(s, act, Done(s, act));
    forall a: nat, j: nat | j < |Tasks(s', a)|
      ensures TaskOk(s', a, j)
    {
      assert TaskOk(s, a, j);
    }
    forall b | b in s'.owner && s'.owner[b].ByTask?
      ensures HeldByTask(s', b, s'.owner[b].ticket)
    {
      assert HeldByTask(s, b, s.owner[b].ticket);
    }
  }

  lemma DecodeKeeps(s: State, i: nat, throws: bool)
    requires ReadInv(s) && Can(s, DecodeByte(i, throws))
    ensures ReadInv(Do(s, DecodeByte(i, throws)))
  {
    DecodeTasks(s, i, throws);
    DecodeBuffers(s, i, throws);
    var s' := DoDecode(s, i, throws);
    assert s'.work == s.work;
    hide Inv, TasksOk, SelectorOk, BuffersOk, PoolOk, OwnersOk, DataOk, DoDecode;
    forall a: nat
      ensures DataOk(s', a)
    {
      assert DataOk(s, a);
      if a == s.work.running[i].act {
        DecodeData(s, i, throws);
      } else {
        DecodeOthers(s, i, throws, a);
      }
    }
  }

  lemma DecodeBuffers(s: State, i: nat, throws: bool)
    requires BuffersOk(s) && PoolOk(s) && SelectorOk(s) && Inv(s.work) && TasksOk(s) && CanDecode(s, i)
    ensures var s' := DoDecode(s, i, throws); BuffersOk(s') && PoolOk(s') && SelectorOk(s')
  {
    DecodeAhead(s, i, throws);
    hide Inv, TasksOk, DecodeStep, Drops, Ahead, Unread, InHand, Held, PiecesOf, FramesOf;
  }

  // ----- Every run -----

  lemma ReadStepKeeps(s: State, step: ReadStep)
    requires ReadInv(s) && Can(s, step)
    ensures ReadInv(Do(s, step))
  {
    match step
    case Lease(conn) => LeaseKeeps(s, conn);
    case Fill(chunk) => FillKeeps(s, chunk);
    case GiveUp => GiveUpKeeps(s);
    case Hand => HandKeeps(s);
    case StartTask => PoolStepKeeps(s, Start);
    case DecodeByte(i, throws) => DecodeKeeps(s, i, throws);
    case Release(i) => ReleaseKeeps(s, i);
    case CompleteTask(i) => PoolStepKeeps(s, Complete(i));
    case CollectAct(act) => PoolStepKeeps(s, Collect(act));
  }

  lemma {:induction false} ReadRunKeeps(s: State, steps: seq<ReadStep>)
    requires ReadInv(s) && LegalRun(s, steps)
    ensures ReadInv(RunTo(s, steps))
    decreases |steps|
  {
    if steps != [] {
      ReadStepKeeps(s, steps[0]);
      ReadRunKeeps(Do(s, steps[0]), steps[1..]);
    }
  }

  lemma BeginInv(threads: nat)
    ensures ReadInv(Begin(threads))
  {
    InitialInv<ReadTask>(threads);
  }

  /** In every interleaving, and however the bytes were cut into chunks, the
      frames a connection hands to its protocol are those of the bytes given to
      its decoder.  These are the bytes read from its channel, in order, but for
      the rests of chunks in which process threw, each behind a frame.  Without
      an exception the frames are a prefix of the frames of all bytes read.  Once
      its actor is idle nothing is left to decode. */
  lemma FramesInOrder(threads: nat, steps: seq<ReadStep>, a: nat)
    requires LegalRun(Begin(threads), steps)
    ensures var s := RunTo(Begin(threads), steps);
            var idle := a !in s.work.pool.playing && !(s.selector.Filled? && s.selector.conn == a);
            && (Held(s.decoders, a), FramesOf(s, a)) == Decode("", Held(s.consumed, a))
            && PiecesOk(s, a)
            && Held(s.passed, a) <= Held(s.received, a)
            && (idle ==> Held(s.passed, a) == Held(s.received, a))
            && (PiecesOf(s, a) == [] ==>
                  && FramesOf(s, a) <= Frames(Held(s.received, a))
                  && (idle ==>
                        && FramesOf(s, a) == Frames(Held(s.received, a))
                        && Held(s.decoders, a) == Unfinished(Held(s.received, a))))
  {
    BeginInv(threads);
    ReadRunKeeps(Begin(threads), steps);
    var s := RunTo(Begin(threads), steps);
    assert DataOk(s, a) && InvAct(s.work, a);
    var open := Tasks(s, a)[Done(s, a)..];
    var later := Rest(s, open) + InHand(s, a);
    assert Held(s.received, a) == Held(s.passed, a) + later;
    if PiecesOf(s, a) == [] {
      assert Held(s.consumed, a) == Held(s.passed, a);
      FramesGrow(Held(s.consumed, a), later);
    }
    if a !in s.work.pool.playing && !(s.selector.Filled? && s.selector.conn == a) {
      AllFinished(s.work, a);
      assert open == [] && later == "";
    }
  }

  lemma AllFinished(w: World<ReadTask>, a: nat)
    requires InvAct(w, a) && a !in w.pool.playing
    ensures Hist(w.finished, a) == Hist(w.submitted, a)
  {
    assert Hist(w.finished, a) + [] + [] + [] == Hist(w.finished, a);
  }

  /** The read with number `i` of connection `a` is not finished and has not
      given back its buffer `b`. */
  predicate Holding(s: State, a: nat, i: nat, b: nat) {
    && Done(s, a) <= i < |Tasks(s, a)|
    && Tasks(s, a)[i].buf == b && Tasks(s, a)[i].ticket !in s.released
  }

  predicate WithSelector(s: State, b: nat) {
    !s.selector.Idle? && s.selector.buf == b
  }

  /** Every buffer is in the pool, with the selector thread, or held by a read,
      and never in two of these places; the pool lists no buffer twice and two
      reads never hold the same one. */
  lemma BuffersAreConserved(threads: nat, steps: seq<ReadStep>, b: nat)
    requires LegalRun(Begin(threads), steps)
    ensures var s := RunTo(Begin(threads), steps);
            && (forall i, j | 0 <= i < j < |s.free| :: s.free[i] != s.free[j])
            && (b < s.buffers <==> b in s.free || WithSelector(s, b) || exists a: nat, i: nat :: Holding(s, a, i, b))
            && (b in s.free ==> !WithSelector(s, b))
            && (forall a: nat, i: nat | Holding(s, a, i, b) ::
                  && b !in s.free && !WithSelector(s, b)
                  && forall a': nat, i': nat | Holding(s, a', i', b) :: a' == a && i' == i)
  {
    BeginInv(threads);
    ReadRunKeeps(Begin(threads), steps);
    var s := RunTo(Begin(threads), steps);
    forall a: nat, i: nat | Holding(s, a, i, b)
      ensures b in s.owner && s.owner[b] == ByTask(Tasks(s, a)[i].ticket)
      ensures Tasks(s, a)[i].ticket in s.born && s.born[Tasks(s, a)[i].ticket] == (a, i)
    {
      assert TaskOk(s, a, i);
    }
    if b < s.buffers {
      assert b in s.owner;
      if s.owner[b].ByTask? {
        assert HeldByTask(s, b, s.owner[b].ticket);
        var (a, i) := s.born[s.owner[b].ticket];
        assert Holding(s, a, i, b);
      }
    }
  }

  /** When no read is under way, every buffer ever allocated is in the pool. */
  lemma BuffersComeBack(threads: nat, steps: seq<ReadStep>)
    requires LegalRun(Begin(threads), steps)
    requires RunTo(Begin(threads), steps).selector.Idle?
    requires RunTo(Begin(threads), steps).work.pool.playing == {}
    ensures var s := RunTo(Begin(threads), steps);
            && (forall b: nat :: b in s.free <==> b < s.buffers)
            && (forall i, j | 0 <= i < j < |s.free| :: s.free[i] != s.free[j])
  {
    BeginInv(threads);
    ReadRunKeeps(Begin(threads), steps);
    var s := RunTo(Begin(threads), steps);
    forall b: nat
      ensures b in s.free <==> b < s.buffers
    {
      BuffersAreConserved(threads, steps, b);
      forall a: nat, i: nat
        ensures !Holding(s, a, i, b)
      {
        assert InvAct(s.work, a);
        AllFinished(s.work, a);
      }
    }
  }

  /** Some read holds this buffer. */
  ghost predicate InUse(s: State, b: nat) {
    exists a: nat, i: nat :: Holding(s, a, i, b)
  }

  lemma NewBuffer(s: State, step: ReadStep)
    requires BuffersOk(s) && PoolOk(s) && Can(s, step) && Do(s, step).buffers != s.buffers
    ensures step.Lease? && s.free == [] && Do(s, step).buffers == s.buffers + 1
  {
  }

  lemma {:induction false} NewBuffers(s: State, steps: seq<ReadStep>) returns (k: nat)
    requires ReadInv(s) && LegalRun(s, steps) && RunTo(s, steps).buffers != s.buffers
    ensures k < |steps| && steps[k].Lease? && LegalRun(s, steps[..k])
    ensures var before := RunTo(s, steps[..k]); before.free == [] && before.buffers == RunTo(s, steps).buffers - 1
    decreases |steps|
  {
    hide Can, Do, DataOk, TasksOk, OwnersOk, SelectorOk, BuffersOk, PoolOk;
    var s1 := Do(s, steps[0]);
    if RunTo(s1, steps[1..]).buffers != s1.buffers {
      ReadStepKeeps(s, steps[0]);
      k := NewBuffers(s1, steps[1..]);
      k := k + 1;
      assert steps[..k][0] == steps[0] && steps[..k][1..] == steps[1..][..k - 1];
    } else {
      NewBuffer(s, steps[0]);
      k := 0;
      assert steps[..0] == [];
    }
  }

  /** A buffer is allocated only when the pool is empty: there was a lease at
      which all other buffers were in use. */
  lemma BuffersAreReused(threads: nat, steps: seq<ReadStep>) returns (k: nat)
    requires LegalRun(Begin(threads), steps) && RunTo(Begin(threads), steps).buffers > 0
    ensures k < |steps| && steps[k].Lease? && LegalRun(Begin(threads), steps[..k])
    ensures var before := RunTo(Begin(threads), steps[..k]);
            && before.buffers == RunTo(Begin(threads), steps).buffers - 1
            && before.free == []
            && forall b: nat | b < before.buffers :: InUse(before, b)
  {
    BeginInv(threads);
    k := NewBuffers(Begin(threads), steps);
    var before := RunTo(Begin(threads), steps[..k]);
    LeaseIsNext(threads, steps, k);
    hide LegalRun, RunTo, Do, ReadInv, Holding;
    forall b: nat | b < before.buffers
      ensures InUse(before, b)
    {
      BuffersAreConserved(threads, steps[..k], b);
    }
  }

  /** The selector thread that leases holds no buffer. */
  lemma {:induction false} NextIsPossible(s: State, steps: seq<ReadStep>, k: nat)
    requires LegalRun(s, steps) && k < |steps|
    ensures LegalRun(s, steps[..k]) && Can(RunTo(s, steps[..k]), steps[k])
    decreases k
  {
    hide Can, Do;
    if k > 0 {
      NextIsPossible(Do(s, steps[0]), steps[1..], k - 1);
      assert steps[..k][0] == steps[0] && steps[..k][1..] == steps[1..][..k - 1];
    } else {
      assert steps[..0] == [];
    }
  }

  lemma LeaseIsNext(threads: nat, steps: seq<ReadStep>, k: nat)
    requires LegalRun(Begin(threads), steps) && k < |steps| && steps[k].Lease?
    ensures LegalRun(Begin(threads), steps[..k]) && RunTo(Begin(threads), steps[..k]).selector.Idle?
  {
    NextIsPossible(Begin(threads), steps, k);
    hide LegalRun, RunTo, Do;
  }

  // ----- Exceptions -----

  lemma StillThrew(s: State, step: ReadStep, k: nat)
    requires Can(s, step) && k in s.threw
    ensures k in Do(s, step).threw
  {
  }

  lemma {:induction false} ThrewForEver(s: State, more: seq<ReadStep>, k: nat)
    requires LegalRun(s, more) && k in s.threw
    ensures k in RunTo(s, more).threw
    decreases |more|
  {
    hide Can, Do;
    if more != [] {
      StillThrew(s, more[0], k);
      ThrewForEver(Do(s, more[0]), more[1..], k);
    }
  }

  /** An exception in process takes the rest of the chunk with it: these bytes
      count as dropped, and in no continuation is a byte of that read given to
      the decoder again. */
  lemma ThrowDropsTheRest(s: State, i: nat, more: seq<ReadStep>)
    requires Can(s, DecodeByte(i, true)) && LegalRun(Do(s, DecodeByte(i, true)), more)
    ensures var (a, t) := (s.work.running[i].act, s.work.running[i].run);
            var s', given := Do(s, DecodeByte(i, true)), Held(s.taken, a) + [NUL];
            && [NUL] <= Unread(s, t.buf)
            && PiecesOf(s', a) == PiecesOf(s, a) + [Piece(given, Unread(s, t.buf)[1..])]
            && Held(s'.passed, a) == Held(s.passed, a) + Unread(s, t.buf)
            && Held(s'.consumed, a) == Held(s.consumed, a) + [NUL]
            && var later := RunTo(s', more);
               forall j | 0 <= j < |later.work.running| && later.work.running[j].run.ticket == t.ticket ::
                 !CanDecode(later, j)
  {
    var t := s.work.running[i].run;
    var buff := s.mem[t.buf];
    SliceHead(buff.data, buff.pos, buff.limit);
    assert Unread(s, t.buf)[1..] == buff.data[buff.pos + 1..buff.limit];
    ThrewForEver(Do(s, DecodeByte(i, true)), more, t.ticket);
  }

  // ----- What has been read -----

  /** The chunks that a run reads from one channel, when `at` is the connection
      whose turn it is at the beginning. */
  function ChunksOf(at: nat, steps: seq<ReadStep>, a: nat): string
    decreases |steps|
  {
    if steps == [] then ""
    else
      match steps[0]
      case Lease(conn) => ChunksOf(conn, steps[1..], a)
      case Fill(chunk) => (if at == a then chunk else "") + ChunksOf(at, steps[1..], a)
      case _ => ChunksOf(at, steps[1..], a)
  }

  lemma StepReads(s: State, step: ReadStep, at: nat, a: nat)
    requires Can(s, step) && (s.selector.Leased? ==> s.selector.conn == at)
    ensures Do(s, step).selector.Leased? ==> Do(s, step).selector.conn == if step.Lease? then step.conn else at
    ensures Held(Do(s, step).received, a) ==
            if step.Fill? && at == a then Held(s.received, a) + step.chunk else Held(s.received, a)
  {
  }

  /** The bytes received are the chunks read, in order. */
  lemma {:induction false} ReceivedIsRead(s: State, steps: seq<ReadStep>, at: nat, a: nat)
    requires LegalRun(s, steps) && (s.selector.Leased? ==> s.selector.conn == at)
    ensures Held(RunTo(s, steps).received, a) == Held(s.received, a) + ChunksOf(at, steps, a)
    decreases |steps|
  {
    hide Can, Do, Held;
    if steps == [] {
      assert Held(s.received, a) + "" == Held(s.received, a);
    } else {
      StepReads(s, steps[0], at, a);
      ReceivedIsRead(Do(s, steps[0]), steps[1..], if steps[0].Lease? then steps[0].conn else at, a);
      if steps[0].Fill? && at == a {
        Assoc(Held(s.received, a), steps[0].chunk, ChunksOf(at, steps[1..], a));
      } else {
        assert "" + ChunksOf(at, steps[1..], a) == ChunksOf(at, steps[1..], a);
      }
    }
  }
}
