/** What the handshake guarantees in every reachable state, for any number of clients: no client writes the tables
    between the thread's snapshot and the end of its scan, the codes never add up to another code, every PAUSE is
    acknowledged once, and whenever nobody is writing them the tables are consistent. */
module PauseSafety {
  import opened FdTables
  import opened PauseHandshake

  // Where the client in the gate stands: has it asked for the tables, or been given them?
  datatype Phase = Quiet | Asked | Holding

  function PhaseOf(client: Client): Phase {
    match client
    case Waiting(_) => Asked
    case Granted(_) => Holding
    case Working(_, _, _) => Holding
    case Resuming => Holding
    case _ => Quiet
  }

  function PhaseIn(s: State): Phase {
    if s.gate.TheClient? && s.gate.c < |s.clients| then PhaseOf(s.clients[s.gate.c]) else Quiet
  }

  predicate Stopped(thread: Thread) {
    thread.Done? || (thread.Decoding? && thread.event >= SHUTDOWN)
  }

  // The thread may look at the tables.
  predicate InLoop(thread: Thread) {
    !thread.Parked? && !thread.Acking? && !thread.Decoding? && !thread.Done?
  }

  predicate HoldsGate(thread: Thread) {
    thread.Clearing? || thread.Unlocking?
  }

  // ----- The invariant -----

  ghost predicate Gate(s: State) {
    && (forall i :: 0 <= i < |s.clients| ==> (InGate(s.clients[i]) <==> s.gate == TheClient(i)))
    && (s.gate.TheClient? ==> s.gate.c < |s.clients|)
    && (HoldsGate(s.thread) <==> s.gate == TheThread)
  }

  // The part of the counter that clients write.
  function Code(counter: nat): nat {
    if counter >= SHUTDOWN then counter - SHUTDOWN else counter
  }

  // What the thread, the client in the gate and the two counters may be at the same time.
  predicate Agree(thread: Thread, phase: Phase, code: nat, acks: nat, early: bool) {
    if Stopped(thread) then
      match phase
      case Quiet => acks == 0 && (code == 0 || code == CONTINUE)
      case Asked => (acks == 1 && code == 0) || (acks == 0 && (code == 0 || code == PAUSE || code == PAUSE + CONTINUE))
      case Holding => acks == 0 && code == 0
    else if thread.Decoding? then
      match phase
      case Quiet => acks == 0 && code == 0 && thread.event == CONTINUE
      case Asked => acks == 0 && ((thread.event == CONTINUE && code == PAUSE) ||
                                  ((thread.event == PAUSE || thread.event == PAUSE + CONTINUE) && code == 0))
      case Holding => false
    else if thread.Acking? then
      phase == Asked && acks == 0 && code == 0
    else if thread.Parked? then
      match phase
      case Quiet => acks == 0 && code == (if early then 0 else CONTINUE)
      case Asked => (acks == 1 && code == 0) || (acks == 0 && (code == PAUSE || code == PAUSE + CONTINUE))
      case Holding => acks == 0 && code == 0
    else
      (phase == Quiet && acks == 0 && code == 0) || (phase == Asked && acks == 0 && code == PAUSE)
  }

  function One(b: bool): nat {
    if b then 1 else 0
  }

  predicate Tallied(thread: Thread, phase: Phase, code: nat, acks: nat, tally: Tally) {
    && tally.pauses == tally.acked + One(phase == Asked && acks == 0)
    && (!Stopped(thread) ==>
      tally.continues == tally.released + One(code >= CONTINUE) + One(thread.Decoding? && thread.event >= CONTINUE))
  }

  // SHUTDOWN is in the counter or read, once it is written, and never twice.
  predicate ShutOnce(thread: Thread, counter: nat, shut: bool) {
    && One(counter >= SHUTDOWN) + One(Stopped(thread)) == One(shut)
    && counter < 2 * SHUTDOWN && (thread.Decoding? ==> thread.event < 2 * SHUTDOWN)
  }

  // An event that select reported has not gone away.
  predicate EventPending(c: Config, thread: Thread, counter: nat) {
    match thread
    case Scanning(_, ready) => c.unblockEvent in ready ==> counter > 0
    case Trying(_, ready) => c.unblockEvent in ready ==> counter > 0
    case Clearing(_, ready) => c.unblockEvent in ready ==> counter > 0
    case Unlocking(_, ready) => c.unblockEvent in ready ==> counter > 0
    case Reading => counter > 0
    case _ => true
  }

  predicate Codes(c: Config, s: State) {
    && Agree(s.thread, PhaseIn(s), Code(s.counter), s.acks, s.early)
    && Tallied(s.thread, PhaseIn(s), Code(s.counter), s.acks, s.tally)
    && ShutOnce(s.thread, s.counter, s.shut)
    && EventPending(c, s.thread, s.counter)
  }

  // The first n writes of a client.
  function Written(op: Request, n: nat, start: Tables, unblockEvent: int): Tables
    requires CanWrite(op, start)
    ensures CanWrite(op, Written(op, n, start, unblockEvent))
  {
    if n == 0 then start else Write(op, n - 1, Written(op, n - 1, start, unblockEvent), unblockEvent)
  }

  // The tables as the last complete update left them.
  function Settled(s: State): Tables {
    if s.gate.TheClient? && s.gate.c < |s.clients| && s.clients[s.gate.c].Working? then
      s.clients[s.gate.c].start
    else
      s.tables
  }

  ghost predicate Consistent(c: Config, t: Tables, open: set<int>) {
    Valid(t, c.unblockEvent) && Fds(t.inFds) <= open && c.unblockEvent in open && |t.inst| == c.instances
  }

  predicate Names(c: Config, op: Request) {
    op.k < c.instances && IsPort(op.queueId)
  }

  // A client that is about to bind has a socket that is not in the tables yet.
  predicate MayBind(c: Config, op: Request, t: Tables, open: set<int>) {
    op.k < |t.inst| && IsPort(op.queueId) &&
    FdOf(t, op.k, Slot(op.queueId)) == UNBOUND && Fresh(t, op.fd, c.unblockEvent) &&
    op.fd in open
  }

  predicate MayUnbind(op: Request, t: Tables) {
    op.k < |t.inst| && IsPort(op.queueId) && op.fd != UNBOUND && FdOf(t, op.k, Slot(op.queueId)) == op.fd
  }

  ghost predicate Justified(c: Config, client: Client, t: Tables, open: set<int>) {
    match client
    case Entering(op) => Names(c, op)
    case Checking(op) => Names(c, op)
    case Asking(op) => Names(c, op) && (op.binding ==> MayBind(c, op, t, open))
    case Waiting(op) => Names(c, op) && (op.binding ==> MayBind(c, op, t, open))
    case Granted(op) => Names(c, op) && (op.binding ==> MayBind(c, op, t, open))
    case Working(op, n, start) =>
      && n <= WRITES && (if op.binding then MayBind(c, op, start, open) else MayUnbind(op, start))
      && t == Written(op, n, start, c.unblockEvent)
    case _ => true
  }

  ghost predicate Updates(c: Config, s: State) {
    && Consistent(c, Settled(s), s.open)
    && forall i :: 0 <= i < |s.clients| ==> Justified(c, s.clients[i], s.tables, s.open)
  }

  // What the thread copied is still so. Of the set, only the thread itself takes bits away.
  predicate Current(s: State) {
    match s.thread
    case CopySet => SameSockets(s)
    case CopyCount => SameSockets(s) && s.snap.rfds == s.tables.rfds
    case Selecting => SameSockets(s) && s.snap.rfds == s.tables.rfds && s.snap.nfds == |s.tables.inFds|
    case Scanning(i, ready) => Copied(s) && i <= s.snap.nfds && ready <= s.snap.rfds
    case Trying(i, ready) => Copied(s) && i < s.snap.nfds && ready <= s.snap.rfds
    case Clearing(i, ready) => Copied(s) && i < s.snap.nfds && ready <= s.snap.rfds
    case Unlocking(i, ready) => Copied(s) && i < s.snap.nfds && ready <= s.snap.rfds
    case _ => true
  }

  predicate SameSockets(s: State) {
    s.snap.seen == s.tables.inFds && s.snap.maxFd == s.tables.maxFd
  }

  predicate Copied(s: State) {
    SameSockets(s) && s.tables.rfds <= s.snap.rfds && s.snap.nfds == |s.tables.inFds|
  }

  ghost predicate Inv(c: Config, s: State) {
    Gate(s) && Codes(c, s) && Updates(c, s) && Current(s)
  }

  // ----- Steps keep it -----

  lemma ThreadKeepsGate(c: Config, s: State, ready: set<int>, lost: bool)
    requires Gate(s) && ThreadCanStep(c, s, ready)
    ensures Gate(ThreadNext(c, s, ready, lost))
  {
    var s' := ThreadNext(c, s, ready, lost);
    assert s'.clients == s.clients;
    assert s'.gate ==
      if s.thread.Trying? && s.gate == Nobody then TheThread else if s.thread.Unlocking? then Nobody else s.gate;
    hide Deafen, Has;
    assert HoldsGate(s'.thread) <==> s'.gate == TheThread;
    hide ThreadNext, Decode, ThreadCanStep, InGate;
  }

  lemma ClientKeepsGate(c: Config, s: State, i: nat, fd: int, bound: bool)
    requires Gate(s) && ClientCanStep(c, s, i, fd)
    ensures Gate(ClientNext(c, s, i, fd, bound))
  {
    var s' := ClientNext(c, s, i, fd, bound);
    hide FdOf, Write, IsPort, CanWrite, Slot, Gate;
    assert s'.thread == s.thread && s'.clients == s.clients[i := s'.clients[i]];
    assert s.clients[i].Entering? ==> s.gate == Nobody && s'.gate == TheClient(i) && InGate(s'.clients[i]);
    assert s.clients[i].Leaving? ==> s'.gate == Nobody && !InGate(s'.clients[i]);
    assert !s.clients[i].Entering? && !s.clients[i].Leaving? ==>
      s'.gate == s.gate && InGate(s.clients[i]) && InGate(s'.clients[i]);
    assert s.clients[i].Leaving? ==> InGate(s.clients[i]);
    hide ClientNext, ClientCanStep, InGate;
    GateMoves(s, s', i);
  }

  lemma GateMoves(s: State, s': State, i: nat)
    requires Gate(s) && i < |s.clients|
    requires s'.thread == s.thread && |s'.clients| == |s.clients| && s'.clients == s.clients[i := s'.clients[i]]
    requires (s.gate == Nobody && s'.gate == TheClient(i) && InGate(s'.clients[i])) ||
             (s'.gate == Nobody && InGate(s.clients[i]) && !InGate(s'.clients[i])) ||
             (s'.gate == s.gate && InGate(s.clients[i]) == InGate(s'.clients[i]))
    ensures Gate(s')
  {
    hide InGate, HoldsGate;
  }

  lemma GateKept(c: Config, s: State, a: Action)
    requires Gate(s) && Enabled(c, s, a)
    ensures Gate(Next(c, s, a))
  {
    match a {
      case ThreadStep(ready, lost) => ThreadKeepsGate(c, s, ready, lost);
      case ClientStep(i, fd, bound) => ClientKeepsGate(c, s, i, fd, bound);
      case Start(i, op) => GateMoves(s, Next(c, s, a), i);
      case _ =>
    }
  }

  // What one round of the loop makes of the events that occur.
  lemma DecodeCases(s: State, event: nat)
    requires event == PAUSE || event == CONTINUE || event == PAUSE + CONTINUE || SHUTDOWN <= event < 2 * SHUTDOWN
    ensures Decode(s, event) ==
      if event >= SHUTDOWN then s.(thread := Done)
      else s.(thread := if event == CONTINUE then Top else Acking,
              tally := s.tally.(released := s.tally.released + One(event >= CONTINUE)))
  {
  }

  lemma DecodingKeepsCodes(c: Config, s: State)
    requires s.thread.Decoding? && Codes(c, s)
    ensures Codes(c, Decode(s, s.thread.event))
  {
    var s' := Decode(s, s.thread.event);
    DecodeCases(s, s.thread.event);
    assert PhaseIn(s') == PhaseIn(s);
    hide PhaseIn, Decode;
  }

  lemma ReadingKeepsCodes(c: Config, s: State)
    requires (s.thread.Reading? || s.thread.Parked?) && Codes(c, s) && s.counter > 0
    ensures Codes(c, s.(counter := 0, thread := Decoding(s.counter)))
  {
    var s' := s.(counter := 0, thread := Decoding(s.counter));
    assert PhaseIn(s') == PhaseIn(s);
    hide PhaseIn;
  }

  // Steps inside the loop leave the counters alone.
  lemma LoopKeepsCodes(c: Config, s: State, s': State)
    requires Codes(c, s) && InLoop(s.thread) && InLoop(s'.thread) && EventPending(c, s'.thread, s.counter)
    requires s'.counter == s.counter && s'.acks == s.acks && s'.shut == s.shut
    requires s'.tally == s.tally && s'.early == s.early
    requires PhaseIn(s') == PhaseIn(s)
    ensures Codes(c, s')
  {
    hide PhaseIn, EventPending;
  }

  lemma AckingKeepsCodes(c: Config, s: State)
    requires s.thread.Acking? && Codes(c, s)
    ensures Codes(c, s.(acks := s.acks + ACK, thread := Parked, tally := s.tally.(acked := s.tally.acked + 1)))
  {
    var s' := s.(acks := s.acks + ACK, thread := Parked, tally := s.tally.(acked := s.tally.acked + 1));
    assert PhaseIn(s') == PhaseIn(s);
    hide PhaseIn;
  }

  lemma EventStaysPending(c: Config, s: State, ready: set<int>, lost: bool)
    requires EventPending(c, s.thread, s.counter) && ThreadCanStep(c, s, ready)
    requires InLoop(s.thread) && !s.thread.Reading?
    ensures var s' := ThreadNext(c, s, ready, lost);
      InLoop(s'.thread) && EventPending(c, s'.thread, s.counter) && s'.counter == s.counter && s'.acks == s.acks &&
      s'.shut == s.shut && s'.tally == s.tally && s'.early == s.early
  {
    hide Deafen;
  }

  lemma ThreadKeepsCodes(c: Config, s: State, ready: set<int>, lost: bool)
    requires Gate(s) && Codes(c, s) && ThreadCanStep(c, s, ready)
    ensures Codes(c, ThreadNext(c, s, ready, lost))
  {
    if s.thread.Decoding? {
      DecodingKeepsCodes(c, s);
    } else if s.thread.Reading? || s.thread.Parked? {
      ReadingKeepsCodes(c, s);
    } else if s.thread.Acking? {
      AckingKeepsCodes(c, s);
    } else if !s.thread.Done? {
      PhasesOfStep(c, s, ThreadStep(ready, lost));
      EventStaysPending(c, s, ready, lost);
      hide Gate, Agree, Tallied, ShutOnce, PhaseIn, ThreadNext, EventPending;
      LoopKeepsCodes(c, s, ThreadNext(c, s, ready, lost));
    }
  }

  // What a step of the client in the gate does to the counters.
  lemma ClientCounts(c: Config, s: State, s': State)
    requires Codes(c, s) && s'.thread == s.thread && s'.shut == s.shut
    requires
      if PhaseIn(s) == Quiet && PhaseIn(s') == Asked then
        s' == s.(counter := s.counter + PAUSE, tally := s.tally.(pauses := s.tally.pauses + 1),
          gate := s'.gate, clients := s'.clients)
      else if PhaseIn(s) == Asked then
        PhaseIn(s') == Holding && s.acks > 0 && s' == s.(acks := s.acks - 1, clients := s'.clients)
      else if PhaseIn(s) == Holding && PhaseIn(s') == Quiet then
        || (s'.early && s' == s.(early := true, clients := s'.clients))
        || (s' == s.(counter := s.counter + CONTINUE, clients := s'.clients, early := false,
                     tally := s.tally.(continues := s.tally.continues + 1)))
      else
        PhaseIn(s) == PhaseIn(s') && s'.counter == s.counter && s'.acks == s.acks &&
        s'.tally == s.tally && s'.early == s.early
    ensures Codes(c, s')
  {
    hide PhaseIn;
  }

  lemma PhasesOfStep(c: Config, s: State, a: Action)
    requires Gate(s) && Enabled(c, s, a)
    ensures a.ClientStep? ==>
      PhaseIn(s) == PhaseOf(s.clients[a.c]) && PhaseIn(Next(c, s, a)) == PhaseOf(Next(c, s, a).clients[a.c])
    ensures !a.ClientStep? ==> PhaseIn(Next(c, s, a)) == PhaseIn(s)
  {
    hide Write, FdOf, IsPort, CanWrite, Slot, Deafen, Has;
    if a.ClientStep? { assert s.clients[a.c].Entering? || s.gate == TheClient(a.c); }
  }

  lemma AskerKeepsCodes(c: Config, s: State, i: nat, fd: int, bound: bool)
    requires Gate(s) && Codes(c, s) && ClientCanStep(c, s, i, fd) && PhaseOf(s.clients[i]) == Quiet
    ensures Codes(c, ClientNext(c, s, i, fd, bound))
  {
    PhasesOfStep(c, s, ClientStep(i, fd, bound));
    hide Gate, Codes, Write, FdOf, PhaseIn, IsPort, CanWrite, Slot, Has;
    ClientCounts(c, s, ClientNext(c, s, i, fd, bound));
  }

  lemma ResumerKeepsCodes(c: Config, s: State, i: nat, fd: int, bound: bool)
    requires Gate(s) && Codes(c, s) && ClientCanStep(c, s, i, fd) && (s.clients[i].Resuming? || s.clients[i].Waiting?)
    ensures Codes(c, ClientNext(c, s, i, fd, bound))
  {
    PhasesOfStep(c, s, ClientStep(i, fd, bound));
    hide Gate, Codes, Write, FdOf, PhaseIn, IsPort, CanWrite, Slot, Has;
    ClientCounts(c, s, ClientNext(c, s, i, fd, bound));
  }

  lemma WriterKeepsCodes(c: Config, s: State, i: nat, fd: int, bound: bool)
    requires Gate(s) && Codes(c, s) && ClientCanStep(c, s, i, fd) && (s.clients[i].Granted? || s.clients[i].Working?)
    ensures Codes(c, ClientNext(c, s, i, fd, bound))
  {
    PhasesOfStep(c, s, ClientStep(i, fd, bound));
    hide Gate, Codes, Write, FdOf, PhaseIn, IsPort, CanWrite, Slot, Has;
    ClientCounts(c, s, ClientNext(c, s, i, fd, bound));
  }

  lemma CodesKept(c: Config, s: State, a: Action)
    requires Gate(s) && Codes(c, s) && Enabled(c, s, a)
    ensures Codes(c, Next(c, s, a))
  {
    match a {
      case ThreadStep(ready, lost) => ThreadKeepsCodes(c, s, ready, lost);
      case ClientStep(i, fd, bound) =>
        if PhaseOf(s.clients[i]) == Quiet {
          AskerKeepsCodes(c, s, i, fd, bound);
        } else if s.clients[i].Granted? || s.clients[i].Working? {
          WriterKeepsCodes(c, s, i, fd, bound);
        } else {
          ResumerKeepsCodes(c, s, i, fd, bound);
        }
      case _ => PhasesOfStep(c, s, a);
    }
  }

  // A client in possession of the tables has the thread parked or stopped.
  lemma HoldingMeansParked(c: Config, s: State)
    requires Codes(c, s) && PhaseIn(s) == Holding
    ensures s.thread.Parked? || Stopped(s.thread)
  {
  }

  lemma CurrentKept(c: Config, s: State, a: Action)
    requires Inv(c, s) && Enabled(c, s, a)
    ensures Current(Next(c, s, a))
  {
    hide Gate, Codes, Updates, ThreadNext, ClientNext, ThreadCanStep, ClientCanStep;
    match a {
      case ThreadStep(ready, lost) =>
        if s.thread.Clearing? { ClearerAlone(c, s); }
        ThreadKeepsCurrent(c, s, ready, lost);
      case ClientStep(i, fd, bound) => ClientKeepsCurrent(c, s, i, fd, bound);
      case _ =>
    }
  }

  lemma ClearingKeepsCurrent(c: Config, s: State, i: nat)
    requires Valid(s.tables, c.unblockEvent) && Copied(s) && i < |s.tables.inFds|
    ensures Copied(s.(tables := Deafen(s.tables, s.tables.inFds[i].fd, c.unblockEvent)))
  {
    assert s.tables.inFds[i] in s.tables.inFds;
    DeafenKeepsValid(s.tables, s.tables.inFds[i].fd, c.unblockEvent);
    hide Deafen, Valid;
  }

  lemma DecodeLeavesTables(s: State, event: nat)
    ensures var s' := Decode(s, event); s'.tables == s.tables && (!InLoop(s'.thread) || s'.thread.Top?)
  {
    hide Has;
  }

  lemma ThreadKeepsCurrent(c: Config, s: State, ready: set<int>, lost: bool)
    requires Current(s) && ThreadCanStep(c, s, ready)
    requires s.thread.Clearing? ==> Valid(s.tables, c.unblockEvent)
    ensures Current(ThreadNext(c, s, ready, lost))
  {
    hide Valid, Deafen, Decode, Has;
    match s.thread {
      case Clearing(i, was) => ClearingKeepsCurrent(c, s, i);
      case Decoding(event) => DecodeLeavesTables(s, event);
      case _ =>
    }
  }

  lemma ClearerAlone(c: Config, s: State)
    requires Gate(s) && Updates(c, s) && HoldsGate(s.thread)
    ensures Valid(s.tables, c.unblockEvent)
  {
    assert s.tables == Settled(s);
    hide Gate, Valid;
  }

  lemma ClientKeepsCurrent(c: Config, s: State, i: nat, fd: int, bound: bool)
    requires Inv(c, s) && ClientCanStep(c, s, i, fd)
    ensures Current(ClientNext(c, s, i, fd, bound))
  {
    if s.clients[i].Working? {
      assert InGate(s.clients[i]) && PhaseIn(s) == Holding;
      HoldingMeansParked(c, s);
    }
    hide Gate, Codes, Updates, Write, FdOf, IsPort, CanWrite, Slot;
  }

  // ----- The updates -----

  /** The four writes a client makes while the thread is parked amount to binding or unbinding its queue. */
  lemma WritesAreTheOperation(c: Config, op: Request, t: Tables, open: set<int>)
    requires if op.binding then MayBind(c, op, t, open) else MayUnbind(op, t)
    ensures CanWrite(op, t)
    ensures Written(op, WRITES, t, c.unblockEvent) ==
      if op.binding then Bind(t, op.k, op.queueId, op.fd) else Unbind(t, op.k, op.queueId, c.unblockEvent)
  {
    var ue := c.unblockEvent;
    assert CanWrite(op, t);
    var t1 := Written(op, 1, t, ue);
    var t2 := Written(op, 2, t, ue);
    var t3 := Written(op, 3, t, ue);
    assert t1 == Write(op, 0, Written(op, 0, t, ue), ue);
    assert t2 == Write(op, 1, t1, ue);
    assert t3 == Write(op, 2, t2, ue);
    assert Written(op, WRITES, t, ue) == Write(op, 3, t3, ue);
    hide Written, Without, MaxFdOf, BindEntry;
  }

  /** A complete update takes consistent tables to consistent tables. */
  lemma UpdateKeepsConsistent(c: Config, op: Request, t: Tables, open: set<int>)
    requires Consistent(c, t, open) && (if op.binding then MayBind(c, op, t, open) else MayUnbind(op, t))
    ensures CanWrite(op, t)
    ensures Consistent(c, Written(op, WRITES, t, c.unblockEvent), if op.binding then open else open - {op.fd})
  {
    WritesAreTheOperation(c, op, t, open);
    if op.binding {
      BindKeepsValid(t, op.k, op.queueId, op.fd, c.unblockEvent);
      AppendFds(t.inFds, InFd(op.fd, op.queueId));
      hide Valid, Written, Fds;
    } else {
      assert Used(t, op.k, Slot(op.queueId));
      UnbindKeepsValid(t, op.k, op.queueId, c.unblockEvent);
      WithoutFds(t.inFds, op.fd);
      assert op.fd in Fds(t.inFds);
      assert op.fd != c.unblockEvent;
      hide Valid, Written, Fds, Without, FdOf;
    }
  }

  // Outside the gate a client's state says nothing about the tables.
  lemma OutsideStaysJustified(c: Config, client: Client, t: Tables, open: set<int>, t': Tables, open': set<int>)
    requires Justified(c, client, t, open) && !InGate(client)
    ensures Justified(c, client, t', open')
  {
  }

  lemma OthersStayJustified(c: Config, s: State, s': State, i: nat)
    requires Gate(s) && Updates(c, s) && i < |s.clients| && (s.gate == TheClient(i) || s.gate == Nobody)
    requires |s'.clients| == |s.clients| && s'.clients == s.clients[i := s'.clients[i]]
    requires Justified(c, s'.clients[i], s'.tables, s'.open)
    ensures forall j :: 0 <= j < |s'.clients| ==> Justified(c, s'.clients[j], s'.tables, s'.open)
  {
    hide Justified, Consistent;
    forall j | 0 <= j < |s'.clients| && j != i ensures Justified(c, s'.clients[j], s'.tables, s'.open) {
      assert Justified(c, s.clients[j], s.tables, s.open) && !InGate(s.clients[j]);
      OutsideStaysJustified(c, s.clients[j], s.tables, s.open, s'.tables, s'.open);
    }
  }

  lemma ClientStaysJustified(c: Config, s: State, i: nat, fd: int, bound: bool)
    requires ClientCanStep(c, s, i, fd) && Justified(c, s.clients[i], s.tables, s.open)
    requires !s.clients[i].Working? ==> Consistent(c, s.tables, s.open)
    ensures var s' := ClientNext(c, s, i, fd, bound); Justified(c, s'.clients[i], s'.tables, s'.open)
  {
    match s.clients[i] {
      case Checking(op) =>
        if FdOf(s.tables, op.k, Slot(op.queueId)) == UNBOUND && fd >= 0 { CheckedMayAsk(c, op, s.tables, s.open, fd); }
      case Granted(op) => GrantedMayWork(c, op, s.tables, s.open);
      case Working(op, n, start) => if n < WRITES { WriterMayGoOn(c, op, n, start, s.tables, s.open); }
      case _ =>
    }
    hide Consistent, Valid, Write, Written, FdOf, IsPort, Slot, Has, MayBind, MayUnbind, CanWrite;
  }

  lemma CheckedMayAsk(c: Config, op: Request, t: Tables, open: set<int>, fd: int)
    requires Names(c, op) && Consistent(c, t, open)
    requires FdOf(t, op.k, Slot(op.queueId)) == UNBOUND && 0 <= fd < SLOTS && fd !in open
    ensures Justified(c, Asking(op.(fd := fd)), t, open + {fd})
  {
    hide Valid, FdOf, IsPort, Slot, Fds;
  }

  lemma WriterMayGoOn(c: Config, op: Request, n: nat, start: Tables, t: Tables, open: set<int>)
    requires n < WRITES && CanWrite(op, t) && Justified(c, Working(op, n, start), t, open)
    ensures Justified(c, Working(op, n + 1, start), Write(op, n, t, c.unblockEvent), open)
  {
    assert CanWrite(op, start);
    hide Write, IsPort, Slot, Fds;
  }

  lemma GrantedMayWork(c: Config, op: Request, t: Tables, open: set<int>)
    requires Names(c, op) && |t.inst| == c.instances && (op.binding ==> MayBind(c, op, t, open))
    ensures op.binding ==> Justified(c, Working(op, 0, t), t, open)
    ensures !op.binding && FdOf(t, op.k, Slot(op.queueId)) != UNBOUND ==>
      Justified(c, Working(op.(fd := FdOf(t, op.k, Slot(op.queueId))), 0, t), t, open)
  {
  }

  lemma ClientKeepsConsistent(c: Config, s: State, i: nat, fd: int, bound: bool)
    requires Gate(s) && Updates(c, s) && ClientCanStep(c, s, i, fd)
    ensures var s' := ClientNext(c, s, i, fd, bound); Consistent(c, Settled(s'), s'.open)
  {
    var s' := ClientNext(c, s, i, fd, bound);
    assert Justified(c, s.clients[i], s.tables, s.open);
    assert !s.clients[i].Entering? ==> s.gate == TheClient(i);
    match s.clients[i] {
      case Working(op, n, start) =>
        if n == WRITES { UpdateKeepsConsistent(c, op, start, s.open); }
      case _ =>
    }
    hide Valid, Write, FdOf, IsPort, Slot, Has, CanWrite, Fds, MayBind, MayUnbind, Gate, Updates;
  }

  lemma ClientKeepsUpdates(c: Config, s: State, i: nat, fd: int, bound: bool)
    requires Gate(s) && Updates(c, s) && ClientCanStep(c, s, i, fd)
    ensures Updates(c, ClientNext(c, s, i, fd, bound))
  {
    var s' := ClientNext(c, s, i, fd, bound);
    assert !s.clients[i].Entering? ==> s.gate == TheClient(i);
    assert !s.clients[i].Working? ==> Settled(s) == s.tables;
    assert s'.clients == s.clients[i := s'.clients[i]];
    hide ClientNext, Justified, Consistent;
    ClientKeepsConsistent(c, s, i, fd, bound);
    ClientStaysJustified(c, s, i, fd, bound);
    OthersStayJustified(c, s, s', i);
  }

  lemma ClearingKeepsUpdates(c: Config, s: State, i: nat)
    requires Gate(s) && Updates(c, s) && s.gate == TheThread && i < |s.tables.inFds|
    ensures Updates(
      c, s.(tables := Deafen(s.tables, s.tables.inFds[i].fd, c.unblockEvent), thread := Unlocking(i, s.thread.ready)))
    requires s.thread.Clearing?
  {
    var t' := Deafen(s.tables, s.tables.inFds[i].fd, c.unblockEvent);
    assert s.tables.inFds[i] in s.tables.inFds;
    DeafenKeepsValid(s.tables, s.tables.inFds[i].fd, c.unblockEvent);
    hide Valid, Deafen, Justified;
    forall j | 0 <= j < |s.clients| ensures Justified(c, s.clients[j], t', s.open) {
      assert Justified(c, s.clients[j], s.tables, s.open) && !InGate(s.clients[j]);
      OutsideStaysJustified(c, s.clients[j], s.tables, s.open, t', s.open);
    }
  }

  lemma ThreadKeepsUpdates(c: Config, s: State, ready: set<int>, lost: bool)
    requires Gate(s) && Updates(c, s) && ThreadCanStep(c, s, ready)
    ensures Updates(c, ThreadNext(c, s, ready, lost))
  {
    if s.thread.Clearing? {
      ClearingKeepsUpdates(c, s, s.thread.i);
    } else {
      var s' := ThreadNext(c, s, ready, lost);
      hide Deafen, Has, Consistent, Justified;
      assert s'.tables == s.tables && s'.open == s.open && s'.clients == s.clients;
      assert s'.gate == s.gate || (!s'.gate.TheClient? && !s.gate.TheClient?);
      hide ThreadNext;
    }
  }

  lemma UpdatesKept(c: Config, s: State, a: Action)
    requires Gate(s) && Updates(c, s) && Enabled(c, s, a)
    ensures Updates(c, Next(c, s, a))
  {
    match a {
      case ThreadStep(ready, lost) => ThreadKeepsUpdates(c, s, ready, lost);
      case ClientStep(i, fd, bound) => ClientKeepsUpdates(c, s, i, fd, bound);
      case _ =>
        hide Consistent;
        assert Settled(Next(c, s, a)) == Settled(s);
    }
  }

  lemma InvKept(c: Config, s: State, a: Action)
    requires Inv(c, s) && Enabled(c, s, a)
    ensures Inv(c, Next(c, s, a))
  {
    hide Gate, Codes, Updates, Current, Enabled, Next;
    GateKept(c, s, a);
    CodesKept(c, s, a);
    UpdatesKept(c, s, a);
    CurrentKept(c, s, a);
  }

  lemma InitInv(c: Config, s: State)
    requires Init(c, s)
    ensures Inv(c, s)
  {
    assert Fds(s.tables.inFds) == {};
    assert forall k: nat, i: nat :: !Used(s.tables, k, i);
  }

  // ----- Every run -----

  ghost predicate IsRun(c: Config, states: seq<State>, actions: seq<Action>) {
    && |states| == |actions| + 1 && Init(c, states[0])
    && forall i :: 0 <= i < |actions| ==>
         Enabled(c, states[i], actions[i]) && states[i + 1] == Next(c, states[i], actions[i])
  }

  /** Every state of every run satisfies the invariant, for any number of clients. */
  lemma {:induction false} EveryRunKeepsInv(c: Config, states: seq<State>, actions: seq<Action>, i: nat)
    requires IsRun(c, states, actions) && i < |states|
    ensures Inv(c, states[i])
  {
    hide Inv, Enabled, Next, Init;
    if i == 0 {
      InitInv(c, states[0]);
    } else {
      EveryRunKeepsInv(c, states, actions, i - 1);
      assert Enabled(c, states[i - 1], actions[i - 1]);
      InvKept(c, states[i - 1], actions[i - 1]);
    }
  }

  // ----- Mutual exclusion -----

  /** A client that has read its ACK and not yet written CONTINUE has the thread between its ACK and its release, or
      stopped after SHUTDOWN. */
  lemma HolderExcludesThread(c: Config, s: State)
    requires Inv(c, s) && PhaseIn(s) == Holding
    ensures !InLoop(s.thread) && (!s.shut ==> s.thread.Parked?)
  {
    hide Gate, Updates, Current;
    HoldingMeansParked(c, s);
  }

  /** The tables change only while the thread is parked or stopped, except that the thread itself, having won the gate,
      clears a bit of the select set. */
  lemma WhoChangesTheTables(c: Config, s: State, a: Action)
    requires Inv(c, s) && Enabled(c, s, a) && Next(c, s, a).tables != s.tables
    ensures if a.ClientStep? then !InLoop(s.thread) && s.gate == TheClient(a.c)
            else s.gate == TheThread && Next(c, s, a).tables == s.tables.(rfds := Next(c, s, a).tables.rfds)
  {
    hide Codes, Updates, Current, Valid, Deafen, Write, FdOf, IsPort, Slot, Has;
    if a.ClientStep? {
      assert s.clients[a.c].Working? && InGate(s.clients[a.c]) && PhaseIn(s) == Holding;
      HolderExcludesThread(c, s);
    } else {
      assert s.thread.Clearing? && HoldsGate(s.thread);
      ClearingOnlyClears(c, s);
    }
    hide Gate, InLoop, PhaseIn, InGate;
  }

  lemma ClearingOnlyClears(c: Config, s: State)
    requires Inv(c, s) && s.thread.Clearing? && s.thread.i < |s.tables.inFds|
    ensures var t' := Deafen(s.tables, s.tables.inFds[s.thread.i].fd, c.unblockEvent); t' == s.tables.(rfds := t'.rfds)
  {
    ClearerAlone(c, s);
    assert s.tables.inFds[s.thread.i] in s.tables.inFds;
    DeafenKeepsValid(s.tables, s.tables.inFds[s.thread.i].fd, c.unblockEvent);
    hide Valid, Deafen, Inv;
  }

  /** From its snapshot to the end of its scan the thread works on tables that are consistent and just as it copied
      them; only bits it cleared itself are gone from the set. */
  lemma ThreadSeesConsistentTables(c: Config, s: State)
    requires Inv(c, s) && (s.thread.Selecting? || s.thread.Scanning? || s.thread.Trying? || HoldsGate(s.thread))
    ensures Valid(s.tables, c.unblockEvent)
    ensures s.tables.inFds == s.snap.seen && |s.tables.inFds| == s.snap.nfds && s.tables.maxFd == s.snap.maxFd
    ensures s.tables.rfds <= s.snap.rfds
  {
    if PhaseIn(s) == Holding { HolderExcludesThread(c, s); }
    assert Settled(s) == s.tables;
    hide Valid, Gate, Codes;
  }

  /** Every socket the thread receives from is open and still bound. */
  lemma ScannedSocketIsOpen(c: Config, s: State)
    requires Inv(c, s) && s.thread.Scanning? && s.thread.i < s.snap.nfds
    ensures s.thread.i < |s.tables.inFds|
    ensures var e := s.tables.inFds[s.thread.i];
      e.fd in s.open && IsPort(e.qId) && HasEntry(s.tables, e.fd, Slot(e.qId))
  {
    ThreadSeesConsistentTables(c, s);
    if PhaseIn(s) == Holding { HolderExcludesThread(c, s); }
    assert Settled(s) == s.tables;
    assert s.tables.inFds[s.thread.i] in s.tables.inFds;
    hide Gate, Codes, HasEntry;
  }

  /** Whenever no client is writing them, the tables are consistent. */
  lemma TablesConsistentBetweenUpdates(c: Config, s: State)
    requires Inv(c, s) && PhaseIn(s) != Holding
    ensures Valid(s.tables, c.unblockEvent)
  {
    assert Settled(s) == s.tables;
    hide Valid, Gate, Codes;
  }

  // ----- The codes -----

  /** For any number of clients the counter only ever holds nothing, PAUSE, CONTINUE or both, each once; after
      SHUTDOWN that code may be there as well, and no sum of codes is mistaken for another. */
  lemma CodesNeverAddUp(c: Config, s: State)
    requires Inv(c, s)
    ensures s.counter in {0, PAUSE, CONTINUE, PAUSE + CONTINUE} ||
            (s.shut && s.counter - SHUTDOWN in {0, PAUSE, CONTINUE, PAUSE + CONTINUE})
    ensures s.thread.Decoding? && !s.shut ==> s.thread.event in {PAUSE, CONTINUE, PAUSE + CONTINUE}
    ensures s.thread.Done? ==> s.shut
  {
    hide Gate, Updates, Current;
  }

  /** Every PAUSE is acknowledged once, before another is written, and every CONTINUE releases the thread once. */
  lemma EveryCodeHandledOnce(c: Config, s: State)
    requires Inv(c, s)
    ensures s.tally.pauses == s.tally.acked + (if PhaseIn(s) == Asked && s.acks == 0 then 1 else 0) && s.acks <= 1
    ensures !s.shut ==> s.tally.released <= s.tally.continues <= s.tally.released + 1
    ensures !s.shut && s.tally.continues > s.tally.released ==>
      Has(s.counter, CONTINUE) || s.thread == Decoding(CONTINUE) || s.thread == Decoding(PAUSE + CONTINUE)
  {
    hide Gate, Updates, Current;
  }

  // ----- Waiting -----

  /** The thread waits only in select, or parked with nothing in the counter. */
  lemma ThreadCanMove(c: Config, s: State)
    requires Inv(c, s) && !s.thread.Done?
    requires !(s.thread.Parked? && s.counter == 0) && !(s.thread.Selecting? && s.counter == 0)
    ensures exists ready :: ThreadCanStep(c, s, ready)
  {
    if s.thread.Selecting? || s.thread.Scanning? || HoldsGate(s.thread) { ThreadSeesConsistentTables(c, s); }
    assert s.thread.Selecting? ==> c.unblockEvent <= s.snap.maxFd && c.unblockEvent in s.snap.rfds;
    hide Gate, Updates, Valid;
    assert ThreadCanStep(c, s, {c.unblockEvent});
  }

  // How many steps the thread is from writing the ACK that a client waits for.
  function AckDistance(c: Config, s: State): nat {
    var n := |s.tables.inFds|;
    match s.thread
    case Top => 2 * n + 8
    case CopySet => 2 * n + 7
    case CopyCount => 2 * n + 6
    case Selecting => 2 * n + 5
    case Scanning(i, ready) =>
      4 + (if i <= n then 2 * (n - i) else 0) + if c.unblockEvent in ready then 0 else 2 * n + 5
    case Trying(i, ready) => 3 + (if i <= n then 2 * (n - i) else 0) + if c.unblockEvent in ready then 0 else 2 * n + 5
    case Reading => 3
    case Parked => 3
    case Decoding(event) => if event == CONTINUE then 2 * n + 9 else 2
    case Acking => 1
    case _ => 0
  }

  /** A client that has written PAUSE gets its ACK: as long as select does not fail and nobody shuts the thread down,
      every step of the thread writes the ACK or brings it nearer, and the thread can make one. */
  lemma AckComesCloser(c: Config, s: State, ready: set<int>, lost: bool)
    requires Inv(c, s) && PhaseIn(s) == Asked && s.acks == 0 && !s.shut
    ensures exists r :: ThreadCanStep(c, s, r)
    ensures ThreadCanStep(c, s, ready) ==>
      var s' := ThreadNext(c, s, ready, lost); s'.acks == 1 || AckDistance(c, s') < AckDistance(c, s)
  {
    assert s.gate.TheClient? && !HoldsGate(s.thread);
    hide Gate, Updates, Deafen;
    assert s.thread.Parked? || s.thread.Selecting? ==> s.counter > 0;
    ThreadCanMove(c, s);
    assert !Stopped(s.thread) && s.counter < SHUTDOWN;
    assert s.thread.Decoding? ==> s.thread.event in {PAUSE, CONTINUE, PAUSE + CONTINUE};
    assert s.thread.Selecting? || s.thread.Reading? || s.thread.Parked? ==> s.counter in {PAUSE, PAUSE + CONTINUE};
    assert s.thread.Scanning? ==> Copied(s) && s.thread.i <= s.snap.nfds;
    assert s.thread.Trying? ==> Copied(s) && s.thread.i < s.snap.nfds;
    hide Inv, Current, PhaseIn, Codes;
    if ThreadCanStep(c, s, ready) { StepTowardsAck(c, s, ready, lost); }
  }

  lemma StepTowardsAck(c: Config, s: State, ready: set<int>, lost: bool)
    requires ThreadCanStep(c, s, ready) && !Stopped(s.thread) && !HoldsGate(s.thread)
    requires s.acks == 0 && s.gate.TheClient?
    requires s.thread.Scanning? ==> s.snap.nfds == |s.tables.inFds| && s.thread.i <= s.snap.nfds
    requires s.thread.Trying? ==> s.snap.nfds == |s.tables.inFds| && s.thread.i < s.snap.nfds
    requires s.thread.Decoding? ==> s.thread.event in {PAUSE, CONTINUE, PAUSE + CONTINUE}
    requires s.thread.Selecting? || s.thread.Reading? || s.thread.Parked? ==> s.counter in {PAUSE, PAUSE + CONTINUE}
    ensures var s' := ThreadNext(c, s, ready, lost); s'.acks == 1 || AckDistance(c, s') < AckDistance(c, s)
  {
    if s.thread.Decoding? { DecodeCases(s, s.thread.event); }
    hide Deafen, Decode, Has;
  }

  /** While it waits no client gets a step in, and one that arrives does not delay it. */
  lemma OthersDoNotDelay(c: Config, s: State, a: Action)
    requires Inv(c, s) && PhaseIn(s) == Asked && s.acks == 0 && Enabled(c, s, a)
    ensures !a.ClientStep?
    ensures a.Start? ==> AckDistance(c, Next(c, s, a)) == AckDistance(c, s) && PhaseIn(Next(c, s, a)) == Asked
  {
    hide Codes, Updates, Current, IsPort, FdOf;
  }

  // ----- Leaving without CONTINUE -----

  lemma ParkedThreadHasCode(c: Config, s: State)
    requires Inv(c, s) && s.thread.Parked? && PhaseIn(s) == Quiet
    ensures (exists ready :: ThreadCanStep(c, s, ready)) <==> !s.early || s.shut
  {
    hide Gate, Updates, Current;
    assert s.counter > 0 ==> ThreadCanStep(c, s, {});
  }

  // Client i on its own, for at most n steps; past its ACK it makes no system call whose answer matters.
  function Alone(c: Config, s: State, i: nat, n: nat): State
    decreases n
  {
    if n == 0 || !ClientCanStep(c, s, i, UNBOUND) then s else Alone(c, ClientNext(c, s, i, UNBOUND, false), i, n - 1)
  }

  // The steps from ACK to idle: the check, the writes, the end of them, CONTINUE, and leaving the gate.
  const STEPS := WRITES + 4

  // What a client leaves behind that nobody interrupts.
  predicate Left(s: State, s': State, i: nat, counter: nat) {
    s'.thread == s.thread && s'.shut == s.shut && s'.gate == Nobody && s'.counter == counter &&
    i < |s'.clients| && s'.clients[i] == Idle
  }

  lemma {:induction false} WriterWritesContinue(c: Config, s: State, i: nat)
    requires Inv(c, s) && i < |s.clients| && s.clients[i].Working? && s.clients[i].n <= WRITES
    ensures Left(s, Alone(c, s, i, WRITES - s.clients[i].n + 3), i, s.counter + CONTINUE)
    decreases WRITES - s.clients[i].n
  {
    assert Justified(c, s.clients[i], s.tables, s.open);
    assert ClientCanStep(c, s, i, UNBOUND);
    var s' := ClientNext(c, s, i, UNBOUND, false);
    hide Write, Written, FdOf, IsPort, Slot, CanWrite, Inv;
    assert s'.thread == s.thread && s'.counter == s.counter && s'.shut == s.shut;
    if s.clients[i].n < WRITES {
      assert s'.clients[i].Working? && s'.clients[i].n == s.clients[i].n + 1;
      hide ClientNext, ClientCanStep;
      InvKept(c, s, ClientStep(i, UNBOUND, false));
      WriterWritesContinue(c, s', i);
    } else {
      ResumerLeaves(c, s', i);
    }
  }

  lemma ResumerLeaves(c: Config, s: State, i: nat)
    requires i < |s.clients| && s.clients[i] == Resuming
    ensures Left(s, Alone(c, s, i, 2), i, s.counter + CONTINUE)
  {
    var s' := ClientNext(c, s, i, UNBOUND, false);
    assert s'.clients[i] == Leaving;
    var s'' := ClientNext(c, s', i, UNBOUND, false);
    assert Alone(c, s', i, 1) == Alone(c, s'', i, 0);
  }

  // Does the request of a client that has its ACK end with CONTINUE?
  predicate WillContinue(s: State, op: Request)
    requires IsPort(op.queueId) && op.k < |s.tables.inst|
  {
    op.binding || FdOf(s.tables, op.k, Slot(op.queueId)) != UNBOUND
  }

  lemma GrantedRequestIsNamed(c: Config, s: State, i: nat)
    requires Inv(c, s) && i < |s.clients| && s.clients[i].Granted?
    ensures IsPort(s.clients[i].op.queueId) && s.clients[i].op.k < |s.tables.inst|
    ensures s.gate == TheClient(i) && s.thread.Parked? == !Stopped(s.thread) && Code(s.counter) == 0
  {
    assert InGate(s.clients[i]) && PhaseIn(s) == Holding;
    assert Settled(s) == s.tables && Justified(c, s.clients[i], s.tables, s.open);
    hide Gate, Updates, Current, IsPort, Justified, Valid;
  }

  lemma GrantedWriterLeaves(c: Config, s: State, i: nat)
    requires Inv(c, s) && i < |s.clients| && s.clients[i].Granted?
    requires IsPort(s.clients[i].op.queueId) && s.clients[i].op.k < |s.tables.inst| && WillContinue(s, s.clients[i].op)
    ensures Left(s, Alone(c, s, i, STEPS), i, s.counter + CONTINUE)
  {
    var s' := ClientNext(c, s, i, UNBOUND, false);
    InvKept(c, s, ClientStep(i, UNBOUND, false));
    hide Inv, IsPort, FdOf, Slot;
    assert s'.clients[i].Working? && s'.clients[i].n == 0 && s'.thread == s.thread;
    assert s'.counter == s.counter && s'.shut == s.shut;
    assert Alone(c, s, i, STEPS) == Alone(c, s', i, STEPS - 1);
    hide ClientNext, ClientCanStep, Alone, WillContinue;
    WriterWritesContinue(c, s', i);
  }

  lemma GrantedReturnerLeaves(c: Config, s: State, i: nat)
    requires i < |s.clients| && s.clients[i].Granted?
    requires IsPort(s.clients[i].op.queueId) && s.clients[i].op.k < |s.tables.inst| && !WillContinue(s, s.clients[i].op)
    ensures Left(s, Alone(c, s, i, STEPS), i, s.counter)
  {
    hide IsPort, FdOf, Slot;
    var s' := ClientNext(c, s, i, UNBOUND, false);
    assert s'.clients[i] == Leaving;
    var s'' := ClientNext(c, s', i, UNBOUND, false);
    assert !ClientCanStep(c, s'', i, UNBOUND);
    assert Alone(c, s', i, STEPS - 1) == Alone(c, s'', i, STEPS - 2) == s'';
  }

  /** The thread that a client has parked can go on, once the client has done its work and left, if and only if the
      client bound a queue or found the queue to unbind bound, or SHUTDOWN is written. */
  lemma ParkedThreadResumesIff(c: Config, s: State, i: nat)
    requires Inv(c, s) && i < |s.clients| && s.clients[i].Granted? && s.thread.Parked?
    ensures s.clients[i].op.k < |s.tables.inst| && IsPort(s.clients[i].op.queueId)
    ensures var s' := Alone(c, s, i, STEPS);
      i < |s'.clients| && s'.clients[i] == Idle && s'.gate == Nobody && s'.thread.Parked?
    ensures (exists ready :: ThreadCanStep(c, Alone(c, s, i, STEPS), ready)) <==>
              s.clients[i].op.binding || FdOf(s.tables, s.clients[i].op.k, Slot(s.clients[i].op.queueId)) != UNBOUND ||
              s.shut
  {
    GrantedRequestIsNamed(c, s, i);
    assert s.counter > 0 <==> s.shut by { assert ShutOnce(s.thread, s.counter, s.shut); }
    if WillContinue(s, s.clients[i].op) { GrantedWriterLeaves(c, s, i); } else { GrantedReturnerLeaves(c, s, i); }
    hide Inv, Alone, IsPort, FdOf, Slot;
    var s' := Alone(c, s, i, STEPS);
    assert s'.counter > 0 ==> ThreadCanStep(c, s', {});
  }

  /** An unbind that finds its queue unbound already leaves the thread parked, with nothing in the counter to release
      it. */
  lemma UnbindingTwiceLeavesThreadParked(c: Config, s: State, i: nat)
    requires Inv(c, s) && !s.shut && i < |s.clients| && s.clients[i].Granted? && !s.clients[i].op.binding
    requires s.clients[i].op.k < |s.tables.inst| && IsPort(s.clients[i].op.queueId)
    requires FdOf(s.tables, s.clients[i].op.k, Slot(s.clients[i].op.queueId)) == UNBOUND
    ensures ClientCanStep(c, s, i, 0) && ClientCanStep(c, ClientNext(c, s, i, 0, true), i, 0)
    ensures var s' := ClientNext(c, ClientNext(c, s, i, 0, true), i, 0, true);
      s'.gate == Nobody && s'.thread.Parked? && s'.counter == 0 && forall ready :: !ThreadCanStep(c, s', ready)
  {
    assert InGate(s.clients[i]) && PhaseIn(s) == Holding;
    HolderExcludesThread(c, s);
    hide Gate, Updates, Current, FdOf, IsPort, Slot;
  }
}
