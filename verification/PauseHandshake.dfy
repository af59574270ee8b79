/** Clients that bind and unbind queues and the dispatch thread that selects over the same tables, as a step system.
    The thread never takes the gate to read the tables: the two sides keep out of each other's way only by codes sent
    through one adding event counter, and by acknowledgements counted in a second one.

    Four components are history: snap.seen is what the dispatch array held when the thread took its snapshot, Working
    remembers the tables its client started from, tally counts the codes written and handled, and early says whether
    the last client to be acknowledged left without a CONTINUE. */
module PauseHandshake {
  import opened FdTables

  const ACK := 1
  const PAUSE := 2
  const CONTINUE := 4
  const SHUTDOWN := 8

  datatype Config = Config(unblockEvent: int, instances: nat)

  datatype Request = Request(binding: bool, k: nat, queueId: nat, fd: int)

  datatype Client =
    | Idle
    | Entering(op: Request)                         // waiting for the gate
    | Checking(op: Request)                         // bind, in the gate: is the queue bound already?
    | Asking(op: Request)                           // about to write PAUSE
    | Waiting(op: Request)                          // PAUSE is written, ACK is not read
    | Granted(op: Request)                          // ACK is read
    | Working(op: Request, n: nat, start: Tables)   // n of the writes to the tables are made
    | Resuming                                      // about to write CONTINUE
    | Leaving                                       // about to leave the gate

  datatype Thread =
    | Top                                   // about to copy maxFd
    | CopySet                               // about to copy rfds
    | CopyCount                             // about to copy nInFds
    | Selecting
    | Scanning(i: nat, ready: set<int>)     // about to look at entry i
    | Trying(i: nat, ready: set<int>)       // the remote end of entry i is gone; about to try the gate
    | Clearing(i: nat, ready: set<int>)     // in the gate, about to clear the bit of entry i
    | Unlocking(i: nat, ready: set<int>)    // about to leave the gate
    | Reading                               // about to read the event counter
    | Decoding(event: nat)
    | Acking                                // about to write ACK
    | Parked                                // about to read the event counter, until released
    | Done

  datatype Snapshot = Snapshot(maxFd: int, rfds: set<int>, nfds: nat, seen: seq<InFd>)

  datatype Owner = Nobody | TheThread | TheClient(c: nat)

  datatype Tally = Tally(pauses: nat, acked: nat, continues: nat, released: nat)

  datatype State = State(counter: nat, acks: nat, gate: Owner, shut: bool, thread: Thread, snap: Snapshot,
                         clients: seq<Client>, tables: Tables, open: set<int>, tally: Tally, early: bool)

  datatype Action =
    | ThreadStep(ready: set<int>, lost: bool)     // what select answers; whether the remote end is gone
    | SelectFails
    | Start(c: nat, op: Request)
    | ClientStep(c: nat, fd: int, bound: bool)    // what socket and SocketBindAddr answer
    | Finalize                                    // Factory_delete writes SHUTDOWN

  predicate Has(event: nat, code: nat)
    requires code > 0
  {
    event / code % 2 == 1
  }

  predicate InGate(client: Client) {
    !client.Idle? && !client.Entering?
  }

  // ----- The writes between ACK and CONTINUE -----

  const WRITES := 4

  function Write(op: Request, n: nat, t: Tables, unblockEvent: int): Tables
    requires op.k < |t.inst| && IsPort(op.queueId) && (op.binding || Slot(op.queueId) < |t.inst[op.k]|)
  {
    if op.binding then
      match n
      case 0 => t.(inFds := t.inFds + [InFd(op.fd, op.queueId)])
      case 1 => t.(maxFd := Max(t.maxFd, op.fd))
      case 2 => t.(rfds := t.rfds + {op.fd})
      case _ => t.(inst := t.inst[op.k := BindEntry(t.inst[op.k], Slot(op.queueId), op.fd)])
    else
      match n
      case 0 => t.(inst := t.inst[op.k := t.inst[op.k][Slot(op.queueId) := UNBOUND]])
      case 1 => t.(inFds := Without(t.inFds, op.fd))
      case 2 => t.(rfds := t.rfds - {op.fd})
      case _ => t.(maxFd := if op.fd == t.maxFd then MaxFdOf(t.inFds, unblockEvent) else t.maxFd)
  }

  predicate CanWrite(op: Request, t: Tables) {
    op.k < |t.inst| && IsPort(op.queueId) && (op.binding || Slot(op.queueId) < |t.inst[op.k]|)
  }

  // ----- The steps -----

  predicate ThreadCanStep(c: Config, s: State, ready: set<int>) {
    match s.thread
    case Selecting =>
      && ready != {} && ready <= s.snap.rfds && (forall fd :: fd in ready ==> fd <= s.snap.maxFd)
      && (c.unblockEvent in ready <==> s.counter > 0)
    case Scanning(i, _) => i < s.snap.nfds ==> i < |s.tables.inFds|
    case Clearing(i, _) => i < |s.tables.inFds|
    case Unlocking(i, _) => i < |s.tables.inFds|
    case Reading => s.counter > 0
    case Parked => s.counter > 0
    case Done => false
    case _ => true
  }

  function ThreadNext(c: Config, s: State, ready: set<int>, lost: bool): State
    requires ThreadCanStep(c, s, ready)
  {
    match s.thread
    case Top => s.(snap := s.snap.(maxFd := s.tables.maxFd, seen := s.tables.inFds), thread := CopySet)
    case CopySet => s.(snap := s.snap.(rfds := s.tables.rfds), thread := CopyCount)
    case CopyCount => s.(snap := s.snap.(nfds := |s.tables.inFds|), thread := Selecting)
    case Selecting => s.(thread := Scanning(0, ready))
    case Scanning(i, was) =>
      if i < s.snap.nfds then
        s.(thread := if s.tables.inFds[i].fd in was && lost then Trying(i, was) else Scanning(i + 1, was))
      else
        s.(thread := if c.unblockEvent in was then Reading else Top)
    case Trying(i, was) =>
      if s.gate == Nobody then s.(gate := TheThread, thread := Clearing(i, was)) else s.(thread := Scanning(i + 1, was))
    case Clearing(i, was) =>
      s.(tables := Deafen(s.tables, s.tables.inFds[i].fd, c.unblockEvent), thread := Unlocking(i, was))
    case Unlocking(i, was) => s.(gate := Nobody, thread := Scanning(i + 1, was))
    case Reading => s.(counter := 0, thread := Decoding(s.counter))
    case Decoding(event) => Decode(s, event)
    case Acking => s.(acks := s.acks + ACK, thread := Parked, tally := s.tally.(acked := s.tally.acked + 1))
    case Parked => s.(counter := 0, thread := Decoding(s.counter))
    case Done => s
  }

  // One round of the do-while loop, up to its first write.
  function Decode(s: State, event: nat): State {
    if Has(event, SHUTDOWN) then
      s.(thread := Done)
    else
      var rest := if Has(event, CONTINUE) then event - CONTINUE else event;
      s.(thread := if Has(rest, PAUSE) then Acking else if rest != 0 then Decoding(rest) else Top,
         tally := s.tally.(released := s.tally.released + if Has(event, CONTINUE) then 1 else 0))
  }

  predicate ClientCanStep(c: Config, s: State, i: nat, fd: int) {
    i < |s.clients| &&
    match s.clients[i]
    case Idle => false
    case Entering(_) => s.gate == Nobody
    case Checking(op) => op.k < |s.tables.inst| && IsPort(op.queueId) && (fd >= 0 ==> fd < SLOTS && fd !in s.open)
    case Waiting(_) => s.acks > 0
    case Granted(op) => op.k < |s.tables.inst| && IsPort(op.queueId)
    case Working(op, n, _) => n < WRITES ==> CanWrite(op, s.tables)
    case _ => true
  }

  function ClientNext(c: Config, s: State, i: nat, fd: int, bound: bool): State
    requires ClientCanStep(c, s, i, fd)
  {
    match s.clients[i]
    case Idle => s
    case Entering(op) =>
      s.(gate := TheClient(i), clients := s.clients[i := if op.binding then Checking(op) else Asking(op)])
    case Checking(op) =>
      if FdOf(s.tables, op.k, Slot(op.queueId)) != UNBOUND || fd < 0 || !bound then
        s.(clients := s.clients[i := Leaving])
      else
        s.(open := s.open + {fd}, clients := s.clients[i := Asking(op.(fd := fd))])
    case Asking(op) =>
      s.(counter := s.counter + PAUSE, clients := s.clients[i := Waiting(op)],
        tally := s.tally.(pauses := s.tally.pauses + 1))
    case Waiting(op) => s.(acks := s.acks - 1, clients := s.clients[i := Granted(op)])
    case Granted(op) =>
      var bound := FdOf(s.tables, op.k, Slot(op.queueId));
      if op.binding then
        s.(clients := s.clients[i := Working(op, 0, s.tables)])
      else if bound == UNBOUND then
        s.(clients := s.clients[i := Leaving], early := true)
      else
        s.(clients := s.clients[i := Working(op.(fd := bound), 0, s.tables)])
    case Working(op, n, start) =>
      if n < WRITES then
        s.(tables := Write(op, n, s.tables, c.unblockEvent), clients := s.clients[i := Working(op, n + 1, start)])
      else
        s.(open := if op.binding then s.open else s.open - {op.fd}, clients := s.clients[i := Resuming])
    case Resuming =>
      s.(counter := s.counter + CONTINUE, clients := s.clients[i := Leaving], early := false,
         tally := s.tally.(continues := s.tally.continues + 1))
    case Leaving => s.(gate := Nobody, clients := s.clients[i := Idle])
  }

  predicate Enabled(c: Config, s: State, a: Action) {
    match a
    case ThreadStep(ready, _) => ThreadCanStep(c, s, ready)
    case SelectFails => s.thread == Selecting
    case Start(i, op) => i < |s.clients| && s.clients[i] == Idle && op.k < c.instances && IsPort(op.queueId)
    case ClientStep(i, fd, _) => ClientCanStep(c, s, i, fd)
    case Finalize => !s.shut
  }

  function Next(c: Config, s: State, a: Action): State
    requires Enabled(c, s, a)
  {
    match a
    case ThreadStep(ready, lost) => ThreadNext(c, s, ready, lost)
    case SelectFails => s.(thread := Top)
    case Start(i, op) => s.(clients := s.clients[i := Entering(op)])
    case ClientStep(i, fd, bound) => ClientNext(c, s, i, fd, bound)
    case Finalize => s.(counter := s.counter + SHUTDOWN, shut := true)
  }

  // The tables hold no socket yet; what other descriptors the process has is arbitrary.
  ghost predicate Init(c: Config, s: State) {
    && s.counter == 0 && s.acks == 0 && s.gate == Nobody && !s.shut && s.thread == Top
    && (forall i :: 0 <= i < |s.clients| ==> s.clients[i] == Idle)
    && s.tally == Tally(0, 0, 0, 0) && !s.early
    && s.tables.inFds == [] && s.tables.rfds == {c.unblockEvent} && s.tables.maxFd == c.unblockEvent
    && |s.tables.inst| == c.instances
    && (forall k, i :: 0 <= k < |s.tables.inst| && 0 <= i < |s.tables.inst[k]| ==> s.tables.inst[k][i] == UNBOUND)
    && 0 <= c.unblockEvent < SLOTS && c.unblockEvent in s.open
  }
}
