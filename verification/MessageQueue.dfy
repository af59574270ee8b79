/** One message queue of a client process, with any number of threads that put, get and unblock. A step does at most
    one thing to what the threads share: the gate, the list, the semaphore or the unblocked flag.

    Six components are history: `inserted` and `removed` record what went through the list, `got` what the completed
    gets handed out, `refused` and `unblocks` count the gets that were turned away and the calls that cause it, and
    `spurious` counts the waits without a timeout that a signal ended: get ignores what sem_wait answers and goes on
    without a unit. */
module MessageQueue {
  import opened Options

  type Msg = nat

  const E_UNBLOCKED := -19
  const E_SHUTDOWN := -20

  datatype Pc =
    | Idle
    // MessageQ_put
    | PutLock(m: Msg)
    | PutInsert(m: Msg)     // in the gate
    | PutUnlock             // in the gate, the message is on the list
    | PutPost               // out of the gate, the post is due
    // MessageQ_get
    | GetWait               // at the semaphore
    | GetCheck              // past the semaphore, before it looks at the flag
    | Turned                // saw the flag set
    | GetLock               // saw the flag clear
    | GetFirst              // in the gate
    | GetRemove(m: Msg)     // in the gate, has read the head of the list
    | GetUnlock(m: Msg)     // in the gate, has taken m off the list
    | NoHead                // in the gate, found the list empty
    // MessageQ_unblock, MessageQ_shutdown
    | UnblockPost           // the flag is set, the post is due

  datatype Answer = Got(m: Msg) | TimedOut | Failed | Refusal(code: int) | Nothing

  datatype State = State(list: seq<Msg>, sem: nat, unblocked: int, gate: Option<nat>, pcs: seq<Pc>,
                         inserted: seq<Msg>, removed: seq<Msg>, got: seq<Msg>, refused: nat, unblocks: nat,
                         spurious: nat)

  datatype Action =
    | Put(t: nat, m: Msg)
    | Get(t: nat)
    | Unblock(t: nat, code: int)
    | Step(t: nat)
    | TimeOut(t: nat)
    | Interrupt(t: nat, forever: bool)    // a signal ends the wait; forever says that it has no timeout

  predicate InGate(pc: Pc) {
    pc.PutInsert? || pc.PutUnlock? || pc.GetFirst? || pc.GetRemove? || pc.GetUnlock? || pc.NoHead?
  }

  predicate Enabled(s: State, a: Action) {
    a.t < |s.pcs| &&
    match a
    case Put(t, _) => s.pcs[t].Idle?
    case Get(t) => s.pcs[t].Idle?
    case Unblock(t, code) => s.pcs[t].Idle? && (code == E_UNBLOCKED || code == E_SHUTDOWN)
    case TimeOut(t) => s.pcs[t].GetWait?
    case Interrupt(t, _) => s.pcs[t].GetWait?
    case Step(t) =>
      match s.pcs[t]
      case Idle => false
      case NoHead => false
      case GetWait => s.sem > 0
      case PutLock(_) => s.gate.None?
      case GetLock => s.gate.None?
      case _ => true
  }

  function Next(s: State, a: Action): State
    requires Enabled(s, a)
  {
    match a
    case Put(t, m) => s.(pcs := s.pcs[t := PutLock(m)])
    case Get(t) => s.(pcs := s.pcs[t := GetWait])
    case Unblock(t, code) => s.(unblocked := code, unblocks := s.unblocks + 1, pcs := s.pcs[t := UnblockPost])
    case TimeOut(t) => s.(pcs := s.pcs[t := Idle])
    case Interrupt(t, forever) =>
      if forever then s.(spurious := s.spurious + 1, pcs := s.pcs[t := GetCheck]) else s.(pcs := s.pcs[t := Idle])
    case Step(t) =>
      match s.pcs[t]
      case PutLock(m) => s.(gate := Some(t), pcs := s.pcs[t := PutInsert(m)])
      case PutInsert(m) => s.(list := s.list + [m], inserted := s.inserted + [m], pcs := s.pcs[t := PutUnlock])
      case PutUnlock => s.(gate := None, pcs := s.pcs[t := PutPost])
      case PutPost => s.(sem := s.sem + 1, pcs := s.pcs[t := Idle])
      case GetWait => s.(sem := s.sem - 1, pcs := s.pcs[t := GetCheck])
      case GetCheck =>
        if s.unblocked != 0 then s.(refused := s.refused + 1, pcs := s.pcs[t := Turned])
        else s.(pcs := s.pcs[t := GetLock])
      case GetLock => s.(gate := Some(t), pcs := s.pcs[t := GetFirst])
      case GetFirst => s.(pcs := s.pcs[t := if s.list == [] then NoHead else GetRemove(s.list[0])])
      case GetRemove(m) => TakeOff(s, t, m)
      case GetUnlock(m) => s.(gate := None, got := s.got + [m], pcs := s.pcs[t := Idle])
      case UnblockPost => s.(sem := s.sem + 1, pcs := s.pcs[t := Idle])
      case _ => s.(pcs := s.pcs[t := Idle])
  }

  // CIRCLEQ_REMOVE unlinks the very element it is given.
  function TakeOff(s: State, t: nat, m: Msg): State
    requires t < |s.pcs|
  {
    var i := Find(s.list, m);
    s.(list := if i < |s.list| then s.list[..i] + s.list[i+1..] else s.list, removed := s.removed + [m],
       pcs := s.pcs[t := GetUnlock(m)])
  }

  function Find(list: seq<Msg>, m: Msg): (i: nat)
    ensures i <= |list|
  {
    if list == [] || list[0] == m then 0 else 1 + Find(list[1..], m)
  }

  // What a step answers to the caller, if it ends a get.
  function AnswerOf(s: State, a: Action): Answer
    requires Enabled(s, a)
  {
    match a
    case TimeOut(_) => TimedOut
    case Interrupt(_, forever) => if forever then Nothing else Failed
    case Step(t) =>
      (match s.pcs[t]
       case Turned => Refusal(s.unblocked)
       case GetUnlock(m) => Got(m)
       case _ => Nothing)
    case _ => Nothing
  }

  predicate Init(s: State) {
    && s.list == [] && s.sem == 0 && s.unblocked == 0 && s.gate == None
    && (forall t :: 0 <= t < |s.pcs| ==> s.pcs[t] == Idle)
    && s.inserted == [] && s.removed == [] && s.got == [] && s.refused == 0 && s.unblocks == 0 && s.spurious == 0
  }

  // ----- Counting threads -----

  // The thread has taken a unit of the semaphore and not yet a message or a refusal for it, or owes the semaphore a
  // unit.
  function Owed(pc: Pc): nat {
    if pc.GetCheck? || pc.GetLock? || pc.GetFirst? || pc.GetRemove? || pc.NoHead? || pc.PutUnlock? || pc.PutPost? ||
       pc.UnblockPost? then 1 else 0
  }

  // The thread is past the flag and will take a message off the list.
  function Claims(pc: Pc): nat {
    if pc.GetLock? || pc.GetFirst? || pc.GetRemove? || pc.NoHead? then 1 else 0
  }

  // The message a get has taken off the list and not handed out yet.
  function InHand(pc: Pc): seq<Msg> {
    if pc.GetUnlock? then [pc.m] else []
  }

  function Sum(f: Pc -> nat, pcs: seq<Pc>): nat {
    if pcs == [] then 0 else f(pcs[0]) + Sum(f, pcs[1..])
  }

  function AllInHand(pcs: seq<Pc>): multiset<Msg> {
    if pcs == [] then multiset{} else multiset(InHand(pcs[0])) + AllInHand(pcs[1..])
  }

  lemma {:induction false} SumMoves(f: Pc -> nat, pcs: seq<Pc>, t: nat, pc: Pc)
    requires t < |pcs|
    ensures Sum(f, pcs[t := pc]) == Sum(f, pcs) - f(pcs[t]) + f(pc)
    ensures Sum(f, pcs) >= f(pcs[t])
  {
    var pcs' := pcs[t := pc];
    if t == 0 {
      assert pcs'[1..] == pcs[1..];
    } else {
      assert pcs'[1..] == pcs[1..][t - 1 := pc];
      SumMoves(f, pcs[1..], t - 1, pc);
    }
  }

  lemma AddToBoth(h: multiset<Msg>, a: multiset<Msg>, b: multiset<Msg>, c: multiset<Msg>, d: multiset<Msg>)
    requires a + b == c + d
    ensures (h + a) + b == (h + c) + d
  {
    assert (h + a) + b == h + (a + b);
  }

  lemma {:induction false} HandMoves(pcs: seq<Pc>, t: nat, pc: Pc)
    requires t < |pcs|
    ensures AllInHand(pcs[t := pc]) + multiset(InHand(pcs[t])) == AllInHand(pcs) + multiset(InHand(pc))
  {
    var pcs' := pcs[t := pc];
    hide InHand;
    if t == 0 {
      assert pcs'[1..] == pcs[1..];
    } else {
      assert pcs'[1..] == pcs[1..][t - 1 := pc];
      HandMoves(pcs[1..], t - 1, pc);
      AddToBoth(
        multiset(InHand(pcs[0])), AllInHand(pcs'[1..]),
        multiset(InHand(pcs[t])), AllInHand(pcs[1..]), multiset(InHand(pc)));
    }
  }

  lemma {:induction false} SumBounded(f: Pc -> nat, g: Pc -> nat, pcs: seq<Pc>)
    requires forall pc :: f(pc) <= g(pc)
    ensures Sum(f, pcs) <= Sum(g, pcs)
  {
    if pcs != [] { SumBounded(f, g, pcs[1..]); }
  }

  // ----- The invariant -----

  ghost predicate Gate(s: State) {
    && (forall t :: 0 <= t < |s.pcs| ==> (InGate(s.pcs[t]) <==> s.gate == Some(t)))
    && (s.gate.Some? ==> s.gate.value < |s.pcs|)
    && (forall t :: 0 <= t < |s.pcs| && s.pcs[t].GetRemove? ==> s.list != [] && s.pcs[t].m == s.list[0])
  }

  ghost predicate Flag(s: State) {
    if s.unblocked == 0 then
      s.refused == 0 && s.unblocks == 0 && forall t :: 0 <= t < |s.pcs| ==> !s.pcs[t].UnblockPost?
    else
      s.unblocked == E_UNBLOCKED || s.unblocked == E_SHUTDOWN
  }

  // Every unit of the semaphore stands for a message on the list or for a call of unblock; a wait that was interrupted
  // counts as one that found a unit.
  predicate Balance(s: State) {
    |s.list| + s.unblocks + s.spurious == s.sem + Sum(Owed, s.pcs) + s.refused
  }

  predicate Enough(s: State) {
    Sum(Claims, s.pcs) <= |s.list| + s.spurious
  }

  predicate Order(s: State) {
    s.inserted == s.removed + s.list
  }

  predicate Delivery(s: State) {
    multiset(s.removed) == multiset(s.got) + AllInHand(s.pcs)
  }

  ghost predicate Inv(s: State) {
    Gate(s) && Flag(s) && Balance(s) && Enough(s) && Order(s) && Delivery(s)
  }

  // ----- Steps keep it -----

  lemma GateKept(s: State, a: Action)
    requires Gate(s) && Enabled(s, a)
    ensures Gate(Next(s, a))
  {
    var s' := Next(s, a);
    OwnerMoves(s, a);
    if a.Step? && s.pcs[a.t].PutInsert? {
      assert forall t :: 0 <= t < |s.pcs| ==> !s.pcs[t].GetRemove?;
    }
    assert s'.pcs == s.pcs[a.t := s'.pcs[a.t]];
    assert s'.pcs[a.t].GetRemove? ==> s'.list != [] && s'.pcs[a.t].m == s'.list[0];
    assert s'.list != s.list ==> s.gate == Some(a.t);
    hide Next, Enabled, InGate;
  }

  // A thread enters a free gate, leaves its own, or stays on its side.
  lemma OwnerMoves(s: State, a: Action)
    requires Gate(s) && Enabled(s, a)
    ensures var was, will := InGate(s.pcs[a.t]), InGate(Next(s, a).pcs[a.t]);
      || (was == will && Next(s, a).gate == s.gate)
      || (!was && will && s.gate == None && Next(s, a).gate == Some(a.t))
      || (was && !will && Next(s, a).gate == None)
  {
    hide Gate, Find;
  }

  lemma FlagKept(s: State, a: Action)
    requires Flag(s) && Enabled(s, a)
    ensures Flag(Next(s, a))
  {
    hide Find;
    assert Next(s, a).pcs == s.pcs[a.t := Next(s, a).pcs[a.t]];
  }

  // What goes on the list at one end is what is inserted; what is taken off at the other is in the hand of the get.
  lemma ListMoves(s: State, a: Action)
    requires Gate(s) && Enabled(s, a)
    ensures var s' := Next(s, a); var put := Inserting(s, a); var will := InHand(s'.pcs[a.t]);
      s'.inserted == s.inserted + put && s'.removed == s.removed + will && s.list + put == will + s'.list
  {
    if a.Step? && s.pcs[a.t].GetRemove? { assert Find(s.list, s.pcs[a.t].m) == 0; }
    hide Gate, Find;
  }

  // What a step puts on the list.
  function Inserting(s: State, a: Action): seq<Msg>
    requires Enabled(s, a)
  {
    if a.Step? && s.pcs[a.t].PutInsert? then [s.pcs[a.t].m] else []
  }

  lemma LengthMoves(s: State, a: Action)
    requires Gate(s) && Enabled(s, a)
    ensures |s.list| + One(a.Step? && s.pcs[a.t].PutInsert?) ==
      |Next(s, a).list| + One(a.Step? && s.pcs[a.t].GetRemove?)
  {
    ListMoves(s, a);
    assert |s.list + Inserting(s, a)| == |InHand(Next(s, a).pcs[a.t]) + Next(s, a).list|;
    hide Gate, Find;
  }

  function One(b: bool): nat {
    if b then 1 else 0
  }

  lemma CountsMove(s: State, a: Action)
    requires Enabled(s, a)
    ensures var s' := Next(s, a);
      && s'.pcs == s.pcs[a.t := s'.pcs[a.t]]
      && One(a.Step? && s.pcs[a.t].PutInsert?) + s'.unblocks + s'.spurious + s.sem + Owed(s.pcs[a.t]) + s.refused ==
         One(a.Step? && s.pcs[a.t].GetRemove?) + s.unblocks + s.spurious + s'.sem + Owed(s'.pcs[a.t]) + s'.refused
  {
    hide Find;
  }

  lemma BalanceKept(s: State, a: Action)
    requires Gate(s) && Balance(s) && Enabled(s, a)
    ensures Balance(Next(s, a))
  {
    SumMoves(Owed, s.pcs, a.t, Next(s, a).pcs[a.t]);
    LengthMoves(s, a);
    CountsMove(s, a);
    hide Gate, Sum, Next, Enabled, Owed, One;
  }

  // Once the flag is set no get makes a new claim.
  lemma ClaimsMove(s: State, a: Action)
    requires Enabled(s, a) && Next(s, a).unblocked != 0
    ensures Claims(Next(s, a).pcs[a.t]) + One(a.Step? && s.pcs[a.t].GetRemove?) <= Claims(s.pcs[a.t])
  {
    hide Find;
  }

  // Until the flag is set the semaphore covers the claims; afterwards no claim is made.
  lemma ClearFlagIsEnough(s: State)
    requires Flag(s) && Balance(s) && s.unblocked == 0
    ensures Enough(s)
  {
    SumBounded(Claims, Owed, s.pcs);
  }

  lemma SetFlagKeepsEnough(s: State, a: Action)
    requires Gate(s) && Enough(s) && Enabled(s, a) && Next(s, a).unblocked != 0
    ensures Enough(Next(s, a))
  {
    SumMoves(Claims, s.pcs, a.t, Next(s, a).pcs[a.t]);
    LengthMoves(s, a);
    CountsMove(s, a);
    ClaimsMove(s, a);
    assert Next(s, a).spurious >= s.spurious;
    hide Gate, Sum, Owed, Claims, Next, Enabled;
  }

  lemma EnoughKept(s: State, a: Action)
    requires Gate(s) && Flag(s) && Balance(s) && Enough(s) && Enabled(s, a)
    ensures Enough(Next(s, a))
  {
    hide Gate, Flag, Balance, Enough, Next, Enabled;
    FlagKept(s, a);
    BalanceKept(s, a);
    if Next(s, a).unblocked == 0 {
      ClearFlagIsEnough(Next(s, a));
    } else {
      SetFlagKeepsEnough(s, a);
    }
  }

  lemma OrderKept(s: State, a: Action)
    requires Gate(s) && Order(s) && Enabled(s, a)
    ensures Order(Next(s, a))
  {
    var s' := Next(s, a);
    var put, will := Inserting(s, a), InHand(s'.pcs[a.t]);
    ListMoves(s, a);
    hide Gate, Next, Enabled, Inserting, InHand;
    ThroughTheList(s.removed, s.list, put, will, s'.list);
  }

  lemma ThroughTheList(removed: seq<Msg>, list: seq<Msg>, put: seq<Msg>, will: seq<Msg>, list': seq<Msg>)
    requires list + put == will + list'
    ensures (removed + list) + put == (removed + will) + list'
  {
    assert (removed + list) + put == removed + (list + put);
    assert removed + (will + list') == (removed + will) + list';
  }

  lemma ThroughTheHands(
    removed: seq<Msg>, will: seq<Msg>, got: seq<Msg>, was: seq<Msg>, a: multiset<Msg>, b: multiset<Msg>)
    requires multiset(removed) == multiset(got) + a && b + multiset(was) == a + multiset(will)
    ensures multiset(removed + will) == multiset(got + was) + b
  {
    assert multiset(removed + will) == multiset(got) + (a + multiset(will));
    assert multiset(got + was) == multiset(got) + multiset(was);
    assert multiset(got) + (b + multiset(was)) == (multiset(got) + multiset(was)) + b;
  }

  lemma HandsMove(s: State, a: Action)
    requires Enabled(s, a)
    ensures var s' := Next(s, a);
      s'.pcs == s.pcs[a.t := s'.pcs[a.t]] &&
      s'.removed == s.removed + InHand(s'.pcs[a.t]) && s'.got == s.got + InHand(s.pcs[a.t])
  {
    hide Find;
  }

  lemma DeliveryKept(s: State, a: Action)
    requires Delivery(s) && Enabled(s, a)
    ensures Delivery(Next(s, a))
  {
    var s' := Next(s, a);
    var was, will := InHand(s.pcs[a.t]), InHand(s'.pcs[a.t]);
    HandsMove(s, a);
    hide AllInHand, InHand, Enabled, Next;
    HandMoves(s.pcs, a.t, s'.pcs[a.t]);
    ThroughTheHands(s.removed, will, s.got, was, AllInHand(s.pcs), AllInHand(s'.pcs));
  }

  /** The invariant is inductive, for any number of threads. */
  lemma InvKept(s: State, a: Action)
    requires Inv(s) && Enabled(s, a)
    ensures Inv(Next(s, a))
  {
    hide Gate, Flag, Balance, Enough, Order, Delivery, Next, Enabled;
    GateKept(s, a);
    FlagKept(s, a);
    BalanceKept(s, a);
    EnoughKept(s, a);
    OrderKept(s, a);
    DeliveryKept(s, a);
  }

  lemma {:induction false} AtRest(pcs: seq<Pc>)
    requires forall t :: 0 <= t < |pcs| ==> pcs[t] == Idle
    ensures Sum(Owed, pcs) == 0 && Sum(Claims, pcs) == 0 && AllInHand(pcs) == multiset{}
  {
    if pcs != [] { AtRest(pcs[1..]); }
  }

  ghost predicate IsRun(states: seq<State>, actions: seq<Action>) {
    && |states| == |actions| + 1 && Init(states[0])
    && forall i :: 0 <= i < |actions| ==> Enabled(states[i], actions[i]) && states[i + 1] == Next(states[i], actions[i])
  }

  /** Every state of every interleaving satisfies the invariant. */
  lemma {:induction false} EveryRunKeepsInv(states: seq<State>, actions: seq<Action>, i: nat)
    requires IsRun(states, actions) && i < |states|
    ensures Inv(states[i])
  {
    if i == 0 {
      AtRest(states[0].pcs);
    } else {
      EveryRunKeepsInv(states, actions, i - 1);
      hide Inv, Enabled, Next;
      assert Enabled(states[i - 1], actions[i - 1]);
      InvKept(states[i - 1], actions[i - 1]);
    }
  }

  // ----- What follows -----

  // A get past its wait, up to the removal of its message.
  function PastWait(pc: Pc): nat {
    if pc.GetCheck? || pc.GetLock? || pc.GetFirst? || pc.GetRemove? || pc.NoHead? then 1 else 0
  }

  // A put between its insertion and its post.
  function BeforePost(pc: Pc): nat {
    if pc.PutUnlock? || pc.PutPost? then 1 else 0
  }

  lemma {:induction false} OwedByGetsAndPuts(pcs: seq<Pc>)
    requires forall t :: 0 <= t < |pcs| ==> !pcs[t].UnblockPost?
    ensures Sum(Owed, pcs) == Sum(PastWait, pcs) + Sum(BeforePost, pcs)
  {
    if pcs != [] { OwedByGetsAndPuts(pcs[1..]); }
  }

  /** As long as the queue is not unblocked and no wait was interrupted, the list is as long as the semaphore plus the
      gets past their wait plus the puts between insertion and post; every interrupted wait makes it one shorter. */
  lemma SemaphoreTracksList(s: State)
    requires Inv(s) && s.unblocked == 0
    ensures |s.list| + s.spurious == s.sem + Sum(PastWait, s.pcs) + Sum(BeforePost, s.pcs)
  {
    OwedByGetsAndPuts(s.pcs);
    hide Gate, Order, Delivery;
  }

  lemma {:induction false} ClaimIsCounted(pcs: seq<Pc>, t: nat)
    requires t < |pcs| && Claims(pcs[t]) == 1
    ensures Sum(Claims, pcs) >= 1
  {
    SumMoves(Claims, pcs, t, pcs[t]);
  }

  // No get is past the flag without a message for it, and none has found the list empty.
  ghost predicate Covered(s: State) {
    Sum(Claims, s.pcs) <= |s.list| && EveryGetHasMessage(s)
  }

  ghost predicate EveryGetHasMessage(s: State) {
    forall t :: 0 <= t < |s.pcs| ==> !s.pcs[t].NoHead?
  }

  /** A get that comes to the list finds a message there, in every interleaving, even when the queue is unblocked or
      shut down meanwhile, as long as no wait without a timeout was interrupted. */
  lemma GetNeverFindsListEmpty(s: State, t: nat)
    requires Inv(s) && t < |s.pcs| && (s.spurious == 0 || Covered(s))
    ensures Claims(s.pcs[t]) == 1 ==> s.list != []
    ensures s.pcs[t].GetFirst? ==> Next(s, Step(t)).pcs[t] == GetRemove(s.list[0])
  {
    if Claims(s.pcs[t]) == 1 { ClaimIsCounted(s.pcs, t); }
  }

  lemma EveryGetHasMessageKept(s: State, a: Action)
    requires Inv(s) && EveryGetHasMessage(s) && Enabled(s, a) && (s.spurious == 0 || Covered(s))
    ensures EveryGetHasMessage(Next(s, a))
  {
    GetNeverFindsListEmpty(s, a.t);
    CountsMove(s, a);
    if Next(s, a).pcs[a.t].NoHead? { NoHeadOnlyAtEmptyList(s, a); }
    hide Inv, Find, Next, Owed;
  }

  lemma NoHeadOnlyAtEmptyList(s: State, a: Action)
    requires Enabled(s, a) && Next(s, a).pcs[a.t].NoHead? && !s.pcs[a.t].NoHead?
    ensures s.pcs[a.t].GetFirst? && s.list == []
  {
    hide Find;
  }

  /** So in no run without interrupted waits does a thread stand at the list without a message to take, which the code
      would not notice. */
  lemma {:induction false} EveryRunHasMessages(states: seq<State>, actions: seq<Action>, i: nat)
    requires IsRun(states, actions) && i < |states| && states[i].spurious == 0
    ensures EveryGetHasMessage(states[i])
  {
    if i > 0 {
      assert Enabled(states[i - 1], actions[i - 1]) && states[i] == Next(states[i - 1], actions[i - 1]);
      assert states[i - 1].spurious == 0;
      EveryRunHasMessages(states, actions, i - 1);
      EveryRunKeepsInv(states, actions, i - 1);
      hide Inv, Init, Enabled, Next, EveryGetHasMessage;
      EveryGetHasMessageKept(states[i - 1], actions[i - 1]);
    }
  }

  // ----- Interrupted waits -----

  ghost predicate CanDo(s: State, actions: seq<Action>)
    decreases |actions|
  {
    actions == [] || (Enabled(s, actions[0]) && CanDo(Next(s, actions[0]), actions[1..]))
  }

  ghost function Do(s: State, actions: seq<Action>): State
    requires CanDo(s, actions)
    decreases |actions|
  {
    if actions == [] then s else Do(Next(s, actions[0]), actions[1..])
  }

  // No wait without a timeout is interrupted.
  predicate Calm(actions: seq<Action>) {
    forall i :: 0 <= i < |actions| ==> !(actions[i].Interrupt? && actions[i].forever)
  }

  // Whatever happens from here on, as long as no further wait without a timeout is interrupted, every get that comes
  // to the list finds a message.
  ghost predicate StaysFed(s: State) {
    forall actions :: CanDo(s, actions) && Calm(actions) ==> EveryGetHasMessage(Do(s, actions))
  }

  lemma CoveredKept(s: State, a: Action)
    requires Inv(s) && s.unblocked != 0 && Covered(s) && Enabled(s, a)
    ensures Next(s, a).unblocked != 0 && Covered(Next(s, a))
  {
    EveryGetHasMessageKept(s, a);
    LengthMoves(s, a);
    CountsMove(s, a);
    assert Next(s, a).unblocked != 0;
    ClaimsMove(s, a);
    hide Inv, EveryGetHasMessage, Sum, Find, Next;
    SumMoves(Claims, s.pcs, a.t, Next(s, a).pcs[a.t]);
  }

  lemma {:induction false} CoveredStaysFed(s: State, actions: seq<Action>)
    requires Inv(s) && s.unblocked != 0 && Covered(s) && CanDo(s, actions)
    ensures EveryGetHasMessage(Do(s, actions))
    decreases |actions|
  {
    if actions != [] {
      hide Inv, Covered, Enabled, Next;
      InvKept(s, actions[0]);
      CoveredKept(s, actions[0]);
      CoveredStaysFed(Next(s, actions[0]), actions[1..]);
    }
  }

  lemma {:induction false} UninterruptedStaysFed(s: State, actions: seq<Action>)
    requires Inv(s) && s.spurious == 0 && EveryGetHasMessage(s) && CanDo(s, actions) && Calm(actions)
    ensures EveryGetHasMessage(Do(s, actions))
    decreases |actions|
  {
    if actions != [] {
      assert !(actions[0].Interrupt? && actions[0].forever);
      assert Next(s, actions[0]).spurious == 0;
      hide Inv, EveryGetHasMessage, Enabled, Next;
      InvKept(s, actions[0]);
      EveryGetHasMessageKept(s, actions[0]);
      UninterruptedStaysFed(Next(s, actions[0]), actions[1..]);
    }
  }

  // The messages on the list and those that a put has yet to insert.
  function Stock(s: State): nat {
    |s.list| + Sum(Uninserted, s.pcs)
  }

  function Uninserted(pc: Pc): nat {
    if pc.PutLock? || pc.PutInsert? then 1 else 0
  }

  // How far a thread is from taking its next message.
  function Distance(pc: Pc): nat {
    match pc
    case PutLock(_) => 9
    case PutInsert(_) => 8
    case PutUnlock => 7
    case PutPost => 6
    case Turned => 6
    case GetUnlock(_) => 6
    case Idle => 5
    case GetWait => 4
    case GetCheck => 3
    case GetLock => 2
    case GetFirst => 1
    case _ => 0
  }

  // A step of a thread that only puts, posts, or gets: it takes a message, or comes nearer to taking one.
  lemma DrainingStep(s: State, a: Action)
    requires Gate(s) && s.unblocked == 0 && Enabled(s, a) && (a.Get? || a.Step?)
    requires a.Step? ==> !s.pcs[a.t].UnblockPost?
    requires EveryGetHasMessage(Next(s, a))
    ensures Stock(Next(s, a)) <= Stock(s)
    ensures Stock(Next(s, a)) == Stock(s) ==> Sum(Distance, Next(s, a).pcs) < Sum(Distance, s.pcs)
  {
    var s' := Next(s, a);
    LengthMoves(s, a);
    SumMoves(Uninserted, s.pcs, a.t, s'.pcs[a.t]);
    SumMoves(Distance, s.pcs, a.t, s'.pcs[a.t]);
    assert s'.pcs == s.pcs[a.t := s'.pcs[a.t]];
    assert !s'.pcs[a.t].NoHead?;
    hide Gate, Sum, Find, EveryGetHasMessage;
  }

  lemma {:induction false} SomeoneOwes(pcs: seq<Pc>) returns (t: nat)
    requires Sum(Owed, pcs) > 0
    ensures t < |pcs| && Owed(pcs[t]) > 0
  {
    if Owed(pcs[0]) > 0 {
      t := 0;
    } else {
      t := SomeoneOwes(pcs[1..]);
      t := t + 1;
    }
  }

  // With a unit too many on the semaphore some thread can always go on without an interruption: the one in the gate,
  // or else one that owes a post or has taken a unit, or else, at a semaphore that is then not zero, any thread.
  lemma SomeoneDrains(s: State) returns (a: Action)
    requires Gate(s) && Flag(s) && Balance(s) && s.unblocked == 0 && s.spurious > 0 && s.pcs != []
    requires EveryGetHasMessage(s)
    ensures Enabled(s, a) && (a.Get? || a.Step?) && (a.Step? ==> !s.pcs[a.t].UnblockPost?)
  {
    if s.gate.Some? {
      a := Step(s.gate.value);
    } else if Sum(Owed, s.pcs) > 0 {
      var t := SomeoneOwes(s.pcs);
      assert !InGate(s.pcs[t]);
      a := Step(t);
    } else {
      SumMoves(Owed, s.pcs, 0, s.pcs[0]);
      assert !InGate(s.pcs[0]) && s.sem > 0;
      a := if s.pcs[0].Idle? then Get(0) else Step(0);
    }
  }

  lemma DrainKeeps(s: State, a: Action)
    requires Gate(s) && Flag(s) && Balance(s) && s.unblocked == 0 && s.spurious > 0 && s.pcs != []
    requires Enabled(s, a) && (a.Get? || a.Step?)
    ensures var s' := Next(s, a);
      Gate(s') && Flag(s') && Balance(s') && s'.unblocked == 0 && s'.spurious > 0 && s'.pcs != []
  {
    GateKept(s, a);
    FlagKept(s, a);
    BalanceKept(s, a);
    hide Gate, Flag, Balance, Find;
  }

  // The surplus unit lets one get more than there are messages come to the list.
  lemma {:induction false} SurplusEmptiesList(s: State) returns (actions: seq<Action>)
    requires Gate(s) && Flag(s) && Balance(s) && s.unblocked == 0 && s.spurious > 0 && s.pcs != []
    ensures CanDo(s, actions) && Calm(actions) && !EveryGetHasMessage(Do(s, actions))
    decreases Stock(s), Sum(Distance, s.pcs)
  {
    actions := [];
    if EveryGetHasMessage(s) {
      hide Gate, Flag, Balance, EveryGetHasMessage, Next, Enabled, Stock, Sum, Distance;
      var a := SomeoneDrains(s);
      DrainKeeps(s, a);
      var rest := [];
      if EveryGetHasMessage(Next(s, a)) {
        DrainingStep(s, a);
        rest := SurplusEmptiesList(Next(s, a));
      }
      actions := [a] + rest;
      assert actions[1..] == rest;
    }
  }

  /** As long as no get is past the flag without a message for it, every later get finds its message, if nothing more is
      interrupted, if and only if no wait without a timeout was interrupted or the queue is unblocked. */
  lemma FedIff(s: State)
    requires Inv(s) && Covered(s) && s.pcs != []
    ensures StaysFed(s) <==> s.spurious == 0 || s.unblocked != 0
  {
    if s.unblocked != 0 {
      hide Inv, Covered, EveryGetHasMessage;
      forall actions | CanDo(s, actions) ensures EveryGetHasMessage(Do(s, actions)) { CoveredStaysFed(s, actions); }
    } else if s.spurious == 0 {
      hide Inv, EveryGetHasMessage;
      forall actions | CanDo(s, actions) && Calm(actions) ensures EveryGetHasMessage(Do(s, actions)) {
        UninterruptedStaysFed(s, actions);
      }
    } else {
      var actions := SurplusEmptiesList(s);
      hide Inv, Covered, EveryGetHasMessage;
      assert CanDo(s, actions) && Calm(actions);
    }
  }

  /** One interruption of a wait without a timeout is harmless, whatever uninterrupted steps follow, if and only if the
      queue is unblocked by then: otherwise some get comes to an empty list. Without it none would, if none was
      interrupted before. */
  lemma InterruptionIsHarmlessIff(s: State, t: nat)
    requires Inv(s) && Covered(s) && t < |s.pcs| && s.pcs[t].GetWait?
    ensures StaysFed(Next(s, Interrupt(t, true))) <==> s.unblocked != 0
    ensures s.spurious == 0 ==> StaysFed(s)
  {
    var s' := Next(s, Interrupt(t, true));
    InvKept(s, Interrupt(t, true));
    SumMoves(Claims, s.pcs, t, GetCheck);
    assert Covered(s') && s'.spurious > 0 && s'.unblocked == s.unblocked;
    hide Inv, Covered, StaysFed, Next, Enabled;
    FedIff(s);
    FedIff(s');
  }

  // A single thread that gets from an empty queue and is interrupted, after the given number of steps.
  function InterruptedGet(n: nat): State {
    var s := State([], 0, 0, None, [Idle], [], [], [], 0, 0, 0);
    match n
    case 0 => s
    case 1 => s.(pcs := [GetWait])
    case 2 => s.(pcs := [GetCheck], spurious := 1)
    case 3 => s.(pcs := [GetLock], spurious := 1)
    case 4 => s.(pcs := [GetFirst], spurious := 1, gate := Some(0))
    case _ => s.(pcs := [NoHead], spurious := 1, gate := Some(0))
  }

  lemma InterruptedGetSteps(n: nat)
    requires n < 5
    ensures var a := if n == 0 then Get(0) else if n == 1 then Interrupt(0, true) else Step(0);
      Enabled(InterruptedGet(n), a) && InterruptedGet(n + 1) == Next(InterruptedGet(n), a)
  {
  }

  lemma {:induction false} InterruptedGetRuns(n: nat) returns (states: seq<State>, actions: seq<Action>)
    requires n <= 5
    ensures IsRun(states, actions) && |actions| == n && states[n] == InterruptedGet(n)
  {
    if n == 0 {
      states, actions := [InterruptedGet(0)], [];
    } else {
      hide InterruptedGet, Init, Next, Enabled;
      states, actions := InterruptedGetRuns(n - 1);
      InterruptedGetSteps(n - 1);
      var a := if n == 1 then Get(0) else if n == 2 then Interrupt(0, true) else Step(0);
      OneStepMore(states, actions, a);
      states, actions := states + [InterruptedGet(n)], actions + [a];
    }
  }

  /** The first get of a process comes to an empty list when a signal ends its wait. */
  lemma InterruptedGetFindsNothing() returns (states: seq<State>, actions: seq<Action>)
    ensures IsRun(states, actions) && !EveryGetHasMessage(states[|actions|])
  {
    states, actions := InterruptedGetRuns(5);
    hide IsRun;
    assert states[5].pcs[0] == NoHead;
  }

  // ----- Order -----

  /** Messages leave in the order in which they came; none is lost, invented or doubled on the way to the caller. */
  lemma FirstInFirstOut(s: State)
    requires Inv(s)
    ensures s.removed <= s.inserted && s.list == s.inserted[|s.removed|..]
    ensures multiset(s.inserted) == multiset(s.got) + AllInHand(s.pcs) + multiset(s.list)
  {
    assert multiset(s.removed + s.list) == multiset(s.removed) + multiset(s.list);
    hide Gate;
  }

  /** A put message is taken off the list as soon as those before it are: the next message removed is always the
      oldest. */
  lemma RemovesTheOldest(s: State, a: Action)
    requires Inv(s) && Enabled(s, a) && Next(s, a).removed != s.removed
    ensures |s.removed| < |s.inserted| && Next(s, a).removed == s.removed + [s.inserted[|s.removed|]]
  {
    assert s.pcs[a.t].GetRemove? && s.list[0] == s.pcs[a.t].m;
    assert s.inserted[|s.removed|] == s.list[0];
    hide Gate, Sum, Find;
  }

  /** No wake-up is lost: while a get waits with the semaphore at zero, every message on the list is spoken for. */
  lemma WaitingGetMissesNothing(s: State)
    requires Inv(s) && s.unblocked == 0 && s.sem == 0 && Sum(Owed, s.pcs) == 0
    ensures s.list == []
  {
  }

  /** Once the queue is unblocked, a get that comes past the semaphore is turned away, whatever is on the list, with the
      code of unblock or shutdown. */
  lemma UnblockedGetIsTurnedAway(s: State, t: nat)
    requires Inv(s) && s.unblocked != 0 && t < |s.pcs|
    ensures s.pcs[t].GetCheck? ==> Next(s, Step(t)).pcs[t].Turned? && Next(s, Step(t)).list == s.list
    ensures s.pcs[t].Turned? ==> AnswerOf(s, Step(t)) in {Refusal(E_UNBLOCKED), Refusal(E_SHUTDOWN)}
  {
    hide Gate, Balance, Enough, Order;
  }

  /** The documentation lets every get after an unblock return at once. The code does so if and only if the gets that
      were turned away or are past their wait, and the threads that owe a post, are fewer than the messages on the
      list and the calls of unblock or shutdown (an interrupted wait counts like such a call). */
  lemma UnblockedGetReturnsIff(s: State, t: nat)
    requires Inv(s) && t < |s.pcs| && s.pcs[t].GetWait?
    ensures Enabled(s, Step(t)) <==> s.refused + Sum(Owed, s.pcs) < |s.list| + s.unblocks + s.spurious
  {
    hide Gate, Enough, Order;
  }

  // A single thread, after the given number of steps of unblocking an empty queue and then getting twice.
  function UnblockThenGetTwice(n: nat): State {
    match n
    case 0 => State([], 0, 0, None, [Idle], [], [], [], 0, 0, 0)
    case 1 => State([], 0, E_UNBLOCKED, None, [UnblockPost], [], [], [], 0, 1, 0)
    case 2 => State([], 1, E_UNBLOCKED, None, [Idle], [], [], [], 0, 1, 0)
    case 3 => State([], 1, E_UNBLOCKED, None, [GetWait], [], [], [], 0, 1, 0)
    case 4 => State([], 0, E_UNBLOCKED, None, [GetCheck], [], [], [], 0, 1, 0)
    case 5 => State([], 0, E_UNBLOCKED, None, [Turned], [], [], [], 1, 1, 0)
    case 6 => State([], 0, E_UNBLOCKED, None, [Idle], [], [], [], 1, 1, 0)
    case _ => State([], 0, E_UNBLOCKED, None, [GetWait], [], [], [], 1, 1, 0)
  }

  function UnblockThenGetTwiceAction(n: nat): Action {
    match n
    case 0 => Unblock(0, E_UNBLOCKED)
    case 2 => Get(0)
    case 6 => Get(0)
    case _ => Step(0)
  }

  lemma UnblockThenGetTwiceSteps(n: nat)
    requires n < 7
    ensures Enabled(UnblockThenGetTwice(n), UnblockThenGetTwiceAction(n))
    ensures UnblockThenGetTwice(n + 1) == Next(UnblockThenGetTwice(n), UnblockThenGetTwiceAction(n))
  {
  }

  lemma OneStepMore(states: seq<State>, actions: seq<Action>, a: Action)
    requires IsRun(states, actions) && Enabled(states[|actions|], a)
    ensures IsRun(states + [Next(states[|actions|], a)], actions + [a])
  {
    hide Init, Next, Enabled;
  }

  lemma {:induction false} UnblockThenGetTwiceRuns(n: nat) returns (states: seq<State>, actions: seq<Action>)
    requires n <= 7
    ensures IsRun(states, actions) && |actions| == n && states[n] == UnblockThenGetTwice(n)
  {
    if n == 0 {
      states, actions := [UnblockThenGetTwice(0)], [];
    } else {
      hide UnblockThenGetTwice, UnblockThenGetTwiceAction, Init, Next, Enabled;
      states, actions := UnblockThenGetTwiceRuns(n - 1);
      UnblockThenGetTwiceSteps(n - 1);
      OneStepMore(states, actions, UnblockThenGetTwiceAction(n - 1));
      states, actions := states + [UnblockThenGetTwice(n)], actions + [UnblockThenGetTwiceAction(n - 1)];
    }
  }

  /** On an empty queue one call of unblock lets one get return; the next one waits. */
  lemma SecondGetAfterUnblockWaits() returns (states: seq<State>, actions: seq<Action>)
    ensures IsRun(states, actions)
    ensures var s := states[|actions|];
      |s.pcs| == 1 && s.unblocked == E_UNBLOCKED && s.refused == 1 && s.pcs[0].GetWait? && !Enabled(s, Step(0))
  {
    states, actions := UnblockThenGetTwiceRuns(7);
    hide IsRun;
  }

  // ----- Calls that nothing interrupts -----

  datatype GetStatus = Taken(m: Msg) | Timeout | Unblocked(code: int)

  class Queue {
    var msgList: seq<Msg>
    var synchronizer: nat
    var unblocked: int

    // What uninterrupted calls leave: a unit for each message, as long as the queue is in use.
    predicate Sound()
      reads this
    {
      unblocked == 0 ==> synchronizer == |msgList|
    }

    constructor ()
      ensures Sound() && msgList == [] && unblocked == 0
    {
      msgList, synchronizer, unblocked := [], 0, 0;
    }

    method Put(m: Msg)
      requires Sound()
      modifies this
      ensures Sound() && msgList == old(msgList) + [m]
      ensures synchronizer == old(synchronizer) + 1 && unblocked == old(unblocked)
    {
      msgList := msgList + [m];
      synchronizer := synchronizer + 1;
    }

    // With no time to wait, or nobody left to post, a get at an empty semaphore ends with a timeout.
    method Get() returns (status: GetStatus)
      requires Sound()
      modifies this
      ensures Sound() && unblocked == old(unblocked)
      ensures old(synchronizer) == 0 ==> status == Timeout && msgList == old(msgList) && synchronizer == 0
      ensures old(synchronizer) > 0 ==> synchronizer == old(synchronizer) - 1
      ensures old(synchronizer) > 0 && old(unblocked) != 0 ==>
        status == Unblocked(old(unblocked)) && msgList == old(msgList)
      ensures old(synchronizer) > 0 && old(unblocked) == 0 ==>
        status.Taken? && old(msgList) == [status.m] + msgList
    {
      if synchronizer == 0 {
        return Timeout;
      }
      synchronizer := synchronizer - 1;
      if unblocked != 0 {
        return Unblocked(unblocked);
      }
      var m := msgList[0];
      msgList := msgList[1..];
      return Taken(m);
    }

    method Unblock()
      modifies this
      ensures Sound() && unblocked == E_UNBLOCKED && synchronizer == old(synchronizer) + 1 && msgList == old(msgList)
    {
      unblocked := E_UNBLOCKED;
      synchronizer := synchronizer + 1;
    }

    method Shutdown()
      modifies this
      ensures Sound() && unblocked == E_SHUTDOWN && synchronizer == old(synchronizer) + 1 && msgList == old(msgList)
    {
      unblocked := E_SHUTDOWN;
      synchronizer := synchronizer + 1;
    }
  }
}
