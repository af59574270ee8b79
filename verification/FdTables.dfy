/** The tables TransportRpmsg keeps about its receive sockets: the dispatch array inFds, the select set and its bound,
    and the table of every instance that maps a queue index to a socket. */
module FdTables {

  datatype InFd = InFd(fd: int, qId: nat)

  const SLOTS := 1024
  const GROW_SIZE := 32
  const PORT_OFFSET := 0x80
  const UNBOUND := -1

  // inFds is the part of the array that is in use; inst holds qIndexToFd of every instance.
  datatype Tables = Tables(inFds: seq<InFd>, rfds: set<int>, maxFd: int, inst: seq<seq<int>>)

  // Ports carry the queue index above an offset.
  predicate IsPort(queueId: nat) {
    PORT_OFFSET <= queueId % 0x1_0000
  }

  function Slot(queueId: nat): nat
    requires IsPort(queueId)
  {
    queueId % 0x1_0000 - PORT_OFFSET
  }

  // A queue index past the table is unbound.
  function FdOf(t: Tables, k: nat, i: nat): int
    requires k < |t.inst|
  {
    if i < |t.inst[k]| then t.inst[k][i] else UNBOUND
  }

  function Grown(table: seq<int>, i: nat): seq<int> {
    if i < |table| then table else table + seq(i + GROW_SIZE - |table|, _ => UNBOUND)
  }

  function BindEntry(table: seq<int>, i: nat, fd: int): seq<int> {
    Grown(table, i)[i := fd]
  }

  function Max(a: int, b: int): int {
    if a > b then a else b
  }

  function MaxFdOf(inFds: seq<InFd>, least: int): int {
    if inFds == [] then least else Max(MaxFdOf(inFds[..|inFds| - 1], least), inFds[|inFds| - 1].fd)
  }

  function FindFd(inFds: seq<InFd>, fd: int): (i: nat)
    ensures i <= |inFds|
    ensures i < |inFds| ==> inFds[i].fd == fd
    ensures forall j :: 0 <= j < i ==> inFds[j].fd != fd
  {
    if inFds == [] || inFds[0].fd == fd then 0 else 1 + FindFd(inFds[1..], fd)
  }

  function Without(inFds: seq<InFd>, fd: int): seq<InFd> {
    var i := FindFd(inFds, fd);
    if i < |inFds| then inFds[..i] + inFds[i+1..] else inFds
  }

  function Bind(t: Tables, k: nat, queueId: nat, fd: int): Tables
    requires k < |t.inst| && IsPort(queueId)
  {
    Tables(t.inFds + [InFd(fd, queueId)], t.rfds + {fd}, Max(t.maxFd, fd),
           t.inst[k := BindEntry(t.inst[k], Slot(queueId), fd)])
  }

  function Unbind(t: Tables, k: nat, queueId: nat, unblockEvent: int): Tables
    requires k < |t.inst| && IsPort(queueId) && Slot(queueId) < |t.inst[k]|
  {
    var fd := FdOf(t, k, Slot(queueId));
    var inFds := Without(t.inFds, fd);
    Tables(inFds, t.rfds - {fd}, if fd == t.maxFd then MaxFdOf(inFds, unblockEvent) else t.maxFd,
           t.inst[k := t.inst[k][Slot(queueId) := UNBOUND]])
  }

  // The dispatch thread stops selecting on a socket whose remote end is gone, but leaves it in the tables.
  function Deafen(t: Tables, fd: int, unblockEvent: int): Tables {
    t.(rfds := t.rfds - {fd}, maxFd := if fd == t.maxFd then MaxFdOf(t.inFds, unblockEvent) else t.maxFd)
  }

  // ----- The invariant -----

  function Fds(inFds: seq<InFd>): set<int> {
    set e | e in inFds :: e.fd
  }

  ghost predicate DistinctFds(inFds: seq<InFd>) {
    forall i, j :: 0 <= i < j < |inFds| ==> inFds[i].fd != inFds[j].fd
  }

  // Entry (k, i) of the instance tables is in use.
  predicate Used(t: Tables, k: nat, i: nat) {
    k < |t.inst| && FdOf(t, k, i) != UNBOUND
  }

  // The sockets in inFds and the entries of the instance tables are in bijection: no socket is in two entries, every
  // socket of an entry is in inFds, and every socket of inFds is in an entry for the same queue index.
  ghost predicate Matched(t: Tables) {
    Unshared(t) && Covered(t) && Answered(t)
  }

  ghost predicate Unshared(t: Tables) {
    forall k, i, k', i' :: Used(t, k, i) && Used(t, k', i') && FdOf(t, k, i) == FdOf(t, k', i') ==> k == k' && i == i'
  }

  ghost predicate Covered(t: Tables) {
    forall k, i :: Used(t, k, i) ==> FdOf(t, k, i) in Fds(t.inFds)
  }

  ghost predicate Answered(t: Tables) {
    forall e :: e in t.inFds ==> IsPort(e.qId) && HasEntry(t, e.fd, Slot(e.qId))
  }

  ghost predicate HasEntry(t: Tables, fd: int, i: nat) {
    exists k :: Used(t, k, i) && FdOf(t, k, i) == fd
  }

  ghost predicate IsMax(m: int, fds: set<int>, unblockEvent: int) {
    m in fds + {unblockEvent} && forall fd :: fd in fds + {unblockEvent} ==> fd <= m
  }

  ghost predicate Valid(t: Tables, unblockEvent: int) {
    && 0 <= unblockEvent < SLOTS
    && DistinctFds(t.inFds)
    && (forall e :: e in t.inFds ==> 0 <= e.fd < SLOTS && e.fd != unblockEvent)
    && Matched(t)
    && IsMax(t.maxFd, Fds(t.inFds), unblockEvent)
    && unblockEvent in t.rfds && t.rfds <= Fds(t.inFds) + {unblockEvent}
  }

  // What the operating system promises of a new socket, together with the bound that select puts on it.
  predicate Fresh(t: Tables, fd: int, unblockEvent: int) {
    0 <= fd < SLOTS && fd != unblockEvent && fd !in Fds(t.inFds)
  }

  // ----- Pigeonhole -----

  lemma {:induction false} DistinctBelow(s: set<int>, n: nat)
    requires forall x :: x in s ==> 0 <= x < n
    ensures |s| <= n
  {
    if n == 0 {
      assert forall x :: x !in s;
    } else {
      DistinctBelow(s - {n - 1}, n - 1);
    }
  }

  lemma {:induction false} CountFds(inFds: seq<InFd>)
    requires DistinctFds(inFds)
    ensures |Fds(inFds)| == |inFds|
  {
    if inFds != [] {
      var rest := inFds[..|inFds| - 1];
      var last := inFds[|inFds| - 1];
      CountFds(rest);
      assert inFds == rest + [last];
      assert Fds(inFds) == Fds(rest) + {last.fd};
      assert last.fd !in Fds(rest);
    }
  }

  /** As long as descriptors stay below 1024, the array has a free slot for every new socket, and never more than 1023
      are in use. */
  lemma RoomForOneMore(t: Tables, fd: int, unblockEvent: int)
    requires Valid(t, unblockEvent)
    ensures |t.inFds| <= SLOTS - 1
    ensures Fresh(t, fd, unblockEvent) ==> |t.inFds| <= SLOTS - 2
  {
    CountFds(t.inFds);
    var used := Fds(t.inFds) + {unblockEvent};
    DistinctBelow(used, SLOTS);
    assert |used| == |t.inFds| + 1;
    if Fresh(t, fd, unblockEvent) {
      DistinctBelow(used + {fd}, SLOTS);
      assert |used + {fd}| == |t.inFds| + 2;
    }
  }

  // ----- What the operations keep -----

  lemma {:induction false} MaxFdOfIsMax(inFds: seq<InFd>, least: int)
    ensures IsMax(MaxFdOf(inFds, least), Fds(inFds), least)
  {
    if inFds != [] {
      var rest := inFds[..|inFds| - 1];
      var last := inFds[|inFds| - 1];
      MaxFdOfIsMax(rest, least);
      assert inFds == rest + [last];
      assert Fds(inFds) == Fds(rest) + {last.fd};
    }
  }

  lemma MaxIsUnique(a: int, b: int, fds: set<int>, unblockEvent: int)
    requires IsMax(a, fds, unblockEvent) && IsMax(b, fds, unblockEvent)
    ensures a == b
  {
  }

  lemma AppendFds(inFds: seq<InFd>, e: InFd)
    ensures Fds(inFds + [e]) == Fds(inFds) + {e.fd}
  {
    assert forall x :: x in inFds + [e] <==> x in inFds || x == e;
  }

  lemma WithoutFds(inFds: seq<InFd>, fd: int)
    requires DistinctFds(inFds)
    ensures DistinctFds(Without(inFds, fd))
    ensures forall e :: e in Without(inFds, fd) <==> e in inFds && e.fd != fd
    ensures Fds(Without(inFds, fd)) == Fds(inFds) - {fd}
  {
    var i := FindFd(inFds, fd);
    var w := Without(inFds, fd);
    if i < |inFds| {
      assert forall j :: 0 <= j < |w| ==> w[j] == inFds[if j < i then j else j + 1];
      forall e | e in inFds && e.fd != fd ensures e in w {
        var j :| 0 <= j < |inFds| && inFds[j] == e;
        assert w[if j < i then j else j - 1] == e;
      }
    }
    forall x | x in Fds(inFds) - {fd} ensures x in Fds(w) {
      var e :| e in inFds && e.fd == x;
      assert e in w;
    }
  }

  /** Binding changes what one queue index of one instance is mapped to, whether or not the table has to grow. */
  lemma BindMapsOneEntry(t: Tables, k: nat, queueId: nat, fd: int)
    requires k < |t.inst| && IsPort(queueId)
    ensures |Bind(t, k, queueId, fd).inst| == |t.inst|
    ensures forall k': nat, i: nat :: k' < |t.inst| ==>
      FdOf(Bind(t, k, queueId, fd), k', i) == (if k' == k && i == Slot(queueId) then fd else FdOf(t, k', i))
  {
  }

  lemma UnbindMapsOneEntry(t: Tables, k: nat, queueId: nat, unblockEvent: int)
    requires k < |t.inst| && IsPort(queueId) && Slot(queueId) < |t.inst[k]|
    ensures |Unbind(t, k, queueId, unblockEvent).inst| == |t.inst|
    ensures forall k': nat, i: nat :: k' < |t.inst| ==>
      FdOf(Unbind(t, k, queueId, unblockEvent), k', i) ==
        (if k' == k && i == Slot(queueId) then UNBOUND else FdOf(t, k', i))
  {
  }

  lemma BindKeepsMatched(t: Tables, k: nat, queueId: nat, fd: int, unblockEvent: int)
    requires Valid(t, unblockEvent) && Fresh(t, fd, unblockEvent)
    requires k < |t.inst| && IsPort(queueId) && FdOf(t, k, Slot(queueId)) == UNBOUND
    ensures Matched(Bind(t, k, queueId, fd))
  {
    var t' := Bind(t, k, queueId, fd);
    var slot := Slot(queueId);
    BindMapsOneEntry(t, k, queueId, fd);
    AppendFds(t.inFds, InFd(fd, queueId));
    assert Used(t', k, slot) && FdOf(t', k, slot) == fd;
    hide Bind, FdOf, Fds;
    assert t'.inFds == t.inFds + [InFd(fd, queueId)];
    forall e | e in t'.inFds
      ensures IsPort(e.qId) && HasEntry(t', e.fd, Slot(e.qId))
    {
      if e in t.inFds {
        var k' :| Used(t, k', Slot(e.qId)) && FdOf(t, k', Slot(e.qId)) == e.fd;
        assert Used(t', k', Slot(e.qId));
      }
    }
  }

  /** Binding a fresh socket to an unbound queue index keeps the tables consistent. */
  lemma BindKeepsValid(t: Tables, k: nat, queueId: nat, fd: int, unblockEvent: int)
    requires Valid(t, unblockEvent) && Fresh(t, fd, unblockEvent)
    requires k < |t.inst| && IsPort(queueId) && FdOf(t, k, Slot(queueId)) == UNBOUND
    ensures Valid(Bind(t, k, queueId, fd), unblockEvent)
  {
    BindKeepsMatched(t, k, queueId, fd, unblockEvent);
    AppendFds(t.inFds, InFd(fd, queueId));
    hide Matched, FdOf;
    forall i | 0 <= i < |t.inFds| ensures t.inFds[i].fd != fd { assert t.inFds[i] in t.inFds; }
  }

  lemma UnbindKeepsUnshared(t: Tables, k: nat, queueId: nat, unblockEvent: int)
    requires Matched(t) && k < |t.inst| && IsPort(queueId) && Used(t, k, Slot(queueId))
    ensures Unshared(Unbind(t, k, queueId, unblockEvent))
  {
    UnbindMapsOneEntry(t, k, queueId, unblockEvent);
    hide Unbind, FdOf, Covered, Answered;
  }

  lemma UnbindKeepsCovered(t: Tables, k: nat, queueId: nat, unblockEvent: int)
    requires DistinctFds(t.inFds) && Matched(t) && k < |t.inst| && IsPort(queueId) && Used(t, k, Slot(queueId))
    ensures Covered(Unbind(t, k, queueId, unblockEvent))
  {
    var t' := Unbind(t, k, queueId, unblockEvent);
    var fd := FdOf(t, k, Slot(queueId));
    UnbindMapsOneEntry(t, k, queueId, unblockEvent);
    WithoutFds(t.inFds, fd);
    assert t'.inFds == Without(t.inFds, fd);
    hide Unbind, FdOf, Fds, Without, Answered, DistinctFds;
    forall k', i | Used(t', k', i) ensures FdOf(t', k', i) in Fds(t'.inFds) {
      assert Used(t, k', i) && FdOf(t, k', i) == FdOf(t', k', i);
    }
  }

  lemma UnbindKeepsAnswered(t: Tables, k: nat, queueId: nat, unblockEvent: int)
    requires DistinctFds(t.inFds) && Matched(t) && k < |t.inst| && IsPort(queueId) && Used(t, k, Slot(queueId))
    ensures Answered(Unbind(t, k, queueId, unblockEvent))
  {
    var t' := Unbind(t, k, queueId, unblockEvent);
    var fd := FdOf(t, k, Slot(queueId));
    UnbindMapsOneEntry(t, k, queueId, unblockEvent);
    WithoutFds(t.inFds, fd);
    assert t'.inFds == Without(t.inFds, fd);
    hide Unbind, FdOf, Fds, Without, Covered, DistinctFds, Unshared;
    forall e | e in t'.inFds ensures IsPort(e.qId) && HasEntry(t', e.fd, Slot(e.qId)) {
      var k' :| Used(t, k', Slot(e.qId)) && FdOf(t, k', Slot(e.qId)) == e.fd;
      assert Used(t', k', Slot(e.qId)) && FdOf(t', k', Slot(e.qId)) == e.fd;
    }
  }

  // When the greatest member goes, the bound is computed anew; when another one goes, the bound stands.
  lemma UnbindKeepsMax(m: int, inFds: seq<InFd>, fd: int, unblockEvent: int)
    requires DistinctFds(inFds) && IsMax(m, Fds(inFds), unblockEvent) && fd in Fds(inFds)
    ensures IsMax(
      if fd == m then MaxFdOf(Without(inFds, fd), unblockEvent) else m, Fds(Without(inFds, fd)), unblockEvent)
  {
    WithoutFds(inFds, fd);
    MaxFdOfIsMax(Without(inFds, fd), unblockEvent);
    hide Without, MaxFdOf, DistinctFds;
  }

  /** Unbinding a bound queue index keeps the tables consistent, and the bound for select exact. */
  lemma UnbindKeepsValid(t: Tables, k: nat, queueId: nat, unblockEvent: int)
    requires Valid(t, unblockEvent) && k < |t.inst| && IsPort(queueId) && Used(t, k, Slot(queueId))
    ensures Valid(Unbind(t, k, queueId, unblockEvent), unblockEvent)
  {
    UnbindKeepsUnshared(t, k, queueId, unblockEvent);
    UnbindKeepsCovered(t, k, queueId, unblockEvent);
    UnbindKeepsAnswered(t, k, queueId, unblockEvent);
    var fd := FdOf(t, k, Slot(queueId));
    assert fd in Fds(t.inFds);
    assert fd != unblockEvent;
    WithoutFds(t.inFds, fd);
    UnbindKeepsMax(t.maxFd, t.inFds, fd, unblockEvent);
    hide Unshared, Covered, Answered, FdOf, Fds, Without, MaxFdOf, Used, DistinctFds, IsMax;
  }

  lemma DeafenKeepsMatched(t: Tables, fd: int, unblockEvent: int)
    requires Matched(t)
    ensures Matched(Deafen(t, fd, unblockEvent))
  {
    var t' := Deafen(t, fd, unblockEvent);
    assert forall k: nat, i: nat :: Used(t', k, i) == Used(t, k, i);
    hide Deafen, MaxFdOf;
    forall e | e in t'.inFds ensures HasEntry(t', e.fd, Slot(e.qId)) {
      var k :| Used(t, k, Slot(e.qId)) && FdOf(t, k, Slot(e.qId)) == e.fd;
      assert Used(t', k, Slot(e.qId));
    }
  }

  /** Taking a socket out of the select set leaves everything else as it was: its descriptor still counts for the
      bound. */
  lemma DeafenKeepsValid(t: Tables, fd: int, unblockEvent: int)
    requires Valid(t, unblockEvent) && fd in Fds(t.inFds)
    ensures Valid(Deafen(t, fd, unblockEvent), unblockEvent)
    ensures Deafen(t, fd, unblockEvent) == t.(rfds := t.rfds - {fd})
  {
    DeafenKeepsMatched(t, fd, unblockEvent);
    MaxFdOfIsMax(t.inFds, unblockEvent);
    MaxIsUnique(t.maxFd, MaxFdOf(t.inFds, unblockEvent), Fds(t.inFds), unblockEvent);
    hide Matched, FdOf, MaxFdOf, Fds;
  }

  lemma WithoutLast(inFds: seq<InFd>, e: InFd)
    requires e.fd !in Fds(inFds)
    ensures Without(inFds + [e], e.fd) == inFds
  {
    hide FindFd;
    var all := inFds + [e];
    var i := FindFd(all, e.fd);
    assert all[|inFds|] == e;
    forall j | 0 <= j < |inFds| ensures all[j].fd != e.fd { assert inFds[j] in inFds; }
    assert i == |inFds|;
  }

  /** Unbinding undoes binding: the dispatch array, the select set, its bound and every mapping are back as they were;
      the instance table may have grown. */
  lemma UnbindUndoesBind(t: Tables, k: nat, queueId: nat, fd: int, unblockEvent: int)
    requires Valid(t, unblockEvent) && Fresh(t, fd, unblockEvent)
    requires k < |t.inst| && IsPort(queueId) && FdOf(t, k, Slot(queueId)) == UNBOUND
    ensures var b := Bind(t, k, queueId, fd);
      && k < |b.inst| && Slot(queueId) < |b.inst[k]|
      && var u := Unbind(b, k, queueId, unblockEvent);
         u.inFds == t.inFds && u.rfds == t.rfds && u.maxFd == t.maxFd && |u.inst| == |t.inst| &&
         forall k': nat, i: nat :: k' < |t.inst| ==> FdOf(u, k', i) == FdOf(t, k', i)
  {
    var b := Bind(t, k, queueId, fd);
    BindMapsOneEntry(t, k, queueId, fd);
    UnbindMapsOneEntry(b, k, queueId, unblockEvent);
    WithoutLast(t.inFds, InFd(fd, queueId));
    assert FdOf(b, k, Slot(queueId)) == fd;
    MaxFdOfIsMax(t.inFds, unblockEvent);
    MaxIsUnique(t.maxFd, MaxFdOf(t.inFds, unblockEvent), Fds(t.inFds), unblockEvent);
    hide Matched, FdOf, Grown;
    assert fd !in t.rfds;
  }

  // ----- Every run -----

  datatype Op = OpBind(k: nat, queueId: nat, fd: int) | OpUnbind(k: nat, queueId: nat) | OpDeafen(i: nat)

  // A socket is new to the process; binding a bound queue and unbinding an unbound one do nothing.
  predicate Allowed(t: Tables, op: Op, unblockEvent: int) {
    match op
    case OpBind(k, queueId, fd) => k < |t.inst| && IsPort(queueId) && Fresh(t, fd, unblockEvent)
    case OpUnbind(k, queueId) => k < |t.inst| && IsPort(queueId)
    case OpDeafen(i) => i < |t.inFds|
  }

  function Apply(t: Tables, op: Op, unblockEvent: int): Tables
    requires Allowed(t, op, unblockEvent)
  {
    match op
    case OpBind(k, queueId, fd) => if FdOf(t, k, Slot(queueId)) != UNBOUND then t else Bind(t, k, queueId, fd)
    case OpUnbind(k, queueId) => if FdOf(t, k, Slot(queueId)) == UNBOUND then t else Unbind(t, k, queueId, unblockEvent)
    case OpDeafen(i) => Deafen(t, t.inFds[i].fd, unblockEvent)
  }

  ghost predicate IsRun(states: seq<Tables>, ops: seq<Op>, unblockEvent: int) {
    && |states| == |ops| + 1
    && forall i :: 0 <= i < |ops| ==>
         Allowed(states[i], ops[i], unblockEvent) && states[i + 1] == Apply(states[i], ops[i], unblockEvent)
  }

  /** Through every run of bind, unbind and shutdown from consistent tables, the tables stay consistent and the array of
      1024 slots never overflows. */
  lemma {:induction false} EveryRunKeepsValid(states: seq<Tables>, ops: seq<Op>, unblockEvent: int, i: nat)
    requires IsRun(states, ops, unblockEvent) && Valid(states[0], unblockEvent) && i < |states|
    ensures Valid(states[i], unblockEvent) && |states[i].inFds| < SLOTS
  {
    if i > 0 {
      EveryRunKeepsValid(states, ops, unblockEvent, i - 1);
      var t, op := states[i - 1], ops[i - 1];
      hide Valid, Bind, Unbind, Deafen;
      assert Allowed(t, op, unblockEvent) && states[i] == Apply(t, op, unblockEvent);
      match op {
        case OpBind(k, queueId, fd) =>
          if FdOf(t, k, Slot(queueId)) == UNBOUND { BindKeepsValid(t, k, queueId, fd, unblockEvent); }
        case OpUnbind(k, queueId) =>
          if FdOf(t, k, Slot(queueId)) != UNBOUND { UnbindKeepsValid(t, k, queueId, unblockEvent); }
        case OpDeafen(j) =>
          assert t.inFds[j] in t.inFds;
          DeafenKeepsValid(t, t.inFds[j].fd, unblockEvent);
      }
    }
    RoomForOneMore(states[i], -1, unblockEvent);
  }

  // ----- The module object -----

  datatype Status = Success | OsFailure

  class Transport {
    const inFds: array<InFd>
    var nInFds: nat
    var rfds: set<int>
    var maxFd: int
    const unblockEvent: int
    var inst: seq<seq<int>>

    ghost predicate Sound()
      reads this, inFds
    {
      inFds.Length == SLOTS && nInFds <= SLOTS && Valid(Contents(), unblockEvent)
    }

    ghost function Contents(): Tables
      reads this, inFds
      requires nInFds <= inFds.Length
    {
      Tables(inFds[..nInFds], rfds, maxFd, inst)
    }

    // Every instance starts with a table of unbound entries.
    constructor (unblockEvent: int, instances: nat)
      requires 0 <= unblockEvent < SLOTS
      ensures Sound() && fresh(inFds) && nInFds == 0 && |inst| == instances
      ensures forall k: nat, i: nat :: k < instances ==> FdOf(Contents(), k, i) == UNBOUND
    {
      inFds := new InFd[SLOTS](_ => InFd(UNBOUND, 0));
      nInFds := 0;
      rfds := {unblockEvent};
      maxFd := unblockEvent;
      this.unblockEvent := unblockEvent;
      inst := seq(instances, _ => seq(GROW_SIZE, _ => UNBOUND));
    }

    method QueueIndexToFd(k: nat, queueId: nat) returns (fd: int)
      requires nInFds <= inFds.Length && k < |inst| && IsPort(queueId)
      ensures fd == FdOf(Contents(), k, Slot(queueId))
    {
      var queueIndex := queueId % 0x1_0000 - PORT_OFFSET;
      if queueIndex < |inst[k]| {
        fd := inst[k][queueIndex];
      } else {
        fd := UNBOUND;
      }
    }

    method BindFdToQueueIndex(k: nat, fd: int, queueId: nat)
      requires k < |inst| && IsPort(queueId)
      modifies `inst
      ensures inst == old(inst)[k := BindEntry(old(inst[k]), Slot(queueId), fd)]
    {
      var queueIndex := queueId % 0x1_0000 - PORT_OFFSET;
      if queueIndex >= |inst[k]| {
        var newCount := queueIndex + GROW_SIZE;
        var queues := inst[k];
        while |queues| < newCount
          invariant |inst[k]| <= |queues| <= newCount
          invariant queues == inst[k] + seq(|queues| - |inst[k]|, _ => UNBOUND)
        {
          queues := queues + [UNBOUND];
        }
        inst := inst[k := queues];
      }
      inst := inst[k := inst[k][queueIndex := fd]];
    }

    // fd is the answer of socket, bound that of SocketBindAddr.
    method BindQueue(k: nat, queueId: nat, fd: int, bound: bool) returns (status: Status)
      requires Sound() && k < |inst| && IsPort(queueId)
      requires fd >= 0 ==> Fresh(Contents(), fd, unblockEvent)
      modifies this, inFds
      ensures Sound()
      ensures FdOf(old(Contents()), k, Slot(queueId)) != UNBOUND ==> status == Success && Contents() == old(Contents())
      ensures FdOf(old(Contents()), k, Slot(queueId)) == UNBOUND ==>
        status == (if fd >= 0 && bound then Success else OsFailure)
      ensures FdOf(old(Contents()), k, Slot(queueId)) == UNBOUND ==>
        Contents() == if status == Success then Bind(old(Contents()), k, queueId, fd) else old(Contents())
    {
      hide Valid;
      var existing := QueueIndexToFd(k, queueId);
      if existing != UNBOUND {
        return Success;
      }
      if fd < 0 || !bound {
        return OsFailure;
      }
      RoomForOneMore(Contents(), fd, unblockEvent);
      BindKeepsValid(Contents(), k, queueId, fd, unblockEvent);
      inFds[nInFds] := InFd(fd, queueId);
      nInFds := nInFds + 1;
      maxFd := if maxFd > fd then maxFd else fd;
      rfds := rfds + {fd};
      BindFdToQueueIndex(k, fd, queueId);
      assert Contents() == Bind(old(Contents()), k, queueId, fd);
      status := Success;
    }

    method RecomputeMaxFd() returns (m: int)
      requires nInFds <= inFds.Length
      ensures m == MaxFdOf(inFds[..nInFds], unblockEvent)
    {
      m := unblockEvent;
      for i := 0 to nInFds
        invariant m == MaxFdOf(inFds[..i], unblockEvent)
      {
        assert inFds[..i+1][..i] == inFds[..i];
        m := if inFds[i].fd > m then inFds[i].fd else m;
      }
    }

    method ShiftDown(i: nat)
      requires i < nInFds <= inFds.Length
      modifies `nInFds, inFds
      ensures nInFds == old(nInFds) - 1
      ensures inFds[..nInFds] == old(inFds[..i] + inFds[i+1..nInFds])
    {
      ghost var all := inFds[..];
      nInFds := nInFds - 1;
      for j := i to nInFds
        invariant nInFds == old(nInFds) - 1
        invariant forall x :: 0 <= x < i ==> inFds[x] == all[x]
        invariant forall x :: i <= x < j ==> inFds[x] == all[x + 1]
        invariant forall x :: j <= x < inFds.Length ==> inFds[x] == all[x]
      {
        inFds[j] := inFds[j + 1];
      }
      inFds[nInFds] := InFd(UNBOUND, 0);
    }

    method RemoveInFd(fd: int)
      requires nInFds <= inFds.Length
      modifies `nInFds, inFds
      ensures nInFds <= inFds.Length && inFds[..nInFds] == Without(old(inFds[..nInFds]), fd)
    {
      ghost var all := inFds[..nInFds];
      for i := 0 to nInFds
        invariant nInFds == old(nInFds) && inFds[..nInFds] == all
        invariant forall j :: 0 <= j < i ==> all[j].fd != fd
      {
        if inFds[i].fd == fd {
          assert i == FindFd(all, fd);
          assert inFds[..i] + inFds[i+1..nInFds] == all[..i] + all[i+1..];
          ShiftDown(i);
          return;
        }
      }
      assert FindFd(all, fd) == |all|;
    }

    method Forget(k: nat, queueId: nat, fd: int)
      requires nInFds <= inFds.Length && k < |inst| && IsPort(queueId)
      requires Slot(queueId) < |inst[k]| && fd == inst[k][Slot(queueId)]
      modifies this, inFds
      ensures nInFds <= inFds.Length
      ensures Contents() == Unbind(old(Contents()), k, queueId, unblockEvent)
    {
      hide Without, MaxFdOf;
      inst := inst[k := inst[k][queueId % 0x1_0000 - PORT_OFFSET := UNBOUND]];
      RemoveInFd(fd);
      rfds := rfds - {fd};
      if fd == maxFd {
        maxFd := RecomputeMaxFd();
      }
    }

    method UnbindQueue(k: nat, queueId: nat)
      requires Sound() && k < |inst| && IsPort(queueId)
      modifies this, inFds
      ensures Sound()
      ensures Contents() == if FdOf(old(Contents()), k, Slot(queueId)) == UNBOUND then old(Contents())
        else Unbind(old(Contents()), k, queueId, unblockEvent)
    {
      var fd := QueueIndexToFd(k, queueId);
      if fd == UNBOUND {
        return;
      }
      UnbindKeepsValid(Contents(), k, queueId, unblockEvent);
      hide Valid, Unbind;
      Forget(k, queueId, fd);
      RoomForOneMore(Contents(), fd, unblockEvent);
    }

    // The dispatch thread, holding the gate, has found the remote end of entry i gone.
    method ShutdownInFd(i: nat)
      requires Sound() && i < nInFds
      modifies `rfds, `maxFd
      ensures Sound() && Contents() == Deafen(old(Contents()), inFds[i].fd, unblockEvent)
    {
      hide Valid;
      assert inFds[i] in inFds[..nInFds];
      DeafenKeepsValid(Contents(), inFds[i].fd, unblockEvent);
      var fd := inFds[i].fd;
      rfds := rfds - {fd};
      if fd == maxFd {
        maxFd := RecomputeMaxFd();
      }
    }
  }
}
