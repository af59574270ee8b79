/** What the daemon's queue table keeps through every sequence of create, announce, delete and cleanup, and where it
    does not: growing past a 16-bit size, and announcing a name that the NameServer refuses. */
module QueueRuns {
  import opened Options
  import opened StringHash
  import opened NameTable
  import opened QueueTable

  // ----- Cleaning up after a process -----

  // The queues of the process in slots from i on.
  predicate Gone(m: Module, h: nat, pid: int, i: nat) {
    h in m.objs && m.objs[h].ownerPid == pid && IndexOf(m.objs[h].queue) >= i
  }

  ghost predicate QueuesLeft(m: Module, m': Module, pid: int, i: nat) {
    && |m'.queues| == |m.queues| && m'.numQueues == m.numQueues
    && (forall j :: 0 <= j < |m.queues| ==> m'.queues[j] == if j >= i && OwnedBy(m, j, pid) then NULL else m.queues[j])
    && (forall h :: h in m'.objs <==> h in m.objs && !Gone(m, h, pid, i))
    && (forall h :: h in m'.objs ==> m'.objs[h] == m.objs[h])
  }

  ghost predicate NamesLeft(m: Module, m': Module, pid: int, i: nat) {
    forall e :: e in m'.names.list <==> e in m.names.list && forall h :: Owns(m, h, e) ==> !Gone(m, h, pid, i)
  }

  lemma GoneAfterDelete(c: Config, m: Module, h: nat, g: nat, pid: int, i: nat)
    requires Valid(c, m) && h in m.objs && i < |m.queues| && m.queues[i] == h && m.objs[h].ownerPid == pid
    ensures Gone(m, h, pid, i)
    ensures Gone(Delete(m, h), g, pid, i + 1) <==> Gone(m, g, pid, i) && g != h
  {
    hide Named, WellFormed;
    assert InSlot(m, h) && m.objs[h].queue == IdOf(c, i);
    IdFits(c, i);
    DeleteFreesItsSlot(c, m, h);
    if g in m.objs && g != h { assert InSlot(m, g); }
    hide IdOf, Delete;
  }

  lemma GonePastSlot(c: Config, m: Module, g: nat, pid: int, i: nat)
    requires Valid(c, m) && i < |m.queues| && !OwnedBy(m, i, pid)
    ensures Gone(m, g, pid, i + 1) <==> Gone(m, g, pid, i)
  {
    hide Named, WellFormed, IndexOf;
    if g in m.objs { assert InSlot(m, g) && g != NULL; }
  }

  lemma GonePastEnd(c: Config, m: Module, g: nat, pid: int, i: nat)
    requires Valid(c, m) && i >= |m.queues|
    ensures !Gone(m, g, pid, i)
  {
    hide Named, WellFormed, IndexOf;
    if g in m.objs { assert InSlot(m, g); }
  }

  lemma OwnsAfterDelete(c: Config, m: Module, h: nat, g: nat, e: Entry)
    requires h in m.objs
    ensures Owns(Delete(m, h), g, e) <==> Owns(m, g, e) && g != h
  {
    DeleteTakesItself(m, h);
    hide Delete, Word;
  }

  // The name a queue holds is the one with its key.
  lemma KeyIsName(c: Config, m: Module, h: nat, e: Entry)
    requires Valid(c, m) && h in m.objs && e in m.names.list && m.objs[h].nsKey == Some(e.id)
    ensures Owns(m, h, e)
  {
    hide Named, WellFormed, Placed, Word;
    var d := NameOf(m, h);
    SameIdSameEntry(c.params, m.names, d, e);
  }

  lemma NamesLeftAfterDelete(c: Config, m: Module, h: nat, m': Module, pid: int, i: nat)
    requires Valid(c, m) && h in m.objs && i < |m.queues| && m.queues[i] == h && m.objs[h].ownerPid == pid
    requires NamesLeft(Delete(m, h), m', pid, i + 1)
    ensures NamesLeft(m, m', pid, i)
  {
    hide Valid, Delete, Owns, Gone;
    var m1 := Delete(m, h);
    forall e ensures e in m'.names.list <==> e in m.names.list && forall g :: Owns(m, g, e) ==> !Gone(m, g, pid, i) {
      DeleteTakesItsName(c, m, h, e);
      forall g ensures Owns(m1, g, e) <==> Owns(m, g, e) && g != h { OwnsAfterDelete(c, m, h, g, e); }
      forall g ensures Gone(m1, g, pid, i + 1) <==> Gone(m, g, pid, i) && g != h {
        GoneAfterDelete(c, m, h, g, pid, i);
      }
      GoneAfterDelete(c, m, h, h, pid, i);
      if e in m.names.list && m.objs[h].nsKey == Some(e.id) { KeyIsName(c, m, h, e); }
      if Owns(m, h, e) { OwnerHasKey(m, h, e); }
    }
  }

  lemma OwnerHasKey(m: Module, h: nat, e: Entry)
    requires Owns(m, h, e)
    ensures h in m.objs && m.objs[h].nsKey == Some(e.id)
  {
  }

  lemma QueuesLeftAfterDelete(c: Config, m: Module, h: nat, m': Module, pid: int, i: nat)
    requires Valid(c, m) && h in m.objs && i < |m.queues| && m.queues[i] == h && m.objs[h].ownerPid == pid
    requires QueuesLeft(Delete(m, h), m', pid, i + 1)
    ensures QueuesLeft(m, m', pid, i)
  {
    DeleteKeepsCounts(c, m, h, i);
    assert Placed(c, m);
    hide Valid, Delete, Gone, InSlot, IdOf, Word;
    var m1 := Delete(m, h);
    forall g ensures Gone(m1, g, pid, i + 1) <==> Gone(m, g, pid, i) && g != h { GoneAfterDelete(c, m, h, g, pid, i); }
    forall j | 0 <= j < |m.queues| && j != i ensures OwnedBy(m1, j, pid) <==> OwnedBy(m, j, pid) {
      if m.queues[j] == h { SlotsDistinct(c, m, i, j); }
    }
    GoneAfterDelete(c, m, h, h, pid, i);
  }

  lemma SlotsDistinct(c: Config, m: Module, i: nat, j: nat)
    requires Valid(c, m) && i < |m.queues| && j < |m.queues| && m.queues[i] == m.queues[j] != NULL
    ensures i == j
  {
    hide Named, WellFormed;
    assert IdOf(c, i) == IdOf(c, j);
    IdFits(c, i);
    IdFits(c, j);
  }

  lemma DeleteKeepsCounts(c: Config, m: Module, h: nat, i: nat)
    requires Valid(c, m) && h in m.objs && i < |m.queues| && m.queues[i] == h
    ensures var m1 := Delete(m, h);
      m1.queues == m.queues[i := NULL] && m1.numQueues == m.numQueues && m1.objs == m.objs - {h}
  {
    hide Named, WellFormed;
    assert h != NULL;
    IdFits(c, i);
    DeleteFreesItsSlot(c, m, h);
  }

  lemma LeftPastEnd(c: Config, m: Module, pid: int, i: nat)
    requires Valid(c, m) && i >= |m.queues|
    ensures QueuesLeft(m, m, pid, i) && NamesLeft(m, m, pid, i)
  {
    hide Valid, Gone, Owns;
    forall g ensures !Gone(m, g, pid, i) { GonePastEnd(c, m, g, pid, i); }
  }

  lemma LeftPastSlot(c: Config, m: Module, m': Module, pid: int, i: nat)
    requires Valid(c, m) && i < |m.queues| && !OwnedBy(m, i, pid)
    requires QueuesLeft(m, m', pid, i + 1) && NamesLeft(m, m', pid, i + 1)
    ensures QueuesLeft(m, m', pid, i) && NamesLeft(m, m', pid, i)
  {
    hide Valid, Gone, Owns, OwnedBy;
    forall g ensures Gone(m, g, pid, i + 1) <==> Gone(m, g, pid, i) { GonePastSlot(c, m, g, pid, i); }
  }

  lemma LeftAfterDelete(c: Config, m: Module, m': Module, pid: int, i: nat)
    requires Valid(c, m) && i < |m.queues| && m.queues[i] in m.objs && m.objs[m.queues[i]].ownerPid == pid
    requires QueuesLeft(Delete(m, m.queues[i]), m', pid, i + 1) && NamesLeft(Delete(m, m.queues[i]), m', pid, i + 1)
    ensures QueuesLeft(m, m', pid, i) && NamesLeft(m, m', pid, i)
  {
    hide Valid, Delete, QueuesLeft, NamesLeft;
    QueuesLeftAfterDelete(c, m, m.queues[i], m', pid, i);
    NamesLeftAfterDelete(c, m, m.queues[i], m', pid, i);
  }

  lemma CleanupUnrolls(m: Module, pid: int, i: nat)
    ensures CleanupFrom(m, pid, i) ==
            if i >= m.numQueues then m
            else if OwnedBy(m, i, pid) then CleanupFrom(Delete(m, m.queues[i]), pid, i + 1)
            else CleanupFrom(m, pid, i + 1)
  {
  }

  lemma SlotsCounted(c: Config, m: Module)
    requires Valid(c, m)
    ensures m.numQueues == |m.queues|
  {
  }

  lemma OwnedIsLive(m: Module, i: nat, pid: int)
    requires OwnedBy(m, i, pid)
    ensures i < |m.queues| && m.queues[i] in m.objs && m.objs[m.queues[i]].ownerPid == pid
  {
  }

  lemma {:induction false} CleanupFromCleans(c: Config, m: Module, pid: int, i: nat)
    requires Valid(c, m)
    ensures var m' := CleanupFrom(m, pid, i); Valid(c, m') && QueuesLeft(m, m', pid, i) && NamesLeft(m, m', pid, i)
    decreases m.numQueues - i
  {
    hide Valid, QueuesLeft, NamesLeft, Delete, CleanupFrom, OwnedBy;
    CleanupUnrolls(m, pid, i);
    SlotsCounted(c, m);
    var m' := CleanupFrom(m, pid, i);
    if i >= m.numQueues {
      LeftPastEnd(c, m, pid, i);
    } else if OwnedBy(m, i, pid) {
      OwnedIsLive(m, i, pid);
      var m1 := Delete(m, m.queues[i]);
      DeleteKeepsValid(c, m, m.queues[i]);
      DeleteKeepsSize(m, m.queues[i]);
      CleanupFromCleans(c, m1, pid, i + 1);
      LeftAfterDelete(c, m, m', pid, i);
    } else {
      CleanupFromCleans(c, m, pid, i + 1);
      LeftPastSlot(c, m, m', pid, i);
    }
  }

  /** After a process is cleaned up, none of its queues and none of their names are left; every other queue is as it
      was, in its slot, and every other name is still there. */
  lemma CleanupRemovesExactlyTheOwned(c: Config, m: Module, pid: int)
    requires Valid(c, m)
    ensures var m' := CleanupFrom(m, pid, 0);
      && Valid(c, m')
      && (forall h :: h in m'.objs <==> h in m.objs && m.objs[h].ownerPid != pid)
      && (forall h :: h in m'.objs ==> m'.objs[h] == m.objs[h])
      && |m'.queues| == |m.queues|
      && (forall j :: 0 <= j < |m.queues| ==> m'.queues[j] == if OwnedBy(m, j, pid) then NULL else m.queues[j])
      && (forall e :: e in m'.names.list <==>
          e in m.names.list && forall h :: Owns(m, h, e) ==> m.objs[h].ownerPid != pid)
  {
    CleanupFromCleans(c, m, pid, 0);
    forall h ensures Gone(m, h, pid, 0) <==> h in m.objs && m.objs[h].ownerPid == pid {
      if h in m.objs { assert InSlot(m, h); }
    }
    forall h, e | Owns(m, h, e) ensures h in m.objs {}
    hide Valid, CleanupFrom, Gone, Owns, OwnedBy;
  }

  // ----- Every run -----

  datatype Op =
    | DoCreate(index: Option<nat>, allocOk: bool)
    | DoAnnounce(h: nat, name: Option<Name>, mallocOk: bool)
    | DoDelete(h: nat)
    | DoSetOwner(h: nat, pid: int)
    | DoCleanup(pid: int)

  predicate Legal(c: Config, m: Module, op: Op) {
    match op
    case DoCreate(_, _) => Shaped(c, m)
    case DoAnnounce(h, _, _) => h in m.objs
    case DoDelete(h) => h in m.objs
    case DoSetOwner(h, _) => h in m.objs
    case DoCleanup(_) => true
  }

  function Apply(c: Config, m: Module, op: Op): Module
    requires Legal(c, m, op)
  {
    match op
    case DoCreate(index, allocOk) => Create(c, m, index, allocOk).0
    case DoAnnounce(h, name, mallocOk) => Announce(c, m, h, name, mallocOk).0
    case DoDelete(h) => Delete(m, h)
    case DoSetOwner(h, pid) => SetOwner(m, h, pid)
    case DoCleanup(pid) => CleanupFrom(m, pid, 0)
  }

  // The table need not grow past a 16-bit size, and no name goes into the chain of a different one.
  predicate Harmless(c: Config, m: Module, op: Op)
    requires Legal(c, m, op)
  {
    match op
    case DoCreate(index, allocOk) => !allocOk || GrowsSafely(c, m, index)
    case DoAnnounce(h, name, mallocOk) => EntersNoChain(c, m, h, name, mallocOk)
    case DoDelete(_) => true
    case DoSetOwner(_, _) => true
    case DoCleanup(_) => true
  }

  lemma ApplyKeepsValid(c: Config, m: Module, op: Op)
    requires Valid(c, m) && Legal(c, m, op)
    ensures Valid(c, Apply(c, m, op)) <==> Harmless(c, m, op)
  {
    hide Valid, EntersNoChain, GrowsSafely, Announce, Create, Delete, SetOwner, CleanupFrom;
    match op
    case DoCreate(index, allocOk) => CreateKeepsValid(c, m, index, allocOk);
    case DoAnnounce(h, name, mallocOk) => AnnounceKeepsValid(c, m, h, name, mallocOk);
    case DoDelete(h) => DeleteKeepsValid(c, m, h);
    case DoSetOwner(h, pid) => SetOwnerKeepsValid(c, m, h, pid);
    case DoCleanup(pid) => CleanupRemovesExactlyTheOwned(c, m, pid);
  }

  ghost predicate IsRun(c: Config, states: seq<Module>, ops: seq<Op>) {
    && |states| == |ops| + 1
    && forall i :: 0 <= i < |ops| ==> Legal(c, states[i], ops[i]) && states[i + 1] == Apply(c, states[i], ops[i])
  }

  ghost predicate StaysValid(c: Config, states: seq<Module>) {
    forall i :: 0 <= i < |states| ==> Valid(c, states[i])
  }

  /** Through every run of create, announce, delete, setQueueOwner and cleanup, of any names and any number of queues,
      the table and the names stay consistent if and only if every operation is harmless where it happens. */
  lemma {:induction false} EveryRunKeepsValidIff(c: Config, states: seq<Module>, ops: seq<Op>)
    requires IsRun(c, states, ops) && Valid(c, states[0])
    ensures StaysValid(c, states) <==> forall i :: 0 <= i < |ops| ==> Harmless(c, states[i], ops[i])
    decreases |ops|
  {
    hide Valid, Harmless, Legal, Apply;
    if ops != [] {
      var before, last := states[..|ops|], |ops| - 1;
      assert states == before + [states[|ops|]];
      EveryRunKeepsValidIff(c, before, ops[..last]);
      assert Legal(c, states[last], ops[last]);
      if StaysValid(c, before) {
        assert Valid(c, before[last]);
        ApplyKeepsValid(c, states[last], ops[last]);
      }
    }
  }

  // ----- Names -----

  lemma DeleteKeepsApart(c: Config, m: Module, h: nat)
    requires WellFormed(c.params, m.names) && Apart(m.names) && h in m.objs
    ensures WellFormed(c.params, Delete(m, h).names) && Apart(Delete(m, h).names)
  {
    hide Hash, WellFormed, Apart;
    var obj := m.objs[h];
    if obj.nsKey.Some? {
      var k := FindId(m.names.list, obj.nsKey.value);
      if k < |m.names.list| {
        UnlinkKeepsWellFormed(c.params, m.names, k);
        UnlinkKeepsApart(m.names, k);
      }
    }
  }

  lemma {:induction false} CleanupKeepsApart(c: Config, m: Module, pid: int, i: nat)
    requires WellFormed(c.params, m.names) && Apart(m.names)
    ensures WellFormed(c.params, CleanupFrom(m, pid, i).names) && Apart(CleanupFrom(m, pid, i).names)
    decreases m.numQueues - i
  {
    hide Hash, WellFormed, Apart, Delete;
    if i < m.numQueues {
      if OwnedBy(m, i, pid) {
        DeleteKeepsApart(c, m, m.queues[i]);
        assert Delete(m, m.queues[i]).numQueues == m.numQueues by { DeleteKeepsSize(m, m.queues[i]); }
        CleanupKeepsApart(c, Delete(m, m.queues[i]), pid, i + 1);
      } else {
        CleanupKeepsApart(c, m, pid, i + 1);
      }
    }
  }

  lemma DeleteKeepsSize(m: Module, h: nat)
    requires h in m.objs
    ensures Delete(m, h).numQueues == m.numQueues
  {
  }

  /** No operation, harmless or not, ever puts two different names with the same hash on the list. */
  lemma ApplyKeepsApart(c: Config, m: Module, op: Op)
    requires WellFormed(c.params, m.names) && Apart(m.names) && Legal(c, m, op)
    ensures WellFormed(c.params, Apply(c, m, op).names) && Apart(Apply(c, m, op).names)
  {
    hide Hash, WellFormed, Apart, Delete, CleanupFrom, AddTo, Word, Choose;
    match op
    case DoCreate(index, allocOk) =>
    case DoAnnounce(h, name, mallocOk) =>
      if name.Some? {
        AddKeepsWellFormed(c.params, m.names, name.value, Word(m.objs[h].queue), mallocOk);
        AddKeepsApart(c.params, m.names, name.value, Word(m.objs[h].queue), mallocOk);
      }
    case DoDelete(h) => DeleteKeepsApart(c, m, h);
    case DoSetOwner(h, pid) =>
    case DoCleanup(pid) => CleanupKeepsApart(c, m, pid, 0);
  }

  // MessageQ_setup: an empty table of numQueues slots and an empty name server.
  lemma SetupIsValid(c: Config, numQueues: nat)
    requires (c.handleSize == 4 || c.handleSize == 8) && c.numReserved < numQueues && numQueues + PORT_OFFSET <= UINT16
    requires c.procId < UINT16
    ensures var m := Module(seq(numQueues, _ => NULL), numQueues, map[], Table([], 0, 0), 1);
      Valid(c, m) && Apart(m.names)
  {
  }

  ghost predicate IsNamed(m: Module, h: nat, name: Name) {
    h in m.objs && InSlot(m, h) && exists e :: e in m.names.list && e.name == name && Owns(m, h, e)
  }

  /** A name that is found gives the id of a live queue that holds this name, the one that sits in the slot of that id,
      if and only if no different name with the same hash is listed. */
  lemma FoundNameGivesLiveQueueIff(c: Config, m: Module, name: Name)
    requires Valid(c, m) && Apart(m.names) && GetFrom(c.params, m.names, name, 4).Some?
    ensures !Clashes(c.params, m.names, name) <==>
      exists h :: IsNamed(m, h, name) && GetFrom(c.params, m.names, name, 4) == Some(Word(m.objs[h].queue))
  {
    hide Hash, IdOf, IndexOf;
    if Clashes(c.params, m.names, name) {
      ClashingNameIsNotListed(c.params, m.names, name);
    } else {
      FoundEntry(c, m, name);
    }
  }

  lemma FoundEntry(c: Config, m: Module, name: Name)
    requires Valid(c, m) && GetFrom(c.params, m.names, name, 4).Some? && !Clashes(c.params, m.names, name)
    ensures exists h :: IsNamed(m, h, name) && GetFrom(c.params, m.names, name, 4) == Some(Word(m.objs[h].queue))
  {
    hide Hash, IdOf, IndexOf, Valid, Word;
    var k := FindHash(m.names.list, Hash(name, c.params.signedChar));
    var e := m.names.list[k];
    assert e.name == name;
    hide Clashes;
    var h := OwnerInSlot(c, m, e);
    WordLength(m.objs[h].queue);
    assert Clip(e.value, 4) == e.value;
    assert IsNamed(m, h, name);
  }

  lemma OwnerInSlot(c: Config, m: Module, e: Entry) returns (h: nat)
    requires Valid(c, m) && e in m.names.list
    ensures Owns(m, h, e) && InSlot(m, h)
  {
    h := OwnerOf(m, e);
    assert InSlot(m, h);
    hide Named, WellFormed, Shaped, Word;
  }

  // ----- Announcing -----

  predicate Lists(names: Table, name: Name) {
    exists e :: e in names.list && e.name == name
  }

  /** A queue whose name announce entered is found under it if and only if the name did not go into the chain of a
      different one; a lookup then gives another queue. */
  lemma AnnouncedIsFoundIff(c: Config, m: Module, h: nat, name: Name, mallocOk: bool)
    requires Valid(c, m) && Apart(m.names) && h in m.objs && m.objs[h].nsKey.None?
    requires Announce(c, m, h, Some(name), mallocOk).0.objs[h].nsKey.Some?
    ensures var m' := Announce(c, m, h, Some(name), mallocOk).0;
      GetFrom(c.params, m'.names, name, 4) == Some(Word(m.objs[h].queue)) <==> !Collides(c, m, name)
  {
    hide Hash, Word, Valid;
    if Collides(c, m, name) {
      ChainedGivesAnother(c, m, h, name, mallocOk);
    } else {
      AnnouncedIsFound(c, m, h, name, mallocOk);
    }
  }

  lemma AnnouncedIsFound(c: Config, m: Module, h: nat, name: Name, mallocOk: bool)
    requires Valid(c, m) && h in m.objs && m.objs[h].nsKey.None? && !Collides(c, m, name)
    requires Announce(c, m, h, Some(name), mallocOk).0.objs[h].nsKey.Some?
    ensures var m' := Announce(c, m, h, Some(name), mallocOk).0;
      GetFrom(c.params, m'.names, name, 4) == Some(Word(m.objs[h].queue))
  {
    hide Hash, Word;
    var value := Word(m.objs[h].queue);
    assert |value| == 4 by { WordLength(m.objs[h].queue); }
    NameGoesFirst(c, m, name, value, mallocOk);
    var m' := Announce(c, m, h, Some(name), mallocOk).0;
    hide AddTo, Valid, Collides;
    assert m'.names.list[0].hash == Hash(name, c.params.signedChar);
    assert FindHash(m'.names.list, Hash(name, c.params.signedChar)) == 0;
    assert Clip(value, 4) == value;
  }

  lemma ChainedGivesAnother(c: Config, m: Module, h: nat, name: Name, mallocOk: bool)
    requires Valid(c, m) && h in m.objs && m.objs[h].nsKey.None? && Collides(c, m, name)
    requires Announce(c, m, h, Some(name), mallocOk).0.objs[h].nsKey.Some?
    ensures var m' := Announce(c, m, h, Some(name), mallocOk).0;
      GetFrom(c.params, m'.names, name, 4) != Some(Word(m.objs[h].queue))
  {
    hide Hash, Word, Valid;
    var hash := Hash(name, c.params.signedChar);
    var list := m.names.list;
    var list' := Announce(c, m, h, Some(name), mallocOk).0.names.list;
    assert list[FindStop(list, hash, name, c.params.checkExisting)].hash == hash;
    assert |list'| == |list|;
    assert forall i :: 0 <= i < |list| ==> list'[i].hash == list[i].hash && list'[i].value == list[i].value;
    hide AddTo, Announce, Collides, FindStop;
    var e := list[FindHash(list', hash)];
    var g := OwnerInSlot(c, m, e);
    AnotherWord(c, m, g, h);
    WordLength(m.objs[g].queue);
    assert Clip(e.value, 4) == e.value;
  }

  lemma AnotherWord(c: Config, m: Module, g: nat, h: nat)
    requires Valid(c, m) && g in m.objs && h in m.objs && g != h
    ensures Word(m.objs[g].queue) != Word(m.objs[h].queue)
  {
    hide Word;
    LiveIdFits(c, m, g);
    LiveIdFits(c, m, h);
    if Word(m.objs[g].queue) == Word(m.objs[h].queue) {
      WordInjective(m.objs[g].queue, m.objs[h].queue);
      LiveIdsDistinct(c, m, g, h);
    }
  }

  lemma WordLength(x: nat)
    ensures |Word(x)| == 4
  {
  }

  /** Announcing answers success whenever the queue has no name yet and one is given; the name is entered if and only
      if it is short enough, not listed yet, and there is memory for it. So a name that another queue holds is refused
      in silence. */
  lemma AnnounceHidesRefusal(c: Config, m: Module, h: nat, name: Name, mallocOk: bool)
    requires Valid(c, m) && Apart(m.names) && h in m.objs && m.objs[h].nsKey.None?
    requires c.params.checkExisting && 0 < c.params.maxNameLen < 0x1_0000_0000 && c.params.maxValueLen == 4
    ensures var (m', ok) := Announce(c, m, h, Some(name), mallocOk);
      ok && (m'.objs[h].nsKey.Some? <==> |name| <= c.params.maxNameLen - 1 && !Lists(m.names, name) && mallocOk)
  {
    hide Hash, Placed, Named;
    var list, hash := m.names.list, Hash(name, c.params.signedChar);
    var k := FindStop(list, hash, name, true);
    assert |Word(m.objs[h].queue)| == 4;
    hide Word;
    if Collides(c, m, name) {
      assert Clashes(c.params, m.names, name);
      ClashingNameIsNotListed(c.params, m.names, name);
    } else if k < |list| {
      assert list[k] in list && list[k].name == name;
    } else {
      UnlistedIfNothingStops(c.params, m.names, name);
    }
  }

  lemma UnlistedIfNothingStops(p: Params, t: Table, name: Name)
    requires WellFormed(p, t) && p.checkExisting
    requires FindStop(t.list, Hash(name, p.signedChar), name, true) == |t.list|
    ensures !Lists(t, name)
  {
    hide Hash;
    forall e | e in t.list ensures e.name != name {
      var i :| 0 <= i < |t.list| && t.list[i] == e;
      assert !Stops(t.list[i], Hash(name, p.signedChar), name, true);
    }
  }

  /** Deleting a queue that was just created leaves everything as it was before, except that an address is used up. */
  lemma DeleteUndoesCreate(c: Config, m: Module, index: Option<nat>)
    requires Valid(c, m) && Choose(c, m, index).Take?
    ensures var (m1, h) := Create(c, m, index, true); h in m1.objs && Delete(m1, h) == m.(next := m.next + 1)
  {
    var i := Choose(c, m, index).i;
    var (m1, h) := Create(c, m, index, true);
    IdFits(c, i);
    assert h !in m.objs;
    assert m.objs[h := m1.objs[h]] - {h} == m.objs;
    assert m.queues[i := h][i := NULL] == m.queues;
    hide Placed, Named, WellFormed, IdOf, IndexOf;
  }

  // ----- Growing -----

  /** Create grows the table when no dynamic slot is free. The old slots all survive if and only if the size of the
      old table in bytes fits 16 bits. */
  lemma GrowKeepsSlotsIff(c: Config, m: Module)
    requires Shaped(c, m) && Choose(c, m, None).Append?
    ensures var m' := Create(c, m, None, true).0;
      (forall j :: 0 <= j < |m.queues| ==> j < |m'.queues| && m'.queues[j] == m.queues[j]) <==>
      m.numQueues * c.handleSize < UINT16
  {
    var m' := Create(c, m, None, true).0;
    CopiedAtMostAll(|m.queues|, c.handleSize);
    var last := |m.queues| - 1;
    assert m.queues[last] != NULL;
    var copied := Copied(|m.queues|, c.handleSize);
    hide Copied;
    if copied < |m.queues| {
      assert m'.queues[last] == NULL;
    }
  }

  /** With 8-byte handles the 8193rd queue makes the table forget all the others. */
  lemma AllSlotsLostAt8192(c: Config, m: Module)
    requires Shaped(c, m) && c.handleSize == 8 && m.numQueues == 8192 && Choose(c, m, None).Append?
    ensures var m' := Create(c, m, None, true).0; forall j :: 0 <= j < 8192 ==> m'.queues[j] == NULL
  {
    assert Copied(8192, 8) == 0;
  }

  // ----- Reserved queues -----

  // The new queue sits in a slot that is not reserved.
  ghost predicate TakesDynamicSlot(c: Config, m: Module, index: nat)
    requires Shaped(c, m)
  {
    var (m', h) := Create(c, m, Some(index), true);
    h != NULL && exists j :: c.numReserved <= j < |m'.queues| && m'.queues[j] == h
  }

  /** The bound on reserved indices is inclusive: a request for a reserved queue takes a dynamic slot if and only if it
      is for the first one and that is empty; it is then the slot that a request for any queue gets. */
  lemma ReservedRequestTakesDynamicSlot(c: Config, m: Module, index: nat)
    requires Valid(c, m)
    ensures TakesDynamicSlot(c, m, index) <==> index == c.numReserved && m.queues[index] == NULL
    ensures TakesDynamicSlot(c, m, index) ==> Create(c, m, Some(index), true) == Create(c, m, None, true)
  {
    var (m', h) := Create(c, m, Some(index), true);
    assert Placed(c, m);
    forall j | 0 <= j < |m.queues| ensures m.queues[j] != m.next {
      assert m.queues[j] != NULL ==> m.queues[j] in m.objs;
    }
    hide Named, WellFormed, IdOf, IndexOf;
    if index == c.numReserved && m.queues[index] == NULL { assert m'.queues[index] == h; }
  }
}
