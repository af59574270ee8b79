/** The table of message queues the LAD daemon keeps, and the names it gives them in its NameServer. */
module QueueTable {
  import opened Options
  import opened StringHash
  import opened NameTable

  // Handles stand for addresses; NULL is 0. `next` is the address the next allocation returns.
  datatype Queue = Queue(queue: nat, nsKey: Option<nat>, ownerPid: int)

  // handleSize is sizeof(MessageQ_Handle).
  datatype Config = Config(procId: nat, numReserved: nat, handleSize: nat, params: Params)

  datatype Module = Module(queues: seq<nat>, numQueues: nat, objs: map<nat, Queue>, names: Table, next: nat)

  const NULL := 0
  const GROW_SIZE := 32
  const PORT_OFFSET := 0x80
  const UINT16 := 0x1_0000

  // ----- Queue ids -----

  function IdOf(c: Config, queueIndex: nat): nat {
    c.procId * UINT16 + (queueIndex + PORT_OFFSET) % UINT16
  }

  // MessageQ_getQueueIndex, for the id of a queue.
  function IndexOf(queueId: nat): int {
    queueId % UINT16 - PORT_OFFSET
  }

  /** Reading the index off an id undoes building the id if and only if the index and the offset fit 16 bits. */
  lemma IndexOfInvertsIdOf(c: Config, i: nat)
    requires i < UINT16
    ensures IndexOf(IdOf(c, i)) == i <==> i + PORT_OFFSET < UINT16
  {
    assert IdOf(c, i) % UINT16 == (i + PORT_OFFSET) % UINT16;
  }

  // A 32-bit word as the NameServer stores it.
  function Word(x: nat): seq<Byte> {
    [x % 0x100, x / 0x100 % 0x100, x / 0x1_0000 % 0x100, x / 0x100_0000 % 0x100]
  }

  lemma Digits(x: nat)
    requires x < 0x1_0000_0000
    ensures x ==
      x % 0x100 + 0x100 * (x / 0x100 % 0x100) +
      0x1_0000 * (x / 0x1_0000 % 0x100) + 0x100_0000 * (x / 0x100_0000 % 0x100)
  {
    assert x / 0x1_0000 == x / 0x100 / 0x100;
    assert x / 0x100_0000 == x / 0x1_0000 / 0x100;
  }

  lemma WordInjective(x: nat, y: nat)
    requires Word(x) == Word(y) && x < 0x1_0000_0000 && y < 0x1_0000_0000
    ensures x == y
  {
    var u, v := Word(x), Word(y);
    assert u[0] == v[0] && u[1] == v[1] && u[2] == v[2] && u[3] == v[3];
    Digits(x);
    Digits(y);
  }

  // ----- The operations -----

  function FindHole(queues: seq<nat>, i: nat): (k: nat)
    requires i <= |queues|
    ensures i <= k <= |queues|
    ensures k < |queues| ==> queues[k] == NULL
    ensures forall j :: i <= j < k ==> queues[j] != NULL
    decreases |queues| - i
  {
    if i == |queues| || queues[i] == NULL then i else FindHole(queues, i + 1)
  }

  // oldSize is 16 bits wide, so this many slots are copied.
  function Copied(numQueues: nat, handleSize: nat): nat
    requires handleSize > 0
  {
    numQueues * handleSize % UINT16 / handleSize
  }

  function Grow(c: Config, queues: seq<nat>, h: nat): seq<nat>
    requires c.handleSize > 0 && Copied(|queues|, c.handleSize) <= |queues|
  {
    queues[..Copied(|queues|, c.handleSize)] + seq(|queues| - Copied(|queues|, c.handleSize), _ => NULL) + [h] +
    seq(GROW_SIZE - 1, _ => NULL)
  }

  lemma CopiedAtMostAll(n: nat, size: nat)
    requires size == 4 || size == 8
    ensures Copied(n, size) <= n
    ensures Copied(n, size) == n <==> n * size < UINT16
  {
  }

  // What create needs of the configuration and the table.
  predicate Shaped(c: Config, m: Module) {
    && (c.handleSize == 4 || c.handleSize == 8)
    && c.numReserved < |m.queues| == m.numQueues
  }

  // The slot a request gets, and whether the table grows for it. MessageQ_ANY is None.
  datatype Choice = Refused | Take(i: nat) | Append

  function Choose(c: Config, m: Module, index: Option<nat>): (choice: Choice)
    requires Shaped(c, m)
    ensures choice.Take? ==> choice.i < |m.queues| && m.queues[choice.i] == NULL
    ensures choice.Refused? ==> index.Some?
  {
    match index
    case Some(i) => if i > c.numReserved || m.queues[i] != NULL then Refused else Take(i)
    case None =>
      var k := FindHole(m.queues, c.numReserved);
      if k < |m.queues| then Take(k) else Append
  }

  // A new object goes into the slot that was picked; it is freed again if none was.
  function Install(c: Config, m: Module, choice: Choice): (Module, nat)
    requires Shaped(c, m) && (choice.Take? ==> choice.i < |m.queues|)
  {
    var h := m.next;
    match choice
    case Refused => (m.(next := h + 1), NULL)
    case Take(i) =>
      (m.(queues := m.queues[i := h], objs := m.objs[h := Queue(IdOf(c, i), None, 0)], next := h + 1), h)
    case Append =>
      CopiedAtMostAll(|m.queues|, c.handleSize);
      (m.(queues := Grow(c, m.queues, h), numQueues := (m.numQueues + GROW_SIZE) % UINT16,
          objs := m.objs[h := Queue(IdOf(c, m.numQueues), None, 0)], next := h + 1), h)
  }

  function Create(c: Config, m: Module, index: Option<nat>, allocOk: bool): (Module, nat)
    requires Shaped(c, m)
  {
    if allocOk then Install(c, m, Choose(c, m, index)) else (m, NULL)
  }

  // Announcing answers success even when the NameServer refused the name.
  function Announce(c: Config, m: Module, h: nat, name: Option<Name>, mallocOk: bool): (Module, bool)
    requires h in m.objs
  {
    var obj := m.objs[h];
    if name.None? || obj.nsKey.Some? then (m, false) else
    var r := AddTo(c.params, m.names, name.value, Word(obj.queue), mallocOk);
    (m.(objs := m.objs[h := obj.(nsKey := r.1)], names := r.0), true)
  }

  // An index or a key that points nowhere leaves the table or the names alone here; live queues have neither.
  function Delete(m: Module, h: nat): Module
    requires h in m.objs
  {
    var obj := m.objs[h];
    var i := IndexOf(obj.queue);
    var k := if obj.nsKey.Some? then FindId(m.names.list, obj.nsKey.value) else |m.names.list|;
    m.(names := if k < |m.names.list| then Unlink(m.names, k) else m.names,
       queues := if 0 <= i < |m.queues| then m.queues[i := NULL] else m.queues,
       objs := m.objs - {h})
  }

  function SetOwner(m: Module, h: nat, pid: int): Module
    requires h in m.objs
  {
    m.(objs := m.objs[h := m.objs[h].(ownerPid := pid)])
  }

  predicate OwnedBy(m: Module, i: nat, pid: int) {
    i < |m.queues| && m.queues[i] != NULL && m.queues[i] in m.objs && m.objs[m.queues[i]].ownerPid == pid
  }

  function CleanupFrom(m: Module, pid: int, i: nat): Module
    decreases m.numQueues - i
  {
    if i >= m.numQueues then m
    else if OwnedBy(m, i, pid) then CleanupFrom(Delete(m, m.queues[i]), pid, i + 1)
    else CleanupFrom(m, pid, i + 1)
  }

  // ----- The invariant -----

  // Every slot that is in use holds a live queue with the id of that slot, and every live queue is in its slot.
  ghost predicate Placed(c: Config, m: Module) {
    && (forall i :: 0 <= i < |m.queues| && m.queues[i] != NULL ==>
        m.queues[i] in m.objs && m.objs[m.queues[i]].queue == IdOf(c, i))
    && (forall h :: h in m.objs ==> InSlot(m, h))
    && (forall h :: h in m.objs ==> NULL < h < m.next)
  }

  predicate InSlot(m: Module, h: nat)
    requires h in m.objs
  {
    0 <= IndexOf(m.objs[h].queue) < |m.queues| && m.queues[IndexOf(m.objs[h].queue)] == h
  }

  // Every name is that of a live queue and gives its id, and every key a queue holds is that of such a name.
  ghost predicate Named(m: Module) {
    NamesOwned(m) && KeysNamed(m)
  }

  ghost predicate NamesOwned(m: Module) {
    forall e :: e in m.names.list ==> HasOwner(m, e)
  }

  ghost predicate KeysNamed(m: Module) {
    forall h :: h in m.objs && m.objs[h].nsKey.Some? ==> HasName(m, h)
  }

  predicate Owns(m: Module, h: nat, e: Entry) {
    h in m.objs && m.objs[h].nsKey == Some(e.id) && e.value == Word(m.objs[h].queue)
  }

  ghost predicate HasOwner(m: Module, e: Entry) {
    exists h :: Owns(m, h, e)
  }

  ghost predicate HasName(m: Module, h: nat) {
    exists e :: e in m.names.list && Owns(m, h, e)
  }

  // Indices stay small enough for the id of a slot.
  ghost predicate Valid(c: Config, m: Module) {
    && Shaped(c, m) && c.procId < UINT16 && m.numQueues + PORT_OFFSET <= UINT16 && 0 < m.next
    && Placed(c, m) && Named(m) && WellFormed(c.params, m.names)
  }

  lemma IdFits(c: Config, i: nat)
    requires c.procId < UINT16 && i + PORT_OFFSET < UINT16
    ensures IdOf(c, i) < 0x1_0000_0000 && IndexOf(IdOf(c, i)) == i
  {
  }

  /** The ids of live queues are pairwise distinct. */
  lemma LiveIdsDistinct(c: Config, m: Module, g: nat, h: nat)
    requires Valid(c, m) && g in m.objs && h in m.objs && m.objs[g].queue == m.objs[h].queue
    ensures g == h
  {
    assert InSlot(m, g) && InSlot(m, h);
    hide Named, Shaped;
  }

  lemma LiveIdFits(c: Config, m: Module, h: nat)
    requires Valid(c, m) && h in m.objs
    ensures m.objs[h].queue < 0x1_0000_0000
  {
    assert InSlot(m, h);
    IdFits(c, IndexOf(m.objs[h].queue));
    hide Named;
  }

  lemma OwnerOf(m: Module, e: Entry) returns (h: nat)
    requires Named(m) && e in m.names.list
    ensures Owns(m, h, e)
  {
    hide KeysNamed, Owns;
    assert HasOwner(m, e);
    h :| Owns(m, h, e);
  }

  lemma NameOf(m: Module, h: nat) returns (e: Entry)
    requires Named(m) && h in m.objs && m.objs[h].nsKey.Some?
    ensures e in m.names.list && Owns(m, h, e)
  {
    hide NamesOwned, HasOwner, Owns;
    assert HasName(m, h);
    e :| e in m.names.list && Owns(m, h, e);
  }

  /** Two live queues never hold the same name. */
  lemma KeysDistinct(c: Config, m: Module, g: nat, h: nat)
    requires Valid(c, m) && g in m.objs && h in m.objs && m.objs[g].nsKey.Some? && m.objs[g].nsKey == m.objs[h].nsKey
    ensures g == h
  {
    hide Named, WellFormed, Word, Placed, Shaped;
    var d := NameOf(m, g);
    var e := NameOf(m, h);
    SameIdSameEntry(c.params, m.names, d, e);
    LiveIdFits(c, m, g);
    LiveIdFits(c, m, h);
    WordInjective(m.objs[g].queue, m.objs[h].queue);
    LiveIdsDistinct(c, m, g, h);
  }

  lemma SameIdSameEntry(p: Params, t: Table, d: Entry, e: Entry)
    requires WellFormed(p, t) && d in t.list && e in t.list && d.id == e.id
    ensures d == e
  {
    hide Hash;
    var i :| 0 <= i < |t.list| && t.list[i] == d;
    var j :| 0 <= j < |t.list| && t.list[j] == e;
    assert i == j;
  }

  // ----- Create -----

  // When the table has to grow, the 16-bit size of the old one must not have wrapped.
  predicate GrowsSafely(c: Config, m: Module, index: Option<nat>)
    requires Shaped(c, m)
  {
    Choose(c, m, index).Append? ==> m.numQueues * c.handleSize < UINT16
  }

  lemma SafeGrowKeepsSlots(c: Config, queues: seq<nat>, h: nat)
    requires (c.handleSize == 4 || c.handleSize == 8) && |queues| * c.handleSize < UINT16
    ensures Copied(|queues|, c.handleSize) == |queues|
    ensures Grow(c, queues, h) == queues + [h] + seq(GROW_SIZE - 1, _ => NULL)
  {
    CopiedAtMostAll(|queues|, c.handleSize);
  }

  // A fresh queue in slot i.
  predicate Added(c: Config, m: Module, m': Module, i: nat) {
    && i < |m'.queues| && |m.queues| <= |m'.queues| && m'.queues[i] == m.next
    && (i < |m.queues| ==> m.queues[i] == NULL)
    && (forall j :: 0 <= j < |m'.queues| && j != i ==> m'.queues[j] == if j < |m.queues| then m.queues[j] else NULL)
    && m'.objs == m.objs[m.next := Queue(IdOf(c, i), None, 0)]
    && m'.names == m.names && m'.next == m.next + 1
  }

  lemma AddedKeepsPlaced(c: Config, m: Module, m': Module, i: nat)
    requires Placed(c, m) && 0 < m.next && Added(c, m, m', i)
    requires c.procId < UINT16 && |m'.queues| + PORT_OFFSET <= UINT16
    ensures Placed(c, m')
  {
    IdFits(c, i);
    hide IdOf, IndexOf;
    forall h | h in m'.objs ensures InSlot(m', h) {
      if h != m.next { assert InSlot(m, h); }
    }
  }

  // The names stay, the queues keep their ids and keys, and new queues have no key.
  ghost predicate SameNames(m: Module, m': Module) {
    && m'.names == m.names
    && (forall h :: h in m.objs ==>
        h in m'.objs && m'.objs[h].queue == m.objs[h].queue && m'.objs[h].nsKey == m.objs[h].nsKey)
    && (forall h :: h in m'.objs && h !in m.objs ==> m'.objs[h].nsKey == None)
  }

  // Owners outlive a change that keeps their ids and keys.
  lemma OwnerStays(m: Module, m': Module, e: Entry)
    requires HasOwner(m, e)
    requires forall h :: Owns(m, h, e) ==> Owns(m', h, e)
    ensures HasOwner(m', e)
  {
    hide Owns;
    var h :| Owns(m, h, e);
    assert Owns(m', h, e);
  }

  lemma NameStays(m: Module, m': Module, h: nat)
    requires HasName(m, h)
    requires forall e :: e in m.names.list && Owns(m, h, e) ==> e in m'.names.list && Owns(m', h, e)
    ensures HasName(m', h)
  {
    hide Owns;
    var e :| e in m.names.list && Owns(m, h, e);
    assert Owns(m', h, e);
  }

  lemma SameNamesKeepsNamed(m: Module, m': Module)
    requires Named(m) && SameNames(m, m')
    ensures Named(m')
  {
    hide Word, HasOwner, HasName;
    forall e | e in m'.names.list ensures HasOwner(m', e) {
      OwnerStays(m, m', e);
    }
    forall h | h in m'.objs && m'.objs[h].nsKey.Some? ensures HasName(m', h) {
      NameStays(m, m', h);
    }
  }

  lemma CreateAdds(c: Config, m: Module, index: Option<nat>)
    requires Shaped(c, m) && GrowsSafely(c, m, index)
    requires m.numQueues + PORT_OFFSET <= UINT16 && !Choose(c, m, index).Refused?
    ensures var i := if Choose(c, m, index).Take? then Choose(c, m, index).i else m.numQueues;
      var m' := Create(c, m, index, true).0;
      Added(c, m, m', i) && Shaped(c, m') && m'.numQueues + PORT_OFFSET <= UINT16 && m.numQueues <= m'.numQueues
  {
    if Choose(c, m, index).Append? {
      SafeGrowKeepsSlots(c, m.queues, m.next);
      assert m.numQueues * 4 < UINT16;
    }
    hide Grow, IdOf, Copied;
  }

  lemma AddedKeepsValid(c: Config, m: Module, m': Module, i: nat)
    requires Valid(c, m) && Added(c, m, m', i) && Shaped(c, m') && m'.numQueues + PORT_OFFSET <= UINT16
    ensures Valid(c, m')
  {
    AddedKeepsPlaced(c, m, m', i);
    assert m.next !in m.objs;
    hide Named, Placed, WellFormed, Shaped;
    SameNamesKeepsNamed(m, m');
  }

  lemma RefusedKeepsValid(c: Config, m: Module, next: nat)
    requires Valid(c, m) && next >= m.next
    ensures Valid(c, m.(next := next))
  {
    hide Named, WellFormed, IdOf, IndexOf;
    var m' := m.(next := next);
    SameNamesKeepsNamed(m, m');
    forall h | h in m'.objs ensures InSlot(m', h) { assert InSlot(m, h); }
  }

  lemma SafeCreateKeepsValid(c: Config, m: Module, index: Option<nat>, allocOk: bool)
    requires Valid(c, m) && GrowsSafely(c, m, index)
    ensures Valid(c, Create(c, m, index, allocOk).0)
  {
    var m' := Create(c, m, index, allocOk).0;
    if allocOk && !Choose(c, m, index).Refused? {
      hide Named, Placed, WellFormed;
      CreateAdds(c, m, index);
      hide Valid, Choose, Create, Added;
      AddedKeepsValid(c, m, m', if Choose(c, m, index).Take? then Choose(c, m, index).i else m.numQueues);
    } else {
      hide Valid, Choose;
      assert m' == m.(next := m'.next) && m'.next >= m.next;
      RefusedKeepsValid(c, m, m'.next);
    }
  }

  // When the size wraps, the queue in the last slot is lost: it is live, but not in its slot any more.
  lemma UnsafeGrowLosesQueue(c: Config, m: Module)
    requires Valid(c, m) && Choose(c, m, None).Append? && m.numQueues * c.handleSize >= UINT16
    ensures !Valid(c, Create(c, m, None, true).0)
  {
    var m' := Create(c, m, None, true).0;
    var last := |m.queues| - 1;
    var h := m.queues[last];
    CopiedAtMostAll(|m.queues|, c.handleSize);
    assert h != NULL && h in m.objs && m.objs[h].queue == IdOf(c, last);
    IdFits(c, last);
    var copied := Copied(|m.queues|, c.handleSize);
    hide Named, WellFormed, IdOf, IndexOf, Copied, Choose, FindHole;
    assert m'.queues[last] == NULL && h in m'.objs && m'.objs[h] == m.objs[h];
    assert !InSlot(m', h);
  }

  /** Creating keeps the table and the names consistent if and only if memory is short, or the table need not grow, or
      its size in bytes fits 16 bits. */
  lemma CreateKeepsValid(c: Config, m: Module, index: Option<nat>, allocOk: bool)
    requires Valid(c, m)
    ensures Valid(c, Create(c, m, index, allocOk).0) <==> !allocOk || GrowsSafely(c, m, index)
  {
    assert Shaped(c, m);
    hide Valid, Create, Choose;
    if GrowsSafely(c, m, index) {
      SafeCreateKeepsValid(c, m, index, allocOk);
    } else if !allocOk {
      NoMemoryChangesNothing(c, m, index);
    } else {
      AppendIsForAny(c, m, index);
      UnsafeGrowLosesQueue(c, m);
    }
  }

  lemma InstallIsCreate(c: Config, m: Module, index: Option<nat>)
    requires Shaped(c, m)
    ensures Create(c, m, index, true) == Install(c, m, Choose(c, m, index))
  {
  }

  lemma NoMemoryChangesNothing(c: Config, m: Module, index: Option<nat>)
    requires Shaped(c, m)
    ensures Create(c, m, index, false) == (m, NULL)
  {
  }

  lemma AppendIsForAny(c: Config, m: Module, index: Option<nat>)
    requires Shaped(c, m) && Choose(c, m, index).Append?
    ensures index == None
  {
  }

  /** The new queue exists unless memory was short, the index was taken, or the index was too large; its slot was
      empty, and its id is one that no other queue has. The others stay what they are. */
  lemma CreateIsFresh(c: Config, m: Module, index: Option<nat>, allocOk: bool)
    requires Valid(c, m)
    ensures var (m', h) := Create(c, m, index, allocOk);
      && (h != NULL <==> allocOk && (index.Some? ==> index.value <= c.numReserved && m.queues[index.value] == NULL))
      && (h != NULL ==> h !in m.objs && h in m'.objs && m'.objs == m.objs[h := m'.objs[h]])
      && (h != NULL ==> forall g :: g in m.objs ==> m.objs[g].queue != m'.objs[h].queue)
  {
    var (m', h) := Create(c, m, index, allocOk);
    CreateAnswers(c, m, index, allocOk);
    hide Create, Choose, Valid;
    if h != NULL {
      assert m.next !in m.objs by { assert Valid(c, m); AllOlder(c, m); }
      var i := CreatedSlot(c, m, index);
      forall g | g in m.objs ensures m.objs[g].queue != m'.objs[h].queue { OtherSlotOtherId(c, m, g, i); }
    }
  }

  lemma AllOlder(c: Config, m: Module)
    requires Valid(c, m)
    ensures m.next !in m.objs && m.next != NULL
  {
  }

  // The slot that a new queue gets: one that was empty, or the first one past the end.
  lemma CreatedSlot(c: Config, m: Module, index: Option<nat>) returns (i: nat)
    requires Valid(c, m) && Create(c, m, index, true).1 != NULL
    ensures i <= |m.queues| && (i < |m.queues| ==> m.queues[i] == NULL)
    ensures m.next in Create(c, m, index, true).0.objs
    ensures Create(c, m, index, true).0.objs[m.next].queue == IdOf(c, i)
  {
    hide Named, Placed, WellFormed, Grow, IdOf, Copied;
    i := if Choose(c, m, index).Take? then Choose(c, m, index).i else m.numQueues;
  }

  lemma OtherSlotOtherId(c: Config, m: Module, g: nat, i: nat)
    requires Valid(c, m) && g in m.objs && i <= |m.queues| && (i < |m.queues| ==> m.queues[i] == NULL)
    ensures m.objs[g].queue != IdOf(c, i)
  {
    hide Named, WellFormed;
    assert InSlot(m, g) && NULL < g;
    var j := IndexOf(m.objs[g].queue);
    assert m.objs[g].queue == IdOf(c, j) && j != i;
    hide Valid, Placed, InSlot, Shaped;
    IdsDiffer(c, i, j);
  }

  lemma IdsDiffer(c: Config, i: nat, j: nat)
    requires i != j && i + PORT_OFFSET <= UINT16 && j + PORT_OFFSET < UINT16
    ensures IdOf(c, i) != IdOf(c, j)
  {
    assert IdOf(c, j) % UINT16 == j + PORT_OFFSET;
    assert IdOf(c, i) % UINT16 == (i + PORT_OFFSET) % UINT16;
  }

  lemma CreateAnswers(c: Config, m: Module, index: Option<nat>, allocOk: bool)
    requires Shaped(c, m) && m.next != NULL
    ensures var (m', h) := Create(c, m, index, allocOk);
      && (h != NULL <==> allocOk && (index.Some? ==> index.value <= c.numReserved && m.queues[index.value] == NULL))
      && (h != NULL ==> h == m.next && h in m'.objs && m'.objs == m.objs[h := m'.objs[h]])
  {
    hide Grow, IdOf, Copied;
  }

  // ----- Announce -----

  // A new entry at the head of the list, owned by h.
  lemma NewNameKeepsNamed(c: Config, m: Module, h: nat, e: Entry, names: Table)
    requires Valid(c, m) && h in m.objs && m.objs[h].nsKey.None?
    requires names.list == [e] + m.names.list && e.id == m.names.nextId && e.value == Word(m.objs[h].queue)
    ensures Named(m.(objs := m.objs[h := m.objs[h].(nsKey := Some(e.id))], names := names))
  {
    hide Word, Placed, Hash, WellFormed, Shaped;
    var m' := m.(objs := m.objs[h := m.objs[h].(nsKey := Some(e.id))], names := names);
    assert Owns(m', h, e) && e in m'.names.list;
    assert HasName(m', h) && HasOwner(m', e);
    hide HasOwner, HasName;
    forall d | d in m'.names.list ensures HasOwner(m', d) {
      if d != e {
        assert d in m.names.list;
        OwnerStays(m, m', d);
      }
    }
    forall g | g in m'.objs && m'.objs[g].nsKey.Some? ensures HasName(m', g) {
      if g != h { NameStays(m, m', g); }
    }
  }

  // The traversal of add stops at a different name with the same hash; the new entry will hang off that one.
  predicate Collides(c: Config, m: Module, name: Name) {
    var k := FindStop(m.names.list, Hash(name, c.params.signedChar), name, c.params.checkExisting);
    k < |m.names.list| && m.names.list[k].name != name
  }

  // Either no name is entered, or it goes on the list.
  predicate EntersNoChain(c: Config, m: Module, h: nat, name: Option<Name>, mallocOk: bool)
    requires h in m.objs
  {
    || name.None?
    || m.objs[h].nsKey.Some?
    || !Collides(c, m, name.value)
    || !Accepts(c.params, name.value, Word(m.objs[h].queue))
    || !mallocOk
  }

  lemma NameGoesFirst(c: Config, m: Module, name: Name, buf: seq<Byte>, mallocOk: bool)
    requires !Collides(c, m, name) && WellFormed(c.params, m.names)
    ensures var (names, key) := AddTo(c.params, m.names, name, buf, mallocOk);
      if key.None? then names == m.names
      else
        key == Some(m.names.nextId) && names.list ==
          [Entry(m.names.nextId, Hash(name, c.params.signedChar), name, buf, false, [])] + m.names.list
  {
    hide Hash;
  }

  lemma ApartAnnounceKeepsValid(c: Config, m: Module, h: nat, name: Option<Name>, mallocOk: bool)
    requires Valid(c, m) && h in m.objs && (name.Some? ==> !Collides(c, m, name.value))
    ensures Valid(c, Announce(c, m, h, name, mallocOk).0)
  {
    hide Hash, Word, Collides;
    var m' := Announce(c, m, h, name, mallocOk).0;
    if name.Some? && m.objs[h].nsKey.None? {
      var buf := Word(m.objs[h].queue);
      NameGoesFirst(c, m, name.value, buf, mallocOk);
      AddKeepsWellFormed(c.params, m.names, name.value, buf, mallocOk);
      var (names, key) := AddTo(c.params, m.names, name.value, buf, mallocOk);
      UpdateKeepsPlaced(c, m, m', h);
      hide AddTo, Placed, WellFormed;
      if key.Some? {
        NewNameKeepsNamed(c, m, h, names.list[0], names);
      } else {
        SameNamesKeepsNamed(m, m');
      }
      hide Named;
    }
  }

  // A chained entry is not on the list, so the key the queue is given leads nowhere.
  lemma ChainedNameIsLost(c: Config, m: Module, h: nat, name: Name, mallocOk: bool)
    requires Valid(c, m) && h in m.objs && m.objs[h].nsKey.None? && Collides(c, m, name)
    requires AddTo(c.params, m.names, name, Word(m.objs[h].queue), mallocOk).1.Some?
    ensures !Valid(c, Announce(c, m, h, Some(name), mallocOk).0)
  {
    hide Hash, Word, Placed;
    var m' := Announce(c, m, h, Some(name), mallocOk).0;
    var list, list' := m.names.list, m'.names.list;
    assert m'.objs[h].nsKey == Some(m.names.nextId);
    forall e | e in list' ensures e.id != m.names.nextId {
      var i :| 0 <= i < |list'| && list'[i] == e;
      assert list'[i].id == list[i].id && list[i] in list;
    }
    hide NamesOwned, WellFormed, AddTo, Announce;
    assert !HasName(m', h);
  }

  /** Announcing a queue keeps the table and the names consistent if and only if no name is entered, or the name goes
      on the list and not into the chain of a different name with the same hash. */
  lemma AnnounceKeepsValid(c: Config, m: Module, h: nat, name: Option<Name>, mallocOk: bool)
    requires Valid(c, m) && h in m.objs
    ensures Valid(c, Announce(c, m, h, name, mallocOk).0) <==> EntersNoChain(c, m, h, name, mallocOk)
  {
    hide Hash, Word;
    if name.Some? && m.objs[h].nsKey.None? && Collides(c, m, name.value) {
      var buf := Word(m.objs[h].queue);
      assert AddTo(c.params, m.names, name.value, buf, mallocOk).1.Some? <==>
        Accepts(c.params, name.value, buf) && mallocOk;
      hide Collides, Accepts;
      if AddTo(c.params, m.names, name.value, buf, mallocOk).1.Some? {
        ChainedNameIsLost(c, m, h, name.value, mallocOk);
      } else {
        RefusedAddChangesNothing(c.params, m.names, name.value, buf, mallocOk);
        hide AddTo, Valid;
        assert Announce(c, m, h, name, mallocOk).0 == m;
      }
    } else if name.Some? && m.objs[h].nsKey.None? {
      hide AddTo, Announce, Valid, Collides;
      ApartAnnounceKeepsValid(c, m, h, name, mallocOk);
    }
  }

  lemma RefusedAddChangesNothing(p: Params, t: Table, name: Name, buf: seq<Byte>, mallocOk: bool)
    requires AddTo(p, t, name, buf, mallocOk).1.None?
    ensures AddTo(p, t, name, buf, mallocOk).0 == t
  {
    hide Hash;
  }

  lemma UpdateKeepsPlaced(c: Config, m: Module, m': Module, h: nat)
    requires Placed(c, m) && m'.queues == m.queues && m'.next == m.next && h in m.objs && m'.objs.Keys == m.objs.Keys
    requires forall g :: g in m.objs ==> m'.objs[g].queue == m.objs[g].queue
    ensures Placed(c, m')
  {
    hide IdOf, IndexOf;
    forall g | g in m'.objs ensures InSlot(m', g) { assert InSlot(m, g); }
  }

  // ----- Delete -----

  lemma DeleteKeepsPlaced(c: Config, m: Module, h: nat)
    requires Valid(c, m) && h in m.objs
    ensures Placed(c, Delete(m, h))
  {
    hide Named, Word, Hash;
    var m' := Delete(m, h);
    assert InSlot(m, h);
    forall i | 0 <= i < |m'.queues| && m'.queues[i] != NULL
      ensures m'.queues[i] in m'.objs && m'.objs[m'.queues[i]].queue == IdOf(c, i)
    {
      var g := m.queues[i];
      assert m'.queues[i] == g && g in m.objs && m.objs[g].queue == IdOf(c, i);
      IdFits(c, i);
    }
    hide IdOf, IndexOf;
    forall g | g in m'.objs ensures InSlot(m', g) {
      assert InSlot(m, g);
    }
  }

  lemma UnlinkTakesOne(p: Params, t: Table, k: nat, e: Entry)
    requires WellFormed(p, t) && k < |t.list|
    ensures e in Unlink(t, k).list <==> e in t.list && e.id != t.list[k].id
  {
    hide Hash;
    var list, list' := t.list, t.list[..k] + t.list[k+1..];
    if e in list {
      var j :| 0 <= j < |list| && list[j] == e;
      if j < k { assert list'[j] == e; }
      if j > k { assert list'[j - 1] == e; }
    }
    if e in list' {
      var j :| 0 <= j < |list'| && list'[j] == e;
      assert e == list[if j < k then j else j + 1];
    }
  }

  /** Deleting a queue takes the name it holds, and no other, off the list. */
  lemma DeleteTakesItsName(c: Config, m: Module, h: nat, e: Entry)
    requires Valid(c, m) && h in m.objs
    ensures e in Delete(m, h).names.list <==> e in m.names.list && m.objs[h].nsKey != Some(e.id)
  {
    hide Placed, Named, Word, WellFormed, Shaped;
    var key := m.objs[h].nsKey;
    if key.Some? {
      var k := FindId(m.names.list, key.value);
      if k < |m.names.list| { UnlinkTakesOne(c.params, m.names, k, e); }
    }
  }

  lemma DeleteKeepsOwner(c: Config, m: Module, h: nat, e: Entry)
    requires Valid(c, m) && h in m.objs && e in Delete(m, h).names.list
    ensures HasOwner(Delete(m, h), e)
  {
    hide Delete, Shaped, Placed, Named, WellFormed, Word;
    DeleteTakesItsName(c, m, h, e);
    var g := OwnerOf(m, e);
    hide Valid;
    DeleteTakesItself(m, h);
    assert Owns(Delete(m, h), g, e);
  }

  lemma DeleteTakesItself(m: Module, h: nat)
    requires h in m.objs
    ensures Delete(m, h).objs == m.objs - {h}
  {
  }

  lemma DeleteKeepsName(c: Config, m: Module, h: nat, g: nat)
    requires Valid(c, m) && h in m.objs && g in m.objs && g != h && m.objs[g].nsKey.Some?
    ensures HasName(Delete(m, h), g)
  {
    hide Delete, Shaped, Placed, Named, WellFormed, Word;
    var e := NameOf(m, g);
    hide Valid;
    if m.objs[h].nsKey == Some(e.id) { KeysDistinct(c, m, g, h); }
    DeleteTakesItsName(c, m, h, e);
    DeleteTakesItself(m, h);
    assert Owns(Delete(m, h), g, e);
  }

  lemma DeleteKeepsNamed(c: Config, m: Module, h: nat)
    requires Valid(c, m) && h in m.objs
    ensures Named(Delete(m, h))
  {
    var m' := Delete(m, h);
    assert m'.objs == m.objs - {h};
    hide Delete, Valid, HasOwner, HasName;
    forall e | e in m'.names.list ensures HasOwner(m', e) { DeleteKeepsOwner(c, m, h, e); }
    forall g | g in m'.objs && m'.objs[g].nsKey.Some? ensures HasName(m', g) { DeleteKeepsName(c, m, h, g); }
  }

  /** Deleting a queue keeps the table and the names consistent. */
  lemma DeleteKeepsValid(c: Config, m: Module, h: nat)
    requires Valid(c, m) && h in m.objs
    ensures Valid(c, Delete(m, h))
  {
    hide Placed, Named, WellFormed, IndexOf, IdOf;
    DeleteKeepsPlaced(c, m, h);
    DeleteKeepsNamed(c, m, h);
    var key := m.objs[h].nsKey;
    if key.Some? && FindId(m.names.list, key.value) < |m.names.list| {
      UnlinkKeepsWellFormed(c.params, m.names, FindId(m.names.list, key.value));
    }
  }

  /** Deleting a queue frees the slot and the id it had, and leaves every other queue in its slot. */
  lemma DeleteFreesItsSlot(c: Config, m: Module, h: nat)
    requires Valid(c, m) && h in m.objs
    ensures var i := IndexOf(m.objs[h].queue);
      0 <= i < |m.queues| && m.queues[i] == h &&
      Delete(m, h).queues == m.queues[i := NULL] && Delete(m, h).objs == m.objs - {h}
  {
    assert InSlot(m, h);
    hide Named, Word, WellFormed;
  }

  /** Setting the owner keeps the table and the names consistent, and every id, key and name what it was. */
  lemma SetOwnerKeepsValid(c: Config, m: Module, h: nat, pid: int)
    requires Valid(c, m) && h in m.objs
    ensures Valid(c, SetOwner(m, h, pid))
    ensures SameNames(m, SetOwner(m, h, pid)) && SetOwner(m, h, pid).queues == m.queues
    ensures SetOwner(m, h, pid).objs.Keys == m.objs.Keys && SetOwner(m, h, pid).objs[h].ownerPid == pid
    ensures forall g :: g in m.objs && g != h ==> SetOwner(m, h, pid).objs[g] == m.objs[g]
  {
    UpdateKeepsPlaced(c, m, SetOwner(m, h, pid), h);
    SameNamesKeepsNamed(m, SetOwner(m, h, pid));
    hide Placed, Named, WellFormed;
  }
}
