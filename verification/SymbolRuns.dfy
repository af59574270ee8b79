/** What function indices promise over whole runs of addSymbol and removeSymbol: a live index resolves to its own
    symbol, a stale one is rejected until the key has gone all the way round, and the table is full only when it is
    full. */
module SymbolRuns {
  import opened Options
  import opened SymbolTable

  datatype Op = Add(name: string, addr: nat, tabOk: bool, nameOk: bool) | Remove(name: string)

  predicate NonNull(op: Op) {
    op.Add? ==> op.addr != 0
  }

  ghost function Apply(s: Symbols, op: Op): Symbols
    requires Shaped(s)
    ensures Shaped(Apply(s, op))
  {
    if op.Add? then
      AddKeepsShaped(s, op.name, op.addr, op.tabOk, op.nameOk);
      AddTo(s, op.name, op.addr, op.tabOk, op.nameOk).0
    else
      RemoveKeepsShaped(s, op.name);
      RemoveFrom(s, op.name).0
  }

  // A null address does not get into the table.
  predicate Harmless(s: Symbols, op: Op)
    requires |s.tabs| == MAX_TABLES
  {
    op.Add? ==> op.addr != 0 || NoRoom(s, op.tabOk, op.nameOk)
  }

  lemma ApplyKeepsValid(s: Symbols, op: Op)
    requires Valid(s)
    ensures Valid(Apply(s, op)) <==> Harmless(s, op)
  {
    hide AddTo, RemoveFrom, Prefix, Keyed, NoRoom;
    if op.Add? {
      AddKeepsValid(s, op.name, op.addr, op.tabOk, op.nameOk);
    } else {
      RemoveKeepsValid(s, op.name);
    }
  }

  ghost predicate Adds(s: Symbols, op: Op)
    requires Shaped(s)
  {
    op.Add? && AddTo(s, op.name, op.addr, op.tabOk, op.nameOk).1.Ok?
  }

  // This operation removes the symbol in slot j of table i.
  ghost predicate Hits(s: Symbols, op: Op, i: nat, j: nat)
    requires Shaped(s)
  {
    op.Remove? && FindName(s.tabs, op.name, 0) == (i, j)
  }

  ghost function Run(s: Symbols, ops: seq<Op>): Symbols
    requires Shaped(s)
    ensures Shaped(Run(s, ops))
    decreases |ops|
  {
    if ops == [] then s else Run(Apply(s, ops[0]), ops[1..])
  }

  ghost function Additions(s: Symbols, ops: seq<Op>): nat
    requires Shaped(s)
    decreases |ops|
  {
    if ops == [] then 0 else (if Adds(s, ops[0]) then 1 else 0) + Additions(Apply(s, ops[0]), ops[1..])
  }

  ghost predicate Removed(s: Symbols, ops: seq<Op>, i: nat, j: nat)
    requires Shaped(s)
    decreases |ops|
  {
    ops != [] && (Hits(s, ops[0], i, j) || Removed(Apply(s, ops[0]), ops[1..], i, j))
  }

  ghost predicate AllHarmless(s: Symbols, ops: seq<Op>)
    requires Shaped(s)
    decreases |ops|
  {
    ops == [] || (Harmless(s, ops[0]) && AllHarmless(Apply(s, ops[0]), ops[1..]))
  }

  ghost predicate StaysValid(s: Symbols, ops: seq<Op>)
    requires Shaped(s)
    decreases |ops|
  {
    Valid(s) && (ops != [] ==> StaysValid(Apply(s, ops[0]), ops[1..]))
  }

  /** Through every run of additions and removals the tables stay valid if and only if no null address is added where
      there is room for it. */
  lemma {:induction false} RunKeepsValidIff(s: Symbols, ops: seq<Op>)
    requires Valid(s)
    ensures StaysValid(s, ops) <==> AllHarmless(s, ops)
    decreases |ops|
  {
    hide Apply, Prefix, Keyed, Harmless;
    if ops != [] {
      ApplyKeepsValid(s, ops[0]);
      var s' := Apply(s, ops[0]);
      if Valid(s') {
        RunKeepsValidIff(s', ops[1..]);
      } else {
        assert !StaysValid(s', ops[1..]);
      }
    }
  }

  // ----- One slot at a time -----

  // Slots of tables that are not allocated yet read as empty.
  function SlotAt(s: Symbols, i: nat, j: nat): Slot
    requires i < |s.tabs|
  {
    if j < |s.tabs[i]| then s.tabs[i][j] else EMPTY
  }

  ghost predicate Unchanged(s: Symbols, s': Symbols, i: nat, j: nat)
    requires |s.tabs| == |s'.tabs| == MAX_TABLES
  {
    forall a: nat, b: nat :: 1 <= a < MAX_TABLES && (a, b) != (i, j) ==> SlotAt(s', a, b) == SlotAt(s, a, b)
  }

  // The place an addition goes to.
  function Target(s: Symbols): (nat, nat)
    requires |s.tabs| == MAX_TABLES
  {
    match FindFree(s.tabs, 1)
    case Found(i, j) => (i, j)
    case Allocate(i) => (i, 0)
    case Full => (0, 0)
  }

  lemma InsertFillsOneSlot(s: Symbols, i: nat, j: nat, name: string, addr: nat, nameOk: bool)
    requires Shaped(s) && 1 <= i < MAX_TABLES && j < |s.tabs[i]|
    ensures var (s', r) := Insert(s, i, j, name, addr, nameOk);
      && Unchanged(s, s', i, j)
      && SlotAt(s', i, j) == (if nameOk then Slot(addr, Some(name), s'.key) else Slot(addr, None, SlotAt(s, i, j).key))
  {
  }

  /** An addition writes exactly one slot, an empty one, and a successful one writes the symbol under the next key and
      issues the index of that slot and key. */
  lemma AddFillsOneEmptySlot(s: Symbols, name: string, addr: nat, tabOk: bool, nameOk: bool)
    requires Shaped(s)
    ensures var (s', r) := AddTo(s, name, addr, tabOk, nameOk); var (i, j) := Target(s);
      && |s'.tabs| == MAX_TABLES && Unchanged(s, s', i, j)
      && s'.key == (if r.Ok? then NextKey(s.key) else s.key)
      && (r.Ok? ==> 1 <= i < MAX_TABLES && j < |s'.tabs[i]| && j < 0x1000 && s'.key <= KEY_RESET
                    && r.index == Index(s'.key, i, j)
                    && SlotAt(s, i, j).addr == 0 && SlotAt(s', i, j) == Slot(addr, Some(name), s'.key))
      && (r.Err? ==> SlotAt(s', i, j) == SlotAt(s, i, j)
                     || (SlotAt(s, i, j).addr == 0 && SlotAt(s', i, j) == Slot(addr, None, SlotAt(s, i, j).key)))
  {
    match FindFree(s.tabs, 1)
    case Full =>
    case Found(i, j) => InsertFillsOneSlot(s, i, j, name, addr, nameOk);
    case Allocate(i) =>
      if tabOk {
        var n := NewTable(s, i);
        NewTableKeepsShaped(s, i);
        assert forall a: nat, b: nat :: 1 <= a < MAX_TABLES ==> SlotAt(n, a, b) == SlotAt(s, a, b);
        InsertFillsOneSlot(n, i, 0, name, addr, nameOk);
      }
  }

  lemma RemoveClearsOneSlot(s: Symbols, name: string)
    requires Shaped(s)
    ensures var s' := RemoveFrom(s, name).0; var (i, j) := FindName(s.tabs, name, 0);
      && |s'.tabs| == MAX_TABLES && s'.key == s.key && Unchanged(s, s', i, j)
      && (1 <= i < MAX_TABLES ==> SlotAt(s', i, j) == EMPTY)
  {
  }

  // ----- Live indices -----

  // The slot is in use, and this is the index that was issued for it.
  ghost predicate Live(s: Symbols, i: nat, j: nat) {
    |s.tabs| == MAX_TABLES && 1 <= i < MAX_TABLES && SlotAt(s, i, j).key != 0
  }

  ghost function LiveIndex(s: Symbols, i: nat, j: nat): nat
    requires Shaped(s) && Live(s, i, j)
  {
    Index(SlotAt(s, i, j).key, i, j)
  }

  /** Different live symbols have different indices. */
  lemma LiveIndicesDistinct(s: Symbols, i: nat, j: nat, i': nat, j': nat)
    requires Shaped(s) && Live(s, i, j) && Live(s, i', j')
    ensures LiveIndex(s, i, j) == LiveIndex(s, i', j') <==> (i, j) == (i', j')
  {
    IndexFields(SlotAt(s, i, j).key, i, j);
    IndexFields(SlotAt(s, i', j').key, i', j');
  }

  /** A live index resolves to the function it was issued for exactly when its slot is not the first of its table: the
      lookup takes offset 0 to be a create function and hands out a null one. */
  lemma LiveIndexResolves(s: Symbols, i: nat, j: nat)
    requires Shaped(s) && Live(s, i, j)
    ensures InTable(s, LiveIndex(s, i, j))
    ensures Resolve(s, LiveIndex(s, i, j)) == FxnOut(SlotAt(s, i, j).addr) <==> j != 0
    ensures j == 0 ==> Resolve(s, LiveIndex(s, i, j)) == CreateOut(0)
  {
    IndexFields(SlotAt(s, i, j).key, i, j);
  }

  /** The very first symbol of a server cannot be called. */
  lemma FirstSymbolIsUnusable(fixed: seq<Slot>, name: string, addr: nat)
    requires |fixed| <= 0x10000 && addr != 0
    ensures var s := Symbols([fixed] + seq(MAX_TABLES - 1, _ => []), 0);
      var (s', r) := AddTo(s, name, addr, true, true);
      && Valid(s) && r.Ok? && InTable(s', r.index) && Resolve(s', r.index) == CreateOut(0)
  {
    var s := Symbols([fixed] + seq(MAX_TABLES - 1, _ => []), 0);
    assert s.tabs[1] == [] && FindFree(s.tabs, 1) == Allocate(1);
    AddKeepsValid(s, name, addr, true, true);
    AddFillsOneEmptySlot(s, name, addr, true, true);
    LiveIndexResolves(AddTo(s, name, addr, true, true).0, 1, 0);
  }

  lemma ApplyKeepsLive(s: Symbols, op: Op, i: nat, j: nat)
    requires Shaped(s) && Live(s, i, j) && SlotAt(s, i, j).addr != 0 && !Hits(s, op, i, j)
    ensures SlotAt(Apply(s, op), i, j) == SlotAt(s, i, j)
  {
    if op.Add? {
      AddFillsOneEmptySlot(s, op.name, op.addr, op.tabOk, op.nameOk);
    } else {
      RemoveClearsOneSlot(s, op.name);
    }
  }

  /** Until its own symbol is removed, an index goes on resolving to the same function through every run. */
  lemma {:induction false} LiveIndexSurvives(s: Symbols, ops: seq<Op>, i: nat, j: nat)
    requires Shaped(s) && Live(s, i, j) && SlotAt(s, i, j).addr != 0 && !Removed(s, ops, i, j)
    ensures SlotAt(Run(s, ops), i, j) == SlotAt(s, i, j)
    ensures InTable(Run(s, ops), LiveIndex(s, i, j))
    ensures j != 0 ==> Resolve(Run(s, ops), LiveIndex(s, i, j)) == FxnOut(SlotAt(s, i, j).addr)
    decreases |ops|
  {
    if ops == [] {
      LiveIndexResolves(s, i, j);
    } else {
      ApplyKeepsLive(s, ops[0], i, j);
      LiveIndexSurvives(Apply(s, ops[0]), ops[1..], i, j);
    }
  }

  // ----- Stale indices -----

  // The key after n more additions.
  function KeyAfter(key: nat, n: nat): nat {
    if n == 0 then key else NextKey(KeyAfter(key, n - 1))
  }

  lemma {:induction false} KeyCycle(key: nat, n: nat)
    requires 1 <= key <= KEY_RESET
    ensures KeyAfter(key, n) == (key - 1 - n) % 2047 + 1
  {
    if n != 0 { KeyCycle(key, n - 1); }
  }

  /** The key comes back after 2047 additions and not before. */
  lemma KeyReturnsAfter2047(key: nat, n: nat)
    requires 1 <= key <= KEY_RESET
    ensures KeyAfter(key, n) == key <==> n % 2047 == 0
  {
    KeyCycle(key, n);
  }

  lemma StaleStep(s: Symbols, op: Op, key: nat, n: nat, i: nat, j: nat)
    requires Shaped(s) && 1 <= i < MAX_TABLES && 1 <= key <= KEY_RESET && s.key == KeyAfter(key, n)
    requires n + (if Adds(s, op) then 1 else 0) <= 2046
    ensures Apply(s, op).key == KeyAfter(key, n + (if Adds(s, op) then 1 else 0))
    ensures Hits(s, op, i, j) ==> SlotAt(Apply(s, op), i, j).key != key
    ensures SlotAt(s, i, j).key != key ==> SlotAt(Apply(s, op), i, j).key != key
  {
    hide AddTo, RemoveFrom, FindFree, FindName, Shaped, Prefix, Keyed, NextKey;
    if op.Add? {
      AddFillsOneEmptySlot(s, op.name, op.addr, op.tabOk, op.nameOk);
      KeyReturnsAfter2047(key, n + 1);
      assert KeyAfter(key, n + 1) == NextKey(s.key);
    } else {
      RemoveClearsOneSlot(s, op.name);
    }
  }

  lemma {:induction false} StaleRun(s: Symbols, ops: seq<Op>, key: nat, n: nat, i: nat, j: nat)
    requires Shaped(s) && 1 <= i < MAX_TABLES && 1 <= key <= KEY_RESET && s.key == KeyAfter(key, n)
    requires n + Additions(s, ops) <= 2046
    requires SlotAt(s, i, j).key != key || Removed(s, ops, i, j)
    ensures SlotAt(Run(s, ops), i, j).key != key
    decreases |ops|
  {
    hide Apply, Adds, Hits, KeyAfter, Shaped, Prefix, Keyed;
    if ops != [] {
      StaleStep(s, ops[0], key, n, i, j);
      StaleRun(Apply(s, ops[0]), ops[1..], key, n + (if Adds(s, ops[0]) then 1 else 0), i, j);
    }
  }

  lemma StaleSlotRejects(s: Symbols, key: nat, i: nat, j: nat)
    requires Shaped(s) && 1 <= i < MAX_TABLES && 1 <= key <= KEY_RESET && j < |s.tabs[i]| && SlotAt(s, i, j).key != key
    ensures InTable(s, Index(key, i, j)) && Resolve(s, Index(key, i, j)) == InvalidFxnIdx
  {
    IndexFields(key, i, j);
  }

  lemma TableStays(s: Symbols, op: Op, i: nat)
    requires Shaped(s) && 1 <= i < MAX_TABLES && s.tabs[i] != []
    ensures |Apply(s, op).tabs[i]| == |s.tabs[i]|
  {
    hide FindName;
  }

  lemma {:induction false} TablesStay(s: Symbols, ops: seq<Op>, i: nat)
    requires Shaped(s) && 1 <= i < MAX_TABLES && s.tabs[i] != []
    ensures |Run(s, ops).tabs[i]| == |s.tabs[i]|
    decreases |ops|
  {
    hide Apply, Prefix, Keyed;
    if ops != [] {
      TableStays(s, ops[0], i);
      TablesStay(Apply(s, ops[0]), ops[1..], i);
    }
  }

  /** An index issued by an addition and then removed is rejected through the 2046 successful additions that follow the
      one that issued it, whatever slots they and any removals reuse. */
  lemma StaleIndexRejected(s: Symbols, name: string, addr: nat, tabOk: bool, nameOk: bool, ops: seq<Op>)
    requires Shaped(s) && AddTo(s, name, addr, tabOk, nameOk).1.Ok? && Shaped(AddTo(s, name, addr, tabOk, nameOk).0)
    requires Additions(AddTo(s, name, addr, tabOk, nameOk).0, ops) <= 2046
    requires Removed(AddTo(s, name, addr, tabOk, nameOk).0, ops, Target(s).0, Target(s).1)
    ensures var (s', r) := AddTo(s, name, addr, tabOk, nameOk); var end := Run(s', ops);
      InTable(end, r.index) && Resolve(end, r.index) == InvalidFxnIdx
  {
    var (s', r) := AddTo(s, name, addr, tabOk, nameOk);
    var (i, j) := Target(s);
    AddFillsOneEmptySlot(s, name, addr, tabOk, nameOk);
    StaleRun(s', ops, s'.key, 0, i, j);
    TablesStay(s', ops, i);
    StaleSlotRejects(Run(s', ops), s'.key, i, j);
  }

  lemma StaleIndexReissued(s: Symbols, key: nat, name: string, addr: nat, tabOk: bool, nameOk: bool)
    requires Shaped(s) && 1 <= key <= KEY_RESET && s.key == KeyAfter(key, 2046)
    requires AddTo(s, name, addr, tabOk, nameOk).1.Ok?
    ensures Target(s).0 < MAX_TABLES && Target(s).1 < 0x1000
    ensures AddTo(s, name, addr, tabOk, nameOk).1.index == Index(key, Target(s).0, Target(s).1)
  {
    AddFillsOneEmptySlot(s, name, addr, tabOk, nameOk);
    KeyReturnsAfter2047(key, 2047);
  }

  // One symbol, added and removed n times.
  function AddRemove(name: string, addr: nat, n: nat): seq<Op> {
    if n == 0 then [] else [Add(name, addr, true, true), Remove(name)] + AddRemove(name, addr, n - 1)
  }

  // The next addition finds this slot empty, and the name is new.
  ghost predicate Offers(s: Symbols, name: string, i: nat, j: nat) {
    Valid(s) && FindFree(s.tabs, 1) == Found(i, j) && FindName(s.tabs, name, 0).0 == MAX_TABLES
  }

  lemma AddRemoveOnce(s: Symbols, name: string, addr: nat, i: nat, j: nat)
    requires Offers(s, name, i, j) && addr != 0
    ensures Adds(s, Add(name, addr, true, true)) && !Adds(Apply(s, Add(name, addr, true, true)), Remove(name))
    ensures Apply(Apply(s, Add(name, addr, true, true)), Remove(name)) == s.(key := NextKey(s.key))
    ensures Offers(s.(key := NextKey(s.key)), name, i, j)
  {
    assert Offers(s.(key := NextKey(s.key)), name, i, j);
    hide FindName, FindFree, NextKey, Index;
    var s' := Apply(s, Add(name, addr, true, true));
    var key := NextKey(s.key);
    assert s' == Symbols(Put(s.tabs, i, j, Slot(addr, Some(name), key)), key);
    NotFoundMeansNowhere(s.tabs, name);
    OnlySlotNamed(s'.tabs, name, i, j);
    assert s.tabs[i][j] == EMPTY;
    assert Put(s'.tabs, i, j, EMPTY) == s.tabs by { PutBack(s.tabs, i, j, Slot(addr, Some(name), key)); }
  }

  lemma PutBack(tabs: seq<seq<Slot>>, i: nat, j: nat, slot: Slot)
    requires i < |tabs| && j < |tabs[i]|
    ensures Put(Put(tabs, i, j, slot), i, j, tabs[i][j]) == tabs
  {
    assert tabs[i][j := slot][j := tabs[i][j]] == tabs[i];
  }

  lemma {:induction false} KeyAfterNext(key: nat, n: nat)
    ensures KeyAfter(NextKey(key), n) == KeyAfter(key, n + 1)
  {
    if n != 0 { KeyAfterNext(key, n - 1); }
  }

  lemma TwoSteps(s: Symbols, a: Op, b: Op, rest: seq<Op>)
    requires Shaped(s)
    ensures Run(s, [a, b] + rest) == Run(Apply(Apply(s, a), b), rest)
    ensures Additions(s, [a, b] + rest) ==
      (if Adds(s, a) then 1 else 0) + (if Adds(Apply(s, a), b) then 1 else 0) +
      Additions(Apply(Apply(s, a), b), rest)
  {
    var ops := [a, b] + rest;
    assert ops[0] == a && ops[1..] == [b] + rest && ops[1..][0] == b && ops[1..][1..] == rest;
    hide Apply, Adds, Shaped;
  }

  lemma OffersIsShaped(s: Symbols, name: string, i: nat, j: nat)
    requires Offers(s, name, i, j)
    ensures Shaped(s)
  {
  }

  lemma OneRoundMore(name: string, addr: nat, n: nat)
    requires n != 0
    ensures AddRemove(name, addr, n) == [Add(name, addr, true, true), Remove(name)] + AddRemove(name, addr, n - 1)
  {
  }

  lemma NoRoundAtAll(s: Symbols, name: string, addr: nat)
    requires Shaped(s)
    ensures Run(s, AddRemove(name, addr, 0)) == s && Additions(s, AddRemove(name, addr, 0)) == 0
  {
  }

  lemma {:induction false} AddRemoveRun(s: Symbols, name: string, addr: nat, i: nat, j: nat, n: nat)
    requires Offers(s, name, i, j) && addr != 0
    ensures Run(s, AddRemove(name, addr, n)) == s.(key := KeyAfter(s.key, n))
    ensures Additions(s, AddRemove(name, addr, n)) == n
    decreases n
  {
    hide Apply, Adds, Offers, Valid, Shaped, Run, Additions, Prefix, Keyed, AddRemove, NextKey, FindFree, FindName;
    OffersIsShaped(s, name, i, j);
    if n == 0 {
      NoRoundAtAll(s, name, addr);
    } else {
      hide KeyAfter;
      var a, s' := Add(name, addr, true, true), s.(key := NextKey(s.key));
      AddRemoveOnce(s, name, addr, i, j);
      OneRoundMore(name, addr, n);
      TwoSteps(s, a, Remove(name), AddRemove(name, addr, n - 1));
      AddRemoveRun(s', name, addr, i, j, n - 1);
      KeyAfterNext(s.key, n - 1);
    }
  }

  lemma {:induction false} NewTableOffers(tabs: seq<seq<Slot>>, i: nat, k: nat)
    requires |tabs| == MAX_TABLES && 1 <= k <= i < MAX_TABLES && FindFree(tabs, k) == Allocate(i)
    ensures FindFree(tabs[i := seq(TableLen(i), _ => EMPTY)], k) == Found(i, 0)
    decreases i - k
  {
    if k < i { NewTableOffers(tabs, i, k + 1); }
  }

  // The tables with the one that an addition allocates.
  function WithRoom(s: Symbols): Symbols
    requires |s.tabs| == MAX_TABLES
  {
    var p := FindFree(s.tabs, 1);
    if p.Allocate? then NewTable(s, p.i) else s
  }

  lemma WithRoomOffers(s: Symbols, name: string)
    requires Valid(s) && FindName(s.tabs, name, 0).0 == MAX_TABLES && !NoRoom(s, true, true)
    ensures Offers(WithRoom(s), name, Target(s).0, Target(s).1) && WithRoom(s).key == s.key
  {
    var p := FindFree(s.tabs, 1);
    if p.Allocate? {
      NewTableKeepsValid(s, p.i);
      NewTableOffers(s.tabs, p.i, 1);
      NewTableHasNoNames(s, p.i, name);
    }
    hide Prefix, Keyed, FindName;
  }

  lemma SameAddition(s: Symbols, name: string, addr: nat)
    requires Valid(s) && !NoRoom(s, true, true) && |WithRoom(s).tabs| == MAX_TABLES && Shaped(WithRoom(s))
    requires FindFree(WithRoom(s).tabs, 1) == Found(Target(s).0, Target(s).1)
    ensures AddTo(s, name, addr, true, true) == AddTo(WithRoom(s), name, addr, true, true)
  {
    hide Prefix, Keyed, Shaped, Insert, NewTable, FindFree;
  }

  // Removing what was just added leaves its slot to the next addition.
  lemma FreedSlotIsOffered(s: Symbols, name: string, addr: nat)
    requires Valid(s) && addr != 0 && FindName(s.tabs, name, 0).0 == MAX_TABLES && !NoRoom(s, true, true)
    ensures var s' := AddTo(s, name, addr, true, true).0;
      && Shaped(s') && FindName(s'.tabs, name, 0) == Target(s)
      && Apply(s', Remove(name)) == WithRoom(s).(key := NextKey(s.key)) && s'.key == NextKey(s.key)
      && Offers(Apply(s', Remove(name)), name, Target(s).0, Target(s).1)
  {
    var (i, j) := Target(s);
    var base := WithRoom(s);
    WithRoomOffers(s, name);
    SameAddition(s, name, addr);
    AddRemoveOnce(base, name, addr, i, j);
    NamedOnce(base, name, addr, i, j);
    hide WithRoom, FindName, FindFree, Prefix, Keyed;
  }

  lemma NamedOnce(s: Symbols, name: string, addr: nat, i: nat, j: nat)
    requires Offers(s, name, i, j) && addr != 0
    ensures FindName(AddTo(s, name, addr, true, true).0.tabs, name, 0) == (i, j)
    ensures AddTo(s, name, addr, true, true).0.key == NextKey(s.key)
  {
    hide FindName, FindFree, NextKey, Index;
    NotFoundMeansNowhere(s.tabs, name);
    OnlySlotNamed(AddTo(s, name, addr, true, true).0.tabs, name, i, j);
  }

  lemma NewTableHasNoNames(s: Symbols, i: nat, name: string)
    requires Valid(s) && 1 <= i < MAX_TABLES && FindName(s.tabs, name, 0).0 == MAX_TABLES
    ensures FindName(NewTable(s, i).tabs, name, 0).0 == MAX_TABLES
  {
    hide FindName, FindFree;
    NotFoundMeansNowhere(s.tabs, name);
    NotFoundMeansNowhere(NewTable(s, i).tabs, name);
  }

  /** The bound is the best there is: remove the symbol, then add and remove it 2046 times more. The index is stale, and
      the next addition, of any symbol, issues it again. */
  lemma StaleBoundIsSharp(s: Symbols, name: string, addr: nat) returns (ops: seq<Op>)
    requires Valid(s) && addr != 0 && SymIdx(s, name) == Err(NotFound) && !NoRoom(s, true, true)
    ensures Shaped(AddTo(s, name, addr, true, true).0)
    ensures var (s', r) := AddTo(s, name, addr, true, true); var end := Run(s', ops);
      && Additions(s', ops) == 2046 && Removed(s', ops, Target(s).0, Target(s).1)
      && r.Ok? && InTable(end, r.index) && Resolve(end, r.index) == InvalidFxnIdx
      && forall other, addr' :: AddTo(end, other, addr', true, true).1 == r
  {
    var (s', r) := AddTo(s, name, addr, true, true);
    var (i, j) := Target(s);
    ops := [Remove(name)] + AddRemove(name, addr, 2046);
    AddedThenRemoved(s, name, addr);
    hide AddTo, WithRoom, Apply, NoRoom, FindFree, FindName, SymIdx, AddRemove, Hits, Target, Prefix, Keyed;
    SharpRun(s', name, addr, i, j, ops);
    StaleIndexRejected(s, name, addr, true, true, ops);
    var end := Run(s', ops);
    forall other, addr' ensures AddTo(end, other, addr', true, true).1 == r {
      OfferIsTaken(end, name, i, j, other, addr');
      StaleIndexReissued(end, s'.key, other, addr', true, true);
    }
  }

  lemma AddedThenRemoved(s: Symbols, name: string, addr: nat)
    requires Valid(s) && addr != 0 && SymIdx(s, name) == Err(NotFound) && !NoRoom(s, true, true)
    ensures Shaped(AddTo(s, name, addr, true, true).0)
    ensures var (s', r) := AddTo(s, name, addr, true, true); var (i, j) := Target(s);
      && r == Ok(Index(s'.key, i, j)) && 1 <= s'.key <= KEY_RESET
      && Offers(Apply(s', Remove(name)), name, i, j) && Hits(s', Remove(name), i, j)
      && Apply(s', Remove(name)).key == s'.key
  {
    assert AddTo(s, name, addr, true, true).1.Ok?;
    assert FindName(s.tabs, name, 0).0 == MAX_TABLES;
    hide AddTo, WithRoom, FindFree, FindName, Prefix, Keyed, Apply, NoRoom, Unchanged, SlotAt, Offers, Index, Target;
    FreedSlotIsOffered(s, name, addr);
    AddFillsOneEmptySlot(s, name, addr, true, true);
    assert NextKey(s.key) >= 1;
  }

  lemma SharpRun(s: Symbols, name: string, addr: nat, i: nat, j: nat, ops: seq<Op>)
    requires Shaped(s) && addr != 0 && ops == [Remove(name)] + AddRemove(name, addr, 2046)
    requires Offers(Apply(s, Remove(name)), name, i, j) && Hits(s, Remove(name), i, j)
    requires Apply(s, Remove(name)).key == s.key
    ensures Additions(s, ops) == 2046 && Removed(s, ops, i, j)
    ensures Run(s, ops).key == KeyAfter(s.key, 2046) && Offers(Run(s, ops), name, i, j)
  {
    assert ops[0] == Remove(name) && ops[1..] == AddRemove(name, addr, 2046);
    var freed := Apply(s, Remove(name));
    AddRemoveRun(freed, name, addr, i, j, 2046);
    assert Offers(freed.(key := KeyAfter(s.key, 2046)), name, i, j) by { SameOffer(freed, name, addr, i, j, 2046); }
    hide Apply, AddRemove, Offers, Hits, KeyAfter;
  }

  lemma SameOffer(s: Symbols, name: string, addr: nat, i: nat, j: nat, n: nat)
    requires Offers(s, name, i, j)
    ensures Offers(s.(key := KeyAfter(s.key, n)), name, i, j)
  {
    KeyStaysSmall(s.key, n);
  }

  lemma {:induction false} KeyStaysSmall(key: nat, n: nat)
    requires key <= KEY_RESET
    ensures KeyAfter(key, n) <= KEY_RESET
  {
    if n != 0 { KeyStaysSmall(key, n - 1); }
  }

  lemma OfferIsTaken(s: Symbols, name: string, i: nat, j: nat, other: string, addr: nat)
    requires Offers(s, name, i, j)
    ensures Target(s) == (i, j) && AddTo(s, other, addr, true, true).1.Ok?
  {
    hide FindName, FindFree, Prefix, Keyed;
  }

  // ----- A full table -----

  function LiveIn(tab: seq<Slot>): nat {
    if tab == [] then 0 else (if tab[0].key != 0 then 1 else 0) + LiveIn(tab[1..])
  }

  function LiveFrom(s: Symbols, i: nat): nat
    requires |s.tabs| == MAX_TABLES && 1 <= i <= MAX_TABLES
    decreases MAX_TABLES - i
  {
    if i == MAX_TABLES then 0 else LiveIn(s.tabs[i]) + LiveFrom(s, i + 1)
  }

  function Capacity(i: nat): nat
    requires 1 <= i <= MAX_TABLES
    decreases MAX_TABLES - i
  {
    if i == MAX_TABLES then 0 else TableLen(i) + Capacity(i + 1)
  }

  // No name allocation has failed: a slot with an address is a live one.
  ghost predicate NoLeak(s: Symbols)
    requires |s.tabs| == MAX_TABLES
  {
    forall i, j :: 1 <= i < MAX_TABLES && 0 <= j < |s.tabs[i]| && s.tabs[i][j].addr != 0 ==> s.tabs[i][j].key != 0
  }

  lemma {:induction false} LiveInBound(tab: seq<Slot>)
    requires forall j :: 0 <= j < |tab| ==> (tab[j].addr == 0 <==> tab[j].key == 0)
    ensures LiveIn(tab) <= |tab|
    ensures LiveIn(tab) == |tab| <==> FirstFree(tab) == |tab|
  {
    if tab != [] {
      LiveInBound(tab[1..]);
    }
  }

  lemma {:induction false} FullMeansAllLive(s: Symbols, i: nat)
    requires Valid(s) && NoLeak(s) && 1 <= i <= MAX_TABLES
    ensures LiveFrom(s, i) <= Capacity(i)
    ensures FindFree(s.tabs, i) == Full <==> LiveFrom(s, i) == Capacity(i)
    decreases MAX_TABLES - i
  {
    if i < MAX_TABLES {
      LiveInBound(s.tabs[i]);
      FullMeansAllLive(s, i + 1);
    }
  }

  /** Without allocation failures, SYMBOLTABLEFULL is returned exactly when all 8160 dynamic slots hold live symbols. */
  lemma TableFullIffAllLive(s: Symbols, name: string, addr: nat)
    requires Valid(s) && NoLeak(s)
    ensures AddTo(s, name, addr, true, true).1 == Err(TableFull) <==> LiveFrom(s, 1) == 8160
  {
    FullMeansAllLive(s, 1);
    TableLens();
    assert Capacity(1) == 8160 by {
      assert Capacity(8) == 4096 && Capacity(6) == 7168;
      assert Capacity(4) == 7936 && Capacity(2) == 8128;
    }
  }

  lemma {:induction false} NoLeakWithoutFailures(s: Symbols, ops: seq<Op>)
    requires Valid(s) && NoLeak(s)
    requires forall k :: 0 <= k < |ops| ==> NonNull(ops[k]) && (ops[k].Add? ==> ops[k].nameOk)
    ensures Valid(Run(s, ops)) && NoLeak(Run(s, ops))
    decreases |ops|
  {
    hide FindFree, FindName, Shaped, Prefix, Keyed;
    if ops != [] {
      var op, s' := ops[0], Apply(s, ops[0]);
      if op.Add? {
        AddFillsOneEmptySlot(s, op.name, op.addr, op.tabOk, op.nameOk);
        if !Adds(s, op) { AddErrorLeavesNothing(s, op); }
      } else {
        RemoveClearsOneSlot(s, op.name);
      }
      forall i, j | 1 <= i < MAX_TABLES && 0 <= j < |s'.tabs[i]| && s'.tabs[i][j].addr != 0
        ensures s'.tabs[i][j].key != 0
      {
        assert SlotAt(s', i, j) == s'.tabs[i][j];
      }
      ApplyKeepsValid(s, op);
      NoLeakWithoutFailures(s', ops[1..]);
    }
  }

  lemma AddErrorLeavesNothing(s: Symbols, op: Op)
    requires Valid(s) && op.Add? && op.nameOk && AddTo(s, op.name, op.addr, op.tabOk, op.nameOk).1.Err?
    ensures AddTo(s, op.name, op.addr, op.tabOk, op.nameOk).0 == s
  {
  }

  // ----- Looking a symbol up by name -----

  lemma NotFoundMeansNowhere(tabs: seq<seq<Slot>>, name: string)
    requires |tabs| == MAX_TABLES
    ensures FindName(tabs, name, 0).0 == MAX_TABLES <==>
      forall a, b :: 0 <= a < MAX_TABLES && 0 <= b < |tabs[a]| ==> tabs[a][b].name != Some(name)
  {
    hide FindName, FirstNamed;
    if FindName(tabs, name, 0).0 == MAX_TABLES {
      forall a, b | 0 <= a < MAX_TABLES && 0 <= b < |tabs[a]| ensures tabs[a][b].name != Some(name) {
        assert FirstNamed(tabs[a], name) == |tabs[a]|;
      }
    }
  }

  lemma OnlySlotNamed(tabs: seq<seq<Slot>>, name: string, i: nat, j: nat)
    requires |tabs| == MAX_TABLES && i < MAX_TABLES && j < |tabs[i]| && tabs[i][j].name == Some(name)
    requires forall a, b :: 0 <= a < MAX_TABLES && 0 <= b < |tabs[a]| && tabs[a][b].name == Some(name) ==>
      (a, b) == (i, j)
    ensures FindName(tabs, name, 0) == (i, j)
  {
    hide FindName, FirstNamed;
    NotFoundMeansNowhere(tabs, name);
  }

  /** Adding a name that is not in the table, then asking for it, gives the index the addition issued; removing it takes
      it out again. */
  lemma AddFindRemove(s: Symbols, name: string, addr: nat, tabOk: bool, nameOk: bool)
    requires Valid(s) && addr != 0 && SymIdx(s, name) == Err(NotFound)
    requires AddTo(s, name, addr, tabOk, nameOk).1.Ok? && Valid(AddTo(s, name, addr, tabOk, nameOk).0)
    ensures var (s', r) := AddTo(s, name, addr, tabOk, nameOk); var (s'', error) := RemoveFrom(s', name);
      SymIdx(s', name) == r && error == None && Valid(s'') && SymIdx(s'', name) == Err(NotFound)
  {
    hide FindName, FindFree, AddTo, Index;
    var (s', r) := AddTo(s, name, addr, tabOk, nameOk);
    var (i, j) := Target(s);
    NotFoundMeansNowhere(s.tabs, name);
    AddFillsOneEmptySlot(s, name, addr, tabOk, nameOk);
    AddKeepsStatic(s, name, addr, tabOk, nameOk);
    forall a, b | 0 <= a < MAX_TABLES && 0 <= b < |s'.tabs[a]| && s'.tabs[a][b].name == Some(name)
      ensures (a, b) == (i, j)
    {
      if a != 0 { assert SlotAt(s', a, b) == s'.tabs[a][b]; }
    }
    OnlySlotNamed(s'.tabs, name, i, j);
    RemoveKeepsValid(s', name);
    var s'' := RemoveFrom(s', name).0;
    NotFoundMeansNowhere(s''.tabs, name);
  }

  lemma AddKeepsStatic(s: Symbols, name: string, addr: nat, tabOk: bool, nameOk: bool)
    requires Valid(s)
    ensures |AddTo(s, name, addr, tabOk, nameOk).0.tabs| == MAX_TABLES
    ensures AddTo(s, name, addr, tabOk, nameOk).0.tabs[0] == s.tabs[0]
  {
  }
}
