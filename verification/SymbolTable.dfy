/** The keyed symbol table of RcmServer: eight dynamic tables of doubling size behind one static table, and function
    indices that carry a key so that an index does not outlive its symbol. */
module SymbolTable {
  import opened Options

  // addr 0 is the null address, which marks an empty slot; name None is the null pointer.
  datatype Slot = Slot(addr: nat, name: Option<string>, key: nat)

  datatype Error = NoMemory | TableFull | NotFound | Static

  datatype Result = Ok(index: nat) | Err(error: Error)

  // What a lookup writes: the create-function pointer, the function pointer, or neither.
  datatype Lookup = CreateOut(addr: nat) | FxnOut(addr: nat) | InvalidFxnIdx

  const MAX_TABLES := 9
  const KEY_RESET := 0x7ff
  const EMPTY := Slot(0, None, 0)

  // 1 << (i + 4)
  function TableLen(i: nat): (n: nat)
    ensures n > 0
  {
    if i == 0 then 16 else 2 * TableLen(i - 1)
  }

  // fxnTab and key of the server object; [] is a table that is not allocated.
  datatype Symbols = Symbols(tabs: seq<seq<Slot>>, key: nat)

  // ----- Function indices: 32-bit words, their shifts and masks written as multiplication, division and remainder
  // -----

  // ((UInt32)key << 20) | (i << 12) | j
  function Index(key: nat, i: nat, j: nat): nat
    requires key <= KEY_RESET && i < MAX_TABLES && j < 0x1000
  {
    key * 0x10_0000 + i * 0x1000 + j
  }

  // 0x80000000 | j
  function StaticIndex(j: nat): nat
    requires j < 0x10000
  {
    0x8000_0000 + j
  }

  const NOT_FOUND_INDEX := 0xffff_ffff

  predicate IsStatic(x: nat) { (x / 0x8000_0000) % 2 == 1 }        // x & 0x80000000
  function KeyField(x: nat): nat { (x / 0x10_0000) % 0x800 }       // (x & 0x7FF00000) >> 20
  function TabField(x: nat): nat { (x / 0x1000) % 16 }             // (x & 0xF000) >> 12
  function OffField(x: nat): nat { x % 0x1000 }                    // x & 0xFFF
  function StaticField(x: nat): nat { x % 0x10000 }                // x & 0xFFFF

  /** The same three fields as machine words: or-ing them together loses none of them, because they do not overlap. */
  lemma FieldsDoNotOverlap(key: bv32, i: bv32, j: bv32)
    requires key < 0x800 && i < 16 && j < 0x1000
    ensures var x := (key << 20) | (i << 12) | j;
      && x & 0x80000000 == 0 && (x & 0x7ff00000) >> 20 == key && (x & 0xf000) >> 12 == i && x & 0xfff == j
  {
  }

  /** Each field of an index is read back as it was put in. */
  lemma IndexFields(key: nat, i: nat, j: nat)
    requires key <= KEY_RESET && i < MAX_TABLES && j < 0x1000
    ensures var x := Index(key, i, j);
      x < 0x8000_0000 && !IsStatic(x) && KeyField(x) == key && TabField(x) == i && OffField(x) == j
  {
    HighField(key, i * 0x1000 + j);
    MiddleField(key * 0x100 + i, j);
    TopBit(Index(key, i, j));
    assert (key * 0x100 + i) % 16 == i;
  }

  lemma HighField(high: nat, low: nat)
    requires low < 0x10_0000
    ensures (high * 0x10_0000 + low) / 0x10_0000 == high
  {
  }

  lemma MiddleField(high: nat, low: nat)
    requires low < 0x1000
    ensures (high * 0x1000 + low) / 0x1000 == high && (high * 0x1000 + low) % 0x1000 == low
  {
  }

  lemma TopBit(x: nat)
    requires x < 0x8000_0000
    ensures x / 0x8000_0000 == 0
  {
  }

  lemma StaticIndexFields(j: nat)
    requires j < 0x10000
    ensures var x := StaticIndex(j); IsStatic(x) && StaticField(x) == j && x != NOT_FOUND_INDEX
  {
  }

  // ----- What the operations do -----

  function NextKey(key: nat): nat {
    if key <= 1 then KEY_RESET else key - 1
  }

  function FirstFree(tab: seq<Slot>): (j: nat)
    ensures j <= |tab|
    ensures j < |tab| ==> tab[j].addr == 0
    ensures forall k :: 0 <= k < j ==> tab[k].addr != 0
  {
    if tab == [] || tab[0].addr == 0 then 0 else 1 + FirstFree(tab[1..])
  }

  datatype Place = Found(i: nat, j: nat) | Allocate(i: nat) | Full

  // The search for an empty slot, from table i on.
  function FindFree(tabs: seq<seq<Slot>>, i: nat): (p: Place)
    requires |tabs| == MAX_TABLES && 1 <= i <= MAX_TABLES
    ensures p.Found? ==> i <= p.i < MAX_TABLES && p.j < |tabs[p.i]| && p.j == FirstFree(tabs[p.i])
    ensures p.Allocate? ==> i <= p.i < MAX_TABLES && tabs[p.i] == []
    decreases MAX_TABLES - i
  {
    if i == MAX_TABLES then Full
    else if tabs[i] == [] then Allocate(i)
    else if FirstFree(tabs[i]) < |tabs[i]| then Found(i, FirstFree(tabs[i]))
    else FindFree(tabs, i + 1)
  }

  function Put(tabs: seq<seq<Slot>>, i: nat, j: nat, slot: Slot): seq<seq<Slot>>
    requires i < |tabs| && j < |tabs[i]|
  {
    tabs[i := tabs[i][j := slot]]
  }

  // Filling the chosen slot. If the name cannot be allocated the address stays behind in the slot.
  function Insert(s: Symbols, i: nat, j: nat, name: string, addr: nat, nameOk: bool): (Symbols, Result)
    requires |s.tabs| == MAX_TABLES && i < MAX_TABLES && j < |s.tabs[i]| && j < 0x1000 && s.key <= KEY_RESET
  {
    if nameOk then
      var key := NextKey(s.key);
      (Symbols(Put(s.tabs, i, j, Slot(addr, Some(name), key)), key), Ok(Index(key, i, j)))
    else
      (s.(tabs := Put(s.tabs, i, j, Slot(addr, None, s.tabs[i][j].key))), Err(NoMemory))
  }

  function NewTable(s: Symbols, i: nat): Symbols
    requires i < |s.tabs|
  {
    s.(tabs := s.tabs[i := seq(TableLen(i), _ => EMPTY)])
  }

  function AddTo(s: Symbols, name: string, addr: nat, tabOk: bool, nameOk: bool): (Symbols, Result)
    requires Shaped(s)
  {
    match FindFree(s.tabs, 1)
    case Full => (s, Err(TableFull))
    case Found(i, j) => Insert(s, i, j, name, addr, nameOk)
    case Allocate(i) => if tabOk then Insert(NewTable(s, i), i, 0, name, addr, nameOk) else (s, Err(NoMemory))
  }

  function FirstNamed(tab: seq<Slot>, name: string): (j: nat)
    ensures j <= |tab|
    ensures j < |tab| ==> tab[j].name == Some(name)
    ensures forall k :: 0 <= k < j ==> tab[k].name != Some(name)
  {
    if tab == [] || tab[0].name == Some(name) then 0 else 1 + FirstNamed(tab[1..], name)
  }

  // Where a name is first found, from table i on; table MAX_TABLES means nowhere.
  function FindName(tabs: seq<seq<Slot>>, name: string, i: nat): (p: (nat, nat))
    requires |tabs| == MAX_TABLES && i <= MAX_TABLES
    ensures i <= p.0 <= MAX_TABLES
    ensures p.0 < MAX_TABLES ==> p.1 < |tabs[p.0]| && tabs[p.0][p.1].name == Some(name)
    ensures p.0 < MAX_TABLES ==> p.1 == FirstNamed(tabs[p.0], name)
    ensures forall k :: i <= k < p.0 ==> FirstNamed(tabs[k], name) == |tabs[k]|
    decreases MAX_TABLES - i
  {
    if i == MAX_TABLES then (i, 0)
    else if FirstNamed(tabs[i], name) < |tabs[i]| then (i, FirstNamed(tabs[i], name))
    else FindName(tabs, name, i + 1)
  }

  function SymIdx(s: Symbols, name: string): Result
    requires Shaped(s)
  {
    var (i, j) := FindName(s.tabs, name, 0);
    if i == MAX_TABLES then Err(NotFound)
    else if i == 0 then Ok(StaticIndex(j))
    else Ok(Index(s.tabs[i][j].key, i, j))
  }

  function RemoveFrom(s: Symbols, name: string): (Symbols, Option<Error>)
    requires Shaped(s)
  {
    var (i, j) := FindName(s.tabs, name, 0);
    if i == MAX_TABLES then (s, Some(NotFound))
    else if i == 0 then (s, Some(Static))
    else (s.(tabs := Put(s.tabs, i, j, EMPTY)), None)
  }

  // An index whose table field names an allocated table must have its offset inside that table.
  predicate InTable(s: Symbols, x: nat) {
    !IsStatic(x) && 0 < TabField(x) < |s.tabs| && s.tabs[TabField(x)] != [] ==> OffField(x) < |s.tabs[TabField(x)]|
  }

  // Offset 0 is taken to be a create function, which only the static table holds.
  function Resolve(s: Symbols, x: nat): Lookup
    requires |s.tabs| == MAX_TABLES && InTable(s, x)
  {
    if IsStatic(x) then
      var j := StaticField(x);
      if j >= |s.tabs[0]| then InvalidFxnIdx
      else if j == 0 then CreateOut(s.tabs[0][0].addr)
      else FxnOut(s.tabs[0][j].addr)
    else
      var i, j := TabField(x), OffField(x);
      if !(0 < i < MAX_TABLES) || s.tabs[i] == [] || s.tabs[i][j].key != KeyField(x) then InvalidFxnIdx
      else if j == 0 then CreateOut(0)
      else FxnOut(s.tabs[i][j].addr)
  }

  // ----- What every reachable table keeps -----

  ghost predicate Shaped(s: Symbols) {
    && |s.tabs| == MAX_TABLES
    && s.key <= KEY_RESET
    && |s.tabs[0]| <= 0x10000
    && (forall i :: 1 <= i < MAX_TABLES ==> |s.tabs[i]| == 0 || |s.tabs[i]| == TableLen(i))
    && (forall i :: 1 <= i < MAX_TABLES ==> |s.tabs[i]| <= 0x1000)
    && (forall i, j :: 1 <= i < MAX_TABLES && 0 <= j < |s.tabs[i]| ==> s.tabs[i][j].key <= KEY_RESET)
  }

  // The allocated dynamic tables are the first few.
  ghost predicate Prefix(s: Symbols)
    requires |s.tabs| == MAX_TABLES
  {
    forall i, k :: 1 <= i <= k < MAX_TABLES && s.tabs[k] != [] ==> s.tabs[i] != []
  }

  // An empty slot carries neither key nor name, and a key comes with a name.
  ghost predicate Keyed(s: Symbols)
    requires |s.tabs| == MAX_TABLES
  {
    forall i, j :: 1 <= i < MAX_TABLES && 0 <= j < |s.tabs[i]| ==>
      var slot := s.tabs[i][j]; (slot.addr == 0 ==> slot.key == 0) && (slot.key == 0 <==> slot.name == None)
  }

  ghost predicate Valid(s: Symbols) {
    Shaped(s) && Prefix(s) && Keyed(s)
  }

  lemma TableLens()
    ensures TableLen(1) == 32 && TableLen(2) == 64 && TableLen(3) == 128 && TableLen(4) == 256
    ensures TableLen(5) == 512 && TableLen(6) == 1024 && TableLen(7) == 2048 && TableLen(8) == 4096
  {
    assert TableLen(1) == 32 && TableLen(2) == 64;
    assert TableLen(4) == 256 && TableLen(6) == 1024;
  }

  lemma {:induction false} AllocateMeansPrefixFull(tabs: seq<seq<Slot>>, i: nat)
    requires |tabs| == MAX_TABLES && 1 <= i <= MAX_TABLES && FindFree(tabs, i).Allocate?
    ensures forall k :: i <= k < FindFree(tabs, i).i ==> tabs[k] != []
    decreases MAX_TABLES - i
  {
    if tabs[i] != [] { AllocateMeansPrefixFull(tabs, i + 1); }
  }

  lemma InsertKeepsValid(s: Symbols, i: nat, j: nat, name: string, addr: nat, nameOk: bool)
    requires Valid(s) && 1 <= i < MAX_TABLES && j < |s.tabs[i]| && s.tabs[i][j].addr == 0 && addr != 0
    ensures Valid(Insert(s, i, j, name, addr, nameOk).0)
  {
  }

  lemma NewTableKeepsValid(s: Symbols, i: nat)
    requires Valid(s) && FindFree(s.tabs, 1) == Allocate(i)
    ensures Valid(NewTable(s, i)) && |NewTable(s, i).tabs[i]| == TableLen(i)
  {
    AllocateMeansPrefixFull(s.tabs, 1);
    TableLens();
  }

  // A null address stored under a key makes a slot that is named and free at once.
  lemma NullInsertUnkeys(s: Symbols, i: nat, j: nat, name: string)
    requires Shaped(s) && 1 <= i < MAX_TABLES && j < |s.tabs[i]| && j < 0x1000
    ensures !Valid(Insert(s, i, j, name, 0, true).0)
  {
    var s' := Insert(s, i, j, name, 0, true).0;
    assert s'.tabs[i][j] == Slot(0, Some(name), s'.key) && s'.key != 0;
  }

  lemma NullInsertFails(s: Symbols, i: nat, j: nat, name: string)
    requires Valid(s) && 1 <= i < MAX_TABLES && j < |s.tabs[i]| && s.tabs[i][j].addr == 0
    ensures Insert(s, i, j, name, 0, false).0 == s
  {
    assert s.tabs[i][j] == Slot(0, None, 0);
    assert s.tabs[i][j := Slot(0, None, 0)] == s.tabs[i];
  }

  // There is no slot left, or no memory for the next table or for the name.
  predicate NoRoom(s: Symbols, tabOk: bool, nameOk: bool)
    requires |s.tabs| == MAX_TABLES
  {
    var p := FindFree(s.tabs, 1);
    p.Full? || (p.Allocate? && !tabOk) || !nameOk
  }

  /** The shape of the tables, the prefix of allocated ones and the keying of slots survive an addition, whichever
      allocation fails, if and only if the address is not null or there is no room for the symbol. */
  lemma AddKeepsValid(s: Symbols, name: string, addr: nat, tabOk: bool, nameOk: bool)
    requires Valid(s)
    ensures Valid(AddTo(s, name, addr, tabOk, nameOk).0) <==> addr != 0 || NoRoom(s, tabOk, nameOk)
  {
    match FindFree(s.tabs, 1)
    case Full =>
    case Found(i, j) => InsertKeepsValidIff(s, i, j, name, addr, nameOk);
    case Allocate(i) =>
      if tabOk {
        NewTableKeepsValid(s, i);
        hide Prefix, Keyed;
        InsertKeepsValidIff(NewTable(s, i), i, 0, name, addr, nameOk);
      }
  }

  lemma InsertKeepsValidIff(s: Symbols, i: nat, j: nat, name: string, addr: nat, nameOk: bool)
    requires Valid(s) && 1 <= i < MAX_TABLES && j < |s.tabs[i]| && s.tabs[i][j].addr == 0
    ensures Valid(Insert(s, i, j, name, addr, nameOk).0) <==> addr != 0 || !nameOk
    ensures Insert(s, i, j, name, addr, nameOk).1.Ok? <==> nameOk
  {
    if addr != 0 {
      InsertKeepsValid(s, i, j, name, addr, nameOk);
    } else if nameOk {
      NullInsertUnkeys(s, i, j, name);
    } else {
      NullInsertFails(s, i, j, name);
    }
    hide Prefix, Keyed, Put;
  }

  lemma AddKeepsShaped(s: Symbols, name: string, addr: nat, tabOk: bool, nameOk: bool)
    requires Shaped(s)
    ensures Shaped(AddTo(s, name, addr, tabOk, nameOk).0)
  {
    hide FindFree;
    TableLens();
  }

  lemma EmptyingKeepsValid(s: Symbols, i: nat, j: nat)
    requires Valid(s) && 1 <= i < MAX_TABLES && j < |s.tabs[i]|
    ensures Valid(s.(tabs := Put(s.tabs, i, j, EMPTY)))
  {
    var s' := s.(tabs := Put(s.tabs, i, j, EMPTY));
    assert forall k :: 0 <= k < MAX_TABLES ==> |s'.tabs[k]| == |s.tabs[k]|;
  }

  lemma NewTableKeepsShaped(s: Symbols, i: nat)
    requires Shaped(s) && 1 <= i < MAX_TABLES
    ensures Shaped(NewTable(s, i)) && |NewTable(s, i).tabs[i]| == TableLen(i)
  {
    TableLens();
  }

  lemma RemoveKeepsShaped(s: Symbols, name: string)
    requires Shaped(s)
    ensures Shaped(RemoveFrom(s, name).0)
  {
    hide FindName;
  }

  lemma RemoveKeepsValid(s: Symbols, name: string)
    requires Valid(s)
    ensures Valid(RemoveFrom(s, name).0)
  {
    hide Prefix, Keyed;
    var (i, j) := FindName(s.tabs, name, 0);
    if 0 < i < MAX_TABLES { EmptyingKeepsValid(s, i, j); }
  }

  // ----- The server object -----

  class SymbolServer {
    const fxnTab: array<seq<Slot>>
    var key: nat

    ghost function Contents(): Symbols
      reads this, fxnTab
    {
      Symbols(fxnTab[..], key)
    }

    ghost predicate Valid()
      reads this, fxnTab
    {
      fxnTab.Length == MAX_TABLES && Shaped(Contents())
    }

    constructor (fixed: seq<Slot>)
      requires |fixed| <= 0x10000
      ensures Valid() && fresh(fxnTab)
      ensures Contents() == Symbols([fixed] + seq(MAX_TABLES - 1, _ => []), 0)
    {
      fxnTab := new seq<Slot>[MAX_TABLES](i => if i == 0 then fixed else []);
      key := 0;
    }

    method GetNextKey() returns (k: nat)
      modifies `key
      ensures k == key == NextKey(old(key))
    {
      if key <= 1 {
        key := KEY_RESET;
      } else {
        key := key - 1;
      }
      k := key;
    }

    method AddSymbol(name: string, addr: nat, tabOk: bool, nameOk: bool) returns (r: Result)
      requires Valid()
      modifies `key, fxnTab
      ensures Valid() && (Contents(), r) == AddTo(old(Contents()), name, addr, tabOk, nameOk)
    {
      hide TableLen, FirstFree, Index, NextKey;
      AddKeepsShaped(Contents(), name, addr, tabOk, nameOk);
      hide Shaped;
      ghost var s := Contents();
      var i, j, found := 1, 0, false;
      while i < MAX_TABLES
        invariant 1 <= i <= MAX_TABLES && !found && fxnTab[..] == s.tabs && key == s.key
        invariant FindFree(s.tabs, 1) == FindFree(s.tabs, i)
      {
        if fxnTab[i] != [] {
          j := FirstEmpty(fxnTab[i]);
          found := j < |fxnTab[i]|;
        } else {
          assert FindFree(s.tabs, 1) == Allocate(i);
          if !tabOk {
            return Err(NoMemory);
          }
          fxnTab[i] := seq(TableLen(i), _ => EMPTY);
          j, found := 0, true;
        }
        if found {
          break;
        }
        i := i + 1;
      }
      if !found {
        return Err(TableFull);
      }
      r := Fill(i, j, name, addr, nameOk);
    }

    // The inner loop of addSymbol: the first empty slot of one table.
    method FirstEmpty(tab: seq<Slot>) returns (j: nat)
      ensures j == FirstFree(tab)
    {
      j := 0;
      while j < |tab| && tab[j].addr != 0
        invariant 0 <= j <= |tab|
        invariant forall k :: 0 <= k < j ==> tab[k].addr != 0
      {
        j := j + 1;
      }
    }

    // The end of addSymbol: the new symbol goes into the slot that was found.
    method Fill(i: nat, j: nat, name: string, addr: nat, nameOk: bool) returns (r: Result)
      requires fxnTab.Length == MAX_TABLES && i < MAX_TABLES && j < |fxnTab[i]| && j < 0x1000 && key <= KEY_RESET
      modifies `key, fxnTab
      ensures (Contents(), r) == Insert(old(Contents()), i, j, name, addr, nameOk)
    {
      if !nameOk {
        fxnTab[i] := fxnTab[i][j := Slot(addr, None, fxnTab[i][j].key)];
        return Err(NoMemory);
      }
      var k := GetNextKey();
      fxnTab[i] := fxnTab[i][j := Slot(addr, Some(name), k)];
      r := Ok(Index(k, i, j));
    }

    method GetSymIdx(name: string) returns (r: Result)
      requires Valid()
      ensures r == SymIdx(Contents(), name)
    {
      hide Index, StaticIndex;
      var fxnIdx := NOT_FOUND_INDEX;
      ghost var tabs := fxnTab[..];
      var i := 0;
      while i < MAX_TABLES
        invariant 0 <= i <= MAX_TABLES && fxnIdx == NOT_FOUND_INDEX
        invariant FindName(tabs, name, 0) == FindName(tabs, name, i)
      {
        var j := 0;
        while j < |fxnTab[i]|
          invariant 0 <= j <= |fxnTab[i]| && fxnIdx == NOT_FOUND_INDEX
          invariant forall k :: 0 <= k < j ==> fxnTab[i][k].name != Some(name)
        {
          if fxnTab[i][j].name == Some(name) {
            if i == 0 {
              fxnIdx := StaticIndex(j);
              StaticIndexFields(j);
            } else {
              fxnIdx := Index(fxnTab[i][j].key, i, j);
              IndexFields(fxnTab[i][j].key, i, j);
            }
            break;
          }
          j := j + 1;
        }
        assert j == FirstNamed(tabs[i], name);
        if fxnIdx != NOT_FOUND_INDEX {
          break;
        }
        i := i + 1;
      }
      if fxnIdx == NOT_FOUND_INDEX {
        r := Err(NotFound);
      } else {
        r := Ok(fxnIdx);
      }
    }

    method RemoveSymbol(name: string) returns (error: Option<Error>)
      requires Valid()
      modifies fxnTab
      ensures Valid() && (Contents(), error) == RemoveFrom(old(Contents()), name)
    {
      hide Index, StaticIndex, IsStatic, TabField, OffField;
      var r := GetSymIdx(name);
      if r.Err? {
        return Some(r.error);
      }
      ghost var p := FindName(fxnTab[..], name, 0);
      if p.0 == 0 { StaticIndexFields(p.1); } else { IndexFields(fxnTab[p.0][p.1].key, p.0, p.1); }
      if IsStatic(r.index) {
        return Some(Static);
      }
      var i, j := TabField(r.index), OffField(r.index);
      fxnTab[i] := fxnTab[i][j := EMPTY];
      assert fxnTab[..] == Put(old(fxnTab[..]), i, j, EMPTY);
      error := None;
    }

    method GetFxnAddr(fxnIdx: nat) returns (r: Lookup)
      requires Valid() && InTable(Contents(), fxnIdx)
      ensures r == Resolve(Contents(), fxnIdx)
    {
      var create, addr := 0, 0;
      var j;
      if IsStatic(fxnIdx) {
        j := StaticField(fxnIdx);
        if j < |fxnTab[0]| {
          if j == 0 {
            create := fxnTab[0][j].addr;
          } else {
            addr := fxnTab[0][j].addr;
          }
        } else {
          return InvalidFxnIdx;
        }
      } else {
        var k := KeyField(fxnIdx);
        var i := TabField(fxnIdx);
        if i > 0 && i < MAX_TABLES && fxnTab[i] != [] {
          j := OffField(fxnIdx);
          addr := fxnTab[i][j].addr;
          if k != fxnTab[i][j].key {
            return InvalidFxnIdx;
          }
        } else {
          return InvalidFxnIdx;
        }
      }
      if j == 0 {
        r := CreateOut(create);
      } else {
        r := FxnOut(addr);
      }
    }
  }
}
