/** The linked table of NameTable behaves, in every run, like a map from names to stacks of values, where add pushes,
    remove pops and get peeks, if and only if no operation is asked for a name that shares its hash with a different
    name on the list. */
module NameRefinement {
  import opened Options
  import opened StringHash
  import opened NameTable

  // ----- The model: a map from names to stacks -----

  datatype Item = Item(id: nat, value: seq<Byte>)

  datatype Model = Model(stacks: map<Name, seq<Item>>, nextId: nat)

  function Stack(m: Model, name: Name): seq<Item> {
    if name in m.stacks then m.stacks[name] else []
  }

  function Drop(stack: seq<Item>, id: nat): seq<Item> {
    if stack == [] then []
    else if stack[0].id == id then Drop(stack[1..], id)
    else [stack[0]] + Drop(stack[1..], id)
  }

  datatype Op =
    | Add(name: Name, buf: seq<Byte>, mallocOk: bool)
    | Remove(name: Name)
    | RemoveEntry(id: nat)
    | Get(name: Name, len: nat)

  datatype Out = Key(key: Option<nat>) | Ok(ok: bool) | Bytes(bytes: Option<seq<Byte>>)

  // With checkExisting the model is a partial map: add rejects a name that has a value.
  function ModelStep(p: Params, m: Model, op: Op): (Model, Out) {
    match op
    case Add(name, buf, mallocOk) =>
      if !Accepts(p, name, buf) || !mallocOk || (p.checkExisting && Stack(m, name) != []) then (m, Key(None))
      else
        (Model(m.stacks[name := [Item(m.nextId, buf)] + Stack(m, name)], m.nextId + 1), Key(Some(m.nextId)))
    case Remove(name) =>
      if Stack(m, name) == [] then (m, Ok(false))
      else (m.(stacks := m.stacks[name := Stack(m, name)[1..]]), Ok(true))
    case RemoveEntry(id) =>
      (m.(stacks := map name | name in m.stacks :: Drop(m.stacks[name], id)), Ok(true))
    case Get(name, len) =>
      (m, Bytes(if Stack(m, name) == [] then None else Some(Clip(Stack(m, name)[0].value, len))))
  }

  function TableStep(p: Params, t: Table, op: Op): (Table, Out)
    requires op.RemoveEntry? ==> OnList(t, op.id)
  {
    match op
    case Add(name, buf, mallocOk) => var r := AddTo(p, t, name, buf, mallocOk); (r.0, Key(r.1))
    case Remove(name) => var r := RemoveFrom(p, t, name); (r.0, Ok(r.1))
    case RemoveEntry(id) => (Unlink(t, FindId(t.list, id)), Ok(true))
    case Get(name, len) => (t, Bytes(GetFrom(p, t, name, len)))
  }

  // ----- What the table stands for -----

  function Own(e: Entry, name: Name): seq<Item> {
    if e.name == name then [Item(e.id, e.value)] else []
  }

  function StackOf(list: seq<Entry>, name: Name): seq<Item> {
    if list == [] then []
    else Own(list[0], name) + StackOf(list[1..], name)
  }

  ghost predicate Represents(t: Table, m: Model) {
    && t.nextId == m.nextId
    && forall name :: Stack(m, name) == StackOf(t.list, name)
  }

  ghost predicate Tracked(p: Params, t: Table) {
    WellFormed(p, t) && Apart(t) && t.count == |t.list|
  }

  ghost predicate Confused(p: Params, t: Table, op: Op) {
    match op
    case Add(name, buf, mallocOk) => Accepts(p, name, buf) && mallocOk && Clashes(p, t, name)
    case Remove(name) => Clashes(p, t, name)
    case RemoveEntry(_) => false
    case Get(name, _) => Clashes(p, t, name)
  }

  // The operation does to the table, and answers, what it does to the map and answers there.
  ghost predicate Simulates(p: Params, t: Table, m: Model, op: Op)
    requires op.RemoveEntry? ==> OnList(t, op.id)
  {
    && TableStep(p, t, op).1 == ModelStep(p, m, op).1
    && Represents(TableStep(p, t, op).0, ModelStep(p, m, op).0)
  }

  ghost predicate Legal(p: Params, t: Table, ops: seq<Op>)
    decreases |ops|
  {
    ops == [] || ((ops[0].RemoveEntry? ==> OnList(t, ops[0].id)) && Legal(p, TableStep(p, t, ops[0]).0, ops[1..]))
  }

  ghost predicate NeverConfused(p: Params, t: Table, ops: seq<Op>)
    requires Legal(p, t, ops)
    decreases |ops|
  {
    ops == [] || (!Confused(p, t, ops[0]) && NeverConfused(p, TableStep(p, t, ops[0]).0, ops[1..]))
  }

  ghost predicate SimulatesAll(p: Params, t: Table, m: Model, ops: seq<Op>)
    requires Legal(p, t, ops)
    decreases |ops|
  {
    ops == [] || (
      && Simulates(p, t, m, ops[0])
      && SimulatesAll(p, TableStep(p, t, ops[0]).0, ModelStep(p, m, ops[0]).0, ops[1..]))
  }

  ghost function TableRun(p: Params, t: Table, ops: seq<Op>): (Table, seq<Out>)
    requires Legal(p, t, ops)
    decreases |ops|
  {
    if ops == [] then (t, []) else
      var r := TableStep(p, t, ops[0]);
      var rest := TableRun(p, r.0, ops[1..]);
      (rest.0, [r.1] + rest.1)
  }

  ghost function ModelRun(p: Params, m: Model, ops: seq<Op>): (Model, seq<Out>)
    decreases |ops|
  {
    if ops == [] then (m, []) else
      var r := ModelStep(p, m, ops[0]);
      var rest := ModelRun(p, r.0, ops[1..]);
      (rest.0, [r.1] + rest.1)
  }

  // ----- Searching by hash is searching by name -----

  lemma {:induction false} StackSplit(list: seq<Entry>, i: nat, name: Name)
    requires i < |list|
    ensures StackOf(list, name) ==
      StackOf(list[..i], name) + Own(list[i], name) + StackOf(list[i+1..], name)
  {
    if i == 0 {
      assert list[..0] == [];
    } else {
      hide Own;
      StackSplit(list[1..], i - 1, name);
      assert list[..i][1..] == list[1..][..i-1] && list[..i][0] == list[0];
      assert list[1..][i..] == list[i+1..];
    }
  }

  lemma {:induction false} StackConcat(a: seq<Entry>, b: seq<Entry>, name: Name)
    ensures StackOf(a + b, name) == StackOf(a, name) + StackOf(b, name)
  {
    hide Own;
    if a == [] {
      assert a + b == b;
    } else {
      StackConcat(a[1..], b, name);
      assert (a + b)[1..] == a[1..] + b && (a + b)[0] == a[0];
      var own, x, y := Own(a[0], name), StackOf(a[1..], name), StackOf(b, name);
      assert own + (x + y) == (own + x) + y;
    }
  }

  lemma {:induction false} StackEmpty(list: seq<Entry>, name: Name)
    requires forall j :: 0 <= j < |list| ==> list[j].name != name
    ensures StackOf(list, name) == []
  {
    if list != [] { StackEmpty(list[1..], name); }
  }

  lemma FoundByHashIsFoundByName(p: Params, t: Table, name: Name)
    requires WellFormed(p, t) && !Clashes(p, t, name)
    ensures var k := FindHash(t.list, Hash(name, p.signedChar));
      && (k < |t.list| ==> t.list[k].name == name)
      && (forall j :: 0 <= j < k ==> t.list[j].name != name)
  {
    hide Hash, FindHash;
    var hash := Hash(name, p.signedChar);
    var k := FindHash(t.list, hash);
    forall j | 0 <= j < k ensures t.list[j].name != name {
      assert t.list[j].hash != hash && t.list[j].hash == Hash(t.list[j].name, p.signedChar);
    }
  }

  /** Unless a different name with its hash is listed, the first entry found by a name's hash is the top of its
      stack. */
  lemma FoundIsTop(p: Params, t: Table, name: Name)
    requires WellFormed(p, t) && !Clashes(p, t, name)
    ensures var k := FindHash(t.list, Hash(name, p.signedChar));
      if k < |t.list| then
        && t.list[k].name == name
        && StackOf(t.list[..k], name) == []
        && StackOf(t.list, name) == [Item(t.list[k].id, t.list[k].value)] + StackOf(t.list[k+1..], name)
      else StackOf(t.list, name) == []
  {
    hide Hash, FindHash, StackOf;
    FoundByHashIsFoundByName(p, t, name);
    hide WellFormed, Clashes;
    var k := FindHash(t.list, Hash(name, p.signedChar));
    StackEmpty(t.list[..k], name);
    if k < |t.list| {
      StackSplit(t.list, k, name);
      var top := [Item(t.list[k].id, t.list[k].value)];
      assert [] + top + StackOf(t.list[k+1..], name) == top + StackOf(t.list[k+1..], name);
    } else {
      assert t.list[..k] == t.list;
    }
  }

  /** A name that clashes with a listed one has no value, and yet its hash leads to an entry. */
  lemma ClashingNameHasNothing(p: Params, t: Table, name: Name)
    requires WellFormed(p, t) && Apart(t) && Clashes(p, t, name)
    ensures StackOf(t.list, name) == [] && forall j :: 0 <= j < |t.list| ==> t.list[j].name != name
    ensures FindHash(t.list, Hash(name, p.signedChar)) < |t.list|
    ensures FindStop(t.list, Hash(name, p.signedChar), name, p.checkExisting) < |t.list|
    ensures t.list[FindStop(t.list, Hash(name, p.signedChar), name, p.checkExisting)].name != name
  {
    hide Hash, StackOf;
    var hash := Hash(name, p.signedChar);
    var i :| 0 <= i < |t.list| && t.list[i].hash == hash && t.list[i].name != name;
    ClashingNameIsNotListed(p, t, name);
    StackEmpty(t.list, name);
    assert Stops(t.list[i], hash, name, p.checkExisting);
  }

  lemma {:induction false} DropAbsent(list: seq<Entry>, name: Name, id: nat)
    requires forall j :: 0 <= j < |list| ==> list[j].id != id
    ensures Drop(StackOf(list, name), id) == StackOf(list, name)
  {
    if list != [] {
      DropAbsent(list[1..], name, id);
      var tail := StackOf(list[1..], name);
      if list[0].name == name {
        assert ([Item(list[0].id, list[0].value)] + tail)[1..] == tail;
      } else {
        assert [] + tail == tail;
      }
    }
  }

  lemma {:induction false} DropConcat(a: seq<Item>, b: seq<Item>, id: nat)
    ensures Drop(a + b, id) == Drop(a, id) + Drop(b, id)
  {
    if a == [] {
      assert a + b == b;
    } else {
      DropConcat(a[1..], b, id);
      assert (a + b)[1..] == a[1..] + b && (a + b)[0] == a[0];
    }
  }

  /** Unlinking a node takes its item, and no other, off the stack of its name. */
  lemma UnlinkDrops(p: Params, t: Table, i: nat, name: Name)
    requires WellFormed(p, t) && i < |t.list|
    ensures StackOf(Unlink(t, i).list, name) == Drop(StackOf(t.list, name), t.list[i].id)
  {
    hide Hash;
    var id := t.list[i].id;
    var mid := Own(t.list[i], name);
    var before, after := StackOf(t.list[..i], name), StackOf(t.list[i+1..], name);
    StackSplit(t.list, i, name);
    StackConcat(t.list[..i], t.list[i+1..], name);
    DropConcat(before + mid, after, id);
    DropConcat(before, mid, id);
    DropAbsent(t.list[..i], name, id);
    DropAbsent(t.list[i+1..], name, id);
    assert Drop(mid, id) == [];
    assert before + [] == before;
  }

  // ----- One step -----

  lemma AddStopsOnlyAtDuplicates(p: Params, t: Table, name: Name)
    requires WellFormed(p, t) && !Clashes(p, t, name)
    ensures var k := FindStop(t.list, Hash(name, p.signedChar), name, p.checkExisting);
      && (k < |t.list| ==> t.list[k].name == name)
      && (k < |t.list| <==> p.checkExisting && StackOf(t.list, name) != [])
  {
    hide Hash;
    var hash := Hash(name, p.signedChar);
    var k := FindStop(t.list, hash, name, p.checkExisting);
    FoundIsTop(p, t, name);
    var f := FindHash(t.list, hash);
    if f < |t.list| && p.checkExisting {
      assert Stops(t.list[f], hash, name, true);
      assert k <= f;
    }
  }

  // What add returns when it is not confused.
  function Added(p: Params, t: Table, name: Name, buf: seq<Byte>): Table {
    Table([Entry(t.nextId, Hash(name, p.signedChar), name, buf, false, [])] + t.list, t.count + 1, t.nextId + 1)
  }

  lemma UnconfusedAdd(p: Params, t: Table, op: Op)
    requires op.Add? && WellFormed(p, t) && !Confused(p, t, op)
    ensures TableStep(p, t, op) ==
      if !Accepts(p, op.name, op.buf) || !op.mallocOk || (p.checkExisting && StackOf(t.list, op.name) != [])
      then (t, Key(None))
      else (Added(p, t, op.name, op.buf), Key(Some(t.nextId)))
  {
    hide Hash, StackOf, WellFormed, Clashes;
    if Accepts(p, op.name, op.buf) && op.mallocOk {
      AddStopsOnlyAtDuplicates(p, t, op.name);
    }
  }

  lemma AddedRepresents(p: Params, t: Table, m: Model, name: Name, buf: seq<Byte>)
    requires Represents(t, m)
    ensures Represents(
      Added(p, t, name, buf), Model(m.stacks[name := [Item(m.nextId, buf)] + Stack(m, name)], m.nextId + 1))
  {
    hide Hash;
    var t' := Added(p, t, name, buf);
    var m' := Model(m.stacks[name := [Item(m.nextId, buf)] + Stack(m, name)], m.nextId + 1);
    assert t'.list[1..] == t.list;
    forall other ensures Stack(m', other) == StackOf(t'.list, other) {
      assert Stack(m, other) == StackOf(t.list, other);
    }
  }

  lemma AddSimulates(p: Params, t: Table, m: Model, op: Op)
    requires op.Add? && Tracked(p, t) && Represents(t, m) && !Confused(p, t, op)
    ensures Simulates(p, t, m, op) && Tracked(p, TableStep(p, t, op).0)
  {
    assert Stack(m, op.name) == StackOf(t.list, op.name);
    UnconfusedAdd(p, t, op);
    AddKeepsWellFormed(p, t, op.name, op.buf, op.mallocOk);
    AddKeepsApart(p, t, op.name, op.buf, op.mallocOk);
    assert t.nextId == m.nextId;
    hide Hash, StackOf, Stack, WellFormed, Clashes, Confused, Apart, AddTo, Represents, Accepts;
    AddedRepresents(p, t, m, op.name, op.buf);
  }

  lemma RemoveSimulates(p: Params, t: Table, m: Model, op: Op)
    requires op.Remove? && Tracked(p, t) && Represents(t, m) && !Confused(p, t, op)
    ensures Simulates(p, t, m, op) && Tracked(p, TableStep(p, t, op).0)
  {
    hide Hash;
    FoundIsTop(p, t, op.name);
    var k := FindHash(t.list, Hash(op.name, p.signedChar));
    assert Stack(m, op.name) == StackOf(t.list, op.name);
    if k < |t.list| {
      var t', m' := TableStep(p, t, op).0, ModelStep(p, m, op).0;
      UnlinkKeepsTracked(p, t, k);
      forall name ensures Stack(m', name) == StackOf(t'.list, name) {
        assert Stack(m, name) == StackOf(t.list, name);
        StackSplit(t.list, k, name);
        StackConcat(t.list[..k], t.list[k+1..], name);
        assert StackOf(t.list[..k], name) + [] == StackOf(t.list[..k], name);
      }
    }
  }

  lemma UnlinkKeepsTracked(p: Params, t: Table, i: nat)
    requires Tracked(p, t) && i < |t.list|
    ensures Tracked(p, Unlink(t, i))
  {
    hide Hash, Apart, WellFormed;
    UnlinkKeepsWellFormed(p, t, i);
    UnlinkKeepsApart(t, i);
  }

  lemma RemoveEntrySimulates(p: Params, t: Table, m: Model, op: Op)
    requires op.RemoveEntry? && OnList(t, op.id) && Tracked(p, t) && Represents(t, m)
    ensures Simulates(p, t, m, op) && Tracked(p, TableStep(p, t, op).0)
  {
    hide Hash;
    var i := FindId(t.list, op.id);
    UnlinkKeepsTracked(p, t, i);
    var t', m' := TableStep(p, t, op).0, ModelStep(p, m, op).0;
    forall name ensures Stack(m', name) == StackOf(t'.list, name) {
      assert Stack(m, name) == StackOf(t.list, name);
      UnlinkDrops(p, t, i, name);
    }
  }

  lemma GetSimulates(p: Params, t: Table, m: Model, op: Op)
    requires op.Get? && Tracked(p, t) && Represents(t, m) && !Confused(p, t, op)
    ensures Simulates(p, t, m, op)
  {
    hide Hash, StackOf;
    FoundIsTop(p, t, op.name);
    assert Stack(m, op.name) == StackOf(t.list, op.name);
  }

  lemma ConfusedDoesNotSimulate(p: Params, t: Table, m: Model, op: Op)
    requires Tracked(p, t) && Represents(t, m) && Confused(p, t, op)
    ensures !Simulates(p, t, m, op)
  {
    hide Hash, StackOf;
    ClashingNameHasNothing(p, t, op.name);
    assert Stack(m, op.name) == [];
    if op.Add? {
      var t', m' := TableStep(p, t, op).0, ModelStep(p, m, op).0;
      forall j | 0 <= j < |t'.list| ensures t'.list[j].name != op.name {
        assert t'.list[j].name == t.list[j].name;
      }
      StackEmpty(t'.list, op.name);
      assert Stack(m', op.name) != StackOf(t'.list, op.name);
    }
  }

  /** An operation does on the table what it does on the map of stacks if and only if it is not asked for a name while a
      different name with the same hash is listed; an addition must also be one that is carried out. */
  lemma StepSimulatesIff(p: Params, t: Table, m: Model, op: Op)
    requires Tracked(p, t) && Represents(t, m)
    requires op.RemoveEntry? ==> OnList(t, op.id)
    ensures Simulates(p, t, m, op) <==> !Confused(p, t, op)
    ensures !Confused(p, t, op) ==> Tracked(p, TableStep(p, t, op).0)
  {
    hide Hash, Tracked, Simulates;
    if Confused(p, t, op) {
      ConfusedDoesNotSimulate(p, t, m, op);
    } else {
      match op
      case Add(_, _, _) => AddSimulates(p, t, m, op);
      case Remove(_) => RemoveSimulates(p, t, m, op);
      case RemoveEntry(_) => RemoveEntrySimulates(p, t, m, op);
      case Get(_, _) => GetSimulates(p, t, m, op);
    }
  }

  // ----- Every run -----

  /** A sequence of operations does on the table, step by step, what it does on the map of stacks if and only if none of
      them is asked for a name while a different name with the same hash is listed. */
  lemma {:induction false} TableRefinesMapIff(p: Params, t: Table, m: Model, ops: seq<Op>)
    requires Tracked(p, t) && Represents(t, m) && Legal(p, t, ops)
    ensures SimulatesAll(p, t, m, ops) <==> NeverConfused(p, t, ops)
    decreases |ops|
  {
    hide Hash, Tracked;
    if ops != [] {
      StepSimulatesIff(p, t, m, ops[0]);
      if !Confused(p, t, ops[0]) {
        TableRefinesMapIff(p, TableStep(p, t, ops[0]).0, ModelStep(p, m, ops[0]).0, ops[1..]);
      }
    }
  }

  /** Then all its answers are those of the map, the table goes on representing it, and count is the number of its
      entries. */
  lemma {:induction false} TableRefinesMap(p: Params, t: Table, m: Model, ops: seq<Op>)
    requires Tracked(p, t) && Represents(t, m) && Legal(p, t, ops) && NeverConfused(p, t, ops)
    ensures TableRun(p, t, ops).1 == ModelRun(p, m, ops).1
    ensures Represents(TableRun(p, t, ops).0, ModelRun(p, m, ops).0)
    ensures var end := TableRun(p, t, ops).0; Tracked(p, end) && end.count == |end.list|
    decreases |ops|
  {
    hide Hash;
    if ops != [] {
      StepSimulatesIff(p, t, m, ops[0]);
      TableRefinesMap(p, TableStep(p, t, ops[0]).0, ModelStep(p, m, ops[0]).0, ops[1..]);
    }
  }

  predicate Within(op: Op, names: set<Name>) {
    !op.RemoveEntry? ==> op.name in names
  }

  /** On names the hash tells apart no operation is ever confused. */
  lemma {:induction false} NamesToldApartNeverConfuse(p: Params, t: Table, ops: seq<Op>, names: set<Name>)
    requires HashInjectiveOn(names, p.signedChar)
    requires forall i :: 0 <= i < |t.list| ==> t.list[i].name in names
    requires forall i :: 0 <= i < |ops| ==> Within(ops[i], names)
    requires WellFormed(p, t) && Legal(p, t, ops)
    ensures NeverConfused(p, t, ops)
    decreases |ops|
  {
    hide Hash;
    if ops != [] {
      StepKeepsWithin(p, t, ops[0], names);
      NamesToldApartNeverConfuse(p, TableStep(p, t, ops[0]).0, ops[1..], names);
    }
  }

  lemma StepKeepsWithin(p: Params, t: Table, op: Op, names: set<Name>)
    requires HashInjectiveOn(names, p.signedChar) && WellFormed(p, t) && Within(op, names)
    requires forall i :: 0 <= i < |t.list| ==> t.list[i].name in names
    requires op.RemoveEntry? ==> OnList(t, op.id)
    ensures !Confused(p, t, op) && WellFormed(p, TableStep(p, t, op).0)
    ensures var t' := TableStep(p, t, op).0; forall i :: 0 <= i < |t'.list| ==> t'.list[i].name in names
  {
    hide Hash;
    match op
    case Add(name, buf, mallocOk) => AddKeepsWellFormed(p, t, name, buf, mallocOk);
    case Remove(name) =>
      var k := FindHash(t.list, Hash(name, p.signedChar));
      if k < |t.list| { UnlinkKeepsWellFormed(p, t, k); }
    case RemoveEntry(id) => UnlinkKeepsWellFormed(p, t, FindId(t.list, id));
    case Get(_, _) =>
  }

  /** The start of every run. */
  lemma EmptyTableRepresentsEmptyMap(p: Params)
    ensures Tracked(p, Table([], 0, 0)) && Represents(Table([], 0, 0), Model(map[], 0))
  {
  }

  lemma StepKeepsApart(p: Params, t: Table, op: Op)
    requires WellFormed(p, t) && Apart(t)
    requires op.RemoveEntry? ==> OnList(t, op.id)
    ensures WellFormed(p, TableStep(p, t, op).0) && Apart(TableStep(p, t, op).0)
  {
    hide Hash;
    match op
    case Add(name, buf, mallocOk) =>
      AddKeepsWellFormed(p, t, name, buf, mallocOk);
      AddKeepsApart(p, t, name, buf, mallocOk);
    case Remove(name) =>
      var k := FindHash(t.list, Hash(name, p.signedChar));
      if k < |t.list| {
        UnlinkKeepsWellFormed(p, t, k);
        UnlinkKeepsApart(t, k);
      }
    case RemoveEntry(id) =>
      UnlinkKeepsWellFormed(p, t, FindId(t.list, id));
      UnlinkKeepsApart(t, FindId(t.list, id));
    case Get(_, _) =>
  }

  /** Whatever names are added, confused or not, no two different names with the same hash are ever listed together. */
  lemma {:induction false} EveryRunKeepsApart(p: Params, t: Table, ops: seq<Op>)
    requires WellFormed(p, t) && Apart(t) && Legal(p, t, ops)
    ensures WellFormed(p, TableRun(p, t, ops).0) && Apart(TableRun(p, t, ops).0)
    decreases |ops|
  {
    if ops != [] {
      StepKeepsApart(p, t, ops[0]);
      EveryRunKeepsApart(p, TableStep(p, t, ops[0]).0, ops[1..]);
    }
  }

  ghost predicate SingleValued(m: Model) {
    forall name :: |Stack(m, name)| <= 1
  }

  lemma DropShrinks(stack: seq<Item>, id: nat)
    ensures |Drop(stack, id)| <= |stack|
  {
  }

  /** With checkExisting every name keeps at most one value, through every run. */
  lemma {:induction false} CheckExistingKeepsPartialMap(p: Params, m: Model, ops: seq<Op>)
    requires p.checkExisting && SingleValued(m)
    ensures SingleValued(ModelRun(p, m, ops).0)
    decreases |ops|
  {
    if ops != [] {
      var m' := ModelStep(p, m, ops[0]).0;
      forall name ensures |Stack(m', name)| <= 1 {
        assert |Stack(m, name)| <= 1;
        if ops[0].RemoveEntry? { DropShrinks(Stack(m, name), ops[0].id); }
      }
      CheckExistingKeepsPartialMap(p, m', ops[1..]);
    }
  }

  // ----- Where the hash does not tell names apart -----

  /** After a successful add, the entry a lookup of the name reads is the new one if and only if no other name on the
      list shares its hash. */
  lemma AddThenGetReadsTheNewEntry(p: Params, t: Table, name: Name, buf: seq<Byte>)
    requires WellFormed(p, t) && AddTo(p, t, name, buf, true).1.Some?
    ensures var hash := Hash(name, p.signedChar);
      var t' := AddTo(p, t, name, buf, true).0;
      var read := FindHash(t'.list, hash);
      && read < |t'.list|
      && (t'.list[read].id == t.nextId <==>
          forall i :: 0 <= i < |t.list| ==> t.list[i].hash != hash || t.list[i].name == name)
  {
    hide Hash;
    var hash := Hash(name, p.signedChar);
    var k := FindStop(t.list, hash, name, p.checkExisting);
    var t' := AddTo(p, t, name, buf, true).0;
    var read := FindHash(t'.list, hash);
    if k < |t.list| {
      assert t'.list[k].hash == hash;
      assert forall i :: 0 <= i < |t.list| ==> t'.list[i].hash == t.list[i].hash && t'.list[i].id == t.list[i].id;
    } else {
      assert t'.list[0].hash == hash && read == 0;
      assert forall i :: 0 <= i < |t.list| ==> !Stops(t.list[i], hash, name, p.checkExisting);
    }
  }

  const DVDBA: Name := [100, 118, 100, 98, 97]
  const X98CU: Name := [120, 57, 56, 99, 117]

  /** dvdba and x98cu collide: once dvdba is in the table, a value added under x98cu is counted but never found, a
      lookup of x98cu reads the value of dvdba, and removing x98cu removes dvdba. */
  lemma CollidingNamesAreConfused(p: Params, v: seq<Byte>, w: seq<Byte>)
    requires 5 < p.maxNameLen < 0x1_0000_0000 && |v| <= p.maxValueLen && |w| <= p.maxValueLen
    ensures var one := AddTo(p, Table([], 0, 0), DVDBA, v, true).0;
      var two := AddTo(p, one, X98CU, w, true).0;
      && two.count == 2
      && GetFrom(p, two, X98CU, |v|) == Some(v)
      && RemoveFrom(p, two, X98CU).1
      && GetFrom(p, RemoveFrom(p, two, X98CU).0, DVDBA, |v|) == None
  {
    hide Hash;
    FiveCharactersCanCollide(p.signedChar);
    var hash := Hash(DVDBA, p.signedChar);
    assert Hash(X98CU, p.signedChar) == hash;
    var one := AddTo(p, Table([], 0, 0), DVDBA, v, true).0;
    assert one.list == [Entry(0, hash, DVDBA, v, false, [])];
    var two := AddTo(p, one, X98CU, w, true).0;
    assert DVDBA[0] != X98CU[0];
    assert FindStop(one.list, hash, X98CU, p.checkExisting) == 0;
    assert |two.list| == 1 && two.list[0].hash == hash && two.list[0].value == v;
    assert FindHash(two.list, hash) == 0;
    assert v[..|v|] == v;
    assert GetFrom(p, two, X98CU, |v|) == Some(v);
    assert two.count == 2;
    assert RemoveFrom(p, two, X98CU) == (Unlink(two, 0), true);
    assert Unlink(two, 0).list == [];
    assert GetFrom(p, Unlink(two, 0), DVDBA, |v|) == None;
  }
}
