/** The name/value table of the LAD daemon's NameServer: a linked list of entries searched by hash. A map from names to
    stacks of values is the model it is measured against. */
module NameTable {
  import opened Options
  import opened StringHash

  // A byte of a value; the table never looks inside.
  type Byte = b: nat | b < 0x100

  // `id` stands for the address of the node; `chain` for the nodes hung off its `next` pointer.
  datatype Entry = Entry(id: nat, hash: bv32, name: Name, value: seq<Byte>, collide: bool, chain: seq<Entry>)

  // signedChar is not a parameter of the source but of the platform it is compiled for.
  datatype Params = Params(maxNameLen: nat, maxValueLen: nat, checkExisting: bool, signedChar: bool)

  datatype Table = Table(list: seq<Entry>, count: nat, nextId: nat)

  // ----- What the operations do to the list -----

  function FindHash(list: seq<Entry>, hash: bv32): (i: nat)
    ensures i <= |list|
    ensures i < |list| ==> list[i].hash == hash
    ensures forall j :: 0 <= j < i ==> list[j].hash != hash
  {
    if list == [] || list[0].hash == hash then 0 else 1 + FindHash(list[1..], hash)
  }

  // The traversal in add stops at a duplicate it must reject or at a different name with the same hash.
  predicate Stops(e: Entry, hash: bv32, name: Name, checkExisting: bool) {
    e.hash == hash && (e.name != name || checkExisting)
  }

  function FindStop(list: seq<Entry>, hash: bv32, name: Name, checkExisting: bool): (i: nat)
    ensures i <= |list|
    ensures i < |list| ==> Stops(list[i], hash, name, checkExisting)
    ensures forall j :: 0 <= j < i ==> !Stops(list[j], hash, name, checkExisting)
  {
    if list == [] || Stops(list[0], hash, name, checkExisting) then 0
    else 1 + FindStop(list[1..], hash, name, checkExisting)
  }

  // maxNameLen - 1 is 32-bit unsigned arithmetic.
  predicate Accepts(p: Params, name: Name, buf: seq<Byte>) {
    |name| <= (p.maxNameLen + 0xffff_ffff) % 0x1_0000_0000 && |buf| <= p.maxValueLen
  }

  function AddTo(p: Params, t: Table, name: Name, buf: seq<Byte>, mallocOk: bool): (Table, Option<nat>) {
    var hash := Hash(name, p.signedChar);
    var k := FindStop(t.list, hash, name, p.checkExisting);
    if !Accepts(p, name, buf) then (t, None)
    else if k < |t.list| && t.list[k].name == name then (t, None)
    else if !mallocOk then (t, None)
    else if k < |t.list| then
      var chained := Entry(t.nextId, hash, name, buf, true, []);
      (Table(t.list[k := t.list[k].(chain := [chained] + t.list[k].chain)], t.count + 1, t.nextId + 1), Some(t.nextId))
    else
      (Table([Entry(t.nextId, hash, name, buf, false, [])] + t.list, t.count + 1, t.nextId + 1), Some(t.nextId))
  }

  function Unlink(t: Table, i: nat): Table
    requires i < |t.list|
  {
    Table(t.list[..i] + t.list[i+1..], if t.count == 0 then 0 else t.count - 1, t.nextId)
  }

  function RemoveFrom(p: Params, t: Table, name: Name): (Table, bool) {
    var k := FindHash(t.list, Hash(name, p.signedChar));
    if k < |t.list| then (Unlink(t, k), true) else (t, false)
  }

  function FindId(list: seq<Entry>, id: nat): (i: nat)
    ensures i <= |list|
    ensures i < |list| ==> list[i].id == id
    ensures forall j :: 0 <= j < i ==> list[j].id != id
  {
    if list == [] || list[0].id == id then 0 else 1 + FindId(list[1..], id)
  }

  // The caller hands back an address it got from add; the entry must still be on the list.
  predicate OnList(t: Table, id: nat) {
    FindId(t.list, id) < |t.list|
  }

  function Clip(value: seq<Byte>, len: nat): (r: seq<Byte>)
    ensures |r| == if len <= |value| then len else |value|
    ensures r <= value
  {
    if len <= |value| then value[..len] else value
  }

  // The bytes copied out; their number is what *len is set to.
  function GetFrom(p: Params, t: Table, name: Name, len: nat): Option<seq<Byte>> {
    var k := FindHash(t.list, Hash(name, p.signedChar));
    if k < |t.list| then Some(Clip(t.list[k].value, len)) else None
  }

  // What every reachable table keeps, whatever the names hash to.
  ghost predicate WellFormed(p: Params, t: Table) {
    && (forall i :: 0 <= i < |t.list| ==>
          t.list[i].hash == Hash(t.list[i].name, p.signedChar) && !t.list[i].collide && t.list[i].id < t.nextId)
    && (forall i, j :: 0 <= i < j < |t.list| ==> t.list[i].id != t.list[j].id)
    && |t.list| <= t.count
  }

  lemma AddKeepsWellFormed(p: Params, t: Table, name: Name, buf: seq<Byte>, mallocOk: bool)
    requires WellFormed(p, t)
    ensures WellFormed(p, AddTo(p, t, name, buf, mallocOk).0)
  {
    hide Hash;
  }

  lemma UnlinkKeepsWellFormed(p: Params, t: Table, i: nat)
    requires WellFormed(p, t) && i < |t.list|
    ensures WellFormed(p, Unlink(t, i))
  {
    hide Hash;
    var u := Unlink(t, i);
    assert forall j :: 0 <= j < |u.list| ==> u.list[j] == t.list[if j < i then j else j + 1];
  }

  // Two listed names never share a hash, because add hangs the later one off the earlier one.
  predicate Apart(t: Table) {
    forall i, j :: 0 <= i < |t.list| && 0 <= j < |t.list| && t.list[i].hash == t.list[j].hash ==>
      t.list[i].name == t.list[j].name
  }

  // A different name with the same hash is listed.
  ghost predicate Clashes(p: Params, t: Table, name: Name) {
    exists i :: 0 <= i < |t.list| && t.list[i].hash == Hash(name, p.signedChar) && t.list[i].name != name
  }

  lemma AddKeepsApart(p: Params, t: Table, name: Name, buf: seq<Byte>, mallocOk: bool)
    requires Apart(t)
    ensures Apart(AddTo(p, t, name, buf, mallocOk).0)
  {
    hide Hash, Apart, Accepts, Stops, FindStop;
    var hash := Hash(name, p.signedChar);
    var k := FindStop(t.list, hash, name, p.checkExisting);
    var t' := AddTo(p, t, name, buf, mallocOk).0;
    if |t'.list| == |t.list| {
      SameNamesApart(t, t');
    } else {
      NothingStopped(t.list, hash, name, p.checkExisting);
      FirstNameApart(t, t', Entry(t.nextId, hash, name, buf, false, []));
    }
  }

  lemma SameNamesApart(t: Table, t': Table)
    requires Apart(t) && |t'.list| == |t.list|
    requires forall i :: 0 <= i < |t.list| ==> t'.list[i].hash == t.list[i].hash && t'.list[i].name == t.list[i].name
    ensures Apart(t')
  {
  }

  lemma FirstNameApart(t: Table, t': Table, first: Entry)
    requires Apart(t) && t'.list == [first] + t.list
    requires forall i :: 0 <= i < |t.list| && t.list[i].hash == first.hash ==> t.list[i].name == first.name
    ensures Apart(t')
  {
    forall i, j | 0 <= i < |t'.list| && 0 <= j < |t'.list| && t'.list[i].hash == t'.list[j].hash
      ensures t'.list[i].name == t'.list[j].name
    {
      assert i > 0 ==> t'.list[i] == t.list[i - 1];
      assert j > 0 ==> t'.list[j] == t.list[j - 1];
    }
  }

  lemma NothingStopped(list: seq<Entry>, hash: bv32, name: Name, checkExisting: bool)
    requires FindStop(list, hash, name, checkExisting) == |list|
    ensures forall i :: 0 <= i < |list| && list[i].hash == hash ==> list[i].name == name
  {
    assert forall i :: 0 <= i < |list| ==> !Stops(list[i], hash, name, checkExisting);
  }

  lemma ClashingNameIsNotListed(p: Params, t: Table, name: Name)
    requires WellFormed(p, t) && Apart(t) && Clashes(p, t, name)
    ensures forall i :: 0 <= i < |t.list| ==> t.list[i].name != name
  {
    hide Hash;
    var hash := Hash(name, p.signedChar);
    var i :| 0 <= i < |t.list| && t.list[i].hash == hash && t.list[i].name != name;
    forall j | 0 <= j < |t.list| ensures t.list[j].name != name {
      assert t.list[j].hash == Hash(t.list[j].name, p.signedChar);
    }
  }

  lemma UnlinkKeepsApart(t: Table, i: nat)
    requires Apart(t) && i < |t.list|
    ensures Apart(Unlink(t, i))
  {
    var u := Unlink(t, i);
    assert forall j :: 0 <= j < |u.list| ==> u.list[j] == t.list[if j < i then j else j + 1];
  }

  // Instance creation raises maxValueLen to the size of a UInt32.
  function Effective(p: Params): Params {
    if p.maxValueLen < 4 then p.(maxValueLen := 4) else p
  }

  /** An instance of the daemon's NameServer. The instance gate makes every operation atomic. */
  class NameServer {
    var nameList: seq<Entry>
    var count: nat
    var nextId: nat
    const params: Params

    ghost function Contents(): Table
      reads this
    {
      Table(nameList, count, nextId)
    }

    ghost predicate Valid()
      reads this
    {
      WellFormed(params, Contents())
    }

    constructor (params: Params)
      ensures Valid() && this.params == Effective(params) && Contents() == Table([], 0, 0)
    {
      this.params := if params.maxValueLen < 4 then params.(maxValueLen := 4) else params;
      nameList, count, nextId := [], 0, 0;
    }

    method Add(name: Name, buf: seq<Byte>, mallocOk: bool) returns (key: Option<nat>)
      requires Valid() && |buf| != 0
      modifies this
      ensures Valid()
      ensures (Contents(), key) == AddTo(params, old(Contents()), name, buf, mallocOk)
    {
      hide Hash, WellFormed;
      AddKeepsWellFormed(params, Contents(), name, buf, mallocOk);
      var hash := Hash(name, params.signedChar);
      if |name| > (params.maxNameLen + 0xffff_ffff) % 0x1_0000_0000 {
        return None;
      }
      if |buf| > params.maxValueLen {
        return None;
      }
      var found, duplicate := false, false;
      var k := 0;
      while k < |nameList|
        invariant 0 <= k <= |nameList| && !found && !duplicate
        invariant forall j :: 0 <= j < k ==> !Stops(nameList[j], hash, name, params.checkExisting)
      {
        var node := nameList[k];
        if node.hash == hash {
          if node.name == name {
            if params.checkExisting {
              duplicate := true;
              break;
            }
          } else {
            found := true;
            break;
          }
        }
        k := k + 1;
      }
      assert k == FindStop(nameList, hash, name, params.checkExisting);
      if duplicate || !mallocOk {
        return None;
      }
      var node := Entry(nextId, hash, name, buf, found, []);
      if found {
        nameList := nameList[k := nameList[k].(chain := [node] + nameList[k].chain)];
      } else {
        nameList := [node] + nameList;
      }
      key := Some(nextId);
      nextId := nextId + 1;
      count := count + 1;
    }

    method RemoveEntry(id: nat)
      requires Valid() && OnList(Contents(), id)
      modifies this
      ensures Valid() && Contents() == Unlink(old(Contents()), FindId(old(nameList), id))
    {
      hide Hash;
      UnlinkKeepsWellFormed(params, Contents(), FindId(nameList, id));
      var k := 0;
      while nameList[k].id != id
        invariant 0 <= k < |nameList|
        invariant forall j :: 0 <= j < k ==> nameList[j].id != id
        decreases |nameList| - k
      {
        k := k + 1;
      }
      assert k == FindId(nameList, id);
      nameList := nameList[..k] + nameList[k+1..];
      count := count - 1;
    }

    method Remove(name: Name) returns (ok: bool)
      requires Valid()
      modifies this
      ensures Valid() && (Contents(), ok) == RemoveFrom(params, old(Contents()), name)
    {
      hide Hash;
      var hash := Hash(name, params.signedChar);
      var k := 0;
      while k < |nameList|
        invariant 0 <= k <= |nameList| && Contents() == old(Contents())
        invariant forall j :: 0 <= j < k ==> nameList[j].hash != hash
      {
        var node := nameList[k];
        if node.hash == hash {
          if node.collide {
            assert false; // add marks only the node it hangs off a chain, never one it links into the list
          }
          assert k == FindHash(nameList, hash);
          RemoveByPosition(k);
          return true;
        }
        k := k + 1;
      }
      return false;
    }

    // remove calls removeEntry on the node it stopped at.
    method RemoveByPosition(k: nat)
      requires Valid() && k < |nameList|
      modifies this
      ensures Valid() && Contents() == Unlink(old(Contents()), k)
    {
      assert FindId(nameList, nameList[k].id) == k;
      RemoveEntry(nameList[k].id);
    }

    method GetLocal(name: Name, len: nat) returns (value: Option<seq<Byte>>)
      requires Valid()
      ensures value == GetFrom(params, Contents(), name, len)
    {
      hide Hash;
      var hash := Hash(name, params.signedChar);
      var k := 0;
      while k < |nameList|
        invariant 0 <= k <= |nameList|
        invariant forall j :: 0 <= j < k ==> nameList[j].hash != hash
      {
        var node := nameList[k];
        if node.hash == hash {
          if node.collide {
            assert false; // as in Remove
          }
          assert k == FindHash(nameList, hash);
          if len <= |node.value| {
            return Some(node.value[..len]);
          } else {
            return Some(node.value);
          }
        }
        k := k + 1;
      }
      return None;
    }
  }
}
