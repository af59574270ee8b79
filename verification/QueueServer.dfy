/** The daemon's queue module as it changes its table in place, measured against QueueTable. */
module QueueServer {
  import opened Options
  import opened StringHash
  import opened NameTable
  import opened QueueTable

  class MessageQ {
    var queues: array<nat>
    var numQueues: nat
    var objs: map<nat, Queue>
    var next: nat
    const nameServer: NameServer
    const cfg: Config

    ghost function Contents(): Module
      reads this, queues, nameServer
    {
      Module(queues[..], numQueues, objs, nameServer.Contents(), next)
    }

    ghost predicate Sound()
      reads this, queues, nameServer
    {
      nameServer.Valid() && nameServer.params == cfg.params && Valid(cfg, Contents())
    }

    // MessageQ_setup
    constructor (cfg: Config, maxRuntimeEntries: nat)
      requires (cfg.handleSize == 4 || cfg.handleSize == 8) && cfg.numReserved < maxRuntimeEntries
      requires maxRuntimeEntries + PORT_OFFSET <= UINT16 && cfg.procId < UINT16 && Effective(cfg.params) == cfg.params
      ensures Sound() && fresh(queues) && fresh(nameServer) && this.cfg == cfg
      ensures Contents() == Module(seq(maxRuntimeEntries, _ => NULL), maxRuntimeEntries, map[], Table([], 0, 0), 1)
    {
      queues := new nat[maxRuntimeEntries](_ => NULL);
      numQueues, objs, next := maxRuntimeEntries, map[], 1;
      nameServer := new NameServer(cfg.params);
      this.cfg := cfg;
      new;
      assert queues[..] == seq(maxRuntimeEntries, _ => NULL);
    }

    // _MessageQ_grow
    method Grow(h: nat) returns (queueIndex: nat)
      requires Shaped(cfg, Contents())
      modifies this
      ensures queueIndex == old(numQueues) && queues[..] == QueueTable.Grow(cfg, old(queues[..]), h)
      ensures numQueues == (old(numQueues) + GROW_SIZE) % UINT16 && fresh(queues)
      ensures objs == old(objs) && next == old(next)
    {
      CopiedAtMostAll(queues.Length, cfg.handleSize);
      queueIndex := numQueues;
      var oldSize := numQueues * cfg.handleSize % UINT16;
      var larger := new nat[numQueues + GROW_SIZE](_ => NULL);
      for i := 0 to oldSize / cfg.handleSize
        modifies larger
        invariant forall j :: 0 <= j < i ==> larger[j] == queues[j]
        invariant forall j :: i <= j < larger.Length ==> larger[j] == NULL
      {
        larger[i] := queues[i];
      }
      larger[queueIndex] := h;
      queues := larger;
      numQueues := (numQueues + GROW_SIZE) % UINT16;
    }

    // The search that create makes for a slot.
    method Pick(index: Option<nat>) returns (choice: Choice)
      requires Shaped(cfg, Contents())
      ensures choice == Choose(cfg, Contents(), index) && (choice.Take? ==> choice.i < queues.Length)
    {
      match index {
        case Some(i) =>
          return if i > cfg.numReserved || queues[i] != NULL then Refused else Take(i);
        case None =>
          for i := cfg.numReserved to numQueues
            invariant forall j :: cfg.numReserved <= j < i ==> queues[j] != NULL
          {
            if queues[i] == NULL {
              assert i == FindHole(queues[..], cfg.numReserved);
              return Take(i);
            }
          }
          assert FindHole(queues[..], cfg.numReserved) == |queues[..]|;
          return Append;
      }
    }

    // MessageQ_create. MessageQ_ANY is None.
    method Create(index: Option<nat>, allocOk: bool) returns (h: nat)
      requires Sound()
      modifies this, queues
      ensures nameServer.Valid() && (queues == old(queues) || fresh(queues))
      ensures (Contents(), h) == QueueTable.Create(cfg, old(Contents()), index, allocOk)
      ensures Sound() <==> !allocOk || GrowsSafely(cfg, old(Contents()), index)
    {
      ghost var m := Contents();
      CreateKeepsValid(cfg, m, index, allocOk);
      assert Shaped(cfg, m);
      hide Valid, Shaped, GrowsSafely, NameServer.Valid, Choose, QueueTable.Create, QueueTable.Install;
      if allocOk {
        var choice := Pick(index);
        h := Install(choice);
        InstallIsCreate(cfg, m, index);
      } else {
        NoMemoryChangesNothing(cfg, m, index);
        h := NULL;
      }
    }

    // Make a new object and put it into the slot that was picked; free it again if none was.
    method Install(choice: Choice) returns (h: nat)
      requires Shaped(cfg, Contents()) && (choice.Take? ==> choice.i < queues.Length)
      modifies this, queues
      ensures queues == old(queues) || fresh(queues)
      ensures (Contents(), h) == QueueTable.Install(cfg, old(Contents()), choice)
    {
      CopiedAtMostAll(queues.Length, cfg.handleSize);
      hide QueueTable.Grow, IdOf, Copied;
      h := NULL;
      if choice != Refused {
        h := next;
        var queueIndex := Occupy(choice, h);
        objs := objs[h := Queue(IdOf(cfg, queueIndex), None, 0)];
      }
      next := next + 1;
    }

    // Put h into the slot that was picked.
    method Occupy(choice: Choice, h: nat) returns (queueIndex: nat)
      requires Shaped(cfg, Contents()) && choice != Refused && (choice.Take? ==> choice.i < queues.Length)
      modifies this, queues
      ensures queues == old(queues) || fresh(queues)
      ensures objs == old(objs) && next == old(next)
      ensures choice.Take? ==>
        queueIndex == choice.i && queues[..] == old(queues[..])[choice.i := h] && numQueues == old(numQueues)
      ensures choice.Append? ==> queueIndex == old(numQueues) && queues[..] == QueueTable.Grow(cfg, old(queues[..]), h)
      ensures choice.Append? ==> numQueues == (old(numQueues) + GROW_SIZE) % UINT16
    {
      if choice.Take? {
        queues[choice.i] := h;
        queueIndex := choice.i;
      } else {
        hide QueueTable.Grow;
        queueIndex := Grow(h);
      }
    }

    // MessageQ_announce
    method Announce(h: nat, name: Option<Name>, mallocOk: bool) returns (ok: bool)
      requires Sound() && h in objs
      modifies this, nameServer
      ensures nameServer.Valid() && queues == old(queues)
      ensures (Contents(), ok) == QueueTable.Announce(cfg, old(Contents()), h, name, mallocOk)
      ensures Sound() <==> EntersNoChain(cfg, old(Contents()), h, name, mallocOk)
    {
      AnnounceKeepsValid(cfg, Contents(), h, name, mallocOk);
      AnnounceParts(cfg, Contents(), h, name, mallocOk);
      hide Valid, Word, AddTo, EntersNoChain, WellFormed, QueueTable.Announce, NameServer.Valid;
      ok := name.Some? && objs[h].nsKey.None?;
      if ok {
        Enter(h, name.value, mallocOk);
      }
    }

    // Add the name with the id of the queue as its value; the key that comes back goes into the object.
    method Enter(h: nat, name: Name, mallocOk: bool)
      requires nameServer.Valid() && nameServer.params == cfg.params && h in objs
      modifies this, nameServer
      ensures nameServer.Valid() && queues == old(queues)
      ensures var m := old(Contents());
        var (names, key) := AddTo(cfg.params, m.names, name, Word(m.objs[h].queue), mallocOk);
        Contents() == m.(objs := m.objs[h := m.objs[h].(nsKey := key)], names := names)
    {
      WordIsNotEmpty(objs[h].queue);
      hide Word, AddTo, WellFormed;
      var key := nameServer.Add(name, Word(objs[h].queue), mallocOk);
      objs := objs[h := objs[h].(nsKey := key)];
    }

    // Take the name with this key, if there is one, out of the name server.
    method Withdraw(key: Option<nat>)
      requires nameServer.Valid() && (key.Some? ==> OnList(nameServer.Contents(), key.value))
      modifies nameServer
      ensures nameServer.Valid()
      ensures var names := old(nameServer.Contents());
        nameServer.Contents() == if key.Some? then Unlink(names, FindId(names.list, key.value)) else names
    {
      hide WellFormed, Unlink;
      if key.Some? {
        nameServer.RemoveEntry(key.value);
      }
    }

    // MessageQ_delete
    method Delete(h: nat)
      requires Sound() && h in objs
      modifies this, queues, nameServer
      ensures Sound() && queues == old(queues)
      ensures Contents() == QueueTable.Delete(old(Contents()), h)
    {
      ghost var m := Contents();
      DeleteKeepsValid(cfg, m, h);
      DeleteParts(cfg, m, h);
      hide Valid, WellFormed, Unlink, IndexOf, IdOf, OnList, QueueTable.Delete;
      var queueIndex := IndexOf(objs[h].queue);
      Withdraw(objs[h].nsKey);
      queues[queueIndex] := NULL;
      objs := objs - {h};
      assert queues[..] == m.queues[queueIndex := NULL];
      assert Contents() == QueueTable.Delete(m, h);
    }

    // MessageQ_cleanupOwner
    method CleanupOwner(pid: int)
      requires Sound()
      modifies this, queues, nameServer
      ensures Sound() && queues == old(queues)
      ensures Contents() == CleanupFrom(old(Contents()), pid, 0)
    {
      hide Valid, WellFormed, QueueTable.Delete;
      for i := 0 to numQueues
        invariant Sound() && queues == old(queues) && numQueues == old(numQueues)
        invariant CleanupFrom(Contents(), pid, i) == CleanupFrom(old(Contents()), pid, 0)
      {
        SlotsAreLive(cfg, Contents(), i);
        DeleteKeepsSize(Contents(), queues[i]);
        var queue := queues[i];
        if queue != NULL && objs[queue].ownerPid == pid {
          Delete(queue);
        }
      }
    }
  }

  lemma AnnounceParts(c: Config, m: Module, h: nat, name: Option<Name>, mallocOk: bool)
    requires h in m.objs
    ensures QueueTable.Announce(c, m, h, name, mallocOk) ==
            if name.None? || m.objs[h].nsKey.Some? then (m, false)
            else
              var (names, key) := AddTo(c.params, m.names, name.value, Word(m.objs[h].queue), mallocOk);
              (m.(objs := m.objs[h := m.objs[h].(nsKey := key)], names := names), true)
  {
    hide AddTo, Word;
  }

  lemma WordIsNotEmpty(x: nat)
    ensures |Word(x)| != 0
  {
  }

  // What deleting a live queue comes to.
  lemma DeleteParts(c: Config, m: Module, h: nat)
    requires Valid(c, m) && h in m.objs
    ensures var key := m.objs[h].nsKey; var i := IndexOf(m.objs[h].queue);
      && (key.Some? ==> OnList(m.names, key.value))
      && 0 <= i < |m.queues|
      && QueueTable.Delete(m, h) == m.(objs := m.objs - {h}, queues := m.queues[i := NULL],
           names := if key.Some? then Unlink(m.names, FindId(m.names.list, key.value)) else m.names)
  {
    DeleteFreesItsSlot(c, m, h);
    hide Placed, Named, WellFormed, Word, IndexOf, Unlink;
    if m.objs[h].nsKey.Some? {
      var e := NameOf(m, h);
      var i :| 0 <= i < |m.names.list| && m.names.list[i] == e;
    }
  }

  lemma SlotsAreLive(c: Config, m: Module, i: nat)
    requires Valid(c, m) && i < m.numQueues
    ensures i < |m.queues| == m.numQueues && (m.queues[i] != NULL ==> m.queues[i] in m.objs)
  {
    hide Named, WellFormed, IdOf;
  }

  lemma DeleteKeepsSize(m: Module, h: nat)
    ensures h in m.objs ==> QueueTable.Delete(m, h).numQueues == m.numQueues
  {
  }
}
