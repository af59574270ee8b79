/** A run of the handshake that ends with the dispatch thread parked and nobody to wake it, until a client comes with
    the next PAUSE: the only client there is unbinds a queue that was never bound. */
module PauseRuns {
  import opened FdTables
  import opened PauseHandshake
  import opened PauseSafety

  const CONFIG := Config(3, 1)
  const UNBIND := Request(false, 0, PORT_OFFSET, UNBOUND)

  function Start0(): State {
    State(0, 0, Nobody, false, Top, Snapshot(0, {}, 0, []), [Idle],
          Tables([], {3}, 3, [seq(GROW_SIZE, _ => UNBOUND)]), {3}, Tally(0, 0, 0, 0), false)
  }

  // The state after n steps.
  function UnbindRun(n: nat): State {
    var s := Start0();
    var asked := s.(gate := TheClient(0), counter := PAUSE, clients := [Waiting(UNBIND)], tally := Tally(1, 0, 0, 0));
    var copied := asked.(snap := Snapshot(3, {3}, 0, []));
    var read := copied.(counter := 0);
    var parked := read.(thread := Parked, tally := Tally(1, 1, 0, 0));
    match n
    case 0 => s
    case 1 => s.(clients := [Entering(UNBIND)])
    case 2 => s.(gate := TheClient(0), clients := [Asking(UNBIND)])
    case 3 => asked
    case 4 => asked.(snap := Snapshot(3, {}, 0, []), thread := CopySet)
    case 5 => copied.(thread := CopyCount)
    case 6 => copied.(thread := Selecting)
    case 7 => copied.(thread := Scanning(0, {3}))
    case 8 => copied.(thread := Reading)
    case 9 => read.(thread := Decoding(PAUSE))
    case 10 => read.(thread := Acking)
    case 11 => parked.(acks := 1)
    case 12 => parked.(clients := [Granted(UNBIND)])
    case 13 => parked.(clients := [Leaving], early := true)
    case _ => parked.(clients := [Idle], gate := Nobody, early := true)
  }

  function UnbindAction(n: nat): Action {
    if n == 0 then Start(0, UNBIND)
    else if 3 <= n < 11 then ThreadStep({3}, false)
    else ClientStep(0, UNBOUND, false)
  }

  predicate Leads(n: nat) {
    Enabled(CONFIG, UnbindRun(n), UnbindAction(n)) &&
    UnbindRun(n + 1) == Next(CONFIG, UnbindRun(n), UnbindAction(n))
  }

  lemma ClientAsks()
    ensures Leads(0) && Leads(1) && Leads(2)
  {
    hide FdOf, Write;
  }

  lemma ThreadCopies()
    ensures Leads(3) && Leads(4) && Leads(5) && Leads(6)
  {
  }

  lemma ThreadAcknowledges()
    ensures Leads(7) && Leads(8) && Leads(9) && Leads(10)
  {
  }

  lemma ClientReadsAck()
    ensures Leads(11)
  {
    hide FdOf, Write, ThreadCanStep, ThreadNext;
    var s := UnbindRun(11);
    assert s.clients == [Waiting(UNBIND)] && s.acks == 1;
    assert Enabled(CONFIG, s, ClientStep(0, UNBOUND, false));
    assert Next(CONFIG, s, ClientStep(0, UNBOUND, false)) == s.(acks := 0, clients := [Granted(UNBIND)]);
  }

  lemma ClientFindsNothing()
    ensures Leads(12)
  {
    var s := UnbindRun(12);
    assert FdOf(s.tables, 0, Slot(PORT_OFFSET)) == UNBOUND;
    hide FdOf, Write;
  }

  lemma ClientLeaves()
    ensures Leads(13)
  {
    hide FdOf, Write;
  }

  lemma UnbindSteps(n: nat)
    requires n < 14
    ensures Leads(n)
  {
    hide Leads;
    ClientAsks();
    ThreadCopies();
    ThreadAcknowledges();
    ClientReadsAck();
    ClientFindsNothing();
    ClientLeaves();
  }

  lemma UnbindStarts()
    ensures Init(CONFIG, UnbindRun(0))
  {
  }

  lemma OneStepMore(states: seq<State>, actions: seq<Action>, a: Action)
    requires PauseSafety.IsRun(CONFIG, states, actions) && Enabled(CONFIG, states[|actions|], a)
    ensures PauseSafety.IsRun(CONFIG, states + [Next(CONFIG, states[|actions|], a)], actions + [a])
  {
    hide Init, Next, Enabled;
  }

  lemma {:induction false} UnbindRuns(n: nat) returns (states: seq<State>, actions: seq<Action>)
    requires n <= 14
    ensures PauseSafety.IsRun(CONFIG, states, actions) && |actions| == n && states[n] == UnbindRun(n)
  {
    hide UnbindRun, UnbindAction, Init, Next, Enabled;
    if n == 0 {
      UnbindStarts();
      states, actions := [UnbindRun(0)], [];
    } else {
      states, actions := UnbindRuns(n - 1);
      UnbindSteps(n - 1);
      OneStepMore(states, actions, UnbindAction(n - 1));
      states, actions := states + [UnbindRun(n)], actions + [UnbindAction(n - 1)];
    }
  }

  /** Unbinding a queue that was never bound, on a fresh module, ends with every client idle and the thread parked,
      unable to take a step. */
  lemma UnboundUnbindParksThread() returns (states: seq<State>, actions: seq<Action>)
    ensures PauseSafety.IsRun(CONFIG, states, actions)
    ensures var s := states[|actions|];
      s.clients == [Idle] && s.gate == Nobody && !s.shut &&
      s.thread.Parked? && forall ready :: !ThreadCanStep(CONFIG, s, ready)
  {
    states, actions := UnbindRuns(14);
    hide PauseSafety.IsRun;
    assert states[14].counter == 0;
  }
}
