/** A run of remote lookups in which a reply arrives in time and its caller never sees it: the reply to an earlier
    lookup that had timed out overwrites the cache first. */
module NameRemoteRuns {
  import opened Options
  import opened NameTable
  import opened NameRemote

  const KEY := Key(1, [77], [97])
  const REQUEST := Request(KEY, WORD, true)
  const LATE := Respond(REQUEST, 0, None)
  const TIMELY := Respond(REQUEST, 1, None)

  // The state after n steps.
  function LateRun(n: nat): State {
    var s := State([], map[], {}, None, 0, Listening, Idle, {});
    var first := s.(reqs := [REQUEST], witnessed := {None});
    var second := first.(reqs := [REQUEST, REQUEST], replies := {LATE}, caller := Waiting);
    var answered := second.(replies := {LATE, TIMELY});
    var timely := answered.(cache := Some(TIMELY));
    var late := answered.(cache := Some(LATE));
    match n
    case 0 => s
    case 1 => first.(caller := Waiting)
    case 2 => first
    case 3 => first.(replies := {LATE})
    case 4 => second
    case 5 => answered
    case 6 => timely.(listener := Posting)
    case 7 => timely.(tokens := 1)
    case 8 => late.(tokens := 1, listener := Posting)
    case 9 => late.(tokens := 2)
    case 10 => late.(tokens := 1, caller := Woken)
    case 11 => late.(tokens := 1)
    case 12 => late.(caller := Woken)
    case _ => late
  }

  function LateAction(n: nat): Action {
    match n
    case 0 => Call(KEY, WORD, true, true)
    case 1 => TimeOut
    case 2 => Answer(0)
    case 3 => Call(KEY, WORD, true, true)
    case 4 => Answer(1)
    case 5 => Copy(TIMELY)
    case 6 => Post
    case 7 => Copy(LATE)
    case 8 => Post
    case 9 => Wake
    case 10 => Check
    case 11 => Wake
    case _ => Check
  }

  predicate Leads(n: nat) {
    Enabled(LateRun(n), LateAction(n)) && LateRun(n + 1) == Next(LateRun(n), LateAction(n))
  }

  lemma Replies()
    ensures Readable(LATE) && !LATE.found && LATE.seqNum == 0 && Readable(TIMELY) && !TIMELY.found && TIMELY.seqNum == 1
    ensures LATE.of == 0 && TIMELY.of == 1
  {
  }

  lemma FirstCallTimesOut()
    ensures Leads(0) && Leads(1) && Leads(2) && Leads(3) && Leads(4)
  {
    hide Respond;
    assert LateRun(4).replies + {TIMELY} == {LATE, TIMELY};
  }

  lemma BothRepliesArrive()
    ensures Leads(5) && Leads(6) && Leads(7) && Leads(8)
  {
    hide Respond;
  }

  lemma CallerChecksInVain()
    ensures Leads(9) && Leads(10) && Leads(11) && Leads(12)
  {
    Replies();
    hide Respond;
  }

  lemma LateSteps(n: nat)
    requires n < 13
    ensures Leads(n)
  {
    hide Leads;
    FirstCallTimesOut();
    BothRepliesArrive();
    CallerChecksInVain();
  }

  lemma OneStepMore(states: seq<State>, actions: seq<Action>, a: Action)
    requires IsRun(states, actions) && Enabled(states[|actions|], a)
    ensures IsRun(states + [Next(states[|actions|], a)], actions + [a])
  {
    hide Init, Next, Enabled;
  }

  lemma {:induction false} LateRuns(n: nat) returns (states: seq<State>, actions: seq<Action>)
    requires n <= 13
    ensures IsRun(states, actions) && |actions| == n && forall i :: 0 <= i <= n ==> states[i] == LateRun(i)
    ensures forall i :: 0 <= i < n ==> actions[i] == LateAction(i)
  {
    hide LateAction, Next, Enabled;
    if n == 0 {
      states, actions := [LateRun(0)], [];
    } else {
      hide LateRun, Init;
      states, actions := LateRuns(n - 1);
      LateSteps(n - 1);
      OneStepMore(states, actions, LateAction(n - 1));
      states, actions := states + [LateRun(n)], actions + [LateAction(n - 1)];
    }
  }

  /** There is a run that brings the caller of the second lookup into the state from which a late reply hides its
      answer. */
  lemma LateReplyCanHide() returns (states: seq<State>, actions: seq<Action>, late: Reply)
    ensures IsRun(states, actions)
    ensures var s := states[|actions|]; Inv(s) && s.caller.Waiting? && s.tokens == 1 && s.listener.Listening?
    ensures var s := states[|actions|]; s.cache.Some? && s.reqs != [] && s.cache.value.of == Current(s)
    ensures var s := states[|actions|]; late in s.replies && late.of < Current(s) < late.of + WIRE
  {
    states, actions := LateRuns(7);
    late := LATE;
    EveryRunKeepsInv(states, actions, 7);
    Replies();
    hide IsRun, Inv;
    assert states[7] == LateRun(7);
  }

  /** And that run goes on until the reply, though it was received while the caller waited, is lost: the caller has
      looked twice, found the other reply both times, and waits without a token. */
  lemma AnswerIsHidden() returns (states: seq<State>, actions: seq<Action>)
    ensures IsRun(states, actions) && |actions| == 13
    ensures states[5].caller.Waiting? && |states[5].reqs| == 2 && actions[5] == Copy(TIMELY) && TIMELY.of == 1
    ensures forall i :: 5 <= i < 13 ==> Outcome(states[i], actions[i]) == None
    ensures states[13].caller.Waiting? && states[13].tokens == 0 && states[13].listener.Listening?
  {
    states, actions := LateRuns(13);
    Replies();
    hide Respond;
    assert LateAction(5) == Copy(TIMELY) && states[5] == LateRun(5) && states[13] == LateRun(13);
    forall i | 5 <= i < 13 ensures Outcome(states[i], actions[i]) == None {
      LateSteps(i);
      assert states[i] == LateRun(i);
      NoOutcome(i);
    }
  }

  lemma NoOutcome(i: nat)
    requires 5 <= i < 13 && Leads(i)
    ensures Outcome(LateRun(i), LateAction(i)) == None
  {
    Replies();
    hide Respond;
  }
}
