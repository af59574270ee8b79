/** Looking a name up on another processor: the caller sends a numbered request and waits for the listener thread to
    put the reply into a cache that holds only the last one. Requests and replies may be delayed, lost or delivered
    twice, and a reply may come after its caller has given up.

    `reqs`, the field `of` of a reply, and `witnessed` are history: all requests ever made, the request a reply
    answers, and what the name asked for was bound to at any moment since the current request was sent. */
module NameRemote {
  import opened Options
  import opened StringHash
  import opened NameTable

  type Bytes = seq<Byte>

  const MAX_NAME := 80
  const MAX_VALUE_LEN := 75
  const WORD := 4
  const WIRE := 0x1_0000_0000

  datatype Key = Key(procId: nat, instance: Name, name: Name)

  datatype Request = Request(key: Key, len: nat, sent: bool)

  datatype Reply = Reply(seqNum: nat, found: bool, valueLen: nat, value: Bytes, valueBuf: Bytes, of: nat)

  datatype Caller = Idle | Waiting | Woken       // woken: has taken a token, has not looked at the cache

  datatype Listener = Listening | Posting        // posting: has filled the cache, has not written the token

  datatype Result = Found(bytes: Bytes) | NotFound | TimedOut | Failed | NameTooLong | NoConnection

  // The cache is None while it is still zeroed.
  datatype State = State(
    reqs: seq<Request>, remote: map<Key, Bytes>, replies: set<Reply>, cache: Option<Reply>, tokens: nat,
    listener: Listener, caller: Caller, witnessed: set<Option<Bytes>>)

  datatype Action =
    | Call(key: Key, len: nat, connected: bool, sendOk: bool)
    | Wake
    | Check
    | TimeOut
    | SelectFails
    | Answer(k: nat)               // the remote processor answers request k
    | Bind(key: Key, value: Option<Bytes>)
    | Copy(reply: Reply)           // the listener receives a reply that was sent at some time
    | Post

  // ----- Messages -----

  function Zeros(n: nat): (r: Bytes)
    ensures |r| == n && forall i :: 0 <= i < n ==> r[i] == 0
  {
    seq(n, _ => 0)
  }

  function Pad(bytes: Bytes): (r: Bytes)
    requires |bytes| <= WORD
    ensures |r| == WORD && bytes <= r
  {
    bytes + Zeros(WORD - |bytes|)
  }

  function Lookup(remote: map<Key, Bytes>, key: Key): Option<Bytes> {
    if key in remote then Some(remote[key]) else None
  }

  // A request for at most a word is answered in `value`, and its length is left alone; a longer one in `valueBuf`.
  function Respond(req: Request, k: nat, stored: Option<Bytes>): Reply {
    match stored
    case None => Reply(k % WIRE, false, req.len, Zeros(WORD), [], k)
    case Some(bytes) =>
      if req.len <= WORD then
        Reply(k % WIRE, true, req.len, Pad(Clip(bytes, WORD)), [], k)
      else
        Reply(k % WIRE, true, |Clip(bytes, req.len)|, Zeros(WORD), Clip(bytes, req.len), k)
  }

  // The caller takes a value of at most a word from `value` and a longer one from `valueBuf`.
  function Extract(reply: Reply): Bytes
    requires reply.found && Readable(reply)
  {
    if reply.valueLen <= WORD then reply.value[..reply.valueLen] else reply.valueBuf
  }

  // ----- The steps -----

  function Current(s: State): nat
    requires s.reqs != []
  {
    |s.reqs| - 1
  }

  predicate Readable(reply: Reply) {
    |reply.value| == WORD && (reply.found && reply.valueLen > WORD ==> reply.valueLen == |reply.valueBuf|)
  }

  // The zeroed cache carries the number 0 and says that the name was not found.
  function CachedNumber(s: State): nat {
    if s.cache.Some? then s.cache.value.seqNum else 0
  }

  predicate Answered(s: State)
    requires s.reqs != []
  {
    CachedNumber(s) == Current(s) % WIRE
  }

  // The request left this processor, and is one that the other answers.
  predicate Answerable(req: Request) {
    req.sent && req.len <= MAX_VALUE_LEN
  }

  predicate Enabled(s: State, a: Action) {
    match a
    case Call(_, _, _, _) => s.caller.Idle?
    case Wake => s.caller.Waiting? && s.tokens > 0
    case Check => s.caller.Woken? && s.reqs != [] && (s.cache.Some? ==> Readable(s.cache.value))
    case TimeOut => s.caller.Waiting?
    case SelectFails => s.caller.Waiting?
    case Answer(k) => k < |s.reqs| && Answerable(s.reqs[k])
    case Bind(_, _) => true
    case Copy(reply) => s.listener.Listening? && reply in s.replies
    case Post => s.listener.Posting?
  }

  predicate TooLong(key: Key) {
    |key.name| >= MAX_NAME || |key.instance| >= MAX_NAME
  }

  function Next(s: State, a: Action): State
    requires Enabled(s, a)
  {
    match a
    case Call(key, len, connected, sendOk) =>
      if TooLong(key) || !connected then s
      else s.(reqs := s.reqs + [Request(key, len, sendOk)], caller := if sendOk then Waiting else Idle,
              witnessed := {Lookup(s.remote, key)})
    case Wake => s.(tokens := s.tokens - 1, caller := Woken)
    case Check => s.(caller := if Answered(s) then Idle else Waiting)
    case TimeOut => s.(caller := Idle)
    case SelectFails => s.(caller := Idle)
    case Answer(k) => s.(replies := s.replies + {Respond(s.reqs[k], k, Lookup(s.remote, s.reqs[k].key))})
    case Bind(key, value) =>
      var remote := if value.Some? then s.remote[key := value.value] else s.remote - {key};
      s.(remote := remote,
         witnessed := if s.reqs != [] then s.witnessed + {Lookup(remote, s.reqs[Current(s)].key)} else s.witnessed)
    case Copy(reply) => s.(cache := Some(reply), listener := Posting)
    case Post => s.(tokens := s.tokens + 1, listener := Listening)
  }

  // What a step answers, if it ends the call.
  function Outcome(s: State, a: Action): Option<Result>
    requires Enabled(s, a)
  {
    match a
    case Call(key, _, connected, sendOk) =>
      if TooLong(key) then Some(NameTooLong)
      else if !connected then Some(NoConnection)
      else if !sendOk then Some(Failed)
      else None
    case Check =>
      if !Answered(s) then None
      else if s.cache.Some? && s.cache.value.found then Some(Found(Extract(s.cache.value)))
      else Some(NotFound)
    case TimeOut => Some(TimedOut)
    case SelectFails => Some(Failed)
    case _ => None
  }

  predicate Init(s: State) {
    s.reqs == [] && s.replies == {} && s.cache == None && s.tokens == 0 &&
    s.listener == Listening && s.caller == Idle &&
    s.witnessed == {}
  }

  // ----- The invariant -----

  // Every reply answers a request that was sent; one to the current request says what the name was bound to meanwhile.
  ghost predicate Honest(s: State, r: Reply) {
    && r.of < |s.reqs| && Answerable(s.reqs[r.of])
    && (exists stored :: r == Respond(s.reqs[r.of], r.of, stored) && (r.of == |s.reqs| - 1 ==> stored in s.witnessed))
  }

  ghost predicate Replies(s: State) {
    && (forall r :: r in s.replies ==> Honest(s, r))
    && (s.cache.Some? ==> s.cache.value in s.replies)
    && (s.reqs != [] ==> Lookup(s.remote, s.reqs[|s.reqs| - 1].key) in s.witnessed)
  }

  // A token is never there before the first reply, and a reply that is waited for comes with a token.
  predicate Tokens(s: State) {
    && (s.cache.None? ==> s.tokens == 0 && !s.caller.Woken? && s.listener.Listening?)
    && (!s.caller.Idle? ==> s.reqs != [])
    && (s.caller.Waiting? && s.cache.Some? && s.cache.value.of == |s.reqs| - 1 ==> s.tokens > 0 || s.listener.Posting?)
  }

  ghost predicate Inv(s: State) {
    Replies(s) && Tokens(s)
  }

  lemma RespondIsReadable(req: Request, k: nat, stored: Option<Bytes>)
    ensures Readable(Respond(req, k, stored))
    ensures Respond(req, k, stored).of == k && Respond(req, k, stored).seqNum == k % WIRE
  {
  }

  lemma HonestStays(s: State, s': State, r: Reply)
    requires Honest(s, r) && |s.reqs| <= |s'.reqs| && s'.reqs[..|s.reqs|] == s.reqs
    requires |s.reqs| == |s'.reqs| ==> s.witnessed <= s'.witnessed
    ensures Honest(s', r)
  {
    var stored :| r == Respond(s.reqs[r.of], r.of, stored) && (r.of == |s.reqs| - 1 ==> stored in s.witnessed);
    assert s'.reqs[r.of] == s.reqs[r.of];
  }

  lemma RepliesKept(s: State, a: Action)
    requires Replies(s) && Enabled(s, a)
    ensures Replies(Next(s, a))
  {
    var s' := Next(s, a);
    hide Respond;
    assert |s.reqs| <= |s'.reqs| && s'.reqs[..|s.reqs|] == s.reqs;
    forall r | r in s'.replies ensures Honest(s', r) {
      if r in s.replies {
        HonestStays(s, s', r);
      } else {
        RespondIsReadable(s.reqs[a.k], a.k, Lookup(s.remote, s.reqs[a.k].key));
      }
    }
  }

  lemma TokensKept(s: State, a: Action)
    requires Inv(s) && Enabled(s, a)
    ensures Tokens(Next(s, a))
  {
    if s.cache.Some? {
      var r := s.cache.value;
      var stored :| r == Respond(s.reqs[r.of], r.of, stored);
      RespondIsReadable(s.reqs[r.of], r.of, stored);
    }
    hide Respond, Replies;
  }

  lemma InvKept(s: State, a: Action)
    requires Inv(s) && Enabled(s, a)
    ensures Inv(Next(s, a))
  {
    RepliesKept(s, a);
    TokensKept(s, a);
  }

  ghost predicate IsRun(states: seq<State>, actions: seq<Action>) {
    && |states| == |actions| + 1 && Init(states[0])
    && forall i :: 0 <= i < |actions| ==> Enabled(states[i], actions[i]) && states[i + 1] == Next(states[i], actions[i])
  }

  lemma {:induction false} EveryRunKeepsInv(states: seq<State>, actions: seq<Action>, i: nat)
    requires IsRun(states, actions) && i < |states|
    ensures Inv(states[i])
  {
    if i > 0 {
      EveryRunKeepsInv(states, actions, i - 1);
      hide Inv, Init, Enabled, Next;
      assert Enabled(states[i - 1], actions[i - 1]);
      InvKept(states[i - 1], actions[i - 1]);
    }
  }

  // ----- What follows -----

  /** The cache only ever answers a request that was made, and so one numbered at most like the current one. */
  lemma CacheAnswersSomeRequest(s: State)
    requires Inv(s) && s.cache.Some?
    ensures s.cache.value.of < |s.reqs| && s.cache.value.seqNum == s.cache.value.of % WIRE && Readable(s.cache.value)
  {
    var r := s.cache.value;
    var stored :| r == Respond(s.reqs[r.of], r.of, stored);
    RespondIsReadable(s.reqs[r.of], r.of, stored);
  }

  /** A caller that has taken a token ends its call if and only if the number in the cache is that of its own request,
      counted in 32 bits. */
  lemma EndsOnlyWithOwnNumber(s: State)
    requires Inv(s) && s.caller.Woken?
    ensures Enabled(s, Check)
    ensures s.cache.Some? && s.cache.value.of <= Current(s)
    ensures Outcome(s, Check).Some? <==> s.cache.value.of % WIRE == Current(s) % WIRE
  {
    CacheAnswersSomeRequest(s);
    hide Extract, Replies;
  }

  lemma SameNumber(a: nat, b: nat)
    requires a <= b < a + WIRE
    ensures a % WIRE == b % WIRE <==> a == b
  {
    if a % WIRE == b % WIRE { assert (b - a) % WIRE == 0; }
  }

  // The cache does not hold a reply that is 2^32 requests late.
  predicate InReach(s: State)
    requires s.reqs != []
  {
    s.cache.Some? ==> Current(s) - s.cache.value.of < WIRE
  }

  /** When the call succeeds, it is the current request that was answered, and the bytes are those the processor asked
      gives out for a value that the name was bound to at some moment since the request was sent. */
  lemma SuccessIsFresh(s: State)
    requires Inv(s) && s.caller.Woken? && InReach(s)
    ensures Enabled(s, Check)
    ensures var outcome := Outcome(s, Check); outcome.Some? && outcome.value.Found? ==>
      exists bytes :: Some(bytes) in s.witnessed &&
        s.cache == Some(Respond(s.reqs[Current(s)], Current(s), Some(bytes))) &&
        outcome.value.bytes == Extract(s.cache.value)
  {
    EndsOnlyWithOwnNumber(s);
    var r, k := s.cache.value, Current(s);
    SameNumber(r.of, k);
    if r.of == k && r.found {
      var stored :| r == Respond(s.reqs[k], k, stored) && stored in s.witnessed;
      assert stored == Some(stored.value);
    }
    hide Extract;
  }

  /** When the call says that there is no such name, the name was unbound at some moment since the request was sent. */
  lemma NotFoundIsFresh(s: State)
    requires Inv(s) && s.caller.Woken? && InReach(s)
    ensures Enabled(s, Check)
    ensures Outcome(s, Check) == Some(NotFound) ==> None in s.witnessed
  {
    EndsOnlyWithOwnNumber(s);
    var r, k := s.cache.value, Current(s);
    SameNumber(r.of, k);
    if r.of == k && !r.found {
      var stored :| r == Respond(s.reqs[k], k, stored) && stored in s.witnessed;
      assert stored == None;
    }
    hide Extract;
  }

  /** The first 2^32 requests need no hypothesis about late replies. */
  lemma EarlyRequestsAreInReach(s: State)
    requires Inv(s) && s.reqs != [] && |s.reqs| <= WIRE
    ensures InReach(s)
  {
    if s.cache.Some? { CacheAnswersSomeRequest(s); }
  }

  /** A token left behind by a reply that came after its caller had given up costs the next caller a round, not the
      answer: it goes back to waiting and nothing else changes. */
  lemma StaleTokenIsIgnored(s: State)
    requires Inv(s) && s.caller.Woken? && InReach(s) && s.cache.Some? && s.cache.value.of != Current(s)
    ensures Enabled(s, Check) && Outcome(s, Check) == None && Next(s, Check) == s.(caller := Waiting)
  {
    EndsOnlyWithOwnNumber(s);
    SameNumber(s.cache.value.of, Current(s));
    hide Extract, Replies;
  }

  /** While the reply to the current request is in the cache, its caller is never left waiting without a token. */
  lemma OwnReplyWakesCaller(s: State)
    requires Inv(s) && s.caller.Waiting? && s.cache.Some? && s.cache.value.of == Current(s)
    ensures Enabled(s, Wake) || Enabled(s, Post)
    ensures Enabled(s, Wake) ==> var s' := Next(s, Wake); Enabled(s', Check) && Outcome(s', Check).Some?
  {
    if Enabled(s, Wake) {
      InvKept(s, Wake);
      EndsOnlyWithOwnNumber(Next(s, Wake));
    }
    hide Extract, Replies;
  }

  /** But the cache holds one reply only: a late one that overtakes the caller on its way there hides the answer, and
      the caller uses up both tokens and waits on. */
  lemma LateReplyHidesAnswer(s: State, late: Reply)
    requires Inv(s) && s.caller.Waiting? && s.tokens == 1 && s.listener.Listening?
    requires s.cache.Some? && s.cache.value.of == Current(s)
    requires late in s.replies && late.of < Current(s) < late.of + WIRE
    ensures Enabled(s, Copy(late))
    ensures var s1 := Next(s, Copy(late)); Enabled(s1, Post) && var s2 := Next(s1, Post);
      Enabled(s2, Wake) && var s3 := Next(s2, Wake); Enabled(s3, Check) && var s4 := Next(s3, Check);
      Enabled(s4, Wake) && var s5 := Next(s4, Wake); Enabled(s5, Check) && var s6 := Next(s5, Check);
      Outcome(s3, Check) == None && Outcome(s5, Check) == None && s6.caller.Waiting? && s6.tokens == 0
  {
    assert Honest(s, late);
    var stored :| late == Respond(s.reqs[late.of], late.of, stored);
    RespondIsReadable(s.reqs[late.of], late.of, stored);
    SameNumber(late.of, Current(s));
    hide Respond, Inv, Extract, Replies;
  }

  ghost predicate CanDo(s: State, actions: seq<Action>)
    decreases |actions|
  {
    actions == [] || (Enabled(s, actions[0]) && CanDo(Next(s, actions[0]), actions[1..]))
  }

  ghost function Do(s: State, actions: seq<Action>): State
    requires CanDo(s, actions)
    decreases |actions|
  {
    if actions == [] then s else Do(Next(s, actions[0]), actions[1..])
  }

  predicate SameCall(actions: seq<Action>) {
    forall i :: 0 <= i < |actions| ==> !actions[i].Call?
  }

  // The caller waits, and nothing that was received so far will wake it.
  predicate Stranded(s: State) {
    s.caller.Waiting? && s.tokens == 0 && s.listener.Listening?
  }

  // Whatever happens until the next call, the caller is not left waiting.
  ghost predicate NeverStranded(s: State) {
    forall actions :: CanDo(s, actions) && SameCall(actions) ==> !Stranded(Do(s, actions))
  }

  // Whatever happens until the next call, a caller that looks finds the number of its own request.
  ghost predicate AlwaysAnswered(s: State) {
    forall actions :: CanDo(s, actions) && SameCall(actions) ==>
      Do(s, actions).reqs != [] && Answered(Do(s, actions))
  }

  // A request before the current one can still be answered, under another number.
  predicate Rival(s: State, k: nat)
    requires s.reqs != []
  {
    k < Current(s) && Answerable(s.reqs[k]) && k % WIRE != Current(s) % WIRE
  }

  // Every reply has the number of the current request, and a caller that waits has a token coming.
  ghost predicate Expecting(s: State) {
    && s.reqs != [] && s.cache.Some?
    && (forall k :: 0 <= k < |s.reqs| ==> !Rival(s, k))
    && (s.caller.Waiting? ==> s.tokens > 0 || s.listener.Posting?)
  }

  lemma CacheHasCurrentNumber(s: State)
    requires Inv(s) && Expecting(s)
    ensures Answered(s)
  {
    CacheAnswersSomeRequest(s);
    var k := s.cache.value.of;
    assert Honest(s, s.cache.value);
    assert !Rival(s, k);
  }

  lemma ExpectingKept(s: State, a: Action)
    requires Inv(s) && Expecting(s) && Enabled(s, a) && !a.Call?
    ensures Expecting(Next(s, a))
  {
    CacheHasCurrentNumber(s);
    hide Inv, Respond, Answerable;
    var s' := Next(s, a);
    assert s'.reqs == s.reqs;
    forall k | 0 <= k < |s'.reqs| ensures !Rival(s', k) { assert !Rival(s, k); }
  }

  lemma {:induction false} ExpectingIsNeverStranded(s: State, actions: seq<Action>)
    requires Inv(s) && Expecting(s) && CanDo(s, actions) && SameCall(actions)
    ensures !Stranded(Do(s, actions)) && Do(s, actions).reqs != [] && Answered(Do(s, actions))
    decreases |actions|
  {
    if actions == [] {
      CacheHasCurrentNumber(s);
    } else {
      assert !actions[0].Call?;
      hide Inv, Expecting, Enabled, Next;
      InvKept(s, actions[0]);
      ExpectingKept(s, actions[0]);
      ExpectingIsNeverStranded(Next(s, actions[0]), actions[1..]);
    }
  }

  // The caller can be stranded from here.
  ghost predicate Strands(s: State, actions: seq<Action>) {
    CanDo(s, actions) && SameCall(actions) && Stranded(Do(s, actions))
  }

  lemma StrandsFirst(s: State, a: Action, rest: seq<Action>)
    requires Enabled(s, a) && !a.Call? && Strands(Next(s, a), rest)
    ensures Strands(s, [a] + rest)
  {
    hide Enabled, Next, Stranded;
    assert ([a] + rest)[1..] == rest;
  }

  // The caller looks once for every token, and finds a reply with another number each time.
  lemma {:induction false} UsesUpTokens(s: State) returns (actions: seq<Action>)
    requires s.reqs != [] && s.caller.Waiting? && s.listener.Listening?
    requires s.cache.Some? && Readable(s.cache.value) && !Answered(s)
    ensures Strands(s, actions)
    decreases s.tokens
  {
    actions := [];
    if s.tokens > 0 {
      var s1 := Next(s, Wake);
      assert Enabled(s1, Check);
      var s2 := Next(s1, Check);
      assert s2 == s.(tokens := s.tokens - 1);
      hide Strands;
      var rest := UsesUpTokens(s2);
      StrandsFirst(s1, Check, rest);
      StrandsFirst(s, Wake, [Check] + rest);
      actions := [Wake] + ([Check] + rest);
    }
  }

  lemma RivalStrands(s: State, k: nat) returns (actions: seq<Action>)
    requires s.reqs != [] && s.caller.Waiting? && s.listener.Listening? && Rival(s, k)
    ensures Strands(s, actions)
  {
    var r := Respond(s.reqs[k], k, Lookup(s.remote, s.reqs[k].key));
    RespondIsReadable(s.reqs[k], k, Lookup(s.remote, s.reqs[k].key));
    hide Respond, Strands;
    var s1 := Next(s, Answer(k));
    var s2 := Next(s1, Copy(r));
    var s3 := Next(s2, Post);
    assert s3.cache == Some(r) && r.seqNum == k % WIRE;
    var rest := UsesUpTokens(s3);
    StrandsFirst(s2, Post, rest);
    StrandsFirst(s1, Copy(r), [Post] + rest);
    StrandsFirst(s, Answer(k), [Copy(r)] + ([Post] + rest));
    actions := [Answer(k)] + ([Copy(r)] + ([Post] + rest));
  }

  /** A reply that is received while its caller waits reaches the caller, whatever happens until the next call, if and
      only if no earlier request that was sent, and is short enough to be answered, has another number: the reply to
      such a request can come late and hide it. Otherwise the caller never waits in vain, and ends its call when it
      looks. */
  lemma ReplyReachesCallerIff(s: State)
    requires Inv(s) && s.caller.Waiting? && s.cache.Some? && s.cache.value.of == Current(s)
    ensures NeverStranded(s) <==> forall k :: 0 <= k < Current(s) ==> !Rival(s, k)
    ensures NeverStranded(s) ==> AlwaysAnswered(s)
  {
    if k :| 0 <= k < Current(s) && Rival(s, k) {
      hide Inv, Rival, Strands;
      var s' := if s.listener.Posting? then Next(s, Post) else s;
      assert Rival(s', k) by { SameRival(s, s', k); }
      var actions := RivalStrands(s', k);
      if s.listener.Posting? {
        StrandsFirst(s, Post, actions);
        actions := [Post] + actions;
      }
      assert Strands(s, actions);
      StrandsRefutes(s, actions);
    } else {
      assert Expecting(s);
      hide Inv, Expecting, Stranded, Answered;
      forall actions | CanDo(s, actions) && SameCall(actions)
        ensures !Stranded(Do(s, actions)) && Do(s, actions).reqs != [] && Answered(Do(s, actions))
      {
        ExpectingIsNeverStranded(s, actions);
      }
    }
  }

  lemma SameRival(s: State, s': State, k: nat)
    requires s.reqs != [] && s'.reqs == s.reqs && Rival(s, k)
    ensures Rival(s', k)
  {
  }

  lemma StrandsRefutes(s: State, actions: seq<Action>)
    requires Strands(s, actions)
    ensures !NeverStranded(s)
  {
    hide Stranded;
  }

  // ----- What a remote lookup returns -----

  predicate AllZero(bytes: Bytes) {
    forall i :: 0 <= i < |bytes| ==> bytes[i] == 0
  }

  predicate CarriesFaithfully(len: nat, bytes: Bytes) {
    if len <= WORD then len <= |bytes| else |bytes| > WORD || AllZero(bytes)
  }

  /** A lookup on another processor returns what the same lookup there would return, the first min(len, stored length)
      bytes, if and only if a request for at most a word finds that much stored, or a longer one finds more than a
      word stored or nothing but zeros: a shorter value is sent in the field that the caller does not read. */
  lemma RemoteReturnsWhatLocalDoes(req: Request, k: nat, bytes: Bytes)
    ensures Respond(req, k, Some(bytes)).found && Readable(Respond(req, k, Some(bytes)))
    ensures Extract(Respond(req, k, Some(bytes))) == Clip(bytes, req.len) <==> CarriesFaithfully(req.len, bytes)
  {
    var reply := Respond(req, k, Some(bytes));
    var got := Extract(reply);
    if req.len <= WORD {
      assert got[..req.len] == got && |got| == req.len;
      if req.len <= |bytes| {
        var clipped := Clip(bytes, WORD);
        assert forall i :: 0 <= i < req.len ==> got[i] == clipped[i];
        assert got == bytes[..req.len];
      }
    } else if |bytes| <= WORD {
      assert Clip(bytes, req.len) == bytes;
      assert got == Zeros(WORD)[..|bytes|];
      assert got == bytes ==> forall i :: 0 <= i < |bytes| ==> bytes[i] == got[i];
      assert AllZero(bytes) ==> got == bytes;
    }
  }

  /** A four-byte value published under a name, asked for with room for more, comes back as zeros. */
  lemma ShortValueIsLost(k: nat, key: Key)
    ensures var reply := Respond(Request(key, 8, true), k, Some([1, 2, 3, 4]));
      reply.found && Readable(reply) && Extract(reply) == [0, 0, 0, 0]
  {
    assert Clip([1, 2, 3, 4], 8) == [1, 2, 3, 4];
    assert Zeros(WORD)[..4] == [0, 0, 0, 0];
  }
}
