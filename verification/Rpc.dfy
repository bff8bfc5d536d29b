/** Calls over one stream socket (phaul/xem_rpc.py and phaul/xem_rpc_client.py). */
module Rpc {
  import opened Prelude

  const RPC_SK_BUF: nat := 16384

  datatype Kind = CMD | CALL | UNKNOWN

  datatype Request = Request(kind: Kind, fn: string, args: seq<int>)

  datatype Reply = RESP(value: int) | EXC(what: string)

  /** What the caller gets: a value, the exception of the server, or one of its own because what
      it received does not evaluate. */
  datatype Answer = Returned(value: int) | Raised(what: string) | Garbled

  // The object behind the server is only known by what its methods answer. Since it is
  // deterministic, its state is the sequence of calls it has executed, and its answer a
  // function of that.

  /** The world outside the protocol: the answers, and how long messages are when printed. */
  datatype World = World(answer: seq<Request> -> Reply, requestSize: Request -> nat, replySize: Reply -> nat)

  predicate InitRpc(r: Request) {
    r.kind.CMD? && r.fn == "init_rpc"
  }

  // ---- direct calls ------------------------------------------------------------------------

  /** The server's object, if it was made, as the calls it has executed. */
  type Master = Option<seq<Request>>

  function MasterAfter(m: Master, r: Request): Master {
    if InitRpc(r) then Some([])
    else if r.kind.CALL? && m.Some? then Some(m.value + [r])
    else m
  }

  function ReplyTo(w: World, m: Master, r: Request): Reply {
    if r.kind.CALL? then
      if m.None? then EXC("Proto seq error") else w.answer(m.value + [r])
    else if InitRpc(r) then
      if r.args == [] then RESP(0) else EXC("on_connect")
    else EXC(if r.kind.CMD? then "no such command" else "Proto typ error")
  }

  function Seen(reply: Reply): Answer {
    if reply.RESP? then Returned(reply.value) else Raised(reply.what)
  }

  /** The object after a sequence of direct calls, */
  function DirectMaster(reqs: seq<Request>): Master {
    if reqs == [] then None else MasterAfter(DirectMaster(reqs[..|reqs| - 1]), reqs[|reqs| - 1])
  }

  /** and what they return. */
  function Direct(w: World, reqs: seq<Request>): seq<Answer> {
    if reqs == [] then [] else
    var init, r := reqs[..|reqs| - 1], reqs[|reqs| - 1];
    Direct(w, init) + [Seen(ReplyTo(w, DirectMaster(init), r))]
  }

  // ---- what a request must be answered, said without a state --------------------------------

  /** The calls among some requests, in order. */
  function Calls(reqs: seq<Request>): seq<Request> {
    if reqs == [] then [] else (if reqs[0].kind == CALL then [reqs[0]] else []) + Calls(reqs[1..])
  }

  /** Request `j` made the object that stands at request `i`. */
  ghost predicate LastInit(reqs: seq<Request>, j: nat, i: nat)
    requires i <= |reqs|
  {
    && j < i && reqs[j].kind == CMD && reqs[j].fn == "init_rpc"
    && forall k | j < k < i :: reqs[k].kind == CMD ==> reqs[k].fn != "init_rpc"
  }

  /** `reply` is what request `i` must be answered: a call is answered by the object that the last
      `init_rpc` before it made, after the calls since then and the call itself. */
  ghost predicate RightReply(w: World, reqs: seq<Request>, i: nat, reply: Reply)
    requires i < |reqs|
  {
    var r := reqs[i];
    && (r.kind == UNKNOWN ==> reply == EXC("Proto typ error"))
    && (r.kind == CMD && r.fn != "init_rpc" ==> reply == EXC("no such command"))
    && (r.kind == CMD && r.fn == "init_rpc" ==> reply == if r.args == [] then RESP(0) else EXC("on_connect"))
    && (r.kind == CALL && (forall j: nat | j < i :: !LastInit(reqs, j, i)) ==> reply == EXC("Proto seq error"))
    && (r.kind == CALL ==> forall j: nat | LastInit(reqs, j, i) :: reply == w.answer(Calls(reqs[j + 1..i + 1])))
  }

  /** `a` is what the caller of request `i` must see: the value, or the exception. */
  ghost predicate Right(w: World, reqs: seq<Request>, i: nat, a: Answer)
    requires i < |reqs|
  {
    && (forall v :: a == Returned(v) <==> RightReply(w, reqs, i, RESP(v)))
    && (forall x :: a == Raised(x) <==> RightReply(w, reqs, i, EXC(x)))
  }

  /** The reply to request `i` does not fit the buffer of the client. */
  ghost predicate LongReply(w: World, reqs: seq<Request>, i: nat)
    requires i < |reqs|
  {
    exists reply :: RightReply(w, reqs, i, reply) && w.replySize(reply) > RPC_SK_BUF
  }

  lemma {:induction false} CallsSplit(a: seq<Request>, b: seq<Request>)
    ensures Calls(a + b) == Calls(a) + Calls(b)
  {
    if a == [] {
      assert a + b == b;
    } else {
      var first := if a[0].kind == CALL then [a[0]] else [];
      CallsSplit(a[1..], b);
      assert (a + b)[1..] == a[1..] + b;
      assert first + (Calls(a[1..]) + Calls(b)) == first + Calls(a[1..]) + Calls(b);
    }
  }

  lemma CallsMore(reqs: seq<Request>, r: Request)
    ensures Calls(reqs + [r]) == Calls(reqs) + if r.kind == CALL then [r] else []
  {
    CallsSplit(reqs, [r]);
    assert [r][1..] == [];
  }

  /** The object after some requests is made by the last `init_rpc`, and keeps the calls since then. */
  lemma {:induction false} MasterSince(reqs: seq<Request>, j: nat)
    requires LastInit(reqs, j, |reqs|)
    ensures DirectMaster(reqs) == Some(Calls(reqs[j + 1..]))
  {
    var n := |reqs| - 1;
    var init, r := reqs[..n], reqs[n];
    if j == n {
      assert Calls(reqs[j + 1..]) == [];
    } else {
      assert LastInit(init, j, n) && !InitRpc(r);
      MasterSince(init, j);
      var since := Calls(init[j + 1..]);
      assert reqs[j + 1..] == init[j + 1..] + [r];
      CallsMore(init[j + 1..], r);
      assert since + [] == since;
    }
  }

  /** Without an `init_rpc` there is none. */
  lemma {:induction false} NoMaster(reqs: seq<Request>)
    requires forall j: nat | j < |reqs| :: !LastInit(reqs, j, |reqs|)
    ensures DirectMaster(reqs).None?
  {
    if reqs != [] {
      var n := |reqs| - 1;
      var init, r := reqs[..n], reqs[n];
      assert !LastInit(reqs, n, n + 1);
      forall j: nat | j < n ensures !LastInit(init, j, n) {
        assert !LastInit(reqs, j, n + 1);
      }
      NoMaster(init);
    }
  }

  /** There is exactly one right reply, and the state of the server gives it. */
  lemma RightIff(w: World, reqs: seq<Request>, i: nat, reply: Reply)
    requires i < |reqs|
    ensures RightReply(w, reqs, i, reply) <==> reply == ReplyTo(w, DirectMaster(reqs[..i]), reqs[i])
  {
    if reqs[i].kind != CALL {
    } else if forall j: nat | j < i :: !LastInit(reqs, j, i) {
      WithoutInit(w, reqs, i, reply);
    } else {
      var j: nat :| j < i && LastInit(reqs, j, i);
      WithInit(w, reqs, i, j, reply);
    }
  }

  lemma WithoutInit(w: World, reqs: seq<Request>, i: nat, reply: Reply)
    requires i < |reqs| && reqs[i].kind == CALL && forall j: nat | j < i :: !LastInit(reqs, j, i)
    ensures RightReply(w, reqs, i, reply) <==> reply == ReplyTo(w, DirectMaster(reqs[..i]), reqs[i])
  {
    forall j: nat | j < i ensures !LastInit(reqs[..i], j, i) { InitInPrefix(reqs, j, i); }
    NoMaster(reqs[..i]);
  }

  lemma WithInit(w: World, reqs: seq<Request>, i: nat, j: nat, reply: Reply)
    requires i < |reqs| && reqs[i].kind == CALL && LastInit(reqs, j, i)
    ensures RightReply(w, reqs, i, reply) <==> reply == ReplyTo(w, DirectMaster(reqs[..i]), reqs[i])
  {
    InitInPrefix(reqs, j, i);
    SinceInit(reqs[..i], reqs[i], j);
    assert reqs[j + 1..i + 1] == reqs[..i][j + 1..] + [reqs[i]];
    forall k: nat | LastInit(reqs, k, i) ensures k == j { }
  }

  lemma InitInPrefix(reqs: seq<Request>, j: nat, i: nat)
    requires j < i < |reqs|
    ensures LastInit(reqs[..i], j, i) <==> LastInit(reqs, j, i)
  {
    var init := reqs[..i];
    assert init[j] == reqs[j] && forall k | j < k < i :: init[k] == reqs[k];
  }

  lemma SinceInit(init: seq<Request>, r: Request, j: nat)
    requires LastInit(init, j, |init|)
    ensures DirectMaster(init).Some?
    ensures r.kind == CALL ==> DirectMaster(init).value + [r] == Calls(init[j + 1..] + [r])
  {
    MasterSince(init, j);
    CallsMore(init[j + 1..], r);
  }

  /** Only the requests up to `i` matter. */
  lemma RightPrefix(w: World, reqs: seq<Request>, n: nat, i: nat)
    requires i < n <= |reqs|
    ensures forall reply :: RightReply(w, reqs[..n], i, reply) <==> RightReply(w, reqs, i, reply)
    ensures forall a :: Right(w, reqs[..n], i, a) <==> Right(w, reqs, i, a)
    ensures LongReply(w, reqs[..n], i) <==> LongReply(w, reqs, i)
  {
    assert reqs[..n][..i] == reqs[..i];
    forall reply ensures RightReply(w, reqs[..n], i, reply) <==> RightReply(w, reqs, i, reply) {
      RightIff(w, reqs, i, reply);
      RightIff(w, reqs[..n], i, reply);
    }
  }

  /** A direct call returns or raises exactly what it must. */
  lemma DirectIsRight(w: World, reqs: seq<Request>, i: nat)
    requires i < |reqs|
    ensures |Direct(w, reqs)| == |reqs| && Right(w, reqs, i, Direct(w, reqs)[i])
  {
    DirectAt(w, reqs, i);
    forall reply ensures RightReply(w, reqs, i, reply) <==> reply == ReplyTo(w, DirectMaster(reqs[..i]), reqs[i]) {
      RightIff(w, reqs, i, reply);
    }
  }

  // ---- client and server on their own ---------------------------------------------------------

  datatype Client = Idle | Waiting | Closed

  datatype Server = Serving | Gone | Halted | Crashed

  datatype State = State(
    client: Client,
    sent: seq<Request>,     // every request sent so far
    answers: seq<Answer>,   // and what each call returned
    up: seq<Request>,       // in flight to the server
    down: seq<Reply>,       // in flight to the client
    spoiled: bool,          // the tail of a long reply is still on its way
    server: Server,
    master: Master,
    executed: seq<Request>, // every call made on a master
    disconnects: nat)

  datatype Event =
    | Send(r: Request)
    | Work  // the server finds a message, or the end of the stream
    | Recv
    | Close
    | Stop  // by the stop descriptor

  const START := State(Idle, [], [], [], [], false, Serving, None, [], 0)

  predicate Can(s: State, e: Event) {
    match e
    case Send(_) => s.client.Idle?
    case Work => s.server.Serving? && (s.up != [] || s.client.Closed?)
    case Recv => s.client.Waiting? && s.down != []
    case Close => s.client.Idle?
    case Stop => s.server.Serving?
  }

  predicate TooLong(w: World, r: Request) {
    w.requestSize(r) > RPC_SK_BUF
  }

  /** The server reads one message: one that does not fit its buffer does not evaluate, which ends
      the server thread; the end of the stream takes it off the poll list. */
  function Worked(w: World, s: State): State
    requires Can(s, Work)
  {
    if s.up == [] then
      s.(server := Gone, disconnects := s.disconnects + if s.master.Some? then 1 else 0)
    else
    var r := s.up[0];
    if TooLong(w, r) then s.(up := s.up[1..], server := Crashed)
    else
      s.(up := s.up[1..], master := MasterAfter(s.master, r),
         executed := if r.kind.CALL? && s.master.Some? then s.executed + [r] else s.executed,
         down := s.down + [ReplyTo(w, s.master, r)])
  }

  function Received(w: World, s: State): State
    requires Can(s, Recv)
  {
    var long := w.replySize(s.down[0]) > RPC_SK_BUF;
    var answer := if s.spoiled || long then Garbled else Seen(s.down[0]);
    s.(client := Idle, down := s.down[1..], answers := s.answers + [answer], spoiled := s.spoiled || long)
  }

  function Next(w: World, s: State, e: Event): State
    requires Can(s, e)
  {
    match e
    case Send(r) => s.(client := Waiting, sent := s.sent + [r], up := s.up + [r])
    case Work => Worked(w, s)
    case Recv => Received(w, s)
    case Close => s.(client := Closed)
    case Stop => s.(server := Halted)
  }

  function Exec(w: World, log: seq<Event>): Option<State> {
    if log == [] then Some(START) else
    match Exec(w, log[..|log| - 1])
    case Some(s) => if Can(s, log[|log| - 1]) then Some(Next(w, s, log[|log| - 1])) else None
    case None => None
  }

  ghost predicate Possible(w: World, log: seq<Event>) {
    Exec(w, log).Some?
  }

  function After(w: World, log: seq<Event>): State
    requires Possible(w, log)
  {
    Exec(w, log).value
  }

  // ---- what every run keeps ----------------------------------------------------------------

  /** The calls that reach a master: those after the first init. */
  function CallsAfterInit(reqs: seq<Request>): seq<Request> {
    if reqs == [] then [] else
    var init, r := reqs[..|reqs| - 1], reqs[|reqs| - 1];
    CallsAfterInit(init) + if r.kind.CALL? && DirectMaster(init).Some? then [r] else []
  }

  /** The requests the server has handled. */
  function Handled(s: State): seq<Request> {
    if s.client.Waiting? && s.down == [] && s.sent != [] then s.sent[..|s.sent| - 1] else s.sent
  }

  /** No reply so far was too long. */
  ghost predicate RepliesFit(w: World, reqs: seq<Request>) {
    reqs != [] ==>
      var init := reqs[..|reqs| - 1];
      RepliesFit(w, init) && w.replySize(ReplyTo(w, DirectMaster(init), reqs[|reqs| - 1])) <= RPC_SK_BUF
  }

  /** Requests and replies in flight, and who waits for them. */
  ghost predicate Traffic(w: World, s: State) {
    && |s.up| + |s.down| <= 1
    && |s.sent| == |s.answers| + (if s.client.Waiting? then 1 else 0)
    && (!s.client.Waiting? ==> s.up == [] && s.down == [])
    && (s.client.Waiting? && s.up == [] && s.down == [] ==> s.server.Crashed?)
    && (s.up != [] ==> s.up == [s.sent[|s.sent| - 1]])
    && (s.down != [] ==> s.down == [ReplyTo(w, DirectMaster(s.sent[..|s.sent| - 1]), s.sent[|s.sent| - 1])])
    && (s.server.Gone? ==> s.client.Closed?)
    && (s.server.Crashed? ==> exists r | r in s.sent :: TooLong(w, r))
  }

  ghost predicate Served(s: State) {
    && s.master == DirectMaster(Handled(s)) && s.executed == CallsAfterInit(Handled(s))
    && s.disconnects == (if s.server.Gone? && s.master.Some? then 1 else 0)
  }

  ghost predicate Replied(w: World, s: State) {
    && |s.answers| <= |s.sent| && (s.spoiled <==> !RepliesFit(w, s.sent[..|s.answers|]))
    && forall i | 0 <= i < |s.answers| :: AnswerAt(w, s.sent, i, s.answers[i])
  }

  ghost predicate AnswerAt(w: World, reqs: seq<Request>, i: nat, a: Answer)
    requires i < |reqs|
  {
    a == if RepliesFit(w, reqs[..i + 1]) then Seen(ReplyTo(w, DirectMaster(reqs[..i]), reqs[i])) else Garbled
  }

  ghost predicate Inv(w: World, s: State) {
    Traffic(w, s) && Served(s) && Replied(w, s)
  }

  lemma SendStep(w: World, s: State, r: Request)
    requires Inv(w, s) && Can(s, Send(r))
    ensures Inv(w, Next(w, s, Send(r)))
  {
    var t := Next(w, s, Send(r));
    assert t.sent[..|s.sent|] == s.sent[..|s.sent|] == s.sent;
    SendReplied(w, s, t, r);
    assert forall x | x in s.sent :: x in t.sent;
  }

  lemma SendReplied(w: World, s: State, t: State, r: Request)
    requires Replied(w, s) && t.sent == s.sent + [r] && t.answers == s.answers && t.spoiled == s.spoiled
    ensures Replied(w, t)
  {
    forall k | 0 <= k <= |s.sent| ensures t.sent[..k] == s.sent[..k] { }
    forall i | 0 <= i < |t.answers| ensures AnswerAt(w, t.sent, i, t.answers[i]) {
      assert AnswerAt(w, s.sent, i, s.answers[i]);
    }
  }

  lemma WorkStep(w: World, s: State)
    requires Inv(w, s) && Can(s, Work)
    ensures Inv(w, Worked(w, s))
  {
    if s.up != [] {
      assert s.sent[|s.sent| - 1] in s.sent;
      assert Handled(s) == s.sent[..|s.sent| - 1];
      WorkReplied(w, s, Worked(w, s));
    }
  }

  lemma WorkReplied(w: World, s: State, t: State)
    requires Replied(w, s) && t.sent == s.sent && t.answers == s.answers && t.spoiled == s.spoiled
    ensures Replied(w, t)
  {
  }

  lemma RecvStep(w: World, s: State)
    requires Inv(w, s) && Can(s, Recv)
    ensures Inv(w, Received(w, s))
  {
    var t := Received(w, s);
    var n := |s.answers|;
    assert t.sent[..|t.answers|] == s.sent && s.sent[..|s.sent| - 1] == s.sent[..n];
    RecvReplied(w, s, t);
  }

  lemma RecvReplied(w: World, s: State, t: State)
    requires Replied(w, s) && Can(s, Recv) && t == Received(w, s) && |s.sent| == |s.answers| + 1
    requires var n := |s.answers|; s.down[0] == ReplyTo(w, DirectMaster(s.sent[..n]), s.sent[n])
    ensures Replied(w, t)
  {
    var n := |s.answers|;
    assert s.sent[..n + 1] == s.sent && s.sent[..|s.sent| - 1] == s.sent[..n];
    assert RepliesFit(w, s.sent) <==> RepliesFit(w, s.sent[..n]) && w.replySize(s.down[0]) <= RPC_SK_BUF;
    assert AnswerAt(w, s.sent, n, t.answers[n]);
    forall i | 0 <= i < n ensures AnswerAt(w, s.sent, i, t.answers[i]) {
      assert t.answers[i] == s.answers[i];
    }
  }

  lemma OtherStep(w: World, s: State, e: Event)
    requires Inv(w, s) && Can(s, e) && (e.Close? || e.Stop?)
    ensures Inv(w, Next(w, s, e))
  {
  }

  lemma {:induction false} Always(w: World, log: seq<Event>)
    requires Possible(w, log)
    ensures Inv(w, After(w, log))
  {
    if log == [] {
      assert RepliesFit(w, []) && Direct(w, []) == [];
    } else {
      var s, e := After(w, log[..|log| - 1]), log[|log| - 1];
      Always(w, log[..|log| - 1]);
      match e
      case Send(r) => SendStep(w, s, r);
      case Work => WorkStep(w, s);
      case Recv => RecvStep(w, s);
      case _ => OtherStep(w, s, e);
    }
  }

  // ---- the promises of the protocol --------------------------------------------------------------

  lemma {:induction false} DirectLength(w: World, reqs: seq<Request>)
    ensures |Direct(w, reqs)| == |reqs| && Garbled !in Direct(w, reqs)
  {
    if reqs != [] {
      DirectLength(w, reqs[..|reqs| - 1]);
    }
  }

  /** Direct calls answer one after the other. */
  lemma {:induction false} DirectAt(w: World, reqs: seq<Request>, i: nat)
    requires i < |reqs|
    ensures |Direct(w, reqs)| == |reqs| && Direct(w, reqs)[i] == Seen(ReplyTo(w, DirectMaster(reqs[..i]), reqs[i]))
  {
    var init := reqs[..|reqs| - 1];
    DirectLength(w, init);
    if i < |init| {
      DirectAt(w, init, i);
      assert init[..i] == reqs[..i];
    }
  }

  /** However client and server interleave: as long as every reply fits the buffer, the calls that
      returned, returned what direct calls in that order do, and one reply that does not fit is
      enough to break that. */
  lemma RefinesDirectCalls(w: World, log: seq<Event>)
    requires Possible(w, log)
    ensures var s := After(w, log);
      && |s.answers| <= |s.sent|
      && var reqs := s.sent[..|s.answers|];
        s.answers == Direct(w, reqs) <==> RepliesFit(w, reqs)
  {
    Always(w, log);
    var s := After(w, log);
    var reqs := s.sent[..|s.answers|];
    DirectLength(w, reqs);
    if RepliesFit(w, reqs) {
      forall i | 0 <= i < |reqs| ensures s.answers[i] == Direct(w, reqs)[i] {
        FitsPrefix(w, reqs, i + 1);
        DirectAt(w, reqs, i);
        assert reqs[..i + 1] == s.sent[..i + 1] && reqs[..i] == s.sent[..i];
        assert AnswerAt(w, s.sent, i, s.answers[i]);
      }
    } else {
      var last := |reqs| - 1;
      assert s.sent[..last + 1] == reqs;
      assert AnswerAt(w, s.sent, last, s.answers[last]);
      assert s.answers[last] == Garbled && s.answers[last] in s.answers;
    }
  }

  lemma {:induction false} FitsPrefix(w: World, reqs: seq<Request>, n: nat)
    requires RepliesFit(w, reqs) && n <= |reqs|
    ensures RepliesFit(w, reqs[..n])
  {
    if n < |reqs| {
      var init := reqs[..|reqs| - 1];
      FitsPrefix(w, init, n);
      assert init[..n] == reqs[..n];
    } else {
      assert reqs[..n] == reqs;
    }
  }

  lemma {:induction false} FitsIff(w: World, reqs: seq<Request>)
    ensures RepliesFit(w, reqs) <==> forall i | 0 <= i < |reqs| :: !LongReply(w, reqs, i)
  {
    if reqs != [] {
      var n := |reqs| - 1;
      FitsIff(w, reqs[..n]);
      LongPrefix(w, reqs, n);
      LongIff(w, reqs, n);
    }
  }

  lemma LongPrefix(w: World, reqs: seq<Request>, n: nat)
    requires n <= |reqs|
    ensures (forall i | 0 <= i < n :: !LongReply(w, reqs[..n], i)) <==> forall i | 0 <= i < n :: !LongReply(w, reqs, i)
  {
    forall i | 0 <= i < n ensures LongReply(w, reqs[..n], i) <==> LongReply(w, reqs, i) {
      RightPrefix(w, reqs, n, i);
    }
  }

  lemma LongIff(w: World, reqs: seq<Request>, i: nat)
    requires i < |reqs|
    ensures LongReply(w, reqs, i) <==> w.replySize(ReplyTo(w, DirectMaster(reqs[..i]), reqs[i])) > RPC_SK_BUF
  {
    var reply := ReplyTo(w, DirectMaster(reqs[..i]), reqs[i]);
    RightIff(w, reqs, i, reply);
    forall other | RightReply(w, reqs, i, other) ensures other == reply { RightIff(w, reqs, i, other); }
  }

  /** What each call returned, however client and server interleave: nothing that evaluates from the
      first reply on that does not fit, and before that exactly what it must. */
  lemma AnswersAreRight(w: World, log: seq<Event>, i: nat)
    requires Possible(w, log) && i < |After(w, log).answers|
    ensures var s := After(w, log);
      && |s.answers| <= |s.sent|
      && (s.answers[i].Garbled? <==> exists k | 0 <= k <= i :: LongReply(w, s.sent, k))
      && (!s.answers[i].Garbled? ==> Right(w, s.sent, i, s.answers[i]))
  {
    Always(w, log);
    var s := After(w, log);
    var reqs := s.sent[..i + 1];
    FitsIff(w, reqs);
    forall k | 0 <= k <= i ensures LongReply(w, reqs, k) <==> LongReply(w, s.sent, k) {
      RightPrefix(w, s.sent, i + 1, k);
    }
    DirectIsRight(w, s.sent, i);
    DirectAt(w, s.sent, i);
    assert AnswerAt(w, s.sent, i, s.answers[i]);
  }

  /** Every call that follows the first `init_rpc` is executed once and in order, no other one is. */
  lemma ExecutedInOrder(w: World, log: seq<Event>, j: nat)
    requires Possible(w, log) && j <= |Handled(After(w, log))|
    requires var reqs := Handled(After(w, log));
      && (forall k | 0 <= k < j :: !(reqs[k].kind == CMD && reqs[k].fn == "init_rpc"))
      && (j < |reqs| ==> reqs[j].kind == CMD && reqs[j].fn == "init_rpc")
    ensures After(w, log).executed == Calls(Handled(After(w, log))[j..])
  {
    Always(w, log);
    CallsFrom(Handled(After(w, log)), j);
  }

  lemma {:induction false} CallsFrom(reqs: seq<Request>, j: nat)
    requires j <= |reqs| && (forall k | 0 <= k < j :: !InitRpc(reqs[k])) && (j < |reqs| ==> InitRpc(reqs[j]))
    ensures CallsAfterInit(reqs) == Calls(reqs[j..])
  {
    if reqs != [] {
      var n := |reqs| - 1;
      var init, r := reqs[..n], reqs[n];
      MasterIffInit(init);
      if j <= n {
        CallsFrom(init, j);
        assert reqs[j..] == init[j..] + [r];
        CallsMore(init[j..], r);
        if j < n { assert init[j] in init; }
      } else {
        CallsFrom(init, n);
        assert reqs[j..] == [] && init[n..] == [];
      }
    }
  }

  /** At most one message is in flight, in either direction. A client that waits is served or has its
      reply on the way, unless a request that does not fit or the stop descriptor has ended the
      server thread. */
  lemma OneInFlight(w: World, log: seq<Event>)
    requires Possible(w, log)
    ensures var s := After(w, log);
      && |s.up| + |s.down| <= 1 && (s.client.Idle? ==> s.up == [] && s.down == [])
      && (s.client.Waiting? ==> Can(s, Work) || Can(s, Recv) || s.server.Crashed? || s.server.Halted?)
      && (s.server.Crashed? ==> exists r | r in s.sent :: TooLong(w, r))
      && (s.server.Halted? ==> Stop in log)
  {
    Always(w, log);
    if After(w, log).server.Halted? {
      HaltedByStop(w, log);
    }
  }

  lemma {:induction false} HaltedByStop(w: World, log: seq<Event>)
    requires Possible(w, log) && After(w, log).server.Halted?
    ensures Stop in log
  {
    if log[|log| - 1] != Stop {
      HaltedByStop(w, log[..|log| - 1]);
    }
  }

  /** There is a master exactly when an `init_rpc` was handled. */
  lemma {:induction false} MasterIffInit(reqs: seq<Request>)
    ensures DirectMaster(reqs).Some? <==> exists r | r in reqs :: InitRpc(r)
  {
    if reqs != [] {
      var init, last := reqs[..|reqs| - 1], reqs[|reqs| - 1];
      MasterIffInit(init);
      assert reqs == init + [last];
    }
  }

  /** No call is executed before an `init_rpc` was handled: when the server executes one, there was. */
  lemma InitComesFirst(w: World, log: seq<Event>)
    requires Possible(w, log) && Possible(w, log + [Work])
    requires After(w, log + [Work]).executed != After(w, log).executed
    ensures exists r | r in Handled(After(w, log)) :: InitRpc(r)
  {
    assert (log + [Work])[..|log|] == log;
    Always(w, log);
    MasterIffInit(Handled(After(w, log)));
  }

  /** Calls made before the first `init_rpc` raise at the client and touch nothing. */
  lemma {:induction false} BeforeInit(w: World, reqs: seq<Request>, i: nat)
    requires i < |reqs| && reqs[i].kind.CALL? && forall k | 0 <= k < i :: !InitRpc(reqs[k])
    ensures |Direct(w, reqs)| == |reqs| && Direct(w, reqs)[i] == Raised("Proto seq error")
  {
    DirectAt(w, reqs, i);
    MasterIffInit(reqs[..i]);
  }

  /** The service is told of the disconnect at most once, and only after the client closed; and it
      is told, if it exists, as soon as the server has seen the end of the stream. */
  lemma DisconnectOnce(w: World, log: seq<Event>)
    requires Possible(w, log)
    ensures var s := After(w, log);
      && s.disconnects <= 1 && (s.disconnects == 1 ==> s.client.Closed?)
      && (s.server.Gone? ==>
        (s.disconnects == 1 <==> exists r | r in s.sent :: r.kind == CMD && r.fn == "init_rpc"))
  {
    Always(w, log);
    MasterIffInit(Handled(After(w, log)));
  }

  // ---- the server loop and the proxy -------------------------------------------------------------

  datatype Arrival = Message(r: Request) | EndOfStream | StopFd

  /** `_rpc_server_sk` and the manager that polls it. */
  class RpcServer {
    const w: World
    var master: Master
    var polled: bool              // the socket is on the poll list
    var alive: bool
    var disconnects: nat
    var replies: seq<Reply>       // sent and not yet received
    ghost var handled: seq<Request>

    ghost predicate Valid()
      reads this
    {
      master == DirectMaster(handled)
    }

    constructor (w: World)
      ensures Valid() && this.w == w && polled && alive && handled == [] && replies == [] && disconnects == 0
    {
      this.w, master, polled, alive, disconnects := w, None, true, true, 0;
      replies, handled := [], [];
    }

    method InitRpc(args: seq<int>) returns (res: Reply)
      modifies this`master
      ensures master == Some([]) && res == (if args == [] then RESP(0) else EXC("on_connect"))
    {
      master := Some([]);
      return if args == [] then RESP(0) else EXC("on_connect");
    }

    /** `work`; false if the exception leaves it. */
    method Work(raw: Option<Request>) returns (ok: bool)
      requires Valid() && polled
      modifies this`master, this`polled, this`disconnects, this`replies, this`handled
      ensures Valid()
      ensures raw.None? ==> ok && !polled && replies == old(replies) && handled == old(handled) && master == old(master)
      ensures raw.None? ==> disconnects == old(disconnects) + if master.Some? then 1 else 0
      ensures raw.Some? ==> polled && disconnects == old(disconnects) && ok == !TooLong(w, raw.value)
      ensures raw.Some? && ok ==> handled == old(handled) + [raw.value]
      ensures raw.Some? && ok ==> replies == old(replies) + [ReplyTo(w, DirectMaster(old(handled)), raw.value)]
      ensures raw.Some? && ok ==> RightReply(w, handled, |handled| - 1, replies[|replies| - 1])
      ensures raw.Some? && !ok ==> handled == old(handled) && replies == old(replies)
    {
      if raw.None? {
        polled := false;
        if master.Some? {
          disconnects := disconnects + 1;
        }
        return true;
      }
      var r := raw.value;
      if TooLong(w, r) {
        return false;
      }
      var res := Dispatch(r);
      handled := handled + [r];
      assert handled[..|handled| - 1] == old(handled);
      replies := replies + [res];
      RightIff(w, handled, |handled| - 1, res);
      return true;
    }

    /** The `try` block of `work`. */
    method Dispatch(r: Request) returns (res: Reply)
      modifies this`master
      ensures master == MasterAfter(old(master), r) && res == ReplyTo(w, old(master), r)
    {
      if r.kind.CALL? {
        if master.None? {
          res := EXC("Proto seq error");
        } else {
          master := Some(master.value + [r]);
          res := w.answer(master.value);
        }
      } else if r.kind.CMD? {
        if r.fn == "init_rpc" {
          res := InitRpc(r.args);
        } else {
          res := EXC("no such command");
        }
      } else {
        res := EXC("Proto typ error");
      }
    }

    /** The replies sent are those of direct calls. */
    ghost predicate Answering()
      reads this
    {
      Valid() && Answered(w, handled, replies)
    }

    method Serve(r: Request) returns (ok: bool)
      requires Answering() && polled
      modifies this`master, this`polled, this`disconnects, this`replies, this`handled
      ensures Answering() && polled && disconnects == old(disconnects) && ok == !TooLong(w, r)
      ensures handled == if ok then old(handled) + [r] else old(handled)
      ensures ok ==> replies == old(replies) + [ReplyTo(w, DirectMaster(old(handled)), r)]
    {
      ok := Work(Some(r));
      if ok {
        AnsweredMore(w, old(handled), old(replies), r);
      }
    }

    /** One descriptor is ready. */
    method Arrive(a: Arrival)
      requires Answering() && alive
      modifies this
      ensures Answering() && (old(!polled) ==> !polled && handled == old(handled) && master == old(master))
      ensures polled <==> old(polled) && !a.EndOfStream?
      ensures handled == if alive && old(polled) && a.Message? then old(handled) + [a.r] else old(handled)
      ensures alive <==> !(a.StopFd? || (a.Message? && old(polled) && w.requestSize(a.r) > 16384))
      ensures disconnects == old(disconnects) + if old(polled) && !polled && master.Some? then 1 else 0
    {
      match a {
        case StopFd => alive := false;
        case EndOfStream =>
          if polled {
            var ok := Work(None);
          }
        case Message(r) =>
          if polled {
            alive := Serve(r);
          }
      }
    }

    /** `loop`, for what arrives while it is on: the messages until the stream or the loop ends are
        answered in order, as direct calls are. */
    method Loop(arrivals: seq<Arrival>) returns (n: nat)
      requires Answering() && polled && alive && handled == []
      modifies this
      ensures Answering() && n <= |arrivals|
      ensures if alive then n == |arrivals| && forall k | 0 <= k < n :: !Ends(w, arrivals, k)
        else n > 0 && Ends(w, arrivals, n - 1) && forall k | 0 <= k < n - 1 :: !Ends(w, arrivals, k)
      ensures polled <==> Open(arrivals, n)
      ensures polled ==> handled == MessagesOf(arrivals[..if alive then n else n - 1])
      ensures forall k | 0 <= k < n && arrivals[k].EndOfStream? && Open(arrivals, k) ::
        handled == MessagesOf(arrivals[..k])
      ensures disconnects == old(disconnects) + if !polled && master.Some? then 1 else 0
    {
      n := 0;
      LoopedStart(w, arrivals);
      while alive && n < |arrivals|
        invariant n <= |arrivals| && Answering() && Looped(w, arrivals, n, alive, polled, handled)
        invariant disconnects == old(disconnects) + if !polled && master.Some? then 1 else 0
      {
        ghost var polled0, handled0 := polled, handled;
        Arrive(arrivals[n]);
        LoopedMore(w, arrivals, n, polled0, handled0, alive, polled, handled);
        n := n + 1;
      }
    }
  }

  /** The loop is over with arrival `k`: the stop descriptor, or a message that does not fit while
      the stream is still polled. */
  ghost predicate Ends(w: World, arrivals: seq<Arrival>, k: nat)
    requires k < |arrivals|
  {
    arrivals[k].StopFd? ||
    (arrivals[k].Message? && w.requestSize(arrivals[k].r) > 16384 && Open(arrivals, k))
  }

  /** The stream did not end among the first `n` arrivals. */
  predicate Open(arrivals: seq<Arrival>, n: nat)
    requires n <= |arrivals|
  {
    forall k | 0 <= k < n :: !arrivals[k].EndOfStream?
  }

  /** The loop after `n` arrivals. */
  ghost predicate Looped(w: World, arrivals: seq<Arrival>, n: nat, alive: bool, polled: bool, handled: seq<Request>)
    requires n <= |arrivals|
  {
    && (alive || (n > 0 && Ends(w, arrivals, n - 1)))
    && (forall k | 0 <= k < (if alive then n else n - 1) :: !Ends(w, arrivals, k))
    && (polled <==> Open(arrivals, n))
    && (polled ==> handled == MessagesOf(arrivals[..if alive then n else n - 1]))
    && Ended(arrivals, n, handled)
  }

  /** Nothing is handled after the end of the stream. */
  ghost predicate Ended(arrivals: seq<Arrival>, n: nat, handled: seq<Request>)
    requires n <= |arrivals|
  {
    forall k | 0 <= k < n && arrivals[k].EndOfStream? && Open(arrivals, k) ::
      handled == MessagesOf(arrivals[..k])
  }

  lemma EndedMore(arrivals: seq<Arrival>, n: nat, polled: bool, handled: seq<Request>, handled1: seq<Request>)
    requires n < |arrivals| && Ended(arrivals, n, handled) && (polled <==> Open(arrivals, n))
    requires polled ==> handled == MessagesOf(arrivals[..n])
    requires !polled || arrivals[n].EndOfStream? ==> handled1 == handled
    ensures Ended(arrivals, n + 1, handled1)
  {
  }

  lemma LoopedStart(w: World, arrivals: seq<Arrival>)
    ensures Looped(w, arrivals, 0, true, true, [])
  {
  }

  lemma LoopedMore(w: World, arrivals: seq<Arrival>, n: nat, polled: bool, handled: seq<Request>,
                   alive1: bool, polled1: bool, handled1: seq<Request>)
    requires n < |arrivals| && Looped(w, arrivals, n, true, polled, handled)
    requires var a := arrivals[n];
      && (alive1 <==> !(a.StopFd? || (a.Message? && polled && w.requestSize(a.r) > 16384)))
      && (polled1 <==> polled && !a.EndOfStream?)
      && handled1 == if alive1 && polled && a.Message? then handled + [a.r] else handled
    ensures Looped(w, arrivals, n + 1, alive1, polled1, handled1)
  {
    MessagesMore(arrivals, n);
    assert alive1 <==> !Ends(w, arrivals, n);
    EndedMore(arrivals, n, polled, handled, handled1);
  }

  lemma MessagesMore(arrivals: seq<Arrival>, n: nat)
    requires n < |arrivals|
    ensures MessagesOf(arrivals[..n + 1])
         == MessagesOf(arrivals[..n]) + if arrivals[n].Message? then [arrivals[n].r] else []
  {
    assert arrivals[..n + 1][..n] == arrivals[..n];
  }

  /** Requests and their replies match, as direct calls and as they must. */
  ghost predicate Answered(w: World, handled: seq<Request>, replies: seq<Reply>) {
    && |Direct(w, handled)| == |replies| == |handled|
    && (forall i | 0 <= i < |replies| :: Direct(w, handled)[i] == Seen(replies[i]))
    && forall i | 0 <= i < |replies| :: RightReply(w, handled, i, replies[i])
  }

  lemma AnsweredMore(w: World, handled: seq<Request>, replies: seq<Reply>, r: Request)
    requires Answered(w, handled, replies)
    ensures Answered(w, handled + [r], replies + [ReplyTo(w, DirectMaster(handled), r)])
  {
    var n, reply := |handled|, ReplyTo(w, DirectMaster(handled), r);
    var now := handled + [r];
    assert now[..n] == handled && Direct(w, now) == Direct(w, handled) + [Seen(reply)];
    RightIff(w, now, n, reply);
    forall i | 0 <= i < n ensures RightReply(w, now, i, replies[i]) {
      RightPrefix(w, now, n, i);
    }
  }

  function MessagesOf(arrivals: seq<Arrival>): seq<Request> {
    if arrivals == [] then [] else
    var last := arrivals[|arrivals| - 1];
    MessagesOf(arrivals[..|arrivals| - 1]) + if last.Message? then [last.r] else []
  }

  /** `rpc_proxy` and its callers, with the server on the other end of the socket. */
  class RpcProxy {
    const server: RpcServer
    var received: nat // replies read so far
    var spoiled: bool

    /** Nothing is on the way. */
    ghost predicate Quiet()
      reads this, server
    {
      server.Answering() && received == |server.replies|
    }

    constructor (server: RpcServer)
      requires server.Answering() && server.polled
      modifies server
      ensures this.server == server && server.polled && Quiet()
      ensures !TooLong(server.w, Request(CMD, "init_rpc", [])) ==> server.master == Some([])
    {
      this.server := server;
      received, spoiled := |server.replies|, false;
      new;
      var a := Call(Request(CMD, "init_rpc", []));
      if a.Some? {
        assert server.handled[..|server.handled| - 1] == old(server.handled);
      }
    }

    /** `__call__`: send, then wait for the reply; `None` if there never is one. */
    method Call(r: Request) returns (a: Option<Answer>)
      requires Quiet() && server.polled
      modifies this, server`master, server`polled, server`disconnects, server`replies, server`handled
      ensures Quiet() && server.polled
      ensures a.Some? <==> server.w.requestSize(r) <= 16384
      ensures server.handled == if a.Some? then old(server.handled) + [r] else old(server.handled)
      ensures a.Some? ==> (a.value.Garbled? <==> spoiled)
      ensures a.Some? && !spoiled ==> a.value == Direct(server.w, server.handled)[|server.handled| - 1]
      ensures a.Some? && !spoiled ==> Right(server.w, server.handled, |server.handled| - 1, a.value)
      ensures a.Some? ==> (spoiled <==> old(spoiled) || LongReply(server.w, server.handled, |server.handled| - 1))
      ensures a.None? ==> spoiled == old(spoiled)
    {
      var ok := server.Serve(r);
      if !ok {
        return None;
      }
      var reply := server.replies[received];
      DirectIsRight(server.w, server.handled, received);
      LongIff(server.w, server.handled, received);
      RightIff(server.w, server.handled, received, reply);
      received := received + 1;
      if spoiled || server.w.replySize(reply) > RPC_SK_BUF {
        spoiled := true;
        return Some(Garbled);
      }
      return Some(if reply.RESP? then Returned(reply.value) else Raised(reply.what));
    }
  }
}
