/** The CRIU session of one host: requests (phaul/criu_req.py), the connection
    (phaul/criu_api.py, `criu_conn`) and the notification loops (phaul/criu_cr.py). */
module CriuSession {
  import opened Prelude
  import Images

  datatype Type =
    | DUMP | PRE_DUMP | PAGE_SERVER | RESTORE | CPUINFO_DUMP | CPUINFO_CHECK | FEATURE_CHECK | NOTIFY | OTHER

  datatype Req = Req(
    typ: Type,
    parentImg: Option<int>, // opts.parent_img
    pageServer: bool,       // opts.ps.fd is set
    notifyScripts: bool,    // opts.notify_scripts
    keepOpen: bool,
    trackMem: bool,         // opts.track_mem, set when the request is sent
    log: nat)               // the number in the log file name

  datatype Resp = Resp(
    typ: Type,
    success: bool,
    script: string,     // notify.script
    notSupported: bool, // cr_errno is ENOTSUP
    memTrack: bool)     // features.mem_track

  datatype Msg = SentReq(req: Req) | SentAck | Got(resp: Resp)

  // ---- requests ------------------------------------------------------------------

  function MakeReq(typ: Type): Req {
    Req(typ, None, false, false, false, false, 0)
  }

  method MakeCommonDumpReq(typ: Type, img: Images.PhaulImages) returns (req: Req)
    ensures req == MakeReq(typ).(pageServer := true, parentImg := Images.Prev(img.View()))
  {
    req := MakeReq(typ).(pageServer := true);
    var prev := img.PrevImageDir();
    if prev.Some? {
      req := req.(parentImg := prev);
    }
  }

  method MakePredumpReq(img: Images.PhaulImages) returns (req: Req)
    ensures req.typ == PRE_DUMP && req.pageServer && !req.notifyScripts && !req.keepOpen
    ensures req.parentImg == Images.Prev(img.View())
  {
    req := MakeCommonDumpReq(PRE_DUMP, img);
  }

  method MakeDumpReq(img: Images.PhaulImages) returns (req: Req)
    ensures req.typ == DUMP && req.pageServer && req.notifyScripts && !req.keepOpen
    ensures req.parentImg == Images.Prev(img.View())
  {
    req := MakeCommonDumpReq(DUMP, img);
    req := req.(notifyScripts := true);
  }

  method MakePageServerReq(img: Images.PhaulImages) returns (req: Req)
    ensures req.typ == PAGE_SERVER && req.pageServer && !req.notifyScripts && req.keepOpen
    ensures req.parentImg == Images.Prev(img.View())
  {
    req := MakeReq(PAGE_SERVER).(keepOpen := true, pageServer := true);
    var prev := img.PrevImageDir();
    if prev.Some? {
      req := req.(parentImg := prev);
    }
  }

  /** The cpuinfo and dirty-tracking requests: no parent, no page server, no notifications. */
  function MakeProbeReq(typ: Type): Req {
    MakeReq(typ).(keepOpen := true)
  }

  function MakeRestoreReq(): Req {
    MakeReq(RESTORE).(notifyScripts := true)
  }

  // The requests as they go out, for image directory `n`: parent link, page server, notifications,
  // connection kept open, tracking flag and log number.

  function ParentFor(n: nat): Option<int> {
    if n == 1 then None else Some(n - 1)
  }

  function PreDumpReq(n: nat, track: bool, log: nat): Req {
    Req(PRE_DUMP, ParentFor(n), true, false, false, track, log)
  }

  function DumpReq(n: nat, track: bool, log: nat): Req {
    Req(DUMP, ParentFor(n), true, true, false, track, log)
  }

  function PageServerReq(n: nat, track: bool, log: nat): Req {
    Req(PAGE_SERVER, ParentFor(n), true, false, true, track, log)
  }

  function RestoreReq(track: bool, log: nat): Req {
    Req(RESTORE, None, false, true, false, track, log)
  }

  function ProbeReq(typ: Type, track: bool, log: nat): Req {
    Req(typ, None, false, false, true, track, log)
  }

  /** The first directory has no parent, any other the one before. */
  lemma ParentIsBefore(n: nat)
    requires n >= 1
    ensures ParentFor(1) == None && (n > 1 ==> ParentFor(n) == Some(n - 1))
  {
  }

  // ---- session discipline ----------------------------------------------------------

  /** One more message; `pending` is the notification awaiting its ack, if any. `None` if a
      request was sent or a message came while one was pending, or an ack was sent while none was. */
  function Advance(pending: Option<string>, m: Msg): Option<Option<string>> {
    match m
    case SentReq(_) => if pending.None? then Some(None) else None
    case SentAck => if pending.Some? then Some(None) else None
    case Got(resp) =>
      if pending.Some? then None else Some(if resp.typ == NOTIFY then Some(resp.script) else None)
  }

  /** The notification pending after a history of messages; `None` if the discipline was broken. */
  ghost function Session(wire: seq<Msg>): Option<Option<string>> {
    if wire == [] then Some(None) else
    match Session(wire[..|wire| - 1])
    case None => None
    case Some(pending) => Advance(pending, wire[|wire| - 1])
  }

  /** The `post-dump` notification has been acked: CRIU has terminated the dumped tree. */
  ghost predicate Killed(wire: seq<Msg>) {
    wire != [] && (Killed(wire[..|wire| - 1])
      || (wire[|wire| - 1].SentAck? && Session(wire[..|wire| - 1]) == Some(Some("post-dump"))))
  }

  // The same said of the messages themselves.

  predicate IsNotify(m: Msg) {
    m.Got? && m.resp.typ == NOTIFY
  }

  /** A notification is followed by its ack, unless it is the last message, and an ack follows one. */
  predicate Matched(wire: seq<Msg>, i: nat)
    requires i < |wire|
  {
    && (IsNotify(wire[i]) && i + 1 < |wire| ==> wire[i + 1].SentAck?)
    && (wire[i].SentAck? ==> i > 0 && IsNotify(wire[i - 1]))
  }

  ghost predicate AcksMatch(wire: seq<Msg>) {
    forall i: nat | i < |wire| :: Matched(wire, i)
  }

  ghost predicate MayFollow(init: seq<Msg>, m: Msg) {
    m.SentAck? == (init != [] && IsNotify(init[|init| - 1]))
  }

  lemma AcksMatchMore(init: seq<Msg>, m: Msg)
    ensures AcksMatch(init + [m]) <==> AcksMatch(init) && MayFollow(init, m)
  {
    var wire, n := init + [m], |init|;
    forall i: nat | i < n
      ensures Matched(wire, i) <==> Matched(init, i) && (i == n - 1 && IsNotify(init[i]) ==> m.SentAck?)
    {
      assert wire[i] == init[i] && (i > 0 ==> wire[i - 1] == init[i - 1]) && (i < n - 1 ==> wire[i + 1] == init[i + 1]);
    }
    assert Matched(wire, n) <==> (m.SentAck? ==> n > 0 && IsNotify(init[n - 1]));
    if AcksMatch(wire) {
      assert Matched(wire, n) && (n > 0 ==> Matched(wire, n - 1));
    }
  }

  /** The discipline is kept exactly if acks and notifications match, and what is pending is the last
      message if it is a notification. */
  lemma {:induction false} DisciplineMeans(wire: seq<Msg>)
    ensures Session(wire).Some? <==> AcksMatch(wire)
    ensures Session(wire).Some? && wire != [] ==> Session(wire) == Some(Pending(wire[|wire| - 1]))
  {
    if wire != [] {
      var init, m := wire[..|wire| - 1], wire[|wire| - 1];
      DisciplineMeans(init);
      assert wire == init + [m];
      AcksMatchMore(init, m);
    }
  }

  function Pending(m: Msg): Option<string> {
    if IsNotify(m) then Some(m.resp.script) else None
  }

  /** Message `i` is the ack of a `post-dump` notification. */
  predicate AcksPostDump(wire: seq<Msg>, i: nat)
    requires i < |wire|
  {
    i > 0 && wire[i].SentAck? && Pending(wire[i - 1]) == Some("post-dump")
  }

  ghost predicate PostDumpAcked(wire: seq<Msg>) {
    exists i: nat | i < |wire| :: AcksPostDump(wire, i)
  }

  lemma AckedMore(init: seq<Msg>, m: Msg)
    ensures PostDumpAcked(init + [m]) <==>
      PostDumpAcked(init) || (m.SentAck? && init != [] && Pending(init[|init| - 1]) == Some("post-dump"))
  {
    var wire := init + [m];
    if PostDumpAcked(init) {
      var i: nat :| i < |init| && AcksPostDump(init, i);
      assert AcksPostDump(wire, i);
    }
    if PostDumpAcked(wire) {
      var i: nat :| i < |wire| && AcksPostDump(wire, i);
      assert i < |init| ==> AcksPostDump(init, i);
    }
    assert m.SentAck? && init != [] && Pending(init[|init| - 1]) == Some("post-dump") ==> AcksPostDump(wire, |init|);
  }

  /** The tree was terminated exactly by an ack of `post-dump`. */
  lemma {:induction false} KilledMeans(wire: seq<Msg>)
    requires Session(wire).Some?
    ensures Killed(wire) <==> PostDumpAcked(wire)
  {
    if wire != [] {
      var init, m := wire[..|wire| - 1], wire[|wire| - 1];
      KilledMeans(init);
      KilledMore(init, m);
      assert wire == init + [m];
    }
  }

  lemma KilledMore(init: seq<Msg>, m: Msg)
    requires Session(init).Some? && (Killed(init) <==> PostDumpAcked(init))
    ensures Killed(init + [m]) <==> PostDumpAcked(init + [m])
  {
    OneMore(init, m);
    AckedMore(init, m);
    DisciplineMeans(init);
  }

  lemma OneMore(wire: seq<Msg>, m: Msg)
    requires Session(wire).Some?
    ensures Session(wire + [m]) == Advance(Session(wire).value, m)
    ensures Killed(wire + [m]) <==> Killed(wire) || (m.SentAck? && Session(wire) == Some(Some("post-dump")))
  {
    assert (wire + [m])[..|wire|] == wire;
  }

  /** A message was sent when allowed, and then at most one received: what is pending now. */
  lemma Exchange(wire: seq<Msg>, m: Msg, inbox: seq<Resp>, after: seq<Msg>)
    requires Session(wire).Some? && Advance(Session(wire).value, m) == Some(None)
    requires after == wire + [m] + if inbox == [] then [] else [Got(inbox[0])]
    ensures Session(after) == Some(if inbox != [] && inbox[0].typ == NOTIFY then Some(inbox[0].script) else None)
    ensures Killed(after) <==> Killed(wire) || (m.SentAck? && Session(wire) == Some(Some("post-dump")))
    ensures wire + [m] <= after
  {
    OneMore(wire, m);
    if inbox == [] {
      assert after == wire + [m];
    } else {
      OneMore(wire + [m], Got(inbox[0]));
    }
  }

  /** A request without notifications, and what came back if anything did. */
  function Asked(wire: seq<Msg>, req: Req, inbox: seq<Resp>): seq<Msg> {
    wire + [SentReq(req)] + if inbox == [] then [] else [Got(inbox[0])]
  }

  // ---- what was asked, and what came back ----------------------------------------------

  /** A request, and the message that came right after it, if one did. */
  datatype Exchanged = Exchanged(req: Req, answer: Option<Resp>)

  ghost function Exchanges(wire: seq<Msg>): seq<Exchanged> {
    if wire == [] then [] else ExchangedAt(wire[0], wire[1..]) + Exchanges(wire[1..])
  }

  function ExchangedAt(m: Msg, rest: seq<Msg>): seq<Exchanged> {
    if !m.SentReq? then [] else
    [Exchanged(m.req, if rest != [] && rest[0].Got? then Some(rest[0].resp) else None)]
  }

  function First(inbox: seq<Resp>): Option<Resp> {
    if inbox == [] then None else Some(inbox[0])
  }

  lemma HeadStays(m: Msg, rest: seq<Msg>, b: seq<Msg>)
    requires b != [] && !b[0].Got?
    ensures ExchangedAt(m, rest + b) == ExchangedAt(m, rest)
  {
    assert rest == [] ==> rest + b == b;
    assert rest != [] ==> (rest + b)[0] == rest[0];
  }

  lemma OneFirst(m: Msg, rest: seq<Msg>)
    ensures Exchanges([m] + rest) == ExchangedAt(m, rest) + Exchanges(rest)
  {
    assert ([m] + rest)[1..] == rest;
  }

  lemma Reassociate(a: seq<Exchanged>, b: seq<Exchanged>, c: seq<Exchanged>)
    ensures a + (b + c) == (a + b) + c
  {
  }

  lemma {:induction false} ExchangesJoin(a: seq<Msg>, b: seq<Msg>)
    requires b != [] && !b[0].Got?
    ensures Exchanges(a + b) == Exchanges(a) + Exchanges(b)
  {
    if a == [] {
      assert a + b == b;
    } else {
      var m, rest := a[0], a[1..];
      assert a == [m] + rest && a + b == [m] + (rest + b);
      ExchangesJoin(rest, b);
      JoinFirst(m, rest, b);
    }
  }

  lemma JoinFirst(m: Msg, rest: seq<Msg>, b: seq<Msg>)
    requires b != [] && !b[0].Got? && Exchanges(rest + b) == Exchanges(rest) + Exchanges(b)
    ensures Exchanges([m] + (rest + b)) == Exchanges([m] + rest) + Exchanges(b)
  {
    HeadStays(m, rest, b);
    OneFirst(m, rest + b);
    OneFirst(m, rest);
    Reassociate(ExchangedAt(m, rest), Exchanges(rest), Exchanges(b));
  }

  /** A message and what came after it make one exchange if it was a request, and none if it was an ack. */
  lemma OneExchange(wire: seq<Msg>, m: Msg, inbox: seq<Resp>, after: seq<Msg>)
    requires !m.Got? && after == wire + [m] + if inbox == [] then [] else [Got(inbox[0])]
    ensures Exchanges(after) == Exchanges(wire) + if m.SentReq? then [Exchanged(m.req, First(inbox))] else []
  {
    var tail := [m] + if inbox == [] then [] else [Got(inbox[0])];
    assert after == wire + tail && tail[1..] == if inbox == [] then [] else [Got(inbox[0])];
    ExchangesJoin(wire, tail);
    if inbox != [] {
      assert Exchanges(tail[1..]) == Exchanges(tail[1..][1..]) == [];
    }
  }

  class CriuConn {
    var iter: nat
    var trackMem: bool
    var lastReq: Option<Type>
    var open: bool
    var inbox: seq<Resp>     // what the CRIU process will answer; it hangs up afterwards
    ghost var wire: seq<Msg> // everything sent and received so far

    constructor (inbox: seq<Resp>)
      ensures iter == 0 && trackMem && lastReq == None && open && this.inbox == inbox && wire == []
    {
      iter, trackMem, lastReq, open := 0, true, None, true;
      this.inbox := inbox;
      wire := [];
    }

    method Close()
      modifies this`open
      ensures !open
    {
      open := false;
    }

    method MemoryTracking(value: bool)
      modifies this`trackMem
      ensures trackMem == value
    {
      trackMem := value;
    }

    /** The state after receiving from `before` with `sent` on the wire. */
    ghost predicate Received(before: seq<Resp>, sent: seq<Msg>, r: Result<Resp>)
      reads this
    {
      if before == [] then
        r == Failure && inbox == [] && wire == sent
      else
        && inbox == before[1..] && wire == sent + [Got(before[0])]
        && r == (if before[0].typ == NOTIFY || Some(before[0].typ) == lastReq then Success(before[0]) else Failure)
    }

    /** An end of file or a response of the wrong type raises. */
    method RecvResp() returns (r: Result<Resp>)
      modifies this`inbox, this`wire
      ensures Received(old(inbox), old(wire), r)
    {
      if inbox == [] {
        return Failure;
      }
      var resp := inbox[0];
      inbox := inbox[1..];
      wire := wire + [Got(resp)];
      if resp.typ != NOTIFY && Some(resp.typ) != lastReq {
        return Failure;
      }
      return Success(resp);
    }

    method SendReq(req: Req) returns (r: Result<Resp>)
      modifies this`inbox, this`wire, this`iter, this`lastReq
      ensures iter == old(iter) + 1 && lastReq == Some(req.typ)
      ensures Received(old(inbox), old(wire) + [SentReq(req.(log := old(iter), trackMem := trackMem))], r)
    {
      wire := wire + [SentReq(req.(log := iter, trackMem := trackMem))];
      iter := iter + 1;
      lastReq := Some(req.typ);
      r := RecvResp();
    }

    method AckNotify() returns (r: Result<Resp>)
      modifies this`inbox, this`wire
      ensures Received(old(inbox), old(wire) + [SentAck], r)
    {
      wire := wire + [SentAck];
      r := RecvResp();
    }
  }

  // ---- the notification loops ----------------------------------------------------------

  /** CRIU sends notifications only for requests that asked for them. */
  predicate AnswersQuietly(inbox: seq<Resp>) {
    inbox != [] ==> inbox[0].typ != NOTIFY
  }

  /** The exchange began with this request, answered by the first of `inbox`, and had no other. */
  ghost predicate Begins(before: seq<Msg>, req: Req, inbox: seq<Resp>, after: seq<Msg>) {
    before + [SentReq(req)] <= after && Exchanges(after) == Exchanges(before) + [Exchanged(req, First(inbox))]
  }

  lemma StillBegins(before: seq<Msg>, req: Req, inbox: seq<Resp>, mid: seq<Msg>, after: seq<Msg>)
    requires Begins(before, req, inbox, mid) && mid <= after && Exchanges(after) == Exchanges(mid)
    ensures Begins(before, req, inbox, after)
  {
  }

  /** CRIU's answer is of the type asked for. */
  predicate Answers(inbox: seq<Resp>, typ: Type) {
    inbox != [] && inbox[0].typ == typ
  }

  /** A request that asks for no notifications, as it goes out, and the answer. */
  method Ask(conn: CriuConn, req: Req) returns (r: Result<Resp>)
    requires AnswersQuietly(conn.inbox) && Session(conn.wire) == Some(None)
    modifies conn`inbox, conn`wire, conn`iter, conn`lastReq
    ensures r == if Answers(old(conn.inbox), req.typ) then Success(old(conn.inbox)[0]) else Failure
    ensures Session(conn.wire) == Some(None) && Killed(conn.wire) == old(Killed(conn.wire))
    ensures conn.wire == Asked(old(conn.wire), req.(log := old(conn.iter), trackMem := conn.trackMem), old(conn.inbox))
    ensures conn.iter == old(conn.iter) + 1
  {
    ghost var sent := req.(log := conn.iter, trackMem := conn.trackMem);
    r := conn.SendReq(req);
    Exchange(old(conn.wire), SentReq(sent), old(conn.inbox), conn.wire);
  }

  lemma AskedOnce(wire: seq<Msg>, req: Req, inbox: seq<Resp>)
    ensures Exchanges(Asked(wire, req, inbox)) == Exchanges(wire) + [Exchanged(req, First(inbox))]
  {
    OneExchange(wire, SentReq(req), inbox, Asked(wire, req, inbox));
  }

  method CriuPredump(img: Images.PhaulImages, conn: CriuConn) returns (r: Result<()>)
    requires AnswersQuietly(conn.inbox) && Session(conn.wire) == Some(None)
    modifies conn`inbox, conn`wire, conn`iter, conn`lastReq
    ensures r.Success? <==> PreDumped(old(conn.inbox))
    ensures Session(conn.wire) == Some(None)
    ensures Killed(conn.wire) == old(Killed(conn.wire))
    ensures conn.iter == old(conn.iter) + 1
    ensures conn.wire ==
      Asked(old(conn.wire), PreDumpReq(img.currentIter, conn.trackMem, old(conn.iter)), old(conn.inbox))
  {
    var req := MakePredumpReq(img);
    var resp := Ask(conn, req);
    return if resp.Success? && resp.value.success then Success(()) else Failure;
  }

  /** CRIU answers that a pre-dump was made. */
  predicate PreDumped(inbox: seq<Resp>) {
    inbox != [] && inbox[0].typ == PRE_DUMP && inbox[0].success
  }

  /** One of the answers, if there was one, is what the caller goes on with. */
  ghost predicate Follows(before: seq<Resp>, after: seq<Resp>, wire: seq<Msg>, next: Result<Resp>) {
    && (next.Success? ==> before != [] && next.value == before[0])
    && (next.Failure? ==> before == [] || before[0].typ != NOTIFY)
    && after == (if before == [] then [] else before[1..])
    && Session(wire) == Some(if before != [] && before[0].typ == NOTIFY then Some(before[0].script) else None)
  }

  /** Ack the pending notification and wait for what CRIU sends next. */
  method AckAndWait(conn: CriuConn) returns (next: Result<Resp>)
    requires Session(conn.wire).Some? && Session(conn.wire).value.Some?
    modifies conn`inbox, conn`wire
    ensures Follows(old(conn.inbox), conn.inbox, conn.wire, next)
    ensures next.Failure? && old(conn.inbox) != [] ==> Some(old(conn.inbox)[0].typ) != conn.lastReq
    ensures next.Success? ==> next.value.typ == NOTIFY || Some(next.value.typ) == conn.lastReq
    ensures old(conn.wire) <= conn.wire && Exchanges(conn.wire) == old(Exchanges(conn.wire))
    ensures Killed(conn.wire) == (old(Killed(conn.wire)) || old(Session(conn.wire)) == Some(Some("post-dump")))
  {
    next := conn.AckNotify();
    Exchange(old(conn.wire), SentAck, old(conn.inbox), conn.wire);
    OneExchange(old(conn.wire), SentAck, old(conn.inbox), conn.wire);
  }

  /** From answer `n` on the answers of CRIU drive the dump loop to its normal end: notifications whose
      hooks do not raise, and then `post-dump`. */
  ghost predicate DumpEnds(inbox: seq<Resp>, hookOk: nat -> bool, n: nat)
    decreases |inbox| - n
  {
    && n < |inbox| && inbox[n].typ == NOTIFY
    && (inbox[n].script == "post-dump" || (hookOk(n) && DumpEnds(inbox, hookOk, n + 1)))
  }

  /** The same for the restore loop, which ends with a successful answer and bears no network lock. */
  ghost predicate RestoreEnds(inbox: seq<Resp>, hookOk: nat -> bool, n: nat)
    decreases |inbox| - n
  {
    && n < |inbox|
    && if inbox[n].typ != NOTIFY then inbox[n].typ == RESTORE && inbox[n].success
       else inbox[n].script != "network-lock" && hookOk(n) && RestoreEnds(inbox, hookOk, n + 1)
  }

  /** Answers `n` up to `k` are notifications other than `last` whose hooks do not raise. */
  ghost predicate GoesOn(inbox: seq<Resp>, hookOk: nat -> bool, last: string, n: nat, k: nat)
    requires k <= |inbox|
  {
    forall i: nat | n <= i < k :: inbox[i].typ == NOTIFY && inbox[i].script != last && hookOk(i)
  }

  ghost predicate DumpEndsAt(inbox: seq<Resp>, hookOk: nat -> bool, n: nat, k: nat) {
    && n <= k < |inbox| && inbox[k].typ == NOTIFY && inbox[k].script == "post-dump"
    && GoesOn(inbox, hookOk, "post-dump", n, k)
  }

  ghost predicate RestoreEndsAt(inbox: seq<Resp>, hookOk: nat -> bool, n: nat, k: nat) {
    && n <= k < |inbox| && inbox[k].typ == RESTORE && inbox[k].success
    && GoesOn(inbox, hookOk, "network-lock", n, k)
  }

  /** The dump loop ends normally exactly on a run of notifications up to the first `post-dump`. */
  lemma {:induction false} DumpEndsMeans(inbox: seq<Resp>, hookOk: nat -> bool, n: nat)
    ensures DumpEnds(inbox, hookOk, n) <==> exists k: nat :: DumpEndsAt(inbox, hookOk, n, k)
    decreases |inbox| - n
  {
    if n < |inbox| {
      DumpEndsMeans(inbox, hookOk, n + 1);
      if inbox[n].typ == NOTIFY && inbox[n].script == "post-dump" {
        assert DumpEndsAt(inbox, hookOk, n, n);
      } else if DumpEnds(inbox, hookOk, n) {
        var k: nat :| DumpEndsAt(inbox, hookOk, n + 1, k);
        assert DumpEndsAt(inbox, hookOk, n, k);
      } else if k: nat :| DumpEndsAt(inbox, hookOk, n, k) {
        assert k != n && DumpEndsAt(inbox, hookOk, n + 1, k);
      }
    }
  }

  /** The restore loop ends with the tree up exactly on a run of harmless notifications up to a
      successful answer. */
  lemma {:induction false} RestoreEndsMeans(inbox: seq<Resp>, hookOk: nat -> bool, n: nat)
    ensures RestoreEnds(inbox, hookOk, n) <==> exists k: nat :: RestoreEndsAt(inbox, hookOk, n, k)
    decreases |inbox| - n
  {
    if n < |inbox| {
      RestoreEndsMeans(inbox, hookOk, n + 1);
      if inbox[n].typ != NOTIFY && RestoreEnds(inbox, hookOk, n) {
        assert RestoreEndsAt(inbox, hookOk, n, n);
      } else if RestoreEnds(inbox, hookOk, n) {
        var k: nat :| RestoreEndsAt(inbox, hookOk, n + 1, k);
        assert RestoreEndsAt(inbox, hookOk, n, k);
      } else if k: nat :| RestoreEndsAt(inbox, hookOk, n, k) {
        assert k != n && RestoreEndsAt(inbox, hookOk, n + 1, k);
      }
    }
  }

  /** Send the dump request and wait for the first answer. */
  method RequestDump(img: Images.PhaulImages, conn: CriuConn) returns (next: Result<Resp>)
    requires Session(conn.wire) == Some(None)
    modifies conn`inbox, conn`wire, conn`iter, conn`lastReq
    ensures Follows(old(conn.inbox), conn.inbox, conn.wire, next) && conn.lastReq == Some(DUMP)
    ensures Killed(conn.wire) == old(Killed(conn.wire)) && conn.iter == old(conn.iter) + 1
    ensures Begins(old(conn.wire), DumpReq(img.currentIter, conn.trackMem, old(conn.iter)), old(conn.inbox), conn.wire)
  {
    var req := MakeDumpReq(img);
    next := conn.SendReq(req);
    ghost var sent := req.(log := old(conn.iter), trackMem := conn.trackMem);
    Exchange(old(conn.wire), SentReq(sent), old(conn.inbox), conn.wire);
    OneExchange(old(conn.wire), SentReq(sent), old(conn.inbox), conn.wire);
  }

  lemma NextAnswer(inbox: seq<Resp>, n: nat)
    requires n < |inbox|
    ensures var rest := inbox[n + 1..];
      if rest == [] then n + 1 == |inbox| else n + 1 < |inbox| && rest[0] == inbox[n + 1] && rest[1..] == inbox[n + 2..]
  {
  }

  /** The connection is at answer `n`. */
  ghost predicate At(inbox: seq<Resp>, n: nat, resp: Resp, rest: seq<Resp>, wire: seq<Msg>) {
    && n < |inbox| && resp == inbox[n] && rest == inbox[n + 1..]
    && Session(wire) == Some(if resp.typ == NOTIFY then Some(resp.script) else None)
  }

  /** Ack notification `n` after its hooks, and wait for the next answer. */
  method AckAt(conn: CriuConn, ghost inbox: seq<Resp>, ghost n: nat, resp: Resp) returns (next: Result<Resp>)
    requires At(inbox, n, resp, conn.inbox, conn.wire) && resp.typ == NOTIFY
    modifies conn`inbox, conn`wire
    ensures next.Success? ==> At(inbox, n + 1, next.value, conn.inbox, conn.wire)
    ensures next.Success? ==> next.value.typ == NOTIFY || Some(next.value.typ) == conn.lastReq
    ensures next.Failure? && n + 1 < |inbox| ==>
      inbox[n + 1].typ != NOTIFY && Some(inbox[n + 1].typ) != conn.lastReq
    ensures Session(conn.wire).Some? && old(conn.wire) <= conn.wire
    ensures Exchanges(conn.wire) == old(Exchanges(conn.wire))
    ensures Killed(conn.wire) == (old(Killed(conn.wire)) || resp.script == "post-dump")
  {
    NextAnswer(inbox, n);
    next := AckAndWait(conn);
  }

  /** `hookOk(i)` says whether the hauler's hooks for notification `i` return normally. */
  method CriuDump(img: Images.PhaulImages, conn: CriuConn, hookOk: nat -> bool) returns (r: Result<()>)
    requires Session(conn.wire) == Some(None)
    modifies conn`inbox, conn`wire, conn`iter, conn`lastReq
    ensures r.Success? <==> DumpEnds(old(conn.inbox), hookOk, 0)
    ensures Session(conn.wire).Some?
    ensures r.Success? ==> Session(conn.wire) == Some(Some("post-dump"))
    ensures Killed(conn.wire) == old(Killed(conn.wire))
    ensures conn.iter == old(conn.iter) + 1 && conn.lastReq == Some(DUMP)
    ensures Begins(old(conn.wire), DumpReq(img.currentIter, conn.trackMem, old(conn.iter)), old(conn.inbox), conn.wire)
  {
    ghost var inbox, req := conn.inbox, DumpReq(img.currentIter, conn.trackMem, conn.iter);
    var next := RequestDump(img, conn);
    if next.Failure? {
      return Failure;
    }
    var resp := next.value;
    var n: nat := 0;
    while true
      invariant At(inbox, n, resp, conn.inbox, conn.wire)
      invariant DumpEnds(inbox, hookOk, 0) == DumpEnds(inbox, hookOk, n)
      invariant Begins(old(conn.wire), req, inbox, conn.wire)
      invariant Killed(conn.wire) == old(Killed(conn.wire))
      invariant conn.iter == old(conn.iter) + 1 && conn.lastReq == Some(DUMP)
      decreases |inbox| - n
    {
      if resp.typ != NOTIFY {
        return Failure;
      }
      if resp.script == "post-dump" {
        return Success(());
      }
      if !hookOk(n) {
        return Failure;
      }
      ghost var mid := conn.wire;
      next := AckAt(conn, inbox, n, resp);
      StillBegins(old(conn.wire), req, inbox, mid, conn.wire);
      if next.Failure? {
        return Failure;
      }
      resp := next.value;
      n := n + 1;
    }
  }

  /** `running` tells whether CRIU has brought the tree up, also when a later hook raises. */
  method CriuRestore(conn: CriuConn, mountOk: bool, hookOk: nat -> bool, restoredOk: bool)
    returns (r: Result<()>, running: bool)
    requires Session(conn.wire) == Some(None)
    modifies conn`inbox, conn`wire, conn`iter, conn`lastReq
    ensures running <==> mountOk && RestoreEnds(old(conn.inbox), hookOk, 0)
    ensures if !mountOk then conn.wire == old(conn.wire)
      else Begins(old(conn.wire), RestoreReq(conn.trackMem, old(conn.iter)), old(conn.inbox), conn.wire)
    ensures r.Success? <==> running && restoredOk
    ensures Session(conn.wire).Some?
    ensures running ==> Session(conn.wire) == Some(None)
  {
    if !mountOk {
      return Failure, false;
    }
    ghost var inbox, req := conn.inbox, RestoreReq(conn.trackMem, conn.iter);
    var next := RequestRestore(conn);
    if next.Failure? {
      return Failure, false;
    }
    var resp := next.value;
    var n: nat := 0;
    while resp.typ == NOTIFY
      invariant At(inbox, n, resp, conn.inbox, conn.wire)
      invariant resp.typ == NOTIFY || resp.typ == RESTORE
      invariant conn.lastReq == Some(RESTORE)
      invariant RestoreEnds(inbox, hookOk, 0) == RestoreEnds(inbox, hookOk, n)
      invariant Begins(old(conn.wire), req, inbox, conn.wire)
      decreases |inbox| - n
    {
      ghost var mid := conn.wire;
      if resp.script == "network-lock" || !hookOk(n) {
        return Failure, false;
      }
      next := AckAt(conn, inbox, n, resp);
      StillBegins(old(conn.wire), req, inbox, mid, conn.wire);
      if next.Failure? {
        return Failure, false;
      }
      resp := next.value;
      n := n + 1;
    }
    if !resp.success {
      return Failure, false;
    }
    return if restoredOk then Success(()) else Failure, true;
  }

  method RequestRestore(conn: CriuConn) returns (next: Result<Resp>)
    requires Session(conn.wire) == Some(None)
    modifies conn`inbox, conn`wire, conn`iter, conn`lastReq
    ensures Follows(old(conn.inbox), conn.inbox, conn.wire, next) && conn.lastReq == Some(RESTORE)
    ensures next.Success? ==> next.value.typ == NOTIFY || next.value.typ == RESTORE
    ensures next.Failure? && old(conn.inbox) != [] ==> old(conn.inbox)[0].typ != RESTORE
    ensures Begins(old(conn.wire), RestoreReq(conn.trackMem, old(conn.iter)), old(conn.inbox), conn.wire)
  {
    next := conn.SendReq(MakeRestoreReq());
    ghost var sent := MakeRestoreReq().(log := old(conn.iter), trackMem := conn.trackMem);
    Exchange(old(conn.wire), SentReq(sent), old(conn.inbox), conn.wire);
    OneExchange(old(conn.wire), SentReq(sent), old(conn.inbox), conn.wire);
  }
}
