/** The channel behind an HTTP response body: a queue of chunks under a fixed number
    of byte permits, filled by the guest's stream and emptied by the connection. */
module BodyFlow {
  import opened Wrappers
  import opened Numbers

  type byte = x: int | 0 <= x < 256

  /** The permits of a new channel, one for each byte under way. */
  const PERMITS: nat := 65535

  /** The connection's error channel, as its receiver finds it. */
  datatype Conn = Quiet | ErrorWaiting(error: nat) | Gone

  /** Where the one-shot trailers are. */
  datatype TrailersSlot = Waiting | Sent(trailers: Option<nat>) | SenderGone | Consumed

  /** Where the handler's own result is. */
  datatype DoneSlot = Unread | Finished | Errored(error: nat) | Lost | Read

  datatype Receiver = Reading | DataEnded | ReceiverDropped

  /** A blocking write that waits for permits, and those it has been given so far. */
  datatype Wait = Wait(contents: seq<byte>, held: nat)

  /** A channel. `sending` tells whether any data sender is left; `written` and
      `emitted` are the bytes of all accepted writes and of all data frames. */
  datatype Chan = Chan(
    permits: nat, waiting: Option<Wait>, queue: seq<seq<byte>>, sending: bool, trailers: TrailersSlot, receiver: Receiver,
    done: DoneSlot, conn: Conn, written: seq<byte>, emitted: seq<byte>)

  /** Why a check or a write is refused. A contended lock is a bail and traps the guest. */
  datatype WriteError =
    Http(error: nat) | StreamClosed | BudgetExceeded | UnsentBody | WouldBlock | Deadlock | LockContended

  /** What a write answers; a trap ends the guest, and a blocked write has yet to answer. */
  datatype Written = Wrote | Rejected(error: WriteError) | Trapped | Blocked

  datatype Frame = Data(bytes: seq<byte>) | TrailersFrame(trailers: nat) | End | Failure | NotReady | Panic

  datatype Op =
    | Write(contents: seq<byte>)
    | BlockingWrite(contents: seq<byte>)
    | Resume
    | GiveUp
    | DropSenders
    | SendTrailers(t: Option<nat>)
    | DropTrailers
    | FailConn(error: nat)
    | CloseConn
    | HandlerDone(result: Result<(), nat>)
    | HandlerLost
    | PollFrame
    | DropReceiver

  function Fresh(): Chan {
    Chan(PERMITS, None, [], true, Waiting, Reading, Unread, Quiet, [], [])
  }

  // ----------------------------------------------------------- specification

  function Concat(chunks: seq<seq<byte>>): seq<byte> {
    if chunks == [] then [] else chunks[0] + Concat(chunks[1..])
  }

  /** The permits a waiting write holds. */
  function Held(c: Chan): nat {
    if c.waiting.Some? then c.waiting.value.held else 0
  }

  /** Permits come back; a waiting write is served first, up to what it needs. */
  function Release(c: Chan, n: nat): Chan {
    match c.waiting
    case None => c.(permits := c.permits + n)
    case Some(w) =>
      var given := Min(n, Monus(|w.contents|, w.held));
      c.(waiting := Some(w.(held := w.held + given)), permits := c.permits + n - given)
  }

  /** Queues a chunk for which permits have been taken; without a receiver it is refused
      and the permits come back. */
  function Enqueue(c: Chan, contents: seq<byte>): (Chan, Written) {
    if c.receiver != Reading then (Release(c, |contents|), Rejected(StreamClosed))
    else (c.(queue := c.queue + [contents], written := c.written + contents), Wrote)
  }

  /** A write, while which the connection's lock is held: it stays so while one waits. */
  function Send(c: Chan, contents: seq<byte>, blocking: bool): (Chan, Written) {
    if c.waiting.Some? then (c, Trapped)
    else
      match c.conn
      case ErrorWaiting(e) => (c.(conn := Gone), Rejected(Http(e)))
      case Gone => (c, Rejected(StreamClosed))
      case Quiet =>
        if |contents| > U32_MAX then (c, Trapped)
        else if |contents| <= c.permits then Enqueue(c.(permits := c.permits - |contents|), contents)
        else if blocking then (c.(permits := 0, waiting := Some(Wait(contents, c.permits))), Blocked)
        else (c, Trapped)
  }

  /** A waiting write has all the permits it needs. */
  predicate Served(c: Chan) {
    c.waiting.Some? && |c.waiting.value.contents| <= c.waiting.value.held
  }

  /** What the waiting write does once it has been served. */
  function ResumeSend(c: Chan): (Chan, Written) {
    if Served(c) then Enqueue(c.(waiting := None), c.waiting.value.contents) else (c, Blocked)
  }

  /** The waiting write is dropped with what it holds. */
  function DropWait(c: Chan): Chan {
    c.(permits := c.permits + Held(c), waiting := None)
  }

  /** What the connection finds once the handler's result raises no error. */
  function ReadBody(c: Chan): (Chan, Frame) {
    if c.receiver == Reading && c.queue != [] then
      (Release(c.(queue := c.queue[1..], emitted := c.emitted + c.queue[0]), |c.queue[0]|), Data(c.queue[0]))
    else if c.receiver == Reading && c.sending then (c, NotReady)
    else
      var c' := c.(receiver := DataEnded);
      match c.trailers
      case Waiting => (c', NotReady)
      case Sent(Some(t)) => (c'.(trailers := Consumed), TrailersFrame(t))
      case Sent(None) => (c'.(trailers := Consumed), End)
      case SenderGone => (c', Failure)
      case Consumed => (c', Panic)
  }

  function Poll(c: Chan): (Chan, Frame) {
    match c.done
    case Finished => ReadBody(c.(done := Read))
    case Errored(_) => (c.(done := Read), Failure)
    case Lost => (c.(done := Read), Failure)
    case Unread => ReadBody(c)
    case Read => ReadBody(c)
  }

  predicate Enabled(c: Chan, op: Op) {
    match op
    case Write(_) => c.sending
    case BlockingWrite(_) => c.sending
    case Resume => Served(c)
    case GiveUp => c.waiting.Some?
    case DropSenders => c.sending && c.waiting.None?
    case SendTrailers(_) => c.trailers == Waiting
    case DropTrailers => c.trailers == Waiting
    case FailConn(_) => c.conn == Quiet
    case CloseConn => c.conn == Quiet
    case HandlerDone(_) => c.done == Unread
    case HandlerLost => c.done == Unread
    case PollFrame => c.receiver != ReceiverDropped
    case DropReceiver => c.receiver != ReceiverDropped
  }

  function Next(c: Chan, op: Op): Chan
    requires Enabled(c, op)
  {
    match op
    case Write(contents) => Send(c, contents, false).0
    case BlockingWrite(contents) => Send(c, contents, true).0
    case Resume => ResumeSend(c).0
    case GiveUp => DropWait(c)
    case DropSenders => c.(sending := false)
    case SendTrailers(t) => c.(trailers := Sent(t))
    case DropTrailers => c.(trailers := SenderGone)
    case FailConn(e) => c.(conn := ErrorWaiting(e))
    case CloseConn => c.(conn := Gone)
    case HandlerDone(Ok(_)) => c.(done := Finished)
    case HandlerDone(Err(e)) => c.(done := Errored(e))
    case HandlerLost => c.(done := Lost)
    case PollFrame => Poll(c).0
    case DropReceiver => Release(c.(receiver := ReceiverDropped, queue := []), |Concat(c.queue)|)
  }

  // -------------------------------------------------------------- operations

  class BodyChannel {
    var c: Chan

    constructor ()
      ensures c == Fresh()
    {
      c := Fresh();
    }

    /** Permits come back to the semaphore. */
    method ReleasePermits(n: nat)
      modifies this
      ensures c == Release(old(c), n)
    {
      if c.waiting.Some? {
        var w := c.waiting.value;
        var lacks := Monus(|w.contents|, w.held);
        var given := if n < lacks then n else lacks;
        c := c.(waiting := Some(w.(held := w.held + given)), permits := c.permits + n - given);
      } else {
        c := c.(permits := c.permits + n);
      }
    }

    /** Sends a chunk with its permits. */
    method SendChunk(contents: seq<byte>) returns (r: Written)
      modifies this
      ensures (c, r) == Enqueue(old(c), contents)
    {
      if c.receiver != Reading {
        ReleasePermits(|contents|);
        return Rejected(StreamClosed);
      }
      c := c.(queue := c.queue + [contents], written := c.written + contents);
      r := Wrote;
    }

    /** `OutgoingBodyContentSender::write` and its blocking form, the latter up to where
        it waits for permits. */
    method SendContents(contents: seq<byte>, blocking: bool) returns (r: Written)
      modifies this
      ensures (c, r) == Send(old(c), contents, blocking)
    {
      if c.waiting.Some? {
        return Trapped;
      }
      match c.conn
      case ErrorWaiting(e) =>
        c := c.(conn := Gone);
        r := Rejected(Http(e));
      case Gone =>
        r := Rejected(StreamClosed);
      case Quiet =>
        if |contents| > U32_MAX {
          return Trapped;
        }
        if |contents| <= c.permits {
          c := c.(permits := c.permits - |contents|);
          r := SendChunk(contents);
        } else if blocking {
          c := c.(waiting := Some(Wait(contents, c.permits)), permits := 0);
          r := Blocked;
        } else {
          r := Trapped;
        }
    }

    /** The rest of a blocking write that had to wait. */
    method ResumeContents() returns (r: Written)
      modifies this
      ensures (c, r) == ResumeSend(old(c))
    {
      if c.waiting.None? || c.waiting.value.held < |c.waiting.value.contents| {
        return Blocked;
      }
      var contents := c.waiting.value.contents;
      c := c.(waiting := None);
      r := SendChunk(contents);
    }

    /** `OutgoingBodyReceiver::poll_frame` */
    method PollNext() returns (f: Frame)
      modifies this
      ensures (c, f) == Poll(old(c))
    {
      match c.done {
        case Finished =>
          c := c.(done := Read);
        case Errored(_) =>
          c := c.(done := Read);
          return Failure;
        case Lost =>
          c := c.(done := Read);
          return Failure;
        case Unread =>
        case Read =>
      }
      if c.receiver == Reading {
        if c.queue != [] {
          var chunk := c.queue[0];
          c := c.(queue := c.queue[1..], emitted := c.emitted + chunk);
          ReleasePermits(|chunk|);
          return Data(chunk);
        }
        if c.sending {
          return NotReady;
        }
      }
      c := c.(receiver := DataEnded);
      match c.trailers
      case Waiting =>
        f := NotReady;
      case Sent(t) =>
        c := c.(trailers := Consumed);
        f := if t.Some? then TrailersFrame(t.value) else End;
      case SenderGone =>
        f := Failure;
      case Consumed =>
        f := Panic;
    }
  }

  // --------------------------------------------------------------- invariant

  ghost predicate IsPrefix(a: seq<byte>, b: seq<byte>) {
    |a| <= |b| && a == b[..|a|]
  }

  /** Permits account for every byte under way: free, held by a waiting write, or queued.
      A permit is free only if no write waits for it. */
  ghost predicate PermitsOk(c: Chan) {
    && c.permits + Held(c) + |Concat(c.queue)| == PERMITS
    && (c.waiting.Some? ==> Held(c) <= |c.waiting.value.contents| && (c.permits > 0 ==> Served(c)) && c.sending)
  }

  /** Permits are accounted for, and what was emitted followed by what is queued is what
      was written. */
  ghost predicate Inv(c: Chan) {
    && PermitsOk(c)
    && (match c.receiver
        case Reading => c.emitted + Concat(c.queue) == c.written
        case DataEnded => c.queue == [] && c.emitted == c.written && !c.sending
        case ReceiverDropped => c.queue == [] && IsPrefix(c.emitted, c.written))
    && (c.trailers == Consumed ==> c.receiver != Reading)
  }

  lemma {:induction false} ConcatSnoc(chunks: seq<seq<byte>>, chunk: seq<byte>)
    ensures Concat(chunks + [chunk]) == Concat(chunks) + chunk
  {
    if chunks == [] {
      assert [chunk] == [chunk] + [] && [chunk][1..] == [];
    } else {
      assert (chunks + [chunk])[1..] == chunks[1..] + [chunk];
      ConcatSnoc(chunks[1..], chunk);
    }
  }

  lemma ReleaseKeeps(c: Chan, n: nat)
    requires c.waiting.Some? ==> Held(c) <= |c.waiting.value.contents| && (c.permits > 0 ==> Served(c)) && c.sending
    ensures var c' := Release(c, n);
            && c'.permits + Held(c') == c.permits + Held(c) + n
            && (c'.waiting.Some? ==> Held(c') <= |c'.waiting.value.contents| && (c'.permits > 0 ==> Served(c')) && c'.sending)
            && c' == c.(permits := c'.permits, waiting := c'.waiting)
  {
  }

  lemma EnqueueKeepsInv(c: Chan, contents: seq<byte>)
    requires c.waiting.None? && Inv(c.(permits := c.permits + |contents|))
    ensures Inv(Enqueue(c, contents).0)
  {
    ConcatSnoc(c.queue, contents);
    assert c.emitted + (Concat(c.queue) + contents) == (c.emitted + Concat(c.queue)) + contents;
  }

  lemma SendKeepsInv(c: Chan, contents: seq<byte>, blocking: bool)
    requires Inv(c) && c.sending
    ensures Inv(Send(c, contents, blocking).0)
  {
    if c.waiting.None? && c.conn == Quiet && |contents| <= c.permits {
      assert c == c.(permits := c.permits - |contents|).(permits := c.permits);
      EnqueueKeepsInv(c.(permits := c.permits - |contents|), contents);
    }
  }

  lemma ResumeKeepsInv(c: Chan)
    requires Inv(c) && Served(c)
    ensures Inv(ResumeSend(c).0)
  {
    var d := c.(waiting := None);
    assert Held(c) == |c.waiting.value.contents|;
    assert Inv(d.(permits := d.permits + Held(c)));
    EnqueueKeepsInv(d, c.waiting.value.contents);
  }

  lemma ConcatFirst(emitted: seq<byte>, queue: seq<seq<byte>>)
    requires queue != []
    ensures (emitted + queue[0]) + Concat(queue[1..]) == emitted + Concat(queue)
    ensures |Concat(queue)| == |queue[0]| + |Concat(queue[1..])|
  {
    calc {
      (emitted + queue[0]) + Concat(queue[1..]);
      emitted + (queue[0] + Concat(queue[1..]));
    }
  }

  lemma ReadKeepsInv(c: Chan)
    requires Inv(c) && c.receiver != ReceiverDropped
    ensures Inv(ReadBody(c).0)
  {
    if c.receiver == Reading && c.queue != [] {
      ConcatFirst(c.emitted, c.queue);
      ReleaseKeeps(c.(queue := c.queue[1..], emitted := c.emitted + c.queue[0]), |c.queue[0]|);
    }
  }

  lemma PollKeepsInv(c: Chan)
    requires Inv(c) && c.receiver != ReceiverDropped
    ensures Inv(Poll(c).0)
  {
    var d := if c.done == Finished then c.(done := Read) else c;
    assert Inv(d);
    ReadKeepsInv(d);
  }

  lemma StepKeepsInv(c: Chan, op: Op)
    requires Inv(c) && Enabled(c, op)
    ensures Inv(Next(c, op))
  {
    match op
    case Write(contents) => SendKeepsInv(c, contents, false);
    case BlockingWrite(contents) => SendKeepsInv(c, contents, true);
    case Resume => ResumeKeepsInv(c);
    case PollFrame => PollKeepsInv(c);
    case DropReceiver =>
      ReleaseKeeps(c.(receiver := ReceiverDropped, queue := []), |Concat(c.queue)|);
      if c.receiver == Reading {
        assert c.written[..|c.emitted|] == c.emitted;
      }
    case _ =>
  }

  ghost predicate IsRun(c: Chan, ops: seq<Op>)
    decreases |ops|
  {
    ops != [] ==> Enabled(c, ops[0]) && IsRun(Next(c, ops[0]), ops[1..])
  }

  ghost function RunEnd(c: Chan, ops: seq<Op>): Chan
    requires IsRun(c, ops)
    decreases |ops|
  {
    if ops == [] then c else RunEnd(Next(c, ops[0]), ops[1..])
  }

  lemma {:induction false} RunKeepsInv(c: Chan, ops: seq<Op>)
    requires Inv(c) && IsRun(c, ops)
    ensures Inv(RunEnd(c, ops))
    decreases |ops|
  {
    if ops != [] {
      StepKeepsInv(c, ops[0]);
      RunKeepsInv(Next(c, ops[0]), ops[1..]);
    }
  }

  /** In every reachable state of a channel, free permits, those a waiting write holds
      and queued bytes add up to 65535, a write waits only while none is free, and
      while the receiver lives nothing written is lost or reordered. */
  lemma FlowIsConserved(ops: seq<Op>)
    requires IsRun(Fresh(), ops)
    ensures var c := RunEnd(Fresh(), ops);
            && c.permits + Held(c) + |Concat(c.queue)| == PERMITS
            && (c.waiting.Some? && !Served(c) ==> c.permits == 0)
            && (c.receiver != ReceiverDropped ==> c.emitted + Concat(c.queue) == c.written)
            && IsPrefix(c.emitted, c.written)
  {
    RunKeepsInv(Fresh(), ops);
    var c := RunEnd(Fresh(), ops);
    if c.receiver == Reading {
      assert c.written[..|c.emitted|] == c.emitted;
    }
  }

  // ------------------------------------------------------------- what is seen

  /** The answers a run gives: what its writes accepted and its polls emitted. */
  ghost function Accepted(c: Chan, ops: seq<Op>): seq<byte>
    requires IsRun(c, ops)
    decreases |ops|
  {
    if ops == [] then []
    else AcceptedBy(c, ops[0]) + Accepted(Next(c, ops[0]), ops[1..])
  }

  function AcceptedBy(c: Chan, op: Op): seq<byte> {
    match op
    case Write(contents) => if Send(c, contents, false).1 == Wrote then contents else []
    case BlockingWrite(contents) => if Send(c, contents, true).1 == Wrote then contents else []
    case Resume => if ResumeSend(c).1 == Wrote then c.waiting.value.contents else []
    case _ => []
  }

  ghost function Emitted(c: Chan, ops: seq<Op>): seq<byte>
    requires IsRun(c, ops)
    decreases |ops|
  {
    if ops == [] then []
    else EmittedBy(c, ops[0]) + Emitted(Next(c, ops[0]), ops[1..])
  }

  function EmittedBy(c: Chan, op: Op): seq<byte> {
    if op == PollFrame && Poll(c).1.Data? then Poll(c).1.bytes else []
  }

  lemma StepHistory(c: Chan, op: Op)
    requires Enabled(c, op)
    ensures Next(c, op).written == c.written + AcceptedBy(c, op)
    ensures Next(c, op).emitted == c.emitted + EmittedBy(c, op)
  {
    assert c.written + [] == c.written && c.emitted + [] == c.emitted;
    match op
    case Write(contents) => SendHistory(c, contents, false);
    case BlockingWrite(contents) => SendHistory(c, contents, true);
    case _ =>
  }

  lemma SendHistory(c: Chan, contents: seq<byte>, blocking: bool)
    ensures Send(c, contents, blocking).0.emitted == c.emitted
    ensures Send(c, contents, blocking).0.written ==
              if Send(c, contents, blocking).1 == Wrote then c.written + contents else c.written
  {
  }

  lemma Append(a: seq<byte>, b: seq<byte>, c: seq<byte>)
    ensures (a + b) + c == a + (b + c)
  {
  }

  lemma {:induction false} HistoryIsWhatWasSeen(c: Chan, ops: seq<Op>)
    requires IsRun(c, ops)
    ensures RunEnd(c, ops).written == c.written + Accepted(c, ops)
    ensures RunEnd(c, ops).emitted == c.emitted + Emitted(c, ops)
    decreases |ops|
  {
    if ops != [] {
      var c' := Next(c, ops[0]);
      HistoryIsWhatWasSeen(c', ops[1..]);
      StepHistory(c, ops[0]);
      Append(c.written, AcceptedBy(c, ops[0]), Accepted(c', ops[1..]));
      Append(c.emitted, EmittedBy(c, ops[0]), Emitted(c', ops[1..]));
    }
  }

  predicate Ends(f: Frame) {
    f.TrailersFrame? || f.End?
  }

  /** A channel whose next frame is an end. */
  lemma AtTheEnd(c: Chan)
    requires Inv(c) && c.receiver != ReceiverDropped && Ends(Poll(c).1)
    ensures !c.sending && c.waiting.None? && c.emitted == c.written
    ensures !Poll(c).0.sending && Poll(c).0.waiting.None?
    ensures c.trailers.Sent?
    ensures Poll(c).1 == if c.trailers.trailers.Some? then TrailersFrame(c.trailers.trailers.value) else End
  {
  }

  /** Once a body has ended, with trailers or without, the frames before the end carry
      exactly the bytes of all accepted writes, in order, and none can follow. */
  lemma EndMeansAllEmitted(ops: seq<Op>, later: seq<Op>)
    requires IsRun(Fresh(), ops) && RunEnd(Fresh(), ops).receiver != ReceiverDropped
    requires Ends(Poll(RunEnd(Fresh(), ops)).1)
    requires IsRun(Poll(RunEnd(Fresh(), ops)).0, later)
    ensures Emitted(Fresh(), ops) == Accepted(Fresh(), ops)
    ensures Accepted(Poll(RunEnd(Fresh(), ops)).0, later) == []
    ensures !RunEnd(Fresh(), ops).sending
    ensures match Poll(RunEnd(Fresh(), ops)).1
            case TrailersFrame(t) => SendTrailers(Some(t)) in ops
            case _ => SendTrailers(None) in ops
  {
    var c := RunEnd(Fresh(), ops);
    RunKeepsInv(Fresh(), ops);
    AtTheEnd(c);
    HistoryIsWhatWasSeen(Fresh(), ops);
    assert [] + Accepted(Fresh(), ops) == Accepted(Fresh(), ops);
    assert [] + Emitted(Fresh(), ops) == Emitted(Fresh(), ops);
    NoMoreWrites(Poll(c).0, later);
    TrailersWereSent(Fresh(), ops);
  }

  /** Trailers that wait to be read are the ones that were sent. */
  lemma {:induction false} TrailersWereSent(c: Chan, ops: seq<Op>)
    requires IsRun(c, ops) && !c.trailers.Sent?
    ensures RunEnd(c, ops).trailers.Sent? ==> SendTrailers(RunEnd(c, ops).trailers.trailers) in ops
    decreases |ops|
  {
    if ops != [] {
      var c' := Next(c, ops[0]);
      if c'.trailers.Sent? {
        TrailersStay(c', ops[1..]);
      } else {
        TrailersWereSent(c', ops[1..]);
      }
    }
  }

  lemma {:induction false} TrailersStay(c: Chan, ops: seq<Op>)
    requires IsRun(c, ops) && (c.trailers.Sent? || c.trailers == Consumed)
    ensures RunEnd(c, ops).trailers.Sent? ==> RunEnd(c, ops).trailers == c.trailers
    decreases |ops|
  {
    if ops != [] {
      TrailersStay(Next(c, ops[0]), ops[1..]);
    }
  }

  lemma {:induction false} NoMoreWrites(c: Chan, ops: seq<Op>)
    requires IsRun(c, ops) && !c.sending && c.waiting.None?
    ensures Accepted(c, ops) == []
    decreases |ops|
  {
    if ops != [] {
      NoMoreWrites(Next(c, ops[0]), ops[1..]);
    }
  }

  /** A chunk of more than 65535 bytes is never accepted: writing it traps, and writing
      it blocking never gets its permits. */
  lemma OversizedNeverAccepted(ops: seq<Op>, contents: seq<byte>)
    requires IsRun(Fresh(), ops) && |contents| > PERMITS
    ensures forall blocking :: Send(RunEnd(Fresh(), ops), contents, blocking).1 != Wrote
    ensures RunEnd(Fresh(), ops).waiting.Some? && RunEnd(Fresh(), ops).waiting.value.contents == contents ==>
              !Served(RunEnd(Fresh(), ops))
  {
    RunKeepsInv(Fresh(), ops);
  }

  /** Any other blocking write has been served at the latest when the queue is empty. */
  lemma WaitIsServed(c: Chan)
    requires Inv(c) && c.waiting.Some? && c.queue == [] && |c.waiting.value.contents| <= PERMITS
    ensures Served(c)
  {
  }

  // ------------------------------------------------------ what each end is told

  /** The answer to a write, by its causes. A connection error is told once; after that
      the stream is closed. Too much to take at once traps, unless it can wait. */
  lemma SendTellsCause(c: Chan, contents: seq<byte>, blocking: bool)
    requires Inv(c)
    ensures var (c', r) := Send(c, contents, blocking);
            if c.waiting.Some? then r == Trapped && c' == c
            else if c.conn.ErrorWaiting? then
              && r == Rejected(Http(c.conn.error)) && c' == c.(conn := Gone)
              && Send(c', contents, blocking) == (c', Rejected(StreamClosed))
            else if c.conn == Gone then r == Rejected(StreamClosed) && c' == c
            else if |contents| >= 0x1_0000_0000 || (|contents| > c.permits && !blocking) then r == Trapped && c' == c
            else if |contents| > c.permits then
              r == Blocked && c' == c.(permits := 0, waiting := Some(Wait(contents, c.permits)))
            else if c.receiver != Reading then r == Rejected(StreamClosed) && c' == c
            else r == Wrote && c'.queue == c.queue + [contents] && c'.permits == c.permits - |contents|
  {
  }

  /** A write that has to wait is accepted after the connection has taken what is queued,
      if it is not more than there are permits, and then it is the only one queued. */
  lemma WaitIsAccepted(c: Chan, contents: seq<byte>) returns (ops: seq<Op>)
    requires Inv(c) && c.sending && c.receiver == Reading && (c.done == Unread || c.done == Read)
    requires Send(c, contents, true).1 == Blocked && |contents| <= PERMITS
    ensures IsRun(Send(c, contents, true).0, ops) && forall op | op in ops :: op == PollFrame
    ensures var d := RunEnd(Send(c, contents, true).0, ops);
            && Served(d) && ResumeSend(d).1 == Wrote
            && ResumeSend(d).0.queue == [contents] && ResumeSend(d).0.written == c.written + contents
  {
    SendKeepsInv(c, contents, true);
    ops := PollingDrains(Send(c, contents, true).0);
    PollsOnly(Send(c, contents, true).0, ops);
  }

  lemma PollStays(c: Chan)
    ensures Poll(c).0.written == c.written
    ensures c.waiting.Some? ==> Poll(c).0.waiting.Some? && Poll(c).0.waiting.value.contents == c.waiting.value.contents
  {
  }

  /** Polling changes neither what has been written nor what waits to be. */
  lemma {:induction false} PollsOnly(c: Chan, ops: seq<Op>)
    requires IsRun(c, ops) && forall op | op in ops :: op == PollFrame
    ensures RunEnd(c, ops).written == c.written
    ensures c.waiting.Some? ==> RunEnd(c, ops).waiting.Some? && RunEnd(c, ops).waiting.value.contents == c.waiting.value.contents
    decreases |ops|
  {
    if ops != [] {
      assert ops == [ops[0]] + ops[1..] && ops[0] in ops;
      assert forall op | op in ops[1..] :: op in ops;
      PollStays(c);
      PollsOnly(Next(c, PollFrame), ops[1..]);
    }
  }

  /** The next frame, by its causes: an error of the handler, told once and before any
      data; then data, as long as there is any; nothing while more can come; and then the
      trailers, or the lack of them, or the news that their sender is gone. */
  lemma FrameTellsCause(c: Chan)
    requires Inv(c) && c.receiver != ReceiverDropped
    ensures var (c', f) := Poll(c);
            if c.done == Lost || c.done.Errored? then f == Failure && c' == c.(done := Read)
            else if c.queue != [] then f == Data(c.queue[0]) && c'.queue == c.queue[1..]
            else if c.sending || c.trailers == Waiting then
              f == NotReady && c'.queue == [] && c'.trailers == c.trailers && c'.waiting == c.waiting
            else if c.trailers == SenderGone then f == Failure && c'.trailers == SenderGone
            else if c.trailers == Consumed then f == Panic
            else
              && f == (if c.trailers.trailers.Some? then TrailersFrame(c.trailers.trailers.value) else End)
              && c'.trailers == Consumed
  {
  }

  /** What the operations at either end lead the other end to see next. */
  lemma OperationsTell(c: Chan)
    requires Inv(c)
    ensures forall e | c.conn == Quiet && c.waiting.None? ::
              Send(Next(c, FailConn(e)), [], false).1 == Rejected(Http(e))
    ensures c.conn == Quiet && c.waiting.None? ==> Send(Next(c, CloseConn), [], false).1 == Rejected(StreamClosed)
    ensures c.receiver != ReceiverDropped && c.waiting.None? && c.conn == Quiet ==>
              && Send(Next(c, DropReceiver), [], false).1 == Rejected(StreamClosed)
              && Next(c, DropReceiver).permits == PERMITS
    ensures forall e | c.done == Unread && c.receiver != ReceiverDropped :: Poll(Next(c, HandlerDone(Err(e)))).1 == Failure
    ensures c.done == Unread && c.receiver != ReceiverDropped ==>
              && Poll(Next(c, HandlerLost)).1 == Failure
              && Poll(Next(c, HandlerDone(Ok(())))).1 == Poll(c).1
    ensures c.trailers == Waiting && c.receiver != ReceiverDropped && c.queue == [] && !c.sending && c.done != Unread ==>
              Poll(Next(c, DropTrailers)).1 == Failure
    ensures c.waiting.Some? ==> Next(c, GiveUp).waiting.None? && Next(c, GiveUp).permits == c.permits + Held(c)
  {
    if c.receiver != ReceiverDropped && c.waiting.None? {
      ReleaseKeeps(c.(receiver := ReceiverDropped, queue := []), |Concat(c.queue)|);
    }
  }

  /** The two ends act when they like: a connection polls, fails, closes or goes away and
      a handler ends at any time, and a guest that still has senders writes, gives its
      trailers or drops them. */
  lemma EndsActFreely(c: Chan)
    ensures Enabled(c, PollFrame) <==> c.receiver != ReceiverDropped
    ensures Enabled(c, DropReceiver) <==> c.receiver != ReceiverDropped
    ensures forall e :: Enabled(c, FailConn(e)) <==> c.conn == Quiet
    ensures Enabled(c, CloseConn) <==> c.conn == Quiet
    ensures forall r :: Enabled(c, HandlerDone(r)) <==> c.done == Unread
    ensures Enabled(c, HandlerLost) <==> c.done == Unread
    ensures forall contents :: (Enabled(c, Write(contents)) <==> c.sending) && (Enabled(c, BlockingWrite(contents)) <==> c.sending)
    ensures forall t :: Enabled(c, SendTrailers(t)) <==> c.trailers == Waiting
    ensures Enabled(c, DropTrailers) <==> c.trailers == Waiting
    ensures Enabled(c, DropSenders) <==> c.sending && c.waiting.None?
    ensures Enabled(c, Resume) <==> c.waiting.Some? && |c.waiting.value.contents| <= c.waiting.value.held
  {
  }

  /** A body whose guest is done is received to its end: polling as often as there are
      chunks brings each of them, and the poll after that the trailers that were sent. */
  lemma {:induction false} FinishedBodyArrives(c: Chan, t: Option<nat>)
    requires Inv(c) && c.receiver == Reading && c.sending && c.waiting.None? && c.trailers == Waiting
    requires c.done == Unread || c.done == Read || c.done == Finished
    ensures var d := Next(Next(c, DropSenders), SendTrailers(t));
            && Frames(d, |c.queue| + 1) == Datas(c.queue) + [if t.Some? then TrailersFrame(t.value) else End]
  {
    ClosedBodyArrives(Next(Next(c, DropSenders), SendTrailers(t)));
  }

  /** The frames of n polls. */
  function Frames(c: Chan, n: nat): seq<Frame>
    decreases n
  {
    if n == 0 then [] else [Poll(c).1] + Frames(Poll(c).0, n - 1)
  }

  function Datas(queue: seq<seq<byte>>): seq<Frame> {
    if queue == [] then [] else [Data(queue[0])] + Datas(queue[1..])
  }

  lemma {:induction false} ClosedBodyArrives(c: Chan)
    requires Inv(c) && c.receiver == Reading && !c.sending && c.trailers.Sent?
    requires c.done == Unread || c.done == Read || c.done == Finished
    ensures Frames(c, |c.queue| + 1) ==
              Datas(c.queue) + [if c.trailers.trailers.Some? then TrailersFrame(c.trailers.trailers.value) else End]
    decreases |c.queue|
  {
    if c.queue == [] {
      assert Frames(Poll(c).0, 0) == [];
    } else {
      PollKeepsInv(c);
      ClosedBodyArrives(Poll(c).0);
    }
  }

  /** With the receiver reading and nothing sent or failed, polling until data runs out
      gives every permit back, and a waiting write all it needs. */
  lemma {:induction false} PollingDrains(c: Chan) returns (ops: seq<Op>)
    requires Inv(c) && c.receiver == Reading && (c.done == Unread || c.done == Read)
    ensures IsRun(c, ops) && (forall op | op in ops :: op == PollFrame)
    ensures RunEnd(c, ops).permits + Held(RunEnd(c, ops)) == PERMITS && RunEnd(c, ops).emitted == c.written
    ensures RunEnd(c, ops).receiver == Reading && RunEnd(c, ops).queue == []
    ensures c.waiting.Some? && |c.waiting.value.contents| <= PERMITS ==> Served(RunEnd(c, ops))
    decreases |c.queue|
  {
    if c.queue == [] {
      ops := [];
    } else {
      PollKeepsInv(c);
      var rest := PollingDrains(Next(c, PollFrame));
      ops := [PollFrame] + rest;
      assert ops[1..] == rest;
    }
  }
}
