/** That responses do get delivered: what a guest writes is queued where its body's
    response leads, and a guest that does everything in order is heard to the end. */
module DeliveryRuns {
  import opened Wrappers
  import opened Numbers
  import opened Tables
  import opened OutgoingBody
  import opened Delivery
  import opened DeliveryLaws
  import Flow = BodyFlow
  import Out = Streams

  // ------------------------------------------------------------ single writes

  /** The budgets a stream is nested under. */
  function Limits(stream: Stream): seq<nat> {
    match stream
    case Limited(n, inner) => [n] + Limits(inner)
    case _ => []
  }

  lemma {:induction false} ViewHasLimits(s: State, stream: Stream)
    ensures Out.Budgets(View(s, stream)) == Limits(stream)
    ensures Feed(s.arrived, stream).Some? ==> Out.AtConnection(View(s, stream))
    ensures Feed(s.arrived, stream).None? ==>
              && PendingOn(stream).Some?
              && Out.Core(View(s, stream)) ==
                 Out.HttpPending(if Pending(PendingOn(stream).value) in s.bodies then Out.NotSent else Out.NeverSent)
  {
    if stream.Limited? {
      ViewHasLimits(s, stream.stream);
    }
  }

  /** A write that every budget and the free permits cover reaches the queue of the
      response that the stream's body was sent with, and is counted for that body. */
  lemma WriteReachesItsResponse(w: World, h: nat, contents: seq<byte>, blocking: bool)
    requires Good(w) && Enabled(w, WriteStream(h, contents, blocking))
    requires forall n | n in Limits(w.s.table[h].stream) :: |contents| <= n
    requires w.s.table[h].body in w.sentWith && Feed(w.s.arrived, w.s.table[h].stream).Some?
    requires w.sentWith[w.s.table[h].body] < |w.chans|
    requires var c := w.chans[w.sentWith[w.s.table[h].body]];
             c.waiting.None? && Out.Accepting(c) && |contents| <= c.permits && |contents| <= U32_MAX
    ensures w.s.table[h].body < |w.accepted|
    ensures var w', b := Next(w, WriteStream(h, contents, blocking)), w.s.table[h].body;
            && w'.chans[w.sentWith[b]].queue == w.chans[w.sentWith[b]].queue + [contents]
            && w'.accepted == w.accepted[b := w.accepted[b] + contents]
            && w'.waiting.None?
            && w'.s == w.s.(table := w.s.table[h := w'.s.table[h]])
  {
    var e := w.s.table[h];
    assert LeadsHome(w.s.arrived, w.s.bodies, w.sentWith, e.body, e.stream);
    ViewHasLimits(w.s, e.stream);
    Out.WriteTellsCause(View(w.s, e.stream), ChanOf(w, h), contents, blocking);
  }

  /** A blocking write that lacks permits suspends its guest. */
  lemma WaitingWriteHoldsGuest(w: World, h: nat, contents: seq<byte>)
    requires Good(w) && Enabled(w, WriteStream(h, contents, true))
    requires forall n | n in Limits(w.s.table[h].stream) :: |contents| <= n
    requires w.s.table[h].body in w.sentWith && Feed(w.s.arrived, w.s.table[h].stream).Some?
    requires w.sentWith[w.s.table[h].body] < |w.chans|
    requires var c := w.chans[w.sentWith[w.s.table[h].body]];
             c.waiting.None? && Out.Accepting(c) && c.permits < |contents| <= U32_MAX
    ensures var w' := Next(w, WriteStream(h, contents, true));
            && w'.waiting == Some(h) && w'.accepted == w.accepted
            && IsStream(w'.s, h) && Out.Core(View(w'.s, w'.s.table[h].stream)) == Out.HttpWriting
            && w'.chans[w.sentWith[w.s.table[h].body]].waiting.Some?
            && w'.chans[w.sentWith[w.s.table[h].body]].waiting.value.contents == contents
  {
    var e := w.s.table[h];
    assert LeadsHome(w.s.arrived, w.s.bodies, w.sentWith, e.body, e.stream);
    ViewHasLimits(w.s, e.stream);
    BlockedOutcome(View(w.s, e.stream), ChanOf(w, h), contents);
    var o := Out.WriteTo(View(w.s, e.stream), ChanOf(w, h), contents, true);
    StoredIsSeen(w.s, Next(w, WriteStream(h, contents, true)).s, e.stream, o.stream);
    CreditNothing(w.accepted, e.body);
  }

  /** Until then a suspended guest does nothing. */
  lemma SuspendedGuestWaits(w: World, step: Step)
    requires w.waiting.Some? && Enabled(w, step)
    ensures step.ResumeStream? || step.Outside?
    ensures step.Outside? ==> Next(w, step).waiting == w.waiting && Next(w, step).s == w.s
  {
  }

  lemma BlockedOutcome(v: Out.OutputStream, c: Flow.Chan, contents: seq<byte>)
    requires Out.AtConnection(v) && forall n | n in Out.Budgets(v) :: |contents| <= n
    requires c.waiting.None? && Out.Accepting(c) && c.permits < |contents| <= U32_MAX
    ensures var o := Out.WriteTo(v, c, contents, true);
            && o.result == Flow.Blocked && Out.Core(o.stream) == Out.HttpWriting
            && o.chan.waiting == Some(Flow.Wait(contents, c.permits))
            && |Out.Budgets(o.stream)| == |Out.Budgets(v)|
  {
    Out.WriteTellsCause(v, c, contents, true);
    Out.BudgetsAreExact(v, c, contents, true);
  }

  /** A stream stored after an operation shows itself as the operation left it. */
  lemma {:induction false} StoredIsSeen(s: State, s': State, stream: Stream, after: Out.OutputStream)
    requires s'.arrived == s.arrived && s'.bodies == s.bodies
    requires Feed(s.arrived, stream).Some? && Out.Core(after) == Out.HttpWriting
    requires |Limits(stream)| == |Out.Budgets(after)|
    ensures Out.Core(View(s', Stored(stream, after, Feed(s.arrived, stream)))) == Out.HttpWriting
  {
    if stream.Limited? {
      StoredIsSeen(s, s', stream.stream, after.stream);
    }
  }

  /** And once it has been served it goes on, is counted for its body, and releases the
      guest. */
  lemma ServedWriteIsCredited(w: World)
    requires Good(w) && Enabled(w, ResumeStream)
    requires var e := w.s.table[w.waiting.value];
             && Feed(w.s.arrived, e.stream).Some? && Out.Core(View(w.s, e.stream)) == Out.HttpWriting
             && e.body in w.sentWith && w.sentWith[e.body] < |w.chans|
             && Flow.Served(w.chans[w.sentWith[e.body]]) && w.chans[w.sentWith[e.body]].receiver == Flow.Reading
    ensures var w', b := Next(w, ResumeStream), w.s.table[w.waiting.value].body;
            && b < |w.accepted|
            && var more := w.chans[w.sentWith[b]].waiting.value.contents;
               && w'.waiting.None?
               && w'.accepted == w.accepted[b := w.accepted[b] + more]
               && w'.chans[w.sentWith[b]].queue == w.chans[w.sentWith[b]].queue + [more]
  {
    var e := w.s.table[w.waiting.value];
    assert LeadsHome(w.s.arrived, w.s.bodies, w.sentWith, e.body, e.stream);
    ResumeQueues(View(w.s, e.stream), ChanOf(w, w.waiting.value));
  }

  lemma {:induction false} ResumeQueues(v: Out.OutputStream, c: Flow.Chan)
    requires Out.Core(v) == Out.HttpWriting && Flow.Served(c) && c.receiver == Flow.Reading
    ensures var o := Out.ResumeWrite(v, c);
            o.result == Flow.Wrote && o.chan.queue == c.queue + [c.waiting.value.contents]
  {
    if v.Limited? {
      ResumeQueues(v.stream, c);
    }
  }

  /** A write to a stream whose body's response has not been sent says so: later, while it
      still can be sent, and closed when it cannot. */
  lemma UnsentWriteIsRefused(w: World, h: nat, contents: seq<byte>, blocking: bool)
    requires IsStream(w.s, h) && Feed(w.s.arrived, w.s.table[h].stream).None?
    requires forall n | n in Limits(w.s.table[h].stream) :: |contents| <= n
    ensures PendingOn(w.s.table[h].stream).Some?
    ensures Out.WriteTo(View(w.s, w.s.table[h].stream), ChanOf(w, h), contents, blocking).result ==
            Flow.Rejected(if Pending(PendingOn(w.s.table[h].stream).value) !in w.s.bodies then Flow.StreamClosed
                          else if blocking then Flow.Deadlock else Flow.WouldBlock)
  {
    var stream := w.s.table[h].stream;
    ViewHasLimits(w.s, stream);
    Out.WriteTellsCause(View(w.s, stream), ChanOf(w, h), contents, blocking);
  }

  /** `finish` is answered by what the body's channel knows: an error that waits on the
      connection is taken and refuses it, and so does a receiver that is gone. */
  lemma FinishHearsConnection(w: World, call: Call)
    requires Good(w) && Enabled(w, Guest(call)) && call.Finish? && Finishes(w.s, call.body, call.trailers)
    requires SenderOf(w.s.bodies[w.s.table[call.body].body]).Some?
    ensures var q := SenderOf(w.s.bodies[w.s.table[call.body].body]).value;
            && q < |w.chans|
            && var c, c' := w.chans[q], Next(w, Guest(call)).chans[q];
               && (After(w.s, call).1 == Unit <==> c.receiver != Flow.ReceiverDropped && !c.conn.ErrorWaiting?)
               && (After(w.s, call).1 == Unit || After(w.s, call).1 == Refused)
               && c'.conn == (if c.receiver != Flow.ReceiverDropped && c.conn.ErrorWaiting? then Flow.Gone else c.conn)
               && c'.trailers == Flow.Sent(Contents(w.s, call.trailers))
  {
    var b := w.s.table[call.body].body;
    AnswerTellsCause(w.s, call);
    assert b in w.sentWith;
  }

  /** A guest that is not suspended can make any call, and check and write any stream; the
      other ends of its channels act when they like. */
  lemma WorldActsFreely(w: World, h: nat, contents: seq<byte>, blocking: bool, q: Sender)
    requires w.waiting.None?
    ensures forall call: Call | !call.Finish? :: Enabled(w, Guest(call))
    ensures IsStream(w.s, h) ==> Enabled(w, CheckStream(h)) && Enabled(w, WriteStream(h, contents, blocking))
    ensures q < |w.chans| && w.chans[q].receiver != Flow.ReceiverDropped ==>
              Enabled(w, Outside(q, Flow.PollFrame)) && Enabled(w, Outside(q, Flow.DropReceiver))
    ensures q < |w.chans| && w.chans[q].conn == Flow.Quiet ==>
              Enabled(w, Outside(q, Flow.CloseConn)) && forall e :: Enabled(w, Outside(q, Flow.FailConn(e)))
  {
  }

  /** What the channel knows lets a body be finished, whatever that is. */
  lemma FinishIsPossible(w: World, b: nat, t: Option<nat>) returns (received: bool, connected: bool)
    requires w.waiting.None?
    ensures Enabled(w, Guest(Finish(b, t, received, connected)))
  {
    var q := if HasBody(w.s, b) then SenderOf(w.s.bodies[w.s.table[b].body]) else None;
    var c := if q.Some? && q.value < |w.chans| then w.chans[q.value] else Flow.Fresh();
    received, connected := c.receiver != Flow.ReceiverDropped, !c.conn.ErrorWaiting?;
  }

  // -------------------------------------------------------- a whole response

  lemma {:induction false} RunSnoc(w: World, steps: seq<Step>, step: Step)
    requires IsRun(w, steps) && Enabled(WorldAfter(w, steps), step)
    ensures IsRun(w, steps + [step]) && WorldAfter(w, steps + [step]) == Next(WorldAfter(w, steps), step)
    decreases |steps|
  {
    if steps == [] {
      assert [step][1..] == [] && IsRun(Next(w, step), []);
      assert [] + [step] == [step];
      assert WorldAfter(Next(w, step), []) == Next(w, step);
    } else {
      RunSnoc(Next(w, steps[0]), steps[1..], step);
      assert (steps + [step])[1..] == steps[1..] + [step];
    }
  }

  /** A run and the world it leads to. */
  datatype Trace = Trace(steps: seq<Step>, w: World)

  ghost predicate Reached(t: Trace) {
    IsRun(Start(), t.steps) && t.w == WorldAfter(Start(), t.steps)
  }

  lemma Do(t: Trace, step: Step) returns (t': Trace)
    requires Reached(t) && Enabled(t.w, step)
    ensures Reached(t') && t'.w == Next(t.w, step) && t'.steps == t.steps + [step]
  {
    RunSnoc(Start(), t.steps, step);
    t' := Trace(t.steps + [step], Next(t.w, step));
  }

  lemma FirstSlot(table: map<nat, Entry>, n: nat)
    requires forall h: nat :: h in table <==> h < n
    ensures Slot(table) == n
  {
    var i := Slot(table);
    assert n !in table && i !in table;
  }

  /** The world of a guest that has asked for a body and written to it, once it has its
      outparam, a response and trailers; its stream still waits for the response. */
  function Prepared(t: nat): World {
    World(
      State(map[0 := Outparam(0), 1 := Response(Some(0)), 2 := Fields(t), 3 := BodyHandle(0),
                4 := StreamHandle(0, HttpPending(0))],
            [Pending(0)], [None], 1, [StreamOut(0)]),
      [Flow.Fresh()], None, map[], [[]], map[])
  }

  lemma Prepare(t: nat) returns (trace: Trace)
    ensures Reached(trace) && trace.w == Prepared(t)
  {
    trace := Trace([], Start());
    FirstSlot(trace.w.s.table, 0);
    trace := Do(trace, Guest(NewOutparam));
    assert trace.w.s.table == map[0 := Outparam(0)];
    FirstSlot(trace.w.s.table, 1);
    trace := Do(trace, Guest(NewFields(0)));
    assert trace.w.s.table == map[0 := Outparam(0), 1 := Fields(0)];
    FirstSlot(Delete(trace.w.s, 1).table, 1);
    trace := Do(trace, Guest(NewResponse(1)));
    assert trace.w.s.table == map[0 := Outparam(0), 1 := Response(None)];
    FirstSlot(trace.w.s.table, 2);
    trace := Do(trace, Guest(NewFields(t)));
    assert trace.w.s == State(map[0 := Outparam(0), 1 := Response(None), 2 := Fields(t)], [], [], 1, []);
    trace := AskAndWrite(trace, t);
  }

  lemma AskAndWrite(before: Trace, t: nat) returns (trace: Trace)
    requires Reached(before)
    requires before.w == World(State(map[0 := Outparam(0), 1 := Response(None), 2 := Fields(t)], [], [], 1, []),
                               [Flow.Fresh()], None, map[], [], map[])
    ensures Reached(trace) && trace.w == Prepared(t)
  {
    FirstSlot(before.w.s.table[1 := Response(Some(0))], 3);
    trace := Do(before, Guest(GetBody(1)));
    assert trace.w.s.table == map[0 := Outparam(0), 1 := Response(Some(0)), 2 := Fields(t), 3 := BodyHandle(0)];
    FirstSlot(trace.w.s.table, 4);
    trace := Do(trace, Guest(Write(3)));
    assert trace.w.s.table == Prepared(t).s.table;
    assert trace.w == Prepared(t);
  }

  /** The world once the response has been sent, the contents written, the stream dropped
      and the body finished. */
  function Answered(contents: seq<byte>, t: nat): World {
    World(State(map[], [Finished], [Some(0)], 1, [StreamOut(0), TrailersSent(0)]),
          [Flow.Fresh().(permits := Monus(65535, |contents|), queue := [contents], written := contents, trailers := Flow.Sent(Some(t)))],
          None, map[0 := 0], [contents], map[0 := Some(t)])
  }

  /** The prepared world once its response has been sent. */
  function SentOff(t: nat): World {
    World(State(map[2 := Fields(t), 3 := BodyHandle(0), 4 := StreamHandle(0, HttpPending(0))],
                [Trailers(0)], [Some(0)], 1, [StreamOut(0)]),
          [Flow.Fresh()], None, map[0 := 0], [[]], map[])
  }

  /** And once the contents have been written. */
  function Written(contents: seq<byte>, t: nat): World {
    World(State(map[2 := Fields(t), 3 := BodyHandle(0), 4 := StreamHandle(0, HttpWriting(0))],
                [Trailers(0)], [Some(0)], 1, [StreamOut(0)]),
          [Flow.Fresh().(permits := Monus(65535, |contents|), queue := [contents], written := contents)],
          None, map[0 := 0], [contents], map[])
  }

  lemma SendOff(before: Trace, t: nat) returns (trace: Trace)
    requires Reached(before) && before.w == Prepared(t)
    ensures Reached(trace) && trace.w == SentOff(t)
  {
    trace := Do(before, Guest(Set(0, Some(1))));
    assert trace.w.s.table == SentOff(t).s.table;
    assert trace.w == SentOff(t);
  }

  lemma WriteAll(before: Trace, contents: seq<byte>, t: nat) returns (trace: Trace)
    requires Reached(before) && before.w == SentOff(t) && |contents| <= 65535
    ensures Reached(trace) && trace.w == Written(contents, t)
  {
    var c := Flow.Fresh();
    assert [] + contents == contents && c.queue + [contents] == [contents];
    assert ChanOf(before.w, 4) == c && View(before.w.s, HttpPending(0)) == Out.HttpPending(Out.Arrived);
    trace := Do(before, WriteStream(4, contents, false));
    assert trace.w.s.table == Written(contents, t).s.table;
    assert trace.w.chans == Written(contents, t).chans;
    assert trace.w.accepted == [contents];
  }

  lemma DropAndFinish(before: Trace, contents: seq<byte>, t: nat) returns (trace: Trace)
    requires Reached(before) && before.w == Written(contents, t)
    ensures Reached(trace) && trace.w == Answered(contents, t)
  {
    trace := Do(before, Guest(DropStream(4)));
    assert trace.w.s.table == map[2 := Fields(t), 3 := BodyHandle(0)];
    assert trace.w == Written(contents, t).(s := trace.w.s);
    trace := FinishLast(trace, contents, t);
  }

  lemma FinishLast(before: Trace, contents: seq<byte>, t: nat) returns (trace: Trace)
    requires Reached(before)
    requires before.w == Written(contents, t).(
               s := State(map[2 := Fields(t), 3 := BodyHandle(0)], [Trailers(0)], [Some(0)], 1, [StreamOut(0)]))
    ensures Reached(trace) && trace.w == Answered(contents, t)
  {
    trace := Do(before, Guest(Finish(3, Some(2), true, true)));
    assert trace.w.s.table == map[];
    assert trace.w.chans == Answered(contents, t).chans;
  }

  lemma Answer(contents: seq<byte>, t: nat) returns (trace: Trace)
    requires |contents| <= 65535
    ensures Reached(trace) && trace.w == Answered(contents, t)
  {
    trace := Prepare(t);
    trace := SendOff(trace, t);
    trace := WriteAll(trace, contents, t);
    trace := DropAndFinish(trace, contents, t);
  }

  /** For every content there is a run in which a guest answers with it and the connection
      receives just that, and then the trailers. */
  lemma AnyResponseCanBeDelivered(contents: seq<byte>, t: nat) returns (trace: Trace)
    requires |contents| <= 65535
    ensures Reached(trace)
    ensures |trace.w.chans| == 1 && trace.w.chans[0].emitted == contents
    ensures Flow.Poll(trace.w.chans[0]).1 == Flow.TrailersFrame(t)
    ensures trace.w.sentWith == map[0 := 0] && trace.w.accepted == [contents] && trace.w.finished == map[0 := Some(t)]
  {
    trace := Answer(contents, t);
    trace := Do(trace, Outside(0, Flow.DropSenders));
    assert [] + contents == contents;
    trace := Do(trace, Outside(0, Flow.PollFrame));
    assert trace.w.chans[0].queue == [];
  }
}
