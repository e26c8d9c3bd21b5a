/** Delivery of response bodies, end to end: a guest with its bodies and streams, the
    channels behind them, and the connections at their other ends. */
module Delivery {
  import opened Wrappers
  import opened Tables
  import opened OutgoingBody
  import Flow = BodyFlow
  import Out = Streams

  type byte = Flow.byte

  /** The guest's table and bodies, the channel of each response sender, and the stream
      whose blocking write is waiting. The rest is history: with which sender the
      response of a body was sent, the bytes the streams of each body have accepted,
      and the trailers each finished body was given. */
  datatype World = World(
    s: State, chans: seq<Flow.Chan>, waiting: Option<nat>,
    sentWith: map<nat, Sender>, accepted: seq<seq<byte>>, finished: map<nat, Option<nat>>)

  /** A guest's call on a resource or on a stream, a waiting write going on, or what the
      rest of the world does to the channel of sender q. */
  datatype Step =
    | Guest(call: Call)
    | CheckStream(h: nat)
    | WriteStream(h: nat, contents: seq<byte>, blocking: bool)
    | ResumeStream
    | Outside(q: Sender, op: Flow.Op)

  // ----------------------------------------------------- streams and channels

  /** The sender a stream leads to, if its body's response has been sent. */
  function Feed(arrived: seq<Option<Sender>>, stream: Stream): Option<Sender> {
    match stream
    case HttpWriting(q) => Some(q)
    case HttpPending(chan) => if chan < |arrived| then arrived[chan] else None
    case Limited(_, inner) => Feed(arrived, inner)
  }

  function PendingOn(stream: Stream): Option<nat> {
    match stream
    case HttpWriting(_) => None
    case HttpPending(chan) => Some(chan)
    case Limited(_, inner) => PendingOn(inner)
  }

  /** What a pending stream finds on its channel. */
  ghost function Found(s: State, chan: nat): Out.Arrival {
    if chan < |s.arrived| && s.arrived[chan].Some? then Out.Arrived
    else if Pending(chan) in s.bodies then Out.NotSent
    else Out.NeverSent
  }

  /** The stream as its own operations see it. */
  ghost function View(s: State, stream: Stream): Out.OutputStream {
    match stream
    case HttpWriting(_) => Out.HttpWriting
    case HttpPending(chan) => Out.HttpPending(Found(s, chan))
    case Limited(budget, inner) => Out.Limited(budget, View(s, inner))
  }

  /** The stream after an operation has left `after` of its view. */
  function Stored(stream: Stream, after: Out.OutputStream, q: Option<Sender>): Stream {
    match (stream, after)
    case (HttpPending(_), HttpWriting) => if q.Some? then HttpWriting(q.value) else stream
    case (Limited(_, inner), Limited(budget, inner')) => Limited(budget, Stored(inner, inner', q))
    case _ => stream
  }

  /** The channel a stream in the table leads to; a pending one touches no channel. */
  ghost function ChanOf(w: World, h: nat): Flow.Chan
    requires IsStream(w.s, h)
  {
    var q := Feed(w.s.arrived, w.s.table[h].stream);
    if q.Some? && q.value < |w.chans| then w.chans[q.value] else Flow.Fresh()
  }

  ghost function Update(w: World, h: nat, after: Out.OutputStream, c: Flow.Chan): World
    requires IsStream(w.s, h)
  {
    var e := w.s.table[h];
    var q := Feed(w.s.arrived, e.stream);
    w.(s := w.s.(table := w.s.table[h := StreamHandle(e.body, Stored(e.stream, after, q))]),
       chans := if q.Some? && q.value < |w.chans| then w.chans[q.value := c] else w.chans)
  }

  function Credit(accepted: seq<seq<byte>>, b: nat, contents: seq<byte>): seq<seq<byte>> {
    if b < |accepted| then accepted[b := accepted[b] + contents] else accepted
  }

  // -------------------------------------------------------------------- steps

  predicate OutparamHas(s: State, q: Sender) {
    exists h | h in s.table :: s.table[h] == Outparam(q)
  }

  predicate BodyHas(s: State, q: Sender) {
    exists b | 0 <= b < |s.bodies| :: s.bodies[b].Created? && s.bodies[b].sender == Some(q)
  }

  predicate StreamHas(s: State, q: Sender) {
    exists h | h in s.table :: s.table[h].StreamHandle? && Feed(s.arrived, s.table[h].stream) == Some(q)
  }

  /** Someone in the guest holds a data sender of q. */
  predicate HasData(s: State, q: Sender) {
    OutparamHas(s, q) || BodyHas(s, q) || StreamHas(s, q)
  }

  /** The response that `set` sends has a body. */
  predicate Sends(s: State, param: nat, response: nat) {
    IsOutparam(s, param) && IsResponse(s, response) &&
    s.table[response].link.Some? && s.table[response].link.value < |s.bodies|
  }

  predicate Finishes(s: State, h: nat, trailers: Option<nat>) {
    HasBody(s, h) && (trailers.Some? ==> IsFields(s, trailers.value))
  }

  function Contents(s: State, trailers: Option<nat>): Option<nat> {
    if trailers.Some? && IsFields(s, trailers.value) then Some(s.table[trailers.value].content) else None
  }

  /** What `finish` is told about the other end is what the body's channel knows. */
  predicate Truthful(w: World, call: Call) {
    call.Finish? && HasBody(w.s, call.body) ==>
      var q := SenderOf(w.s.bodies[w.s.table[call.body].body]);
      q.Some? && q.value < |w.chans| ==>
        && call.received == (w.chans[q.value].receiver != Flow.ReceiverDropped)
        && call.connected == !w.chans[q.value].conn.ErrorWaiting?
  }

  ghost predicate Enabled(w: World, step: Step) {
    match step
    case Guest(call) => w.waiting.None? && Truthful(w, call)
    case CheckStream(h) => w.waiting.None? && IsStream(w.s, h)
    case WriteStream(h, _, _) => w.waiting.None? && IsStream(w.s, h)
    case ResumeStream => w.waiting.Some? && IsStream(w.s, w.waiting.value)
    case Outside(q, op) =>
      && q < |w.chans| && Flow.Enabled(w.chans[q], op) && !Out.IsWrite(op) && !op.SendTrailers?
      && (op.DropSenders? ==> !HasData(w.s, q))
      && (op.DropTrailers? ==> forall o :: !Owns(w.s, o, q))
  }

  /** The trailers go to the channel, and a waiting connection error is taken. */
  function GiveTrailers(c: Flow.Chan, t: Option<nat>, received: bool): Flow.Chan {
    c.(trailers := Flow.Sent(t), conn := if received && c.conn.ErrorWaiting? then Flow.Gone else c.conn)
  }

  function AfterGuest(w: World, call: Call): World {
    var s' := After(w.s, call).0;
    match call
    case NewOutparam => w.(s := s', chans := w.chans + [Flow.Fresh()])
    case GetBody(_) => w.(s := s', accepted := if |s'.bodies| > |w.s.bodies| then w.accepted + [[]] else w.accepted)
    case Set(p, Some(r)) =>
      w.(s := s', sentWith := if Sends(w.s, p, r) then w.sentWith[w.s.table[r].link.value := w.s.table[p].sender] else w.sentWith)
    case Finish(h, t, received, _) =>
      if !Finishes(w.s, h, t) then w.(s := s')
      else
        var b := w.s.table[h].body;
        var q := SenderOf(w.s.bodies[b]);
        w.(s := s', finished := w.finished[b := Contents(w.s, t)],
           chans := if q.Some? && q.value < |w.chans|
                    then w.chans[q.value := GiveTrailers(w.chans[q.value], Contents(w.s, t), received)] else w.chans)
    case _ => w.(s := s')
  }

  ghost function AfterWriteStream(w: World, h: nat, contents: seq<byte>, o: Out.Outcome): World
    requires IsStream(w.s, h)
  {
    Update(w, h, o.stream, o.chan).(
      accepted := Credit(w.accepted, w.s.table[h].body, if o.result == Flow.Wrote then contents else []),
      waiting := if o.result == Flow.Blocked then Some(h) else None)
  }

  ghost function Next(w: World, step: Step): World
    requires Enabled(w, step)
  {
    match step
    case Guest(call) => AfterGuest(w, call)
    case CheckStream(h) =>
      var k := Out.CheckWrite(View(w.s, w.s.table[h].stream), ChanOf(w, h));
      Update(w, h, k.stream, k.chan)
    case WriteStream(h, contents, blocking) =>
      AfterWriteStream(w, h, contents, Out.WriteTo(View(w.s, w.s.table[h].stream), ChanOf(w, h), contents, blocking))
    case ResumeStream =>
      var h := w.waiting.value;
      AfterWriteStream(w, h, Out.WaitingBytes(ChanOf(w, h)), Out.ResumeWrite(View(w.s, w.s.table[h].stream), ChanOf(w, h)))
    case Outside(q, op) => w.(chans := w.chans[q := Flow.Next(w.chans[q], op)])
  }

  function Start(): World {
    World(Initial(), [], None, map[], [], map[])
  }

  ghost predicate IsRun(w: World, steps: seq<Step>)
    decreases |steps|
  {
    steps != [] ==> Enabled(w, steps[0]) && IsRun(Next(w, steps[0]), steps[1..])
  }

  ghost function WorldAfter(w: World, steps: seq<Step>): World
    requires IsRun(w, steps)
    decreases |steps|
  {
    if steps == [] then w else WorldAfter(Next(w, steps[0]), steps[1..])
  }

  // ------------------------------------------- who leads where: the guest's side

  /** No response with a body has been sent with this sender. */
  ghost predicate Free(sentWith: map<nat, Sender>, q: Sender) {
    forall b | b in sentWith :: sentWith[b] != q
  }

  /** Bodies and the senders their responses were sent with. */
  ghost predicate SentOk(s: State, sentWith: map<nat, Sender>) {
    && (forall b | b in sentWith :: b < |s.bodies| && sentWith[b] < s.senders)
    && (forall b, d | b in sentWith && d in sentWith && sentWith[b] == sentWith[d] :: b == d)
    && (forall h | h in s.table && s.table[h].Outparam? :: Free(sentWith, s.table[h].sender))
    && (forall r | r in s.table && s.table[r].Response? && s.table[r].link.Some? :: s.table[r].link.value !in sentWith)
    && (forall b | 0 <= b < |s.bodies| && SenderOf(s.bodies[b]).Some? ::
          b in sentWith && sentWith[b] == SenderOf(s.bodies[b]).value)
  }

  /** Every stream leads to the response of its own body, if it leads anywhere. */
  ghost predicate LeadsOk(s: State, sentWith: map<nat, Sender>) {
    && (forall h | h in s.table && s.table[h].StreamHandle? ::
          LeadsHome(s.arrived, s.bodies, sentWith, s.table[h].body, s.table[h].stream))
    && (forall b, d | 0 <= b < |s.bodies| && 0 <= d < |s.bodies| && s.bodies[b].Pending? && s.bodies[b] == s.bodies[d] :: b == d)
    && (forall b | 0 <= b < |s.bodies| && s.bodies[b].Pending? :: s.bodies[b].chan < |s.arrived|)
  }

  ghost predicate LeadsHome(arrived: seq<Option<Sender>>, bodies: seq<Body>, sentWith: map<nat, Sender>, body: nat,
                            stream: Stream) {
    && body < |bodies|
    && (Feed(arrived, stream).Some? ==> body in sentWith && sentWith[body] == Feed(arrived, stream).value)
    && (PendingOn(stream).Some? ==>
          && PendingOn(stream).value < |arrived|
          && forall b | 0 <= b < |bodies| && bodies[b] == Pending(PendingOn(stream).value) :: b == body)
  }

  ghost predicate Tied(s: State, sentWith: map<nat, Sender>) {
    BodiesOk(s) && UsedOnce(s) && SentOk(s, sentWith) && LeadsOk(s, sentWith)
  }

  lemma {:induction false} FeedGrows(arrived: seq<Option<Sender>>, stream: Stream)
    requires PendingOn(stream).Some? ==> PendingOn(stream).value < |arrived|
    ensures Feed(arrived + [None], stream) == Feed(arrived, stream)
  {
    if stream.Limited? {
      FeedGrows(arrived, stream.stream);
    }
  }

  lemma {:induction false} FeedAnswered(arrived: seq<Option<Sender>>, stream: Stream, chan: nat, q: Sender)
    requires chan < |arrived|
    ensures Feed(arrived[chan := Some(q)], stream) ==
              if PendingOn(stream) == Some(chan) then Some(q) else Feed(arrived, stream)
  {
    if stream.Limited? {
      FeedAnswered(arrived, stream.stream, chan, q);
    }
  }

  lemma LimitKeepsFeed(arrived: seq<Option<Sender>>, limit: Option<nat>, stream: Stream)
    ensures Feed(arrived, Limit(limit, stream)) == Feed(arrived, stream)
    ensures PendingOn(Limit(limit, stream)) == PendingOn(stream)
  {
  }

  lemma DeleteKeepsTies(s: State, sentWith: map<nat, Sender>, h: nat)
    requires SentOk(s, sentWith) && LeadsOk(s, sentWith)
    ensures SentOk(Delete(s, h), sentWith) && LeadsOk(Delete(s, h), sentWith)
  {
  }

  lemma PushKeepsTies(s: State, sentWith: map<nat, Sender>, e: Entry)
    requires SentOk(s, sentWith) && LeadsOk(s, sentWith)
    requires e.Outparam? ==> Free(sentWith, e.sender)
    requires e.Response? ==> e.link.None?
    requires e.StreamHandle? ==> LeadsHome(s.arrived, s.bodies, sentWith, e.body, e.stream)
    ensures SentOk(Push(s, e).0, sentWith) && LeadsOk(Push(s, e).0, sentWith)
  {
  }

  lemma NewBodyKeepsTies(s: State, sentWith: map<nat, Sender>, r: nat)
    requires SentOk(s, sentWith) && LeadsOk(s, sentWith) && IsResponse(s, r)
    ensures var t := s.(table := s.table[r := Response(Some(|s.bodies|))], bodies := s.bodies + [Created(None, None)]);
            SentOk(t, sentWith) && LeadsOk(t, sentWith)
  {
  }

  lemma GetBodyKeepsTies(s: State, sentWith: map<nat, Sender>, r: nat)
    requires SentOk(s, sentWith) && LeadsOk(s, sentWith)
    ensures SentOk(After(s, GetBody(r)).0, sentWith) && LeadsOk(After(s, GetBody(r)).0, sentWith)
  {
    if IsResponse(s, r) && s.table[r].link.None? {
      var b := |s.bodies|;
      NewBodyKeepsTies(s, sentWith, r);
      PushKeepsTies(s.(table := s.table[r := Response(Some(b))], bodies := s.bodies + [Created(None, None)]), sentWith,
                    BodyHandle(b));
    }
  }

  lemma WriteKeepsTies(s: State, sentWith: map<nat, Sender>, h: nat)
    requires SentOk(s, sentWith) && LeadsOk(s, sentWith) && HasBody(s, h) && Usable(s.bodies[s.table[h].body])
    ensures SentOk(AfterWrite(s, h).0, sentWith) && LeadsOk(AfterWrite(s, h).0, sentWith)
  {
    var b := s.table[h].body;
    match s.bodies[b]
    case Created(limit, Some(q)) => WriteSentKeepsTies(s, sentWith, b, limit, q);
    case Created(limit, None) => WriteUnsentKeepsTies(s, sentWith, b, limit);
    case _ =>
  }

  lemma WriteSentKeepsTies(s: State, sentWith: map<nat, Sender>, b: nat, limit: Option<nat>, q: Sender)
    requires SentOk(s, sentWith) && LeadsOk(s, sentWith) && b < |s.bodies| && s.bodies[b] == Created(limit, Some(q))
    ensures var t := s.(bodies := s.bodies[b := Trailers(q)], log := s.log + [StreamOut(b)]);
            var t' := Push(t, StreamHandle(b, Limit(limit, HttpWriting(q)))).0;
            SentOk(t', sentWith) && LeadsOk(t', sentWith)
  {
    var t := s.(bodies := s.bodies[b := Trailers(q)], log := s.log + [StreamOut(b)]);
    LimitKeepsFeed(t.arrived, limit, HttpWriting(q));
    PushKeepsTies(t, sentWith, StreamHandle(b, Limit(limit, HttpWriting(q))));
  }

  lemma WriteUnsentKeepsTies(s: State, sentWith: map<nat, Sender>, b: nat, limit: Option<nat>)
    requires SentOk(s, sentWith) && LeadsOk(s, sentWith) && b < |s.bodies|
    ensures var n := |s.arrived|;
            var t := s.(bodies := s.bodies[b := Pending(n)], arrived := s.arrived + [None], log := s.log + [StreamOut(b)]);
            var t' := Push(t, StreamHandle(b, Limit(limit, HttpPending(n)))).0;
            SentOk(t', sentWith) && LeadsOk(t', sentWith)
  {
    var n := |s.arrived|;
    var t := s.(bodies := s.bodies[b := Pending(n)], arrived := s.arrived + [None], log := s.log + [StreamOut(b)]);
    PendingKeepsTies(s, sentWith, b);
    LimitKeepsFeed(t.arrived, limit, HttpPending(n));
    PushKeepsTies(t, sentWith, StreamHandle(b, Limit(limit, HttpPending(n))));
  }

  /** The channel of a new pending stream is one that nothing else waits on. */
  lemma PendingKeepsTies(s: State, sentWith: map<nat, Sender>, b: nat)
    requires SentOk(s, sentWith) && LeadsOk(s, sentWith) && b < |s.bodies|
    ensures var n := |s.arrived|;
            var t := s.(bodies := s.bodies[b := Pending(n)], arrived := s.arrived + [None], log := s.log + [StreamOut(b)]);
            && SentOk(t, sentWith) && LeadsOk(t, sentWith)
            && forall d | 0 <= d < |t.bodies| && t.bodies[d] == Pending(n) :: d == b
  {
    var t := s.(bodies := s.bodies[b := Pending(|s.arrived|)], arrived := s.arrived + [None]);
    forall h | h in s.table && s.table[h].StreamHandle?
      ensures LeadsHome(t.arrived, t.bodies, sentWith, s.table[h].body, s.table[h].stream)
    {
      assert LeadsHome(s.arrived, s.bodies, sentWith, s.table[h].body, s.table[h].stream);
      FeedGrows(s.arrived, s.table[h].stream);
    }
  }

  lemma EndKeepsTies(s: State, sentWith: map<nat, Sender>, h: nat, end: Body)
    requires SentOk(s, sentWith) && LeadsOk(s, sentWith) && HasBody(s, h) && (end == Finished || end == Dropped)
    ensures var t := Delete(s, h).(bodies := s.bodies[s.table[h].body := end]);
            SentOk(t, sentWith) && LeadsOk(t, sentWith)
  {
  }

  lemma AttachKeepsSent(s: State, sentWith: map<nat, Sender>, b: nat, q: Sender)
    requires SentOk(s, sentWith) && b < |s.bodies| && q < s.senders
    requires b !in sentWith && Free(sentWith, q) && Unsent(s.bodies[b])
    requires forall h | h in s.table && s.table[h].Outparam? :: s.table[h].sender != q
    requires forall r | r in s.table && s.table[r].Response? :: s.table[r].link != Some(b)
    ensures SentOk(AttachSender(s, b, q).0, sentWith[b := q])
  {
  }

  lemma AttachKeepsLeads(s: State, sentWith: map<nat, Sender>, b: nat, q: Sender)
    requires LeadsOk(s, sentWith) && b < |s.bodies| && b !in sentWith && Unsent(s.bodies[b])
    ensures LeadsOk(AttachSender(s, b, q).0, sentWith[b := q])
  {
    var t, sent := AttachSender(s, b, q).0, sentWith[b := q];
    forall h | h in t.table && t.table[h].StreamHandle?
      ensures LeadsHome(t.arrived, t.bodies, sent, t.table[h].body, t.table[h].stream)
    {
      AttachKeepsHome(s, sentWith, b, q, s.table[h].body, s.table[h].stream);
    }
  }

  lemma AttachKeepsHome(s: State, sentWith: map<nat, Sender>, b: nat, q: Sender, body: nat, stream: Stream)
    requires b < |s.bodies| && b !in sentWith && Unsent(s.bodies[b])
    requires s.bodies[b].Pending? ==> s.bodies[b].chan < |s.arrived|
    requires LeadsHome(s.arrived, s.bodies, sentWith, body, stream)
    ensures var t := AttachSender(s, b, q).0; LeadsHome(t.arrived, t.bodies, sentWith[b := q], body, stream)
  {
    if s.bodies[b].Pending? {
      FeedAnswered(s.arrived, stream, s.bodies[b].chan, q);
    }
  }

  lemma SetIsAttach(s: State, param: nat, response: nat)
    requires Sends(s, param, response)
    ensures After(s, Set(param, Some(response))).0 ==
            AttachSender(Delete(Delete(s, param), response), s.table[response].link.value, s.table[param].sender).0
  {
  }

  /** Sending a response ties its body b to the outparam's sender q. */
  lemma SetKeepsTies(s: State, sentWith: map<nat, Sender>, param: nat, response: nat)
    requires Tied(s, sentWith) && Sends(s, param, response)
    ensures var b, q := s.table[response].link.value, s.table[param].sender;
            var t := AttachSender(Delete(Delete(s, param), response), b, q).0;
            SentOk(t, sentWith[b := q]) && LeadsOk(t, sentWith[b := q])
  {
    var b, q, t := s.table[response].link.value, s.table[param].sender, Delete(Delete(s, param), response);
    DeleteKeepsTies(s, sentWith, param);
    DeleteKeepsTies(Delete(s, param), sentWith, response);
    SenderIsLoose(s, param, response);
    AttachKeepsSent(t, sentWith, b, q);
    AttachKeepsLeads(t, sentWith, b, q);
  }

  /** With outparam and response off the table, nothing on it has their sender or body. */
  lemma SenderIsLoose(s: State, param: nat, response: nat)
    requires BodiesOk(s) && UsedOnce(s) && Sends(s, param, response)
    ensures var t := Delete(Delete(s, param), response);
            && s.table[param].sender < s.senders
            && Unsent(s.bodies[s.table[response].link.value])
            && (forall h | h in t.table && t.table[h].Outparam? :: t.table[h].sender != s.table[param].sender)
            && (forall r | r in t.table && t.table[r].Response? :: t.table[r].link != s.table[response].link)
  {
    var q, s', t := s.table[param].sender, Delete(s, param), Delete(Delete(s, param), response);
    DeleteKeepsUse(s, param);
    forall h | h in t.table && t.table[h].Outparam? ensures t.table[h].sender != q {
      assert Owns(s', OutparamAt(h), t.table[h].sender);
    }
  }

  lemma SetNothingKeepsTies(s: State, sentWith: map<nat, Sender>, param: nat, response: nat)
    requires SentOk(s, sentWith) && LeadsOk(s, sentWith) && IsOutparam(s, param) && !Sends(s, param, response)
    ensures var t := After(s, Set(param, Some(response))).0; SentOk(t, sentWith) && LeadsOk(t, sentWith)
  {
    DeleteKeepsTies(s, sentWith, param);
    DeleteKeepsTies(Delete(s, param), sentWith, response);
  }

  /** Every call keeps streams leading to the response of their own body. */
  lemma GuestKeepsTies(w: World, call: Call)
    requires Tied(w.s, w.sentWith)
    ensures Tied(AfterGuest(w, call).s, AfterGuest(w, call).sentWith)
  {
    StepKeepsBodies(w.s, call);
    StepKeepsUse(w.s, call);
    GuestKeepsLeads(w, call);
  }

  lemma GuestKeepsLeads(w: World, call: Call)
    requires Tied(w.s, w.sentWith)
    ensures SentOk(AfterGuest(w, call).s, AfterGuest(w, call).sentWith)
    ensures LeadsOk(AfterGuest(w, call).s, AfterGuest(w, call).sentWith)
  {
    if call.Set? && call.sent.Some? && Sends(w.s, call.param, call.sent.value) {
      SetIsAttach(w.s, call.param, call.sent.value);
      SetKeepsTies(w.s, w.sentWith, call.param, call.sent.value);
    } else {
      CallKeepsTies(w.s, w.sentWith, call);
      assert AfterGuest(w, call).s == After(w.s, call).0 && AfterGuest(w, call).sentWith == w.sentWith;
    }
  }

  /** Calls that send no body's response. */
  lemma CallKeepsTies(s: State, sentWith: map<nat, Sender>, call: Call)
    requires BodiesOk(s) && SentOk(s, sentWith) && LeadsOk(s, sentWith)
    requires call.Set? && call.sent.Some? ==> !Sends(s, call.param, call.sent.value)
    ensures SentOk(After(s, call).0, sentWith) && LeadsOk(After(s, call).0, sentWith)
  {
    match call
    case NewOutparam => NewOutparamKeepsTies(s, sentWith);
    case GetBody(r) => GetBodyKeepsTies(s, sentWith, r);
    case Write(h) => if HasBody(s, h) { WriteKeepsTies(s, sentWith, h); }
    case Finish(_, _, _, _) => FinishKeepsTies(s, sentWith, call);
    case DropBody(h) => if HasBody(s, h) { EndKeepsTies(s, sentWith, h, Dropped); }
    case Set(p, Some(r)) => if IsOutparam(s, p) { SetNothingKeepsTies(s, sentWith, p, r); }
    case _ => TableCallKeepsTies(s, sentWith, call);
  }

  lemma NewOutparamKeepsTies(s: State, sentWith: map<nat, Sender>)
    requires SentOk(s, sentWith) && LeadsOk(s, sentWith)
    ensures SentOk(After(s, NewOutparam).0, sentWith) && LeadsOk(After(s, NewOutparam).0, sentWith)
  {
    PushKeepsTies(s.(senders := s.senders + 1), sentWith, Outparam(s.senders));
  }

  /** Calls that only take entries off the table and put fields or responses on it. */
  lemma TableCallKeepsTies(s: State, sentWith: map<nat, Sender>, call: Call)
    requires SentOk(s, sentWith) && LeadsOk(s, sentWith)
    requires !call.NewOutparam? && !call.GetBody? && !call.Write? && !call.Finish? && !call.DropBody?
    requires call.Set? ==> call.sent.None?
    ensures SentOk(After(s, call).0, sentWith) && LeadsOk(After(s, call).0, sentWith)
  {
    match call
    case NewFields(content) => PushKeepsTies(s, sentWith, Fields(content));
    case NewResponse(f) => DeleteKeepsTies(s, sentWith, f); PushKeepsTies(Delete(s, f), sentWith, Response(None));
    case Set(p, _) => DeleteKeepsTies(s, sentWith, p);
    case DropResponse(r) => DeleteKeepsTies(s, sentWith, r);
    case DropOutparam(p) => DeleteKeepsTies(s, sentWith, p);
    case DropFields(f) => DeleteKeepsTies(s, sentWith, f);
    case DropStream(h) => DeleteKeepsTies(s, sentWith, h);
  }

  lemma LogKeepsTies(s: State, sentWith: map<nat, Sender>, log: seq<Event>)
    requires SentOk(s, sentWith) && LeadsOk(s, sentWith)
    ensures SentOk(s.(log := log), sentWith) && LeadsOk(s.(log := log), sentWith)
  {
  }

  lemma FinishKeepsTies(s: State, sentWith: map<nat, Sender>, call: Call)
    requires SentOk(s, sentWith) && LeadsOk(s, sentWith) && call.Finish?
    ensures SentOk(After(s, call).0, sentWith) && LeadsOk(After(s, call).0, sentWith)
  {
    var h, trailers, end := call.body, call.trailers, After(s, call).0;
    var s' := s;
    if trailers.Some? && IsFields(s, trailers.value) {
      s' := Delete(s, trailers.value);
      DeleteKeepsTies(s, sentWith, trailers.value);
    }
    if HasBody(s', h) && (trailers.Some? ==> IsFields(s, trailers.value)) {
      EndKeepsTies(s', sentWith, h, Finished);
      var t := Delete(s', h).(bodies := s'.bodies[s'.table[h].body := Finished]);
      assert end == t.(log := end.log);
      LogKeepsTies(t, sentWith, end.log);
    } else {
      assert end == s || end == s';
    }
  }

  // ---------------------------------------------------- what holders can still do

  ghost predicate Owned(s: State, q: Sender) {
    exists o :: Owns(s, o, q)
  }

  /** No call makes anyone the owner of an old sender that had none. */
  lemma OwnedLater(s: State, call: Call, q: Sender)
    requires Owned(After(s, call).0, q)
    ensures Owned(s, q) || (call.NewOutparam? && q == s.senders)
  {
    var o :| Owns(After(s, call).0, o, q);
    if o.OutparamAt? {
      OutparamOwnedLater(s, call, q, o.h);
    } else {
      BodyOwnedLater(s, call, q, o.b);
    }
  }

  lemma OutparamOwnedLater(s: State, call: Call, q: Sender, h: nat)
    requires Owns(After(s, call).0, OutparamAt(h), q)
    ensures Owns(s, OutparamAt(h), q) || (call.NewOutparam? && q == s.senders)
  {
  }

  lemma BodyOwnedLater(s: State, call: Call, q: Sender, b: nat)
    requires Owns(After(s, call).0, BodyAt(b), q)
    ensures Owns(s, BodyAt(b), q) || (call.Set? && Owns(s, OutparamAt(call.param), q))
  {
  }

  /** No call gives the guest a data sender it did not have. */
  lemma DataLater(s: State, call: Call, q: Sender)
    requires forall h | h in s.table && s.table[h].StreamHandle? :: Waits(s, s.table[h].stream)
    requires HasData(After(s, call).0, q)
    ensures HasData(s, q) || (call.NewOutparam? && q == s.senders)
  {
    var t := After(s, call).0;
    if OutparamHas(t, q) {
      OutparamDataLater(s, call, q);
    } else if BodyHas(t, q) {
      BodyDataLater(s, call, q);
    } else {
      var h :| h in t.table && t.table[h].StreamHandle? && Feed(t.arrived, t.table[h].stream) == Some(q);
      StreamDataLater(s, call, q, h);
    }
  }

  lemma OutparamDataLater(s: State, call: Call, q: Sender)
    requires OutparamHas(After(s, call).0, q)
    ensures OutparamHas(s, q) || (call.NewOutparam? && q == s.senders)
  {
  }

  lemma BodyDataLater(s: State, call: Call, q: Sender)
    requires BodyHas(After(s, call).0, q)
    ensures BodyHas(s, q) || OutparamHas(s, q)
  {
    var t := After(s, call).0;
    var b :| 0 <= b < |t.bodies| && t.bodies[b].Created? && t.bodies[b].sender == Some(q);
    if call.Set? && (b >= |s.bodies| || s.bodies[b] != t.bodies[b]) {
      assert s.table[call.param] == Outparam(q);
    }
  }

  ghost predicate Waits(s: State, stream: Stream) {
    PendingOn(stream).Some? ==> PendingOn(stream).value < |s.arrived|
  }

  lemma StreamDataLater(s: State, call: Call, q: Sender, h: nat)
    requires forall k | k in s.table && s.table[k].StreamHandle? :: Waits(s, s.table[k].stream)
    requires var t := After(s, call).0;
             h in t.table && t.table[h].StreamHandle? && Feed(t.arrived, t.table[h].stream) == Some(q)
    ensures HasData(s, q)
  {
    var t := After(s, call).0;
    if h in s.table && s.table[h] == t.table[h] {
      var stream := s.table[h].stream;
      OldStreamFeed(s, call, stream, q);
      assert Feed(s.arrived, stream) == Some(q) ==> StreamHas(s, q);
    } else {
      NewStreamFeed(s, call, q, h);
    }
  }

  lemma OldStreamFeed(s: State, call: Call, stream: Stream, q: Sender)
    requires Waits(s, stream) && Feed(After(s, call).0.arrived, stream) == Some(q)
    ensures Feed(s.arrived, stream) == Some(q) || OutparamHas(s, q)
  {
    match call
    case Write(_) => FeedGrows(s.arrived, stream);
    case Set(p, Some(r)) =>
      if After(s, call).0.arrived != s.arrived {
        FeedAnswered(s.arrived, stream, s.bodies[s.table[r].link.value].chan, s.table[p].sender);
        assert s.table[p] == Outparam(s.table[p].sender);
      }
    case _ =>
  }

  lemma NewStreamIsWritten(s: State, call: Call, h: nat)
    requires var t := After(s, call).0; h in t.table && t.table[h].StreamHandle? && !(h in s.table && s.table[h] == t.table[h])
    ensures call.Write? && HasBody(s, call.body) && s.bodies[s.table[call.body].body].Created?
    ensures var b := s.bodies[s.table[call.body].body];
            After(s, call).0.table[h].stream ==
            Limit(b.limit, if b.sender.Some? then HttpWriting(b.sender.value) else HttpPending(|s.arrived|))
  {
  }

  lemma NewStreamFeed(s: State, call: Call, q: Sender, h: nat)
    requires var t := After(s, call).0;
             && h in t.table && t.table[h].StreamHandle? && Feed(t.arrived, t.table[h].stream) == Some(q)
             && !(h in s.table && s.table[h] == t.table[h])
    ensures BodyHas(s, q)
  {
    NewStreamIsWritten(s, call, h);
    var b := s.bodies[s.table[call.body].body];
    if b.sender.Some? {
      LimitKeepsFeed(s.arrived, b.limit, HttpWriting(b.sender.value));
    } else {
      LimitKeepsFeed(s.arrived + [None], b.limit, HttpPending(|s.arrived|));
    }
  }
}
