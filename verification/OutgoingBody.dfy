/** The guest's side of an HTTP response body: one body shared by its own handle and
    by the response it belongs to, driven in any order by `body`, `write`, `set`,
    `finish` and `drop`. */
module OutgoingBody {
  import opened Wrappers
  import opened Tables

  // -------------------------------------------------------------- data model

  /** The channels of one response, all behind one sender; known by a number. */
  type Sender = nat

  datatype Body =
    | Created(limit: Option<nat>, sender: Option<Sender>)
    | Pending(chan: nat)
    | Trailers(tx: Sender)
    | Dropped
    | Finished
    | Corrupted

  datatype Stream =
    | HttpWriting(sender: Sender)
    | HttpPending(chan: nat)
    | Limited(budget: nat, stream: Stream)

  datatype Entry =
    | BodyHandle(body: nat)
    | Response(link: Option<nat>)
    | Outparam(sender: Sender)
    | StreamHandle(body: nat, stream: Stream)
    | Fields(content: nat)

  /** What has been given away for good. */
  datatype Event = StreamOut(body: nat) | TrailersSent(sender: Sender)

  /** The resource table, every body ever created, what has arrived on the channels of
      pending streams, and the number of response senders created. */
  datatype State = State(
    table: map<nat, Entry>, bodies: seq<Body>, arrived: seq<Option<Sender>>, senders: nat, log: seq<Event>)

  datatype Reason = NotInTable | BodyDropped | BodyFinished | BodyCorrupted | AlreadySet

  /** A call answers with a new handle, with nothing, with an error for the guest, or
      not at all: a bail traps the guest. */
  datatype Answer = Handle(h: nat) | Unit | Refused | Bail(reason: Reason)

  /** Calls on the table's resources. `received` tells whether the other end still
      takes trailers, `connected` whether the connection has reported no error. */
  datatype Call =
    | NewOutparam
    | NewFields(content: nat)
    | NewResponse(fields: nat)
    | GetBody(response: nat)
    | Write(body: nat)
    | Finish(body: nat, trailers: Option<nat>, received: bool, connected: bool)
    | DropBody(body: nat)
    | Set(param: nat, sent: Option<nat>)
    | DropResponse(response: nat)
    | DropOutparam(param: nat)
    | DropFields(fields: nat)
    | DropStream(stream: nat)

  // ----------------------------------------------------------- specification

  function Push(s: State, e: Entry): (State, Answer) {
    (s.(table := s.table[Slot(s.table) := e]), Handle(Slot(s.table)))
  }

  function Delete(s: State, h: nat): State {
    s.(table := s.table - {h})
  }

  predicate IsFields(s: State, h: nat) {
    h in s.table && s.table[h].Fields?
  }

  predicate IsResponse(s: State, h: nat) {
    h in s.table && s.table[h].Response?
  }

  predicate IsOutparam(s: State, h: nat) {
    h in s.table && s.table[h].Outparam?
  }

  predicate IsStream(s: State, h: nat) {
    h in s.table && s.table[h].StreamHandle?
  }

  predicate HasBody(s: State, h: nat) {
    h in s.table && s.table[h].BodyHandle? && s.table[h].body < |s.bodies|
  }

  function Limit(limit: Option<nat>, stream: Stream): Stream {
    match limit
    case Some(n) => Limited(n, stream)
    case None => stream
  }

  function AfterWrite(s: State, h: nat): (State, Answer)
    requires HasBody(s, h)
  {
    var b := s.table[h].body;
    match s.bodies[b]
    case Created(limit, Some(q)) =>
      var s' := s.(bodies := s.bodies[b := Trailers(q)], log := s.log + [StreamOut(b)]);
      Push(s', StreamHandle(b, Limit(limit, HttpWriting(q))))
    case Created(limit, None) =>
      var s' := s.(bodies := s.bodies[b := Pending(|s.arrived|)], arrived := s.arrived + [None], log := s.log + [StreamOut(b)]);
      Push(s', StreamHandle(b, Limit(limit, HttpPending(|s.arrived|))))
    case Pending(_) => (s, Refused)
    case Trailers(_) => (s, Refused)
    case Dropped => (s.(bodies := s.bodies[b := Corrupted]), Bail(BodyDropped))
    case Finished => (s.(bodies := s.bodies[b := Corrupted]), Bail(BodyFinished))
    case Corrupted => (s.(bodies := s.bodies[b := Corrupted]), Bail(BodyCorrupted))
  }

  function SendTrailers(s: State, q: Sender, received: bool, connected: bool): (State, Answer) {
    (s.(log := s.log + [TrailersSent(q)]), if received && connected then Unit else Refused)
  }

  function AfterFinish(s: State, h: nat, received: bool, connected: bool): (State, Answer)
    requires HasBody(s, h)
  {
    var b := s.table[h].body;
    var s' := Delete(s, h).(bodies := s.bodies[b := Finished]);
    match s.bodies[b]
    case Created(_, None) => (s', Refused)
    case Pending(_) => (s', Refused)
    case Created(_, Some(q)) => SendTrailers(s', q, received, connected)
    case Trailers(q) => SendTrailers(s', q, received, connected)
    case Dropped => (s', Bail(BodyDropped))
    case Finished => (s', Bail(BodyFinished))
    case Corrupted => (s', Bail(BodyCorrupted))
  }

  /** The trailers, if any, are taken off the table before the body. */
  function AfterFinishWith(s: State, h: nat, trailers: Option<nat>, received: bool, connected: bool): (State, Answer) {
    if trailers.Some? && !IsFields(s, trailers.value) then (s, Bail(NotInTable))
    else
      var s' := if trailers.Some? then Delete(s, trailers.value) else s;
      if HasBody(s', h) then AfterFinish(s', h, received, connected) else (s', Bail(NotInTable))
  }

  function AfterDropBody(s: State, h: nat): (State, Answer)
    requires HasBody(s, h)
  {
    var b := s.table[h].body;
    var s' := Delete(s, h).(bodies := s.bodies[b := Dropped]);
    match s.bodies[b]
    case Dropped => (s', Bail(BodyDropped))
    case Finished => (s', Bail(BodyFinished))
    case Corrupted => (s', Bail(BodyCorrupted))
    case _ => (s', Unit)
  }

  /** The outparam is gone; its sender q goes to the response's body b, if any. */
  function AttachSender(s: State, b: nat, q: Sender): (State, Answer)
    requires b < |s.bodies|
  {
    match s.bodies[b]
    case Created(_, Some(_)) => (s.(bodies := s.bodies[b := Corrupted]), Bail(AlreadySet))
    case Trailers(_) => (s.(bodies := s.bodies[b := Corrupted]), Bail(AlreadySet))
    case Created(limit, None) => (s.(bodies := s.bodies[b := Created(limit, Some(q))]), Unit)
    case Pending(chan) =>
      var arrived := if chan < |s.arrived| then s.arrived[chan := Some(q)] else s.arrived;
      (s.(bodies := s.bodies[b := Trailers(q)], arrived := arrived), Unit)
    case Dropped => (s.(bodies := s.bodies[b := Corrupted]), Unit)
    case Finished => (s.(bodies := s.bodies[b := Corrupted]), Unit)
    case Corrupted => (s.(bodies := s.bodies[b := Corrupted]), Bail(BodyCorrupted))
  }

  function AfterSet(s: State, param: nat, response: Option<nat>): (State, Answer)
    requires IsOutparam(s, param)
  {
    var q, s' := s.table[param].sender, Delete(s, param);
    if response.None? then (s', Unit)
    else if !IsResponse(s', response.value) then (s', Bail(NotInTable))
    else
      var r, s'' := s'.table[response.value], Delete(s', response.value);
      if r.link.Some? && r.link.value < |s''.bodies| then AttachSender(s'', r.link.value, q) else (s'', Unit)
  }

  /** The state and answer after a call. */
  function After(s: State, call: Call): (State, Answer) {
    match call
    case NewOutparam => Push(s.(senders := s.senders + 1), Outparam(s.senders))
    case NewFields(content) => Push(s, Fields(content))
    case NewResponse(f) =>
      if !IsFields(s, f) then (s, Bail(NotInTable)) else Push(Delete(s, f), Response(None))
    case GetBody(r) =>
      if !IsResponse(s, r) then (s, Bail(NotInTable))
      else if s.table[r].link.Some? then (s, Refused)
      else
        var b := |s.bodies|;
        Push(s.(table := s.table[r := Response(Some(b))], bodies := s.bodies + [Created(None, None)]), BodyHandle(b))
    case Write(h) => if HasBody(s, h) then AfterWrite(s, h) else (s, Bail(NotInTable))
    case Finish(h, trailers, received, connected) => AfterFinishWith(s, h, trailers, received, connected)
    case DropBody(h) => if HasBody(s, h) then AfterDropBody(s, h) else (s, Bail(NotInTable))
    case Set(p, response) => if IsOutparam(s, p) then AfterSet(s, p, response) else (s, Bail(NotInTable))
    case DropResponse(r) => if IsResponse(s, r) then (Delete(s, r), Unit) else (s, Bail(NotInTable))
    case DropOutparam(p) => if IsOutparam(s, p) then (Delete(s, p), Unit) else (s, Bail(NotInTable))
    case DropFields(f) => if IsFields(s, f) then (Delete(s, f), Unit) else (s, Bail(NotInTable))
    case DropStream(h) => if IsStream(s, h) then (Delete(s, h), Unit) else (s, Bail(NotInTable))
  }

  function Initial(): State {
    State(map[], [], [], 0, [])
  }

  function RunEnd(s: State, calls: seq<Call>): State
    decreases |calls|
  {
    if calls == [] then s else RunEnd(After(s, calls[0]).0, calls[1..])
  }

  function Answers(s: State, calls: seq<Call>): seq<Answer>
    decreases |calls|
  {
    if calls == [] then [] else [After(s, calls[0]).1] + Answers(After(s, calls[0]).0, calls[1..])
  }

  // ------------------------------------------------------- bodies stay usable

  /** A body whose handle the guest still has. */
  predicate Usable(b: Body) {
    b.Created? || b.Pending? || b.Trailers?
  }

  /** A body whose response has not been sent: no sender has reached it. */
  predicate Unsent(b: Body) {
    b == Dropped || b == Finished || b.Pending? || (b.Created? && b.sender.None?)
  }

  ghost predicate HandlesOk(s: State) {
    && (forall h | h in s.table && s.table[h].BodyHandle? :: s.table[h].body < |s.bodies| && Usable(s.bodies[s.table[h].body]))
    && (forall h, k | h in s.table && k in s.table && s.table[h].BodyHandle? && s.table[k].BodyHandle? &&
                      s.table[h].body == s.table[k].body :: h == k)
  }

  ghost predicate ResponsesOk(s: State) {
    && (forall r | r in s.table && s.table[r].Response? && s.table[r].link.Some? ::
          s.table[r].link.value < |s.bodies| && Unsent(s.bodies[s.table[r].link.value]))
    && (forall r, t | r in s.table && t in s.table && s.table[r].Response? && s.table[t].Response? &&
                      s.table[r].link.Some? && s.table[r].link == s.table[t].link :: r == t)
  }

  ghost predicate BodiesOk(s: State) {
    HandlesOk(s) && ResponsesOk(s)
  }

  predicate BodyBail(a: Answer) {
    a.Bail? && a.reason != NotInTable
  }

  lemma DeleteKeepsBodies(s: State, h: nat)
    requires BodiesOk(s)
    ensures BodiesOk(Delete(s, h))
  {
  }

  lemma PushKeepsBodies(s: State, e: Entry)
    requires BodiesOk(s) && !e.BodyHandle? && (e.Response? ==> e.link.None?)
    ensures BodiesOk(Push(s, e).0)
  {
  }

  /** A fresh body, known to its response only. */
  lemma LinkKeepsBodies(s: State, r: nat)
    requires BodiesOk(s) && IsResponse(s, r)
    ensures var s' := s.(table := s.table[r := Response(Some(|s.bodies|))], bodies := s.bodies + [Created(None, None)]);
            && BodiesOk(s')
            && forall h | h in s'.table && s'.table[h].BodyHandle? :: s'.table[h].body != |s.bodies|
  {
  }

  lemma HandleKeepsBodies(s: State, b: nat)
    requires BodiesOk(s) && b < |s.bodies| && Usable(s.bodies[b])
    requires forall h | h in s.table && s.table[h].BodyHandle? :: s.table[h].body != b
    ensures BodiesOk(Push(s, BodyHandle(b)).0)
  {
  }

  lemma GetBodyKeepsBodies(s: State, r: nat)
    requires BodiesOk(s)
    ensures BodiesOk(After(s, GetBody(r)).0) && !BodyBail(After(s, GetBody(r)).1)
  {
    if IsResponse(s, r) && s.table[r].link.None? {
      LinkKeepsBodies(s, r);
      HandleKeepsBodies(s.(table := s.table[r := Response(Some(|s.bodies|))], bodies := s.bodies + [Created(None, None)]),
                        |s.bodies|);
    }
  }

  lemma WriteKeepsBodies(s: State, h: nat)
    requires BodiesOk(s) && HasBody(s, h)
    ensures BodiesOk(AfterWrite(s, h).0) && !BodyBail(AfterWrite(s, h).1)
  {
    var b := s.table[h].body;
    match s.bodies[b]
    case Created(limit, sender) =>
      var body := if sender.Some? then Trailers(sender.value) else Pending(|s.arrived|);
      var s' := s.(bodies := s.bodies[b := body]);
      assert BodiesOk(s');
    case _ =>
  }

  /** Ending a body through its handle leaves no handle to it. */
  lemma EndKeepsBodies(s: State, h: nat, end: Body)
    requires BodiesOk(s) && HasBody(s, h) && (end == Finished || end == Dropped)
    ensures BodiesOk(Delete(s, h).(bodies := s.bodies[s.table[h].body := end])) && Usable(s.bodies[s.table[h].body])
  {
  }

  lemma FinishKeepsBodies(s: State, h: nat, trailers: Option<nat>, received: bool, connected: bool)
    requires BodiesOk(s)
    ensures var (s', a) := AfterFinishWith(s, h, trailers, received, connected); BodiesOk(s') && !BodyBail(a)
  {
    if trailers.Some? {
      DeleteKeepsBodies(s, trailers.value);
    }
    var s' := if trailers.Some? && IsFields(s, trailers.value) then Delete(s, trailers.value) else s;
    if HasBody(s', h) {
      EndKeepsBodies(s', h, Finished);
    }
  }

  lemma SetKeepsBodies(s: State, param: nat, sent: Option<nat>)
    requires BodiesOk(s) && IsOutparam(s, param)
    ensures BodiesOk(AfterSet(s, param, sent).0) && !BodyBail(AfterSet(s, param, sent).1)
  {
    var s' := Delete(s, param);
    DeleteKeepsBodies(s, param);
    if sent.Some? && IsResponse(s', sent.value) {
      DeleteKeepsBodies(s', sent.value);
      if s'.table[sent.value].link.Some? {
        AttachKeepsBodies(Delete(s', sent.value), s'.table[sent.value].link.value, s.table[param].sender);
      }
    }
  }

  lemma AttachKeepsBodies(s: State, b: nat, q: Sender)
    requires BodiesOk(s) && b < |s.bodies| && Unsent(s.bodies[b])
    requires forall r | r in s.table && s.table[r].Response? :: s.table[r].link != Some(b)
    ensures BodiesOk(AttachSender(s, b, q).0) && !BodyBail(AttachSender(s, b, q).1)
  {
  }

  /** Every call keeps bodies usable through their handles, and none of them bails
      because of the state a body is in. */
  lemma StepKeepsBodies(s: State, call: Call)
    requires BodiesOk(s)
    ensures BodiesOk(After(s, call).0) && !BodyBail(After(s, call).1)
  {
    match call
    case NewOutparam => PushKeepsBodies(s.(senders := s.senders + 1), Outparam(s.senders));
    case NewFields(content) => PushKeepsBodies(s, Fields(content));
    case NewResponse(f) => DeleteKeepsBodies(s, f); PushKeepsBodies(Delete(s, f), Response(None));
    case GetBody(r) => GetBodyKeepsBodies(s, r);
    case Write(h) => if HasBody(s, h) { WriteKeepsBodies(s, h); }
    case Finish(h, trailers, received, connected) => FinishKeepsBodies(s, h, trailers, received, connected);
    case DropBody(h) => if HasBody(s, h) { EndKeepsBodies(s, h, Dropped); }
    case Set(p, sent) => if IsOutparam(s, p) { SetKeepsBodies(s, p, sent); }
    case DropResponse(r) => DeleteKeepsBodies(s, r);
    case DropOutparam(p) => DeleteKeepsBodies(s, p);
    case DropFields(f) => DeleteKeepsBodies(s, f);
    case DropStream(h) => DeleteKeepsBodies(s, h);
  }

  /** In no run from an empty table is the guest ever trapped because a body is
      dropped, finished, corrupted or already set. */
  lemma {:induction false} NoBodyBails(s: State, calls: seq<Call>, i: nat)
    requires BodiesOk(s) && i < |calls|
    ensures |Answers(s, calls)| == |calls| && !BodyBail(Answers(s, calls)[i])
    decreases |calls|
  {
    StepKeepsBodies(s, calls[0]);
    AnswersLength(s, calls);
    if i > 0 {
      NoBodyBails(After(s, calls[0]).0, calls[1..], i - 1);
    }
  }

  lemma {:induction false} AnswersLength(s: State, calls: seq<Call>)
    ensures |Answers(s, calls)| == |calls|
    decreases |calls|
  {
    if calls != [] {
      AnswersLength(After(s, calls[0]).0, calls[1..]);
    }
  }

  /** So a guest that starts with an empty table is never trapped that way. */
  lemma GuestNeverTrappedByBody(calls: seq<Call>, i: nat)
    requires i < |calls|
    ensures |Answers(Initial(), calls)| == |calls| && !BodyBail(Answers(Initial(), calls)[i])
  {
    NoBodyBails(Initial(), calls, i);
  }

  /** A response can still be sent after its body has been dropped; that leaves the
      body corrupted, where no call can reach it any more. */
  lemma DeadBodyIsCorruptedUnseen(s: State, param: nat, response: nat)
    requires BodiesOk(s) && IsOutparam(s, param) && IsResponse(s, response) && s.table[response].link.Some?
    requires s.bodies[s.table[response].link.value] == Dropped || s.bodies[s.table[response].link.value] == Finished
    ensures var (s', a) := After(s, Set(param, Some(response))); var b := s.table[response].link.value;
            && a == Unit && s'.bodies[b] == Corrupted
            && (forall h | h in s'.table && s'.table[h].BodyHandle? :: s'.table[h].body != b)
            && (forall r | r in s'.table && s'.table[r].Response? :: s'.table[r].link != Some(b))
  {
    var s' := After(s, Set(param, Some(response))).0;
    assert forall h | h in s'.table :: h in s.table && s'.table[h] == s.table[h];
  }

  // ------------------------------------------------- what each call does

  /** The handles a call takes off the table: those it is given and that are there, up to
      the first that is not. A response keeps its handle when its body is asked for, and
      a body when it is written to. */
  function Consumed(s: State, call: Call): set<nat> {
    match call
    case NewResponse(f) => if IsFields(s, f) then {f} else {}
    case Finish(h, trailers, _, _) =>
      if trailers.Some? && !IsFields(s, trailers.value) then {}
      else (if trailers.Some? then {trailers.value} else {}) + (if HasBody(s, h) then {h} else {})
    case DropBody(h) => if HasBody(s, h) then {h} else {}
    case Set(p, sent) =>
      if !IsOutparam(s, p) then {} else {p} + (if sent.Some? && IsResponse(s, sent.value) then {sent.value} else {})
    case DropResponse(r) => if IsResponse(s, r) then {r} else {}
    case DropOutparam(p) => if IsOutparam(s, p) then {p} else {}
    case DropFields(f) => if IsFields(s, f) then {f} else {}
    case DropStream(h) => if IsStream(s, h) then {h} else {}
    case _ => {}
  }

  /** A call takes what it consumes off the table, adds the handle it answers with, if it
      does, and leaves every other entry as it was, but for the link of the response whose
      body it gives out. */
  lemma TableEffect(s: State, call: Call)
    ensures var (t, a) := After(s, call);
            && t.table.Keys == s.table.Keys - Consumed(s, call) + (if a.Handle? then {a.h} else {})
            && (a.Handle? ==> a.h !in s.table || a.h in Consumed(s, call))
            && (forall h | h in t.table && (a.Handle? ==> h != a.h) && !(call.GetBody? && h == call.response) ::
                  h in s.table && t.table[h] == s.table[h])
  {
  }

  /** Dropping or finishing a body ends it, and with it what can still be done through its
      sender. */
  lemma EndsItsBody(s: State, h: nat, received: bool, connected: bool)
    requires BodiesOk(s) && UsedOnce(s) && HasBody(s, h)
    ensures var b := s.table[h].body;
            && After(s, DropBody(h)).0 == Delete(s, h).(bodies := s.bodies[b := Dropped])
            && After(s, Finish(h, None, received, connected)).0.bodies == s.bodies[b := Finished]
            && (SenderOf(s.bodies[b]).Some? ==>
                  forall o :: !Owns(After(s, DropBody(h)).0, o, SenderOf(s.bodies[b]).value))
  {
    EndKeepsUse(s, h, Dropped);
  }

  /** What is put on the table. */
  lemma NewEntries(s: State, content: nat, f: nat)
    ensures var (t, a) := After(s, NewFields(content)); a.Handle? && t.table[a.h] == Fields(content)
    ensures var (t, a) := After(s, NewOutparam); a.Handle? && t.table[a.h] == Outparam(s.senders) && t.senders == s.senders + 1
    ensures var (t, a) := After(s, NewResponse(f));
            if IsFields(s, f) then a.Handle? && t.table[a.h] == Response(None) else (t, a) == (s, Bail(NotInTable))
  {
  }

  /** The first `body` of a response gives out a new, unsent body and links it to the
      response; a second one is refused. */
  lemma FirstBodyIsLinked(s: State, r: nat)
    requires IsResponse(s, r)
    ensures var (t, a) := After(s, GetBody(r));
            if s.table[r].link.Some? then t == s && a == Refused
            else
              && a.Handle? && a.h != r && t.table[a.h] == BodyHandle(|s.bodies|)
              && t.table[r] == Response(Some(|s.bodies|))
              && t.bodies == s.bodies + [Created(None, None)]
              && After(t, GetBody(r)) == (t, Refused)
  {
  }

  /** In every reachable state a call is answered by its handles and the state of its
      body alone: it bails exactly if a handle it needs is missing, it is refused exactly
      if its body is already given out, already written to or cannot be finished, and
      succeeds otherwise. */
  lemma AnswerTellsCause(s: State, call: Call)
    requires BodiesOk(s)
    ensures var a := After(s, call).1;
            match call
            case NewOutparam => a.Handle?
            case NewFields(_) => a.Handle?
            case NewResponse(f) => if IsFields(s, f) then a.Handle? else a == Bail(NotInTable)
            case GetBody(r) =>
              if !IsResponse(s, r) then a == Bail(NotInTable) else if s.table[r].link.None? then a.Handle? else a == Refused
            case Write(h) =>
              if !HasBody(s, h) then a == Bail(NotInTable)
              else if s.bodies[s.table[h].body].Created? then a.Handle? else a == Refused
            case Finish(h, trailers, received, connected) =>
              if !HasBody(s, h) || (trailers.Some? && !IsFields(s, trailers.value)) then a == Bail(NotInTable)
              else if SenderOf(s.bodies[s.table[h].body]).Some? && received && connected then a == Unit else a == Refused
            case DropBody(h) => a == if HasBody(s, h) then Unit else Bail(NotInTable)
            case Set(p, sent) =>
              a == if IsOutparam(s, p) && (sent.Some? ==> IsResponse(s, sent.value)) then Unit else Bail(NotInTable)
            case DropResponse(r) => a == if IsResponse(s, r) then Unit else Bail(NotInTable)
            case DropOutparam(p) => a == if IsOutparam(s, p) then Unit else Bail(NotInTable)
            case DropFields(f) => a == if IsFields(s, f) then Unit else Bail(NotInTable)
            case DropStream(h) => a == if IsStream(s, h) then Unit else Bail(NotInTable)
  {
    match call
    case Set(p, sent) => if IsOutparam(s, p) { SetKeepsBodies(s, p, sent); SetAnswers(s, p, sent); }
    case _ =>
  }

  lemma SetAnswers(s: State, param: nat, sent: Option<nat>)
    requires BodiesOk(s) && IsOutparam(s, param)
    ensures AfterSet(s, param, sent).1 == if sent.Some? ==> IsResponse(s, sent.value) then Unit else Bail(NotInTable)
  {
    if sent.Some? && IsResponse(s, sent.value) && s.table[sent.value].link.Some? {
      assert Unsent(s.bodies[s.table[sent.value].link.value]);
    }
  }

  /** A second `write` to a body is refused, whether or not its response has been sent by
      then. */
  lemma WrittenOnce(s: State, h: nat)
    requires HasBody(s, h) && s.bodies[s.table[h].body].Created?
    ensures var t := After(s, Write(h)).0;
            && HasBody(t, h) && After(t, Write(h)) == (t, Refused)
            && (forall sender :: AttachSender(t, s.table[h].body, sender).1 == Unit ==>
                  AfterWrite(AttachSender(t, s.table[h].body, sender).0, h).1 == Refused)
  {
  }

  // ------------------------------------------------------ senders used once

  datatype Owner = OutparamAt(h: nat) | BodyAt(b: nat)

  /** Who can still use a response's trailers sender. */
  predicate Owns(s: State, o: Owner, q: Sender) {
    match o
    case OutparamAt(h) => h in s.table && s.table[h] == Outparam(q)
    case BodyAt(b) => b < |s.bodies| && SenderOf(s.bodies[b]) == Some(q)
  }

  function SenderOf(b: Body): Option<Sender> {
    match b
    case Created(_, sender) => sender
    case Trailers(q) => Some(q)
    case _ => None
  }

  ghost predicate Once(log: seq<Event>) {
    forall i, j | 0 <= i < j < |log| :: log[i] != log[j]
  }

  ghost predicate SendersOk(s: State) {
    && (forall o1, o2, q: Sender | Owns(s, o1, q) && Owns(s, o2, q) :: o1 == o2)
    && (forall o, q: Sender | Owns(s, o, q) :: q < s.senders && TrailersSent(q) !in s.log)
  }

  ghost predicate LogOk(s: State) {
    && Once(s.log)
    && (forall q: Sender | TrailersSent(q) in s.log :: q < s.senders)
    && (forall b: nat | StreamOut(b) in s.log :: b < |s.bodies| && !s.bodies[b].Created?)
  }

  ghost predicate UsedOnce(s: State) {
    SendersOk(s) && LogOk(s)
  }

  /** Nobody owns sender q, and its trailers have not been sent. */
  ghost predicate Loose(s: State, q: Sender) {
    q < s.senders && TrailersSent(q) !in s.log && forall o :: !Owns(s, o, q)
  }

  lemma DeleteKeepsUse(s: State, h: nat)
    requires UsedOnce(s)
    ensures UsedOnce(Delete(s, h))
    ensures IsOutparam(s, h) ==> Loose(Delete(s, h), s.table[h].sender)
  {
    var s' := Delete(s, h);
    assert forall o, q: Sender | Owns(s', o, q) :: Owns(s, o, q);
    if IsOutparam(s, h) {
      var q := s.table[h].sender;
      assert Owns(s, OutparamAt(h), q) && !Owns(s', OutparamAt(h), q);
    }
  }

  lemma PushKeepsUse(s: State, e: Entry)
    requires UsedOnce(s) && !e.Outparam?
    ensures UsedOnce(Push(s, e).0)
  {
    var s' := Push(s, e).0;
    assert forall o, q: Sender | Owns(s', o, q) :: Owns(s, o, q);
  }

  lemma NewOutparamKeepsUse(s: State)
    requires UsedOnce(s)
    ensures UsedOnce(After(s, NewOutparam).0)
  {
    var s' := After(s, NewOutparam).0;
    assert forall o, q: Sender | Owns(s', o, q) :: (o == OutparamAt(Slot(s.table)) && q == s.senders) || Owns(s, o, q);
  }

  lemma GetBodyKeepsUse(s: State, r: nat)
    requires UsedOnce(s)
    ensures UsedOnce(After(s, GetBody(r)).0)
  {
    var s' := After(s, GetBody(r)).0;
    assert forall o, q: Sender | Owns(s', o, q) :: Owns(s, o, q);
  }

  lemma WriteKeepsUse(s: State, h: nat)
    requires UsedOnce(s) && HasBody(s, h)
    ensures UsedOnce(AfterWrite(s, h).0)
  {
    var s' := AfterWrite(s, h).0;
    assert forall o, q: Sender | Owns(s', o, q) :: Owns(s, o, q);
  }

  /** A body that ends gives up its sender. */
  lemma EndKeepsUse(s: State, h: nat, end: Body)
    requires UsedOnce(s) && HasBody(s, h) && (end == Finished || end == Dropped)
    ensures var s' := Delete(s, h).(bodies := s.bodies[s.table[h].body := end]);
            && UsedOnce(s')
            && (SenderOf(s.bodies[s.table[h].body]).Some? ==> Loose(s', SenderOf(s.bodies[s.table[h].body]).value))
  {
    var b := s.table[h].body;
    var s' := Delete(s, h).(bodies := s.bodies[b := end]);
    assert forall o, q: Sender | Owns(s', o, q) :: Owns(s, o, q) && o != BodyAt(b);
    if SenderOf(s.bodies[b]).Some? {
      assert Owns(s, BodyAt(b), SenderOf(s.bodies[b]).value);
    }
  }

  lemma SendKeepsUse(s: State, q: Sender)
    requires UsedOnce(s) && Loose(s, q)
    ensures UsedOnce(s.(log := s.log + [TrailersSent(q)]))
  {
    var s' := s.(log := s.log + [TrailersSent(q)]);
    assert forall o, p: Sender | Owns(s', o, p) :: Owns(s, o, p);
  }

  lemma AttachKeepsUse(s: State, b: nat, q: Sender)
    requires UsedOnce(s) && b < |s.bodies| && Loose(s, q)
    ensures UsedOnce(AttachSender(s, b, q).0)
  {
    var s' := AttachSender(s, b, q).0;
    assert forall o, p: Sender | Owns(s', o, p) :: (o == BodyAt(b) && p == q) || Owns(s, o, p);
  }

  lemma SetKeepsUse(s: State, param: nat, sent: Option<nat>)
    requires UsedOnce(s) && IsOutparam(s, param)
    ensures UsedOnce(AfterSet(s, param, sent).0)
  {
    var s', q := Delete(s, param), s.table[param].sender;
    DeleteKeepsUse(s, param);
    if sent.Some? && IsResponse(s', sent.value) {
      var s'' := Delete(s', sent.value);
      DeleteKeepsUse(s', sent.value);
      assert forall o | Owns(s'', o, q) :: Owns(s', o, q);
      var link := s'.table[sent.value].link;
      if link.Some? && link.value < |s''.bodies| {
        AttachKeepsUse(s'', link.value, q);
      }
    }
  }

  lemma StepKeepsUse(s: State, call: Call)
    requires UsedOnce(s)
    ensures UsedOnce(After(s, call).0)
  {
    match call
    case NewOutparam => NewOutparamKeepsUse(s);
    case NewFields(content) => PushKeepsUse(s, Fields(content));
    case NewResponse(f) => DeleteKeepsUse(s, f); PushKeepsUse(Delete(s, f), Response(None));
    case GetBody(r) => GetBodyKeepsUse(s, r);
    case Write(h) => if HasBody(s, h) { WriteKeepsUse(s, h); }
    case Finish(h, trailers, _, _) =>
      if trailers.Some? { DeleteKeepsUse(s, trailers.value); }
      var s' := if trailers.Some? && IsFields(s, trailers.value) then Delete(s, trailers.value) else s;
      if HasBody(s', h) {
        EndKeepsUse(s', h, Finished);
        var b := s'.table[h].body;
        if SenderOf(s'.bodies[b]).Some? {
          SendKeepsUse(Delete(s', h).(bodies := s'.bodies[b := Finished]), SenderOf(s'.bodies[b]).value);
        }
      }
    case DropBody(h) => if HasBody(s, h) { EndKeepsUse(s, h, Dropped); }
    case Set(p, sent) => if IsOutparam(s, p) { SetKeepsUse(s, p, sent); }
    case DropResponse(r) => DeleteKeepsUse(s, r);
    case DropOutparam(p) => DeleteKeepsUse(s, p);
    case DropFields(f) => DeleteKeepsUse(s, f);
    case DropStream(h) => DeleteKeepsUse(s, h);
  }

  lemma {:induction false} RunKeepsUse(s: State, calls: seq<Call>)
    requires UsedOnce(s)
    ensures UsedOnce(RunEnd(s, calls))
    decreases |calls|
  {
    if calls != [] {
      StepKeepsUse(s, calls[0]);
      RunKeepsUse(After(s, calls[0]).0, calls[1..]);
    }
  }

  /** Over any run, each body's stream is given out at most once, each response's
      trailers are sent at most once, and nobody can send them twice. */
  lemma StreamAndTrailersOnce(calls: seq<Call>)
    ensures var s := RunEnd(Initial(), calls);
            && Once(s.log)
            && forall o, q: Sender | Owns(s, o, q) :: TrailersSent(q) !in s.log
  {
    RunKeepsUse(Initial(), calls);
  }

  // -------------------------------------------------------------- confluence

  /** What a stream feeds once its pending channel has been looked at. */
  function Resolve(s: State, stream: Stream): Stream {
    match stream
    case HttpWriting(_) => stream
    case HttpPending(chan) =>
      if chan < |s.arrived| && s.arrived[chan].Some? then HttpWriting(s.arrived[chan].value) else stream
    case Limited(n, inner) => Limited(n, Resolve(s, inner))
  }

  /** Where `write` and `set` both lead: the body waits for trailers, and the stream
      feeds the response's queue under the body's limit. */
  ghost predicate Joined(before: State, after: State, body: nat, param: nat, response: nat, stream: nat)
    requires HasBody(before, body) && IsOutparam(before, param) && before.table[body].body < |after.bodies|
  {
    var b, q := before.table[body].body, before.table[param].sender;
    && after.bodies == before.bodies[b := Trailers(q)]
    && before.bodies[b].Created?
    && stream in after.table && after.table[stream].StreamHandle? && after.table[stream].body == b
    && Resolve(after, after.table[stream].stream) == Limit(before.bodies[b].limit, HttpWriting(q))
    && after.table - {stream} == before.table - {param, response}
    && after.log == before.log + [StreamOut(b)]
    && after.senders == before.senders
  }

  lemma WriteThenSet(s: State, body: nat, param: nat, response: nat)
    requires HasBody(s, body) && IsOutparam(s, param) && IsResponse(s, response)
    requires s.table[response].link == Some(s.table[body].body) && s.bodies[s.table[body].body].Created?
    requires s.bodies[s.table[body].body].sender.None?
    ensures var (s1, a1) := After(s, Write(body));
            var (s2, a2) := After(s1, Set(param, Some(response)));
            a1.Handle? && a2 == Unit && Joined(s, s2, body, param, response, a1.h)
  {
    var (s1, a1) := After(s, Write(body));
    var (s2, a2) := After(s1, Set(param, Some(response)));
    assert s2.table - {a1.h} == s.table - {param, response};
  }

  lemma SetThenWrite(s: State, body: nat, param: nat, response: nat)
    requires HasBody(s, body) && IsOutparam(s, param) && IsResponse(s, response)
    requires s.table[response].link == Some(s.table[body].body) && s.bodies[s.table[body].body].Created?
    requires s.bodies[s.table[body].body].sender.None?
    ensures var (s1, a1) := After(s, Set(param, Some(response)));
            var (s2, a2) := After(s1, Write(body));
            a1 == Unit && a2.Handle? && Joined(s, s2, body, param, response, a2.h)
  {
    var (s1, a1) := After(s, Set(param, Some(response)));
    var (s2, a2) := After(s1, Write(body));
    assert s2.table - {a2.h} == s.table - {param, response};
  }

  /** Finishing a body that has its sender sends the trailers, and ends the body. */
  lemma FinishSends(s: State, body: nat, received: bool, connected: bool)
    requires HasBody(s, body) && SenderOf(s.bodies[s.table[body].body]).Some?
    ensures var b := s.table[body].body;
            var (s', a) := After(s, Finish(body, None, received, connected));
            && s'.log == s.log + [TrailersSent(SenderOf(s.bodies[b]).value)]
            && s'.bodies == s.bodies[b := Finished]
            && a == (if received && connected then Unit else Refused)
  {
  }

  /** Finishing after the response was sent, with or without a stream in between and
      in either order, sends the trailers on that response's channel. */
  lemma SetThenFinish(s: State, body: nat, param: nat, response: nat, received: bool, connected: bool, calls: seq<Call>)
    requires HasBody(s, body) && IsOutparam(s, param) && IsResponse(s, response)
    requires s.table[response].link == Some(s.table[body].body) && s.bodies[s.table[body].body].Created?
    requires s.bodies[s.table[body].body].sender.None?
    requires var send, finish := Set(param, Some(response)), Finish(body, None, received, connected);
             calls == [send, finish] || calls == [Write(body), send, finish] || calls == [send, Write(body), finish]
    ensures var q, b := s.table[param].sender, s.table[body].body;
            var streams := if Write(body) in calls then [StreamOut(b)] else [];
            && RunEnd(s, calls).log == s.log + streams + [TrailersSent(q)]
            && RunEnd(s, calls).bodies == s.bodies[b := Finished]
  {
    var send, finish := Set(param, Some(response)), Finish(body, None, received, connected);
    if calls == [send, finish] {
      FinishSends(After(s, send).0, body, received, connected);
      RunOfTwo(s, send, finish);
    } else if calls == [Write(body), send, finish] {
      WriteThenSet(s, body, param, response);
      var w := After(s, Write(body));
      assert HasBody(After(w.0, send).0, body);
      FinishSends(After(w.0, send).0, body, received, connected);
      RunOfThree(s, Write(body), send, finish);
    } else {
      SetThenWrite(s, body, param, response);
      assert HasBody(After(After(s, send).0, Write(body)).0, body);
      FinishSends(After(After(s, send).0, Write(body)).0, body, received, connected);
      RunOfThree(s, send, Write(body), finish);
    }
  }

  lemma RunOfTwo(s: State, a: Call, b: Call)
    ensures RunEnd(s, [a, b]) == After(After(s, a).0, b).0
  {
    assert [a, b][1..] == [b];
    assert RunEnd(After(s, a).0, [b]) == After(After(s, a).0, b).0;
  }

  lemma RunOfThree(s: State, a: Call, b: Call, c: Call)
    ensures RunEnd(s, [a, b, c]) == After(After(After(s, a).0, b).0, c).0
  {
    assert [a, b, c][1..] == [b, c];
    RunOfTwo(After(s, a).0, b, c);
  }

  /** Finishing before the response is sent is refused and sends no trailers, and the
      response can then be sent but never gets any. */
  lemma FinishBeforeSet(s: State, body: nat, param: nat, response: nat, received: bool, connected: bool)
    requires HasBody(s, body) && IsOutparam(s, param) && IsResponse(s, response)
    requires s.table[response].link == Some(s.table[body].body) && Unsent(s.bodies[s.table[body].body])
    requires Usable(s.bodies[s.table[body].body]) && UsedOnce(s)
    ensures var (s1, a1) := After(s, Finish(body, None, received, connected));
            var (s2, a2) := After(s1, Set(param, Some(response)));
            && a1 == Refused && a2 == Unit && s2.log == s.log
            && forall o :: !Owns(s2, o, s.table[param].sender)
  {
    var q := s.table[param].sender;
    var (s1, _) := After(s, Finish(body, None, received, connected));
    var (s2, _) := After(s1, Set(param, Some(response)));
    assert Owns(s, OutparamAt(param), q);
    assert forall o | Owns(s2, o, q) :: Owns(s, o, q) && o != OutparamAt(param);
  }

  /** Writing first or sending the response first makes no difference. */
  lemma WriteAndSetCommute(s: State, body: nat, param: nat, response: nat)
    requires HasBody(s, body) && IsOutparam(s, param) && IsResponse(s, response)
    requires s.table[response].link == Some(s.table[body].body) && s.bodies[s.table[body].body].Created?
    requires s.bodies[s.table[body].body].sender.None?
    ensures var (w, aw) := After(s, Write(body));
            var (ws, _) := After(w, Set(param, Some(response)));
            var (t, _) := After(s, Set(param, Some(response)));
            var (tw, at) := After(t, Write(body));
            && aw.Handle? && at.Handle?
            && ws.bodies == tw.bodies && ws.log == tw.log && ws.senders == tw.senders
            && ws.table - {aw.h} == tw.table - {at.h}
            && aw.h in ws.table && ws.table[aw.h].StreamHandle? && at.h in tw.table && tw.table[at.h].StreamHandle?
            && Resolve(ws, ws.table[aw.h].stream) == Resolve(tw, tw.table[at.h].stream)
  {
    WriteThenSet(s, body, param, response);
    SetThenWrite(s, body, param, response);
  }
}
