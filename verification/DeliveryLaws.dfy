/** What a guest writes and what its connections receive: each response carries the
    bytes of its own body, and ends with that body's trailers. */
module DeliveryLaws {
  import opened Wrappers
  import opened OutgoingBody
  import opened Delivery
  import Flow = BodyFlow
  import Out = Streams

  // --------------------------------------------------------------- invariant

  /** A response's channel has taken exactly what its body's streams accepted; before
      the response is sent, and on any other channel, that is nothing. */
  ghost predicate BytesOk(chans: seq<Flow.Chan>, sentWith: map<nat, Sender>, accepted: seq<seq<byte>>) {
    && (forall b | b in sentWith ::
          b < |accepted| && sentWith[b] < |chans| && chans[sentWith[b]].written == accepted[b])
    && (forall b | 0 <= b < |accepted| && b !in sentWith :: accepted[b] == [])
    && (forall q | 0 <= q < |chans| && Free(sentWith, q) :: chans[q].written == [])
  }

  /** The trailers t that wait on q's channel were given to the body sent with q. */
  ghost predicate WasGiven(sentWith: map<nat, Sender>, finished: map<nat, Option<nat>>, q: Sender, t: Option<nat>) {
    exists b :: b in sentWith && sentWith[b] == q && b in finished && finished[b] == t
  }

  ghost predicate TrailersOk(s: State, chans: seq<Flow.Chan>, sentWith: map<nat, Sender>, finished: map<nat, Option<nat>>) {
    && (forall q | 0 <= q < |chans| && Owned(s, q) :: chans[q].trailers == Flow.Waiting)
    && (forall q | 0 <= q < |chans| && chans[q].trailers.Sent? ::
          WasGiven(sentWith, finished, q, chans[q].trailers.trailers))
  }

  /** A finished body has no handle any more. */
  ghost predicate FinishedOk(s: State, finished: map<nat, Option<nat>>) {
    && (forall b | b in finished :: b < |s.bodies|)
    && (forall h | h in s.table && s.table[h].BodyHandle? :: s.table[h].body !in finished)
  }

  /** A channel some data sender of which the guest holds is not closed. */
  ghost predicate HoldersOk(s: State, chans: seq<Flow.Chan>) {
    forall q | 0 <= q < |chans| && HasData(s, q) :: chans[q].sending
  }

  ghost predicate ChansOk(chans: seq<Flow.Chan>) {
    forall q | 0 <= q < |chans| :: Flow.Inv(chans[q])
  }

  /** What every reachable world satisfies. */
  ghost predicate Good(w: World) {
    && |w.chans| == w.s.senders
    && |w.accepted| == |w.s.bodies|
    && Tied(w.s, w.sentWith)
    && ChansOk(w.chans)
    && BytesOk(w.chans, w.sentWith, w.accepted)
    && TrailersOk(w.s, w.chans, w.sentWith, w.finished)
    && FinishedOk(w.s, w.finished)
    && HoldersOk(w.s, w.chans)
  }

  // ------------------------------------------------------- the guest's streams

  lemma {:induction false} ViewFeeds(s: State, stream: Stream)
    ensures Out.Feeds(View(s, stream))
  {
    if stream.Limited? {
      ViewFeeds(s, stream.stream);
    }
  }

  /** What a stream's operation may do to its channel. */
  ghost predicate Extends(c: Flow.Chan, c': Flow.Chan, more: seq<byte>) {
    && Flow.Inv(c')
    && c'.written == c.written + more
    && c'.trailers == c.trailers
    && c'.sending == c.sending
  }

  lemma {:induction false} CheckExtends(v: Out.OutputStream, c: Flow.Chan)
    requires Flow.Inv(c)
    ensures Extends(c, Out.CheckWrite(v, c).chan, [])
  {
    Out.CheckKeepsFeeding(v, c);
    assert c.written + [] == c.written;
  }

  lemma SendExtends(c: Flow.Chan, contents: seq<byte>, blocking: bool)
    requires Flow.Inv(c) && c.sending
    ensures Extends(c, Flow.Send(c, contents, blocking).0, if Flow.Send(c, contents, blocking).1 == Flow.Wrote then contents else [])
  {
    Flow.SendKeepsInv(c, contents, blocking);
    assert c.written + [] == c.written;
  }

  lemma {:induction false} WriteExtends(v: Out.OutputStream, c: Flow.Chan, contents: seq<byte>, blocking: bool)
    requires Flow.Inv(c) && c.sending && Out.Feeds(v)
    ensures var o := Out.WriteTo(v, c, contents, blocking);
            Extends(c, o.chan, if o.result == Flow.Wrote then contents else [])
  {
    assert c.written + [] == c.written;
    match v
    case Limited(_, inner) => WriteExtends(inner, c, contents, blocking);
    case HttpWriting => SendExtends(c, contents, blocking);
    case HttpPending(_) => SendExtends(c, contents, blocking);
  }

  lemma {:induction false} ResumeExtends(v: Out.OutputStream, c: Flow.Chan)
    requires Flow.Inv(c)
    ensures var o := Out.ResumeWrite(v, c);
            Extends(c, o.chan, if o.result == Flow.Wrote then Out.WaitingBytes(c) else [])
  {
    assert c.written + [] == c.written;
    match v
    case Limited(_, inner) => ResumeExtends(inner, c);
    case HttpWriting =>
      if Flow.Served(c) {
        Flow.ResumeKeepsInv(c);
      }
    case _ =>
  }

  /** A stream whose body's response has not been sent accepts nothing. */
  lemma {:induction false} UnsentAcceptsNothing(s: State, stream: Stream, c: Flow.Chan, contents: seq<byte>, blocking: bool)
    requires Feed(s.arrived, stream).None?
    ensures Out.WriteTo(View(s, stream), c, contents, blocking).result != Flow.Wrote
    ensures Out.ResumeWrite(View(s, stream), c).result != Flow.Wrote
  {
    if stream.Limited? {
      UnsentAcceptsNothing(s, stream.stream, c, contents, blocking);
    }
  }

  lemma {:induction false} StoredLeads(arrived: seq<Option<Sender>>, stream: Stream, after: Out.OutputStream)
    ensures var stored := Stored(stream, after, Feed(arrived, stream));
            && Feed(arrived, stored) == Feed(arrived, stream)
            && (PendingOn(stored).Some? ==> PendingOn(stored) == PendingOn(stream))
  {
    if stream.Limited? && after.Limited? {
      StoredLeads(arrived, stream.stream, after.stream);
    }
  }

  /** The table with one of its streams replaced. */
  function Restream(s: State, h: nat, stored: Stream): State
    requires IsStream(s, h)
  {
    s.(table := s.table[h := StreamHandle(s.table[h].body, stored)])
  }

  lemma RestreamKeepsBodies(s: State, h: nat, stored: Stream)
    requires BodiesOk(s) && IsStream(s, h)
    ensures BodiesOk(Restream(s, h, stored))
  {
  }

  lemma RestreamKeepsUse(s: State, h: nat, stored: Stream)
    requires UsedOnce(s) && IsStream(s, h)
    ensures UsedOnce(Restream(s, h, stored))
    ensures forall q: Sender | Owned(Restream(s, h, stored), q) :: Owned(s, q)
  {
    assert forall o, q: Sender | Owns(Restream(s, h, stored), o, q) :: Owns(s, o, q);
  }

  /** Replacing a stream by one that leads to the same place. */
  lemma RestreamKeepsLeads(s: State, sentWith: map<nat, Sender>, h: nat, stored: Stream)
    requires SentOk(s, sentWith) && LeadsOk(s, sentWith) && IsStream(s, h)
    requires Feed(s.arrived, stored) == Feed(s.arrived, s.table[h].stream)
    requires PendingOn(stored).Some? ==> PendingOn(stored) == PendingOn(s.table[h].stream)
    ensures SentOk(Restream(s, h, stored), sentWith) && LeadsOk(Restream(s, h, stored), sentWith)
  {
    assert LeadsHome(s.arrived, s.bodies, sentWith, s.table[h].body, s.table[h].stream);
  }

  lemma RestreamKeepsData(s: State, h: nat, stored: Stream, q: Sender)
    requires IsStream(s, h) && Feed(s.arrived, stored) == Feed(s.arrived, s.table[h].stream)
    requires HasData(Restream(s, h, stored), q)
    ensures HasData(s, q)
  {
    var t := Restream(s, h, stored);
    if StreamHas(t, q) {
      var k :| k in t.table && t.table[k].StreamHandle? && Feed(t.arrived, t.table[k].stream) == Some(q);
      assert Feed(s.arrived, s.table[k].stream) == Some(q);
    } else if OutparamHas(t, q) {
      var k :| k in t.table && t.table[k] == Outparam(q);
      assert s.table[k] == Outparam(q);
    }
  }

  /** A stream's operation credits its body with what it sent on the body's channel. */
  lemma StreamStepKeeps(w: World, h: nat, after: Out.OutputStream, c: Flow.Chan, more: seq<byte>, waiting: Option<nat>)
    requires Good(w) && IsStream(w.s, h)
    requires Feed(w.s.arrived, w.s.table[h].stream).Some? ==> Extends(ChanOf(w, h), c, more)
    requires Feed(w.s.arrived, w.s.table[h].stream).None? ==> more == []
    ensures Good(Update(w, h, after, c).(accepted := Credit(w.accepted, w.s.table[h].body, more), waiting := waiting))
  {
    var e := w.s.table[h];
    var q := Feed(w.s.arrived, e.stream);
    var stored := Stored(e.stream, after, q);
    var w' := Update(w, h, after, c).(accepted := Credit(w.accepted, e.body, more), waiting := waiting);
    StoredLeads(w.s.arrived, e.stream, after);
    RestreamKeepsBodies(w.s, h, stored);
    RestreamKeepsUse(w.s, h, stored);
    RestreamKeepsLeads(w.s, w.sentWith, h, stored);
    assert w'.s == Restream(w.s, h, stored);
    assert LeadsHome(w.s.arrived, w.s.bodies, w.sentWith, e.body, e.stream);
    CreditKeepsBytes(w.chans, w.sentWith, w.accepted, e.body, q, c, more);
    ChansKeep(w, w', if q.Some? then q.value else 0, c);
    forall p | 0 <= p < |w'.chans| && HasData(w'.s, p) ensures w'.chans[p].sending {
      RestreamKeepsData(w.s, h, stored, p);
    }
  }

  /** At most the channel of p has changed, and of it neither trailers nor senders. */
  lemma ChansKeep(w: World, w': World, p: Sender, c: Flow.Chan)
    requires ChansOk(w.chans) && TrailersOk(w.s, w.chans, w.sentWith, w.finished)
    requires w'.chans == w.chans || (p < |w.chans| && w'.chans == w.chans[p := c] && Flow.Inv(c) && c.trailers == w.chans[p].trailers)
    requires w'.sentWith == w.sentWith && w'.finished == w.finished
    requires forall q: Sender | Owned(w'.s, q) :: Owned(w.s, q)
    ensures ChansOk(w'.chans) && TrailersOk(w'.s, w'.chans, w'.sentWith, w'.finished)
  {
  }

  lemma CreditKeepsBytes(chans: seq<Flow.Chan>, sentWith: map<nat, Sender>, accepted: seq<seq<byte>>, b: nat,
                         q: Option<Sender>, c: Flow.Chan, more: seq<byte>)
    requires BytesOk(chans, sentWith, accepted) && b < |accepted|
    requires forall b, d | b in sentWith && d in sentWith && sentWith[b] == sentWith[d] :: b == d
    requires q.Some? ==> b in sentWith && sentWith[b] == q.value && c.written == chans[q.value].written + more
    requires q.None? ==> more == []
    ensures BytesOk(if q.Some? && q.value < |chans| then chans[q.value := c] else chans, sentWith, Credit(accepted, b, more))
  {
    assert accepted[b] + [] == accepted[b];
    if q.None? {
      assert Credit(accepted, b, more) == accepted;
    }
  }

  /** A stream that leads somewhere holds that channel open. */
  lemma ChanOfOk(w: World, h: nat)
    requires Good(w) && IsStream(w.s, h) && Feed(w.s.arrived, w.s.table[h].stream).Some?
    ensures Flow.Inv(ChanOf(w, h)) && ChanOf(w, h).sending
  {
    var e := w.s.table[h];
    assert LeadsHome(w.s.arrived, w.s.bodies, w.sentWith, e.body, e.stream);
    var q := Feed(w.s.arrived, e.stream).value;
    assert StreamHas(w.s, q) && HasData(w.s, q);
  }

  lemma CreditNothing(accepted: seq<seq<byte>>, b: nat)
    ensures Credit(accepted, b, []) == accepted
  {
    assert b < |accepted| ==> accepted[b] + [] == accepted[b];
  }

  lemma CheckKeepsGood(w: World, h: nat)
    requires Good(w) && Enabled(w, CheckStream(h))
    ensures Good(Next(w, CheckStream(h)))
  {
    var e := w.s.table[h];
    var k := Out.CheckWrite(View(w.s, e.stream), ChanOf(w, h));
    if Feed(w.s.arrived, e.stream).Some? {
      ChanOfOk(w, h);
      CheckExtends(View(w.s, e.stream), ChanOf(w, h));
    }
    StreamStepKeeps(w, h, k.stream, k.chan, [], w.waiting);
    CreditNothing(w.accepted, e.body);
    assert Next(w, CheckStream(h)) ==
           Update(w, h, k.stream, k.chan).(accepted := Credit(w.accepted, e.body, []), waiting := w.waiting);
  }

  lemma AfterWriteKeepsGood(w: World, h: nat, contents: seq<byte>, o: Out.Outcome)
    requires Good(w) && IsStream(w.s, h)
    requires Feed(w.s.arrived, w.s.table[h].stream).Some? ==>
               Extends(ChanOf(w, h), o.chan, if o.result == Flow.Wrote then contents else [])
    requires Feed(w.s.arrived, w.s.table[h].stream).None? ==> o.result != Flow.Wrote
    ensures Good(AfterWriteStream(w, h, contents, o))
  {
    var more := if o.result == Flow.Wrote then contents else [];
    StreamStepKeeps(w, h, o.stream, o.chan, more, if o.result == Flow.Blocked then Some(h) else None);
  }

  lemma WriteKeepsGood(w: World, h: nat, contents: seq<byte>, blocking: bool)
    requires Good(w) && Enabled(w, WriteStream(h, contents, blocking))
    ensures Good(Next(w, WriteStream(h, contents, blocking)))
  {
    var stream, c := w.s.table[h].stream, ChanOf(w, h);
    if Feed(w.s.arrived, stream).Some? {
      ChanOfOk(w, h);
      ViewFeeds(w.s, stream);
      WriteExtends(View(w.s, stream), c, contents, blocking);
    } else {
      UnsentAcceptsNothing(w.s, stream, c, contents, blocking);
    }
    AfterWriteKeepsGood(w, h, contents, Out.WriteTo(View(w.s, stream), c, contents, blocking));
  }

  lemma ResumeKeepsGood(w: World)
    requires Good(w) && Enabled(w, ResumeStream)
    ensures Good(Next(w, ResumeStream))
  {
    var h := w.waiting.value;
    var stream, c := w.s.table[h].stream, ChanOf(w, h);
    if Feed(w.s.arrived, stream).Some? {
      ChanOfOk(w, h);
      ResumeExtends(View(w.s, stream), c);
    } else {
      UnsentAcceptsNothing(w.s, stream, c, [], false);
    }
    AfterWriteKeepsGood(w, h, Out.WaitingBytes(c), Out.ResumeWrite(View(w.s, stream), c));
  }

  // ----------------------------------------------------------- the other end

  /** What the rest of the world may do to a channel. */
  lemma OutsideStep(c: Flow.Chan, op: Flow.Op)
    requires Flow.Inv(c) && Flow.Enabled(c, op) && !Out.IsWrite(op) && !op.SendTrailers?
    ensures var c' := Flow.Next(c, op);
            && Flow.Inv(c')
            && c'.written == c.written
            && (c'.trailers.Sent? ==> c.trailers == c'.trailers)
            && (c.trailers == Flow.Waiting && !op.DropTrailers? ==> c'.trailers == Flow.Waiting)
            && (c.sending && !op.DropSenders? ==> c'.sending)
  {
    Flow.StepKeepsInv(c, op);
    if op.PollFrame? {
      PollLeaves(c);
    }
  }

  lemma PollLeaves(c: Flow.Chan)
    ensures var c' := Flow.Poll(c).0;
            && c'.written == c.written && c'.sending == c.sending
            && (c'.trailers.Sent? ==> c.trailers == c'.trailers)
            && (c.trailers == Flow.Waiting ==> c'.trailers == Flow.Waiting)
  {
  }

  /** A change of one channel that leaves its history alone. */
  lemma ChanChangeKeeps(w: World, q: Sender, c: Flow.Chan)
    requires Good(w) && q < |w.chans| && Flow.Inv(c) && c.written == w.chans[q].written
    requires c.trailers.Sent? ==> w.chans[q].trailers == c.trailers
    requires Owned(w.s, q) ==> c.trailers == Flow.Waiting
    requires HasData(w.s, q) ==> c.sending
    ensures ChansOk(w.chans[q := c]) && HoldersOk(w.s, w.chans[q := c])
    ensures TrailersOk(w.s, w.chans[q := c], w.sentWith, w.finished)
    ensures BytesOk(w.chans[q := c], w.sentWith, w.accepted)
  {
    BytesStay(w.chans, w.sentWith, w.accepted, q, c);
    TrailersStay(w.s, w.chans, w.sentWith, w.finished, q, c);
  }

  lemma BytesStay(chans: seq<Flow.Chan>, sentWith: map<nat, Sender>, accepted: seq<seq<byte>>, q: nat, c: Flow.Chan)
    requires BytesOk(chans, sentWith, accepted) && q < |chans| && c.written == chans[q].written
    ensures BytesOk(chans[q := c], sentWith, accepted)
  {
  }

  lemma TrailersStay(s: State, chans: seq<Flow.Chan>, sentWith: map<nat, Sender>, finished: map<nat, Option<nat>>, q: nat,
                     c: Flow.Chan)
    requires TrailersOk(s, chans, sentWith, finished) && q < |chans|
    requires c.trailers.Sent? ==> chans[q].trailers == c.trailers
    requires Owned(s, q) ==> c.trailers == Flow.Waiting
    ensures TrailersOk(s, chans[q := c], sentWith, finished)
  {
  }

  lemma OutsideKeepsGood(w: World, q: Sender, op: Flow.Op)
    requires Good(w) && Enabled(w, Outside(q, op))
    ensures Good(Next(w, Outside(q, op)))
  {
    OutsideStep(w.chans[q], op);
    ChanChangeKeeps(w, q, Flow.Next(w.chans[q], op));
  }

  // ------------------------------------------------------------- guest's calls

  /** A call that touches no channel and no history. */
  lemma PlainCallKeepsGood(w: World, call: Call)
    requires Good(w) && AfterGuest(w, call) == w.(s := After(w.s, call).0)
    requires !call.NewOutparam? && |After(w.s, call).0.bodies| == |w.s.bodies| && After(w.s, call).0.senders == w.s.senders
    requires forall h | h in After(w.s, call).0.table && After(w.s, call).0.table[h].BodyHandle? ::
               h in w.s.table && w.s.table[h] == After(w.s, call).0.table[h]
    ensures Good(AfterGuest(w, call))
  {
    GuestKeepsTies(w, call);
    HoldersLater(w, call, w.chans);
    OwnersLater(w, call);
  }

  lemma HoldersLater(w: World, call: Call, chans: seq<Flow.Chan>)
    requires Good(w) && !call.NewOutparam?
    requires |chans| == |w.chans| && forall q | 0 <= q < |chans| :: chans[q].sending == w.chans[q].sending
    ensures HoldersOk(After(w.s, call).0, chans)
  {
    forall h | h in w.s.table && w.s.table[h].StreamHandle? ensures Waits(w.s, w.s.table[h].stream) {
      assert LeadsHome(w.s.arrived, w.s.bodies, w.sentWith, w.s.table[h].body, w.s.table[h].stream);
    }
    forall q | 0 <= q < |chans| && HasData(After(w.s, call).0, q) ensures chans[q].sending {
      DataLater(w.s, call, q);
    }
  }

  lemma OwnersLater(w: World, call: Call)
    requires Good(w) && !call.NewOutparam?
    ensures forall q: Sender | Owned(After(w.s, call).0, q) :: Owned(w.s, q)
  {
    forall q: Sender | Owned(After(w.s, call).0, q) ensures Owned(w.s, q) {
      OwnedLater(w.s, call, q);
    }
  }

  lemma NewChanKeepsBytes(chans: seq<Flow.Chan>, sentWith: map<nat, Sender>, accepted: seq<seq<byte>>)
    requires ChansOk(chans) && BytesOk(chans, sentWith, accepted)
    ensures ChansOk(chans + [Flow.Fresh()]) && BytesOk(chans + [Flow.Fresh()], sentWith, accepted)
  {
    assert Flow.Inv(Flow.Fresh());
  }

  lemma NewChanKeepsTrailers(s: State, t: State, chans: seq<Flow.Chan>, sentWith: map<nat, Sender>,
                             finished: map<nat, Option<nat>>)
    requires TrailersOk(s, chans, sentWith, finished)
    requires forall q: Sender | q < |chans| && Owned(t, q) :: Owned(s, q)
    ensures TrailersOk(t, chans + [Flow.Fresh()], sentWith, finished)
  {
  }

  lemma NewChanKeepsHolders(s: State, t: State, chans: seq<Flow.Chan>)
    requires HoldersOk(s, chans)
    requires forall q: Sender | q < |chans| && HasData(t, q) :: HasData(s, q)
    ensures HoldersOk(t, chans + [Flow.Fresh()])
  {
  }

  lemma NewOutparamHolders(w: World)
    requires Good(w)
    ensures var t := After(w.s, NewOutparam).0;
            && (forall q: Sender | q < |w.chans| && Owned(t, q) :: Owned(w.s, q))
            && (forall q: Sender | q < |w.chans| && HasData(t, q) :: HasData(w.s, q))
  {
    var t := After(w.s, NewOutparam).0;
    forall h | h in w.s.table && w.s.table[h].StreamHandle? ensures Waits(w.s, w.s.table[h].stream) {
      assert LeadsHome(w.s.arrived, w.s.bodies, w.sentWith, w.s.table[h].body, w.s.table[h].stream);
    }
    forall q: Sender | q < |w.chans| && HasData(t, q) ensures HasData(w.s, q) {
      DataLater(w.s, NewOutparam, q);
    }
    forall q: Sender | q < |w.chans| && Owned(t, q) ensures Owned(w.s, q) {
      OwnedLater(w.s, NewOutparam, q);
    }
  }

  lemma NewOutparamKeepsGood(w: World)
    requires Good(w)
    ensures Good(AfterGuest(w, NewOutparam))
  {
    var t := After(w.s, NewOutparam).0;
    GuestKeepsTies(w, NewOutparam);
    NewOutparamHolders(w);
    NewChanKeepsBytes(w.chans, w.sentWith, w.accepted);
    NewChanKeepsTrailers(w.s, t, w.chans, w.sentWith, w.finished);
    NewChanKeepsHolders(w.s, t, w.chans);
  }

  lemma NewBodyKeepsBytes(chans: seq<Flow.Chan>, sentWith: map<nat, Sender>, accepted: seq<seq<byte>>)
    requires BytesOk(chans, sentWith, accepted)
    ensures BytesOk(chans, sentWith, accepted + [[]])
  {
  }

  lemma NewBodyKeepsFinished(s: State, finished: map<nat, Option<nat>>, r: nat)
    requires FinishedOk(s, finished)
    ensures var t := After(s, GetBody(r)).0;
            && FinishedOk(t, finished) && t.senders == s.senders
            && |t.bodies| <= |s.bodies| + 1 && |s.bodies| <= |t.bodies|
  {
  }

  /** The world with a body more, or none, and state t. */
  lemma NewBodyKeepsGood(w: World, t: State, accepted: seq<seq<byte>>)
    requires Good(w) && Tied(t, w.sentWith) && t.senders == w.s.senders
    requires accepted == w.accepted || accepted == w.accepted + [[]]
    requires |accepted| == |t.bodies| && FinishedOk(t, w.finished) && HoldersOk(t, w.chans)
    requires forall p: Sender | Owned(t, p) :: Owned(w.s, p)
    ensures Good(w.(s := t, accepted := accepted))
  {
    NewBodyKeepsBytes(w.chans, w.sentWith, w.accepted);
  }

  lemma GetBodyKeepsGood(w: World, r: nat)
    requires Good(w)
    ensures Good(AfterGuest(w, GetBody(r)))
  {
    var t := After(w.s, GetBody(r)).0;
    GuestKeepsTies(w, GetBody(r));
    HoldersLater(w, GetBody(r), w.chans);
    OwnersLater(w, GetBody(r));
    NewBodyKeepsFinished(w.s, w.finished, r);
    NewBodyKeepsGood(w, t, if |t.bodies| > |w.s.bodies| then w.accepted + [[]] else w.accepted);
  }

  /** The body that `set` sends had accepted nothing, and its channel was empty. */
  lemma SendKeepsBytes(chans: seq<Flow.Chan>, sentWith: map<nat, Sender>, accepted: seq<seq<byte>>, b: nat, q: Sender)
    requires BytesOk(chans, sentWith, accepted) && b < |accepted| && q < |chans|
    requires b !in sentWith && Free(sentWith, q)
    ensures BytesOk(chans, sentWith[b := q], accepted)
  {
    forall p | 0 <= p < |chans| && Free(sentWith[b := q], p) ensures Free(sentWith, p) {
      forall d | d in sentWith ensures sentWith[d] != p {
        assert d in sentWith[b := q] && sentWith[b := q][d] == sentWith[d];
      }
    }
  }

  lemma SendKeepsGiven(sentWith: map<nat, Sender>, finished: map<nat, Option<nat>>, b: nat, q: Sender, p: Sender, t: Option<nat>)
    requires b !in sentWith && WasGiven(sentWith, finished, p, t)
    ensures WasGiven(sentWith[b := q], finished, p, t)
  {
    var d :| d in sentWith && sentWith[d] == p && d in finished && finished[d] == t;
    assert d in sentWith[b := q] && sentWith[b := q][d] == p;
  }

  lemma SendKeepsTrailers(s: State, t: State, chans: seq<Flow.Chan>, sentWith: map<nat, Sender>,
                          finished: map<nat, Option<nat>>, b: nat, q: Sender)
    requires TrailersOk(s, chans, sentWith, finished) && b !in sentWith
    requires forall p: Sender | Owned(t, p) :: Owned(s, p)
    ensures TrailersOk(t, chans, sentWith[b := q], finished)
  {
    forall p | 0 <= p < |chans| && chans[p].trailers.Sent?
      ensures WasGiven(sentWith[b := q], finished, p, chans[p].trailers.trailers)
    {
      SendKeepsGiven(sentWith, finished, b, q, p, chans[p].trailers.trailers);
    }
  }

  lemma SetIsFresh(w: World, param: nat, response: nat)
    requires Good(w) && Sends(w.s, param, response)
    ensures w.s.table[param].sender < |w.chans| && w.s.table[response].link.value < |w.accepted|
    ensures w.s.table[response].link.value !in w.sentWith && Free(w.sentWith, w.s.table[param].sender)
  {
    SenderIsLoose(w.s, param, response);
  }

  /** The world once the response of body b has been sent with q, and t is the state. */
  lemma SentKeepsGood(w: World, t: State, b: nat, q: Sender)
    requires Good(w) && Tied(t, w.sentWith[b := q])
    requires b !in w.sentWith && Free(w.sentWith, q) && b < |w.accepted| && q < |w.chans|
    requires |t.bodies| == |w.s.bodies| && t.senders == w.s.senders
    requires forall p: Sender | Owned(t, p) :: Owned(w.s, p)
    requires HoldersOk(t, w.chans)
    requires forall h | h in t.table && t.table[h].BodyHandle? :: h in w.s.table && t.table[h] == w.s.table[h]
    ensures Good(w.(s := t, sentWith := w.sentWith[b := q]))
  {
    SendKeepsBytes(w.chans, w.sentWith, w.accepted, b, q);
    SendKeepsTrailers(w.s, t, w.chans, w.sentWith, w.finished, b, q);
    SmallerTableKeepsFinished(w.s, t, w.finished);
  }

  lemma SetFacts(w: World, param: nat, response: nat, t: State, b: nat, q: Sender)
    requires Good(w) && Sends(w.s, param, response)
    requires t == After(w.s, Set(param, Some(response))).0
    requires b == w.s.table[response].link.value && q == w.s.table[param].sender
    ensures Tied(t, w.sentWith[b := q]) && HoldersOk(t, w.chans)
    ensures forall p: Sender | Owned(t, p) :: Owned(w.s, p)
  {
    GuestKeepsTies(w, Set(param, Some(response)));
    HoldersLater(w, Set(param, Some(response)), w.chans);
    OwnersLater(w, Set(param, Some(response)));
  }

  lemma SetKeepsGood(w: World, param: nat, response: nat, t: State, b: nat, q: Sender)
    requires Good(w) && Sends(w.s, param, response)
    requires t == After(w.s, Set(param, Some(response))).0
    requires b == w.s.table[response].link.value && q == w.s.table[param].sender
    ensures Good(w.(s := t, sentWith := w.sentWith[b := q]))
  {
    SetFacts(w, param, response, t, b, q);
    SetIsFresh(w, param, response);
    SetTable(w.s, param, response);
    SentKeepsGood(w, t, b, q);
  }

  lemma SmallerTableKeepsFinished(s: State, t: State, finished: map<nat, Option<nat>>)
    requires FinishedOk(s, finished) && |t.bodies| == |s.bodies|
    requires forall h | h in t.table && t.table[h].BodyHandle? :: h in s.table && t.table[h] == s.table[h]
    ensures FinishedOk(t, finished)
  {
  }

  lemma SetTable(s: State, param: nat, response: nat)
    requires Sends(s, param, response)
    ensures var t := After(s, Set(param, Some(response))).0;
            && |t.bodies| == |s.bodies| && t.senders == s.senders
            && forall h | h in t.table :: h in s.table && t.table[h] == s.table[h]
  {
  }

  // ------------------------------------------------------------------- finish

  /** What `finish` leaves, if it reaches its body b: no handle to b, and no owner of
      the sender q that b had. */
  lemma FinishState(s: State, call: Call)
    requires BodiesOk(s) && UsedOnce(s) && call.Finish? && Finishes(s, call.body, call.trailers)
    ensures var t, b := After(s, call).0, s.table[call.body].body;
            && b < |s.bodies| && |t.bodies| == |s.bodies| && t.senders == s.senders
            && (forall h | h in t.table :: h in s.table && t.table[h] == s.table[h])
            && (forall h | h in t.table && t.table[h].BodyHandle? :: t.table[h].body != b)
            && (SenderOf(s.bodies[b]).Some? ==> !Owned(t, SenderOf(s.bodies[b]).value))
  {
    var t, b := After(s, call).0, s.table[call.body].body;
    StepKeepsUse(s, call);
    if SenderOf(s.bodies[b]).Some? {
      var q := SenderOf(s.bodies[b]).value;
      assert t.log[|t.log| - 1] == TrailersSent(q) && TrailersSent(q) in t.log;
    }
  }

  lemma FinishKeepsTrailers(w: World, t: State, b: nat, given: Option<nat>, received: bool)
    requires Good(w) && b < |w.s.bodies| && b !in w.finished
    requires forall p: Sender | Owned(t, p) :: Owned(w.s, p)
    requires SenderOf(w.s.bodies[b]).Some? ==> !Owned(t, SenderOf(w.s.bodies[b]).value)
    ensures TrailersOk(t, FinishBody(w, b, given, received).chans, w.sentWith, w.finished[b := given])
  {
    var q, chans := SenderOf(w.s.bodies[b]), FinishBody(w, b, given, received).chans;
    forall p | 0 <= p < |chans| && chans[p].trailers.Sent?
      ensures WasGiven(w.sentWith, w.finished[b := given], p, chans[p].trailers.trailers)
    {
      if q == Some(p) {
        assert b in w.sentWith && w.sentWith[b] == p && w.finished[b := given][b] == given;
      } else {
        var d :| d in w.sentWith && w.sentWith[d] == p && d in w.finished && w.finished[d] == chans[p].trailers.trailers;
        assert w.finished[b := given][d] == w.finished[d];
      }
    }
  }

  /** What finishing body b does besides the guest's state. */
  function FinishBody(w: World, b: nat, given: Option<nat>, received: bool): World
    requires b < |w.s.bodies|
  {
    var q := SenderOf(w.s.bodies[b]);
    w.(finished := w.finished[b := given],
       chans := if q.Some? && q.value < |w.chans| then w.chans[q.value := GiveTrailers(w.chans[q.value], given, received)]
                else w.chans)
  }

  lemma GiveKeepsInv(c: Flow.Chan, t: Option<nat>, received: bool)
    requires Flow.Inv(c)
    ensures var c' := GiveTrailers(c, t, received);
            Flow.Inv(c') && c'.written == c.written && c'.sending == c.sending
  {
  }

  lemma GiveKeepsChans(chans: seq<Flow.Chan>, sentWith: map<nat, Sender>, accepted: seq<seq<byte>>, q: nat, t: Option<nat>,
                       received: bool)
    requires ChansOk(chans) && BytesOk(chans, sentWith, accepted) && q < |chans|
    ensures var chans' := chans[q := GiveTrailers(chans[q], t, received)];
            && ChansOk(chans') && BytesOk(chans', sentWith, accepted)
            && forall p | 0 <= p < |chans'| :: chans'[p].sending == chans[p].sending
  {
    GiveKeepsInv(chans[q], t, received);
  }

  /** The world once body b has been finished, and t is the state. */
  lemma FinishedKeepsGood(w: World, t: State, b: nat, given: Option<nat>, received: bool)
    requires Good(w) && Tied(t, w.sentWith) && b < |w.s.bodies| && b !in w.finished
    requires |t.bodies| == |w.s.bodies| && t.senders == w.s.senders
    requires forall p: Sender | Owned(t, p) :: Owned(w.s, p)
    requires SenderOf(w.s.bodies[b]).Some? ==> !Owned(t, SenderOf(w.s.bodies[b]).value)
    requires HoldersOk(t, FinishBody(w, b, given, received).chans)
    requires forall h | h in t.table && t.table[h].BodyHandle? ::
               h in w.s.table && t.table[h] == w.s.table[h] && t.table[h].body != b
    ensures Good(FinishBody(w, b, given, received).(s := t))
  {
    var q := SenderOf(w.s.bodies[b]);
    FinishKeepsTrailers(w, t, b, given, received);
    if q.Some? && q.value < |w.chans| {
      GiveKeepsChans(w.chans, w.sentWith, w.accepted, q.value, given, received);
    }
  }

  lemma FinishKeepsGood(w: World, call: Call)
    requires Good(w) && call.Finish? && Finishes(w.s, call.body, call.trailers)
    ensures Good(AfterGuest(w, call))
  {
    var b, given := w.s.table[call.body].body, Contents(w.s, call.trailers);
    var q := SenderOf(w.s.bodies[b]);
    GuestKeepsTies(w, call);
    OwnersLater(w, call);
    FinishState(w.s, call);
    if q.Some? && q.value < |w.chans| {
      GiveKeepsChans(w.chans, w.sentWith, w.accepted, q.value, given, call.received);
    }
    HoldersLater(w, call, FinishBody(w, b, given, call.received).chans);
    FinishedKeepsGood(w, After(w.s, call).0, b, given, call.received);
  }

  // -------------------------------------------------------------------- runs

  /** Any call that sends no body's response and finishes no body. */
  lemma OtherCallKeepsGood(w: World, call: Call)
    requires Good(w) && !call.NewOutparam? && !call.GetBody?
    requires call.Set? && call.sent.Some? ==> !Sends(w.s, call.param, call.sent.value)
    requires call.Finish? ==> !Finishes(w.s, call.body, call.trailers)
    ensures Good(AfterGuest(w, call))
  {
    OtherCallState(w.s, call);
    PlainCallKeepsGood(w, call);
  }

  lemma OtherCallState(s: State, call: Call)
    requires !call.NewOutparam? && !call.GetBody?
    requires call.Set? && call.sent.Some? ==> !Sends(s, call.param, call.sent.value)
    requires call.Finish? ==> !Finishes(s, call.body, call.trailers)
    ensures var t := After(s, call).0;
            && |t.bodies| == |s.bodies| && t.senders == s.senders
            && forall h | h in t.table && t.table[h].BodyHandle? :: h in s.table && t.table[h] == s.table[h]
  {
  }

  lemma GuestKeepsGood(w: World, call: Call)
    requires Good(w)
    ensures Good(AfterGuest(w, call))
  {
    if call.NewOutparam? {
      NewOutparamKeepsGood(w);
    } else if call.GetBody? {
      GetBodyKeepsGood(w, call.response);
    } else if call.Set? && call.sent.Some? && Sends(w.s, call.param, call.sent.value) {
      SetKeepsGood(w, call.param, call.sent.value, After(w.s, call).0, w.s.table[call.sent.value].link.value,
                   w.s.table[call.param].sender);
    } else if call.Finish? && Finishes(w.s, call.body, call.trailers) {
      FinishKeepsGood(w, call);
    } else {
      OtherCallKeepsGood(w, call);
    }
  }

  lemma StepKeepsGood(w: World, step: Step)
    requires Good(w) && Enabled(w, step)
    ensures Good(Next(w, step))
  {
    match step
    case Guest(call) => GuestKeepsGood(w, call);
    case CheckStream(h) => CheckKeepsGood(w, h);
    case WriteStream(h, contents, blocking) => WriteKeepsGood(w, h, contents, blocking);
    case ResumeStream => ResumeKeepsGood(w);
    case Outside(q, op) => OutsideKeepsGood(w, q, op);
  }

  lemma {:induction false} RunKeepsGood(w: World, steps: seq<Step>)
    requires Good(w) && IsRun(w, steps)
    ensures Good(WorldAfter(w, steps))
    decreases |steps|
  {
    if steps != [] {
      StepKeepsGood(w, steps[0]);
      RunKeepsGood(Next(w, steps[0]), steps[1..]);
    }
  }

  // ------------------------------------------------------------- end to end

  lemma InvMeans(c: Flow.Chan)
    requires Flow.Inv(c)
    ensures Flow.IsPrefix(c.emitted, c.written)
    ensures c.receiver != Flow.ReceiverDropped ==> c.emitted + Flow.Concat(c.queue) == c.written
  {
    if c.receiver == Flow.Reading {
      assert c.written[..|c.emitted|] == c.emitted;
    }
  }

  /** In every run, what the connection of a response has received, followed by what is
      still queued for it, is what the streams of that response's body have accepted. */
  lemma ResponseCarriesItsBody(steps: seq<Step>, w: World, b: nat)
    requires IsRun(Start(), steps) && w == WorldAfter(Start(), steps) && b in w.sentWith
    ensures w.sentWith[b] < |w.chans| && b < |w.accepted|
    ensures var c := w.chans[w.sentWith[b]];
            && Flow.IsPrefix(c.emitted, w.accepted[b])
            && (c.receiver != Flow.ReceiverDropped ==> c.emitted + Flow.Concat(c.queue) == w.accepted[b])
    ensures forall d | d in w.sentWith && d != b :: w.sentWith[d] != w.sentWith[b]
  {
    RunKeepsGood(Start(), steps);
    InvMeans(w.chans[w.sentWith[b]]);
  }

  /** The body b that was sent with q, and whose trailers q's channel ends with. */
  ghost predicate Ended(w: World, q: Sender, b: nat)
    requires q < |w.chans|
  {
    && b in w.sentWith && w.sentWith[b] == q
    && b in w.finished
    && b < |w.accepted| && w.chans[q].emitted == w.accepted[b]
    && Flow.Poll(w.chans[q]).1 ==
       (if w.finished[b].Some? then Flow.TrailersFrame(w.finished[b].value) else Flow.End)
  }

  lemma EndHasItsBody(w: World, q: Sender) returns (b: nat)
    requires BytesOk(w.chans, w.sentWith, w.accepted) && TrailersOk(w.s, w.chans, w.sentWith, w.finished)
    requires q < |w.chans| && Flow.Inv(w.chans[q])
    requires w.chans[q].receiver != Flow.ReceiverDropped && Flow.Ends(Flow.Poll(w.chans[q]).1)
    ensures Ended(w, q, b)
  {
    var c := w.chans[q];
    Flow.AtTheEnd(c);
    b :| b in w.sentWith && w.sentWith[b] == q && b in w.finished && w.finished[b] == c.trailers.trailers;
  }

  /** And when a connection sees the end of a response, it is the response of a finished
      body, it has received every byte that body's streams accepted, the trailers are
      those given to `finish`, and nobody can write any more. */
  lemma ResponseEndsWithItsBody(steps: seq<Step>, w: World, q: Sender)
    requires IsRun(Start(), steps) && w == WorldAfter(Start(), steps) && q < |w.chans|
    requires w.chans[q].receiver != Flow.ReceiverDropped && Flow.Ends(Flow.Poll(w.chans[q]).1)
    ensures !HasData(w.s, q)
    ensures exists b :: Ended(w, q, b)
  {
    RunKeepsGood(Start(), steps);
    var b := EndHasItsBody(w, q);
    Flow.AtTheEnd(w.chans[q]);
  }

  /** Before its response is sent a body's streams accept nothing, and a response without
      a body carries nothing. */
  lemma NothingBeforeSent(steps: seq<Step>, w: World)
    requires IsRun(Start(), steps) && w == WorldAfter(Start(), steps)
    ensures forall b | 0 <= b < |w.accepted| && b !in w.sentWith :: w.accepted[b] == []
    ensures forall q | 0 <= q < |w.chans| && Free(w.sentWith, q) :: w.chans[q].written == [] == w.chans[q].emitted
  {
    RunKeepsGood(Start(), steps);
    forall q | 0 <= q < |w.chans| && Free(w.sentWith, q) ensures w.chans[q].emitted == [] {
      assert Flow.Inv(w.chans[q]) && w.chans[q].written == [];
    }
  }
}
