/** The host calls on outgoing bodies, updating a store's resource table in place. */
module HttpHost {
  import opened Wrappers
  import opened Tables
  import opened OutgoingBody

  class Ctx {
    var table: map<nat, Entry>
    var bodies: seq<Body>
    var arrived: seq<Option<Sender>>
    var senders: nat
    var log: seq<Event>

    function Now(): State
      reads this
    {
      State(table, bodies, arrived, senders, log)
    }

    constructor ()
      ensures Now() == Initial()
    {
      table, bodies, arrived, senders, log := map[], [], [], 0, [];
    }

    method PushEntry(e: Entry) returns (h: nat)
      modifies this`table
      ensures h == Slot(old(table)) && table == old(table)[h := e]
    {
      h := Slot(table);
      table := table[h := e];
    }

    /** `HostOutgoingResponse::body` */
    method ResponseBody(response: nat) returns (r: Answer)
      modifies this
      ensures (Now(), r) == After(old(Now()), GetBody(response))
    {
      if !IsResponse(Now(), response) {
        return Bail(NotInTable);
      }
      if table[response].link.Some? {
        return Refused;
      }
      var b := |bodies|;
      bodies := bodies + [Created(None, None)];
      table := table[response := Response(Some(b))];
      var h := PushEntry(BodyHandle(b));
      r := Handle(h);
    }

    /** `HostOutgoingBody::write` */
    method BodyWrite(h: nat) returns (r: Answer)
      modifies this
      ensures (Now(), r) == After(old(Now()), Write(h))
    {
      if !HasBody(Now(), h) {
        return Bail(NotInTable);
      }
      var b := table[h].body;
      var prev := bodies[b];
      bodies := bodies[b := Corrupted];
      if prev.Pending? || prev.Trailers? {
        bodies := bodies[b := prev];
        assert bodies == old(bodies);
        return Refused;
      }
      if !prev.Created? {
        return Bail(if prev.Dropped? then BodyDropped else if prev.Finished? then BodyFinished else BodyCorrupted);
      }
      var stream: Stream;
      if prev.sender.Some? {
        bodies := bodies[b := Trailers(prev.sender.value)];
        stream := HttpWriting(prev.sender.value);
      } else {
        bodies := bodies[b := Pending(|arrived|)];
        stream := HttpPending(|arrived|);
        arrived := arrived + [None];
      }
      assert bodies == old(bodies)[b := bodies[b]];
      if prev.limit.Some? {
        stream := Limited(prev.limit.value, stream);
      }
      log := log + [StreamOut(b)];
      var at := PushEntry(StreamHandle(b, stream));
      r := Handle(at);
    }

    /** `HostOutgoingBody::finish` */
    method BodyFinish(h: nat, trailers: Option<nat>, received: bool, connected: bool) returns (r: Answer)
      modifies this
      ensures (Now(), r) == After(old(Now()), Finish(h, trailers, received, connected))
    {
      if trailers.Some? {
        if !IsFields(Now(), trailers.value) {
          return Bail(NotInTable);
        }
        table := table - {trailers.value};
      }
      if !HasBody(Now(), h) {
        return Bail(NotInTable);
      }
      var b := table[h].body;
      table := table - {h};
      var prev := bodies[b];
      bodies := bodies[b := Finished];
      match prev {
        case Created(_, None) =>
          r := Refused;
        case Pending(_) =>
          r := Refused;
        case Created(_, Some(q)) =>
          log := log + [TrailersSent(q)];
          r := if received && connected then Unit else Refused;
        case Trailers(q) =>
          log := log + [TrailersSent(q)];
          r := if received && connected then Unit else Refused;
        case Dropped =>
          r := Bail(BodyDropped);
        case Finished =>
          r := Bail(BodyFinished);
        case Corrupted =>
          r := Bail(BodyCorrupted);
      }
    }

    /** `HostOutgoingBody::drop` */
    method BodyDrop(h: nat) returns (r: Answer)
      modifies this
      ensures (Now(), r) == After(old(Now()), Call.DropBody(h))
    {
      if !HasBody(Now(), h) {
        return Bail(NotInTable);
      }
      var b := table[h].body;
      table := table - {h};
      var prev := bodies[b];
      bodies := bodies[b := Dropped];
      r := match prev
        case Dropped => Bail(BodyDropped)
        case Finished => Bail(BodyFinished)
        case Corrupted => Bail(BodyCorrupted)
        case _ => Unit;
    }

    /** `HostResponseOutparam::set` */
    method SetResponse(param: nat, sent: Option<nat>) returns (r: Answer)
      modifies this
      ensures (Now(), r) == After(old(Now()), Set(param, sent))
    {
      if !IsOutparam(Now(), param) {
        return Bail(NotInTable);
      }
      var q := table[param].sender;
      table := table - {param};
      if sent.None? {
        return Unit;
      }
      if !IsResponse(Now(), sent.value) {
        return Bail(NotInTable);
      }
      var link := table[sent.value].link;
      table := table - {sent.value};
      if link.None? || link.value >= |bodies| {
        return Unit;
      }
      var b := link.value;
      var prev := bodies[b];
      bodies := bodies[b := Corrupted];
      r := Unit;
      match prev {
        case Created(_, Some(_)) =>
          r := Bail(AlreadySet);
        case Trailers(_) =>
          r := Bail(AlreadySet);
        case Created(limit, None) =>
          bodies := bodies[b := Created(limit, Some(q))];
        case Pending(chan) =>
          if chan < |arrived| {
            arrived := arrived[chan := Some(q)];
          }
          bodies := bodies[b := Trailers(q)];
        case Dropped =>
        case Finished =>
        case Corrupted =>
          r := Bail(BodyCorrupted);
      }
      assert bodies == old(bodies)[b := bodies[b]];
    }
  }
}
