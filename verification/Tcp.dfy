/** The TCP socket state machine: binding, listening, accepting and connecting, with
    a one-place buffer that polling fills in front of the system's accept queue. */
module Tcp {
  import opened Wrappers

  /** A finished accept: a connection, or the error the system reported for it. */
  type Accepted = Result<nat, nat>

  datatype State =
    | Default(sock: nat)
    | BindStarted(sock: nat)
    | Bound(sock: nat)
    | ListenStarted(listener: nat)
    | Listening(listener: nat, pendingAccept: Option<Accepted>)
    | ConnectStarted(connecting: nat)
    | ConnectReady(outcome: Result<nat, nat>)
    | Connected(stream: nat)
    | Closed

  datatype ErrorCode =
    InvalidArgument | InvalidState | NotInProgress | WouldBlock | ConcurrencyConflict | Os(errno: nat)

  /** What a call answers. `Took` is a finished accept, good or bad. */
  datatype Response = Ready | Pending | Done | Streams(stream: nat) | Took(accepted: Accepted) | Failed(error: ErrorCode)

  /** Calls on a socket, with what the system answers to each: whether it reports a
      queued connection now, how a connection attempt stands, whether a call fails.
      `Arrive` is the system queueing a connection. */
  datatype Call =
    | Arrive(accepted: Accepted)
    | Poll(reported: bool, attempt: Option<Result<nat, nat>>)
    | StartBind(validAddress: bool, os: Result<(), nat>)
    | FinishBind
    | StartConnect(validAddress: bool)
    | FinishConnect(attempt: Option<Result<nat, nat>>)
    | StartListen(os: Result<(), nat>)
    | FinishListen
    | Accept(reported: bool)

  /** A socket together with the system's queue of connections behind it. */
  datatype Sys = Sys(state: State, backlog: seq<Accepted>)

  // ----------------------------------------------------------- specification

  /** The state and answer after a call on a socket in state s. */
  function Answer(s: Sys, call: Call): (Sys, Response) {
    match (call, s.state)
    case (Arrive(a), _) => (s.(backlog := s.backlog + [a]), Done)

    case (Poll(reported, _), Listening(l, None)) =>
      if reported && s.backlog != []
      then (Sys(Listening(l, Some(s.backlog[0])), s.backlog[1..]), Ready) else (s, Pending)
    case (Poll(_, attempt), ConnectStarted(_)) =>
      if attempt.Some? then (s.(state := ConnectReady(attempt.value)), Ready) else (s, Pending)
    case (Poll(_, _), _) => (s, Ready)

    case (StartBind(false, _), _) => (s, Failed(InvalidArgument))
    case (StartBind(true, os), Default(k)) =>
      if os.Ok? then (s.(state := BindStarted(k)), Done) else (s, Failed(Os(os.error)))
    case (StartBind(true, _), _) => (s, Failed(InvalidState))

    case (FinishBind, BindStarted(k)) => (s.(state := Bound(k)), Done)
    case (FinishBind, _) => (s, Failed(NotInProgress))

    case (StartConnect(false), _) => (s, Failed(InvalidArgument))
    case (StartConnect(true), Default(k)) => (s.(state := ConnectStarted(k)), Done)
    case (StartConnect(true), BindStarted(k)) => (s.(state := ConnectStarted(k)), Done)
    case (StartConnect(true), Bound(k)) => (s.(state := ConnectStarted(k)), Done)
    case (StartConnect(true), _) => (s, Failed(InvalidState))

    case (FinishConnect(attempt), ConnectStarted(_)) =>
      (match attempt
       case None => (s, Failed(WouldBlock))
       case Some(Ok(stream)) => (s.(state := Connected(stream)), Streams(stream))
       case Some(Err(e)) => (s.(state := Closed), Failed(Os(e))))
    case (FinishConnect(_), ConnectReady(Ok(stream))) => (s.(state := Connected(stream)), Streams(stream))
    case (FinishConnect(_), ConnectReady(Err(e))) => (s.(state := Closed), Failed(Os(e)))
    case (FinishConnect(_), _) => (s, Failed(NotInProgress))

    case (StartListen(os), BindStarted(k)) =>
      if os.Ok? then (s.(state := ListenStarted(k)), Done) else (s.(state := Closed), Failed(Os(os.error)))
    case (StartListen(os), Bound(k)) =>
      if os.Ok? then (s.(state := ListenStarted(k)), Done) else (s.(state := Closed), Failed(Os(os.error)))
    case (StartListen(_), ListenStarted(_)) => (s, Failed(ConcurrencyConflict))
    case (StartListen(_), _) => (s, Failed(InvalidState))

    case (FinishListen, ListenStarted(l)) => (s.(state := Listening(l, None)), Done)
    case (FinishListen, _) => (s, Failed(NotInProgress))

    case (Accept(_), Listening(l, Some(a))) => (s.(state := Listening(l, None)), Took(a))
    case (Accept(reported), Listening(l, None)) =>
      if reported && s.backlog != [] then (s.(backlog := s.backlog[1..]), Took(s.backlog[0])) else (s, Failed(WouldBlock))
    case (Accept(_), _) => (s, Failed(InvalidState))
  }

  // -------------------------------------------------------------- operations

  class TcpSocket {
    var state: State
    var backlog: seq<Accepted>

    function Now(): Sys
      reads this
    {
      Sys(state, backlog)
    }

    constructor (sock: nat)
      ensures Now() == Sys(Default(sock), [])
    {
      state, backlog := Default(sock), [];
    }

    /** The listener's accept queue, asked without waiting. */
    method PollAccept(reported: bool) returns (a: Option<Accepted>)
      modifies this`backlog
      ensures a == if reported && old(backlog) != [] then Some(old(backlog)[0]) else None
      ensures backlog == if a.Some? then old(backlog)[1..] else old(backlog)
    {
      if reported && backlog != [] {
        a := Some(backlog[0]);
        backlog := backlog[1..];
      } else {
        a := None;
      }
    }

    method DoPoll(reported: bool, attempt: Option<Result<nat, nat>>) returns (r: Response)
      modifies this
      ensures (Now(), r) == Answer(old(Now()), Poll(reported, attempt))
    {
      match state
      case Listening(l, None) =>
        var a := PollAccept(reported);
        if a.None? {
          return Pending;
        }
        state := Listening(l, a);
        r := Ready;
      case ConnectStarted(_) =>
        if attempt.None? {
          return Pending;
        }
        state := ConnectReady(attempt.value);
        r := Ready;
      case _ =>
        r := Ready;
    }

    method DoStartBind(validAddress: bool, os: Result<(), nat>) returns (r: Response)
      modifies this
      ensures (Now(), r) == Answer(old(Now()), StartBind(validAddress, os))
    {
      if !validAddress {
        return Failed(InvalidArgument);
      }
      var prev := state;
      state := Closed;
      match prev
      case Default(sock) =>
        if os.Err? {
          state := Default(sock);
          r := Failed(Os(os.error));
        } else {
          state := BindStarted(sock);
          r := Done;
        }
      case _ =>
        state := prev;
        r := Failed(InvalidState);
    }

    method DoFinishBind() returns (r: Response)
      modifies this
      ensures (Now(), r) == Answer(old(Now()), FinishBind)
    {
      var prev := state;
      state := Closed;
      match prev
      case BindStarted(sock) =>
        state := Bound(sock);
        r := Done;
      case _ =>
        state := prev;
        r := Failed(NotInProgress);
    }

    method DoStartConnect(validAddress: bool) returns (r: Response)
      modifies this
      ensures (Now(), r) == Answer(old(Now()), StartConnect(validAddress))
    {
      if !validAddress {
        return Failed(InvalidArgument);
      }
      var prev := state;
      state := Closed;
      if prev.Default? || prev.BindStarted? || prev.Bound? {
        state := ConnectStarted(prev.sock);
        r := Done;
      } else {
        state := prev;
        r := Failed(InvalidState);
      }
    }

    method DoFinishConnect(attempt: Option<Result<nat, nat>>) returns (r: Response)
      modifies this
      ensures (Now(), r) == Answer(old(Now()), FinishConnect(attempt))
    {
      var prev := state;
      state := Closed;
      var outcome: Result<nat, nat>;
      match prev {
        case ConnectStarted(fut) =>
          if attempt.None? {
            state := ConnectStarted(fut);
            return Failed(WouldBlock);
          }
          outcome := attempt.value;
        case ConnectReady(res) =>
          outcome := res;
        case _ =>
          state := prev;
          return Failed(NotInProgress);
      }
      if outcome.Err? {
        return Failed(Os(outcome.error));
      }
      state := Connected(outcome.value);
      r := Streams(outcome.value);
    }

    method DoStartListen(os: Result<(), nat>) returns (r: Response)
      modifies this
      ensures (Now(), r) == Answer(old(Now()), StartListen(os))
    {
      var prev := state;
      state := Closed;
      if prev.BindStarted? || prev.Bound? {
        if os.Err? {
          return Failed(Os(os.error));
        }
        state := ListenStarted(prev.sock);
        r := Done;
      } else if prev.ListenStarted? {
        state := prev;
        r := Failed(ConcurrencyConflict);
      } else {
        state := prev;
        r := Failed(InvalidState);
      }
    }

    method DoFinishListen() returns (r: Response)
      modifies this
      ensures (Now(), r) == Answer(old(Now()), FinishListen)
    {
      var prev := state;
      state := Closed;
      match prev
      case ListenStarted(l) =>
        state := Listening(l, None);
        r := Done;
      case _ =>
        state := prev;
        r := Failed(NotInProgress);
    }

    method DoAccept(reported: bool) returns (r: Response)
      modifies this
      ensures (Now(), r) == Answer(old(Now()), Accept(reported))
    {
      if !state.Listening? {
        return Failed(InvalidState);
      }
      var a := state.pendingAccept;
      state := state.(pendingAccept := None);
      if a.None? {
        a := PollAccept(reported);
      }
      r := if a.Some? then Took(a.value) else Failed(WouldBlock);
    }
  }

  // -------------------------------------------------------------------- runs

  function After(s: Sys, calls: seq<Call>): Sys
    decreases |calls|
  {
    if calls == [] then s else After(Answer(s, calls[0]).0, calls[1..])
  }

  function Responses(s: Sys, calls: seq<Call>): (rs: seq<Response>)
    ensures |rs| == |calls|
    decreases |calls|
  {
    if calls == [] then [] else [Answer(s, calls[0]).1] + Responses(Answer(s, calls[0]).0, calls[1..])
  }

  function TakenBy(r: Response): seq<Accepted> {
    if r.Took? then [r.accepted] else []
  }

  function Taken(rs: seq<Response>): seq<Accepted> {
    if rs == [] then [] else TakenBy(rs[0]) + Taken(rs[1..])
  }

  function ArrivedBy(call: Call): seq<Accepted> {
    if call.Arrive? then [call.accepted] else []
  }

  function Arrivals(calls: seq<Call>): seq<Accepted> {
    if calls == [] then [] else ArrivedBy(calls[0]) + Arrivals(calls[1..])
  }

  /** The one queue that the buffered connection and the system's queue make up. */
  function Queue(s: Sys): seq<Accepted> {
    (if s.state.Listening? && s.state.pendingAccept.Some? then [s.state.pendingAccept.value] else []) + s.backlog
  }

  lemma AnswerKeepsQueue(s: Sys, call: Call)
    ensures TakenBy(Answer(s, call).1) + Queue(Answer(s, call).0) == Queue(s) + ArrivedBy(call)
  {
  }

  /** Under any mix of calls connections are taken in the order they arrived, none
      lost, none twice, however often polling moved one into the buffer. */
  lemma {:induction false} AcceptsAreFifo(s: Sys, calls: seq<Call>)
    ensures Taken(Responses(s, calls)) + Queue(After(s, calls)) == Queue(s) + Arrivals(calls)
    decreases |calls|
  {
    if calls != [] {
      var (s', r) := Answer(s, calls[0]);
      AcceptsAreFifo(s', calls[1..]);
      AnswerKeepsQueue(s, calls[0]);
      assert Responses(s, calls)[1..] == Responses(s', calls[1..]);
      Regroup(TakenBy(r), Taken(Responses(s', calls[1..])), Queue(After(s', calls[1..])),
              Queue(s), Queue(s'), ArrivedBy(calls[0]), Arrivals(calls[1..]));
    }
  }

  lemma Regroup(took: seq<Accepted>, later: seq<Accepted>, end: seq<Accepted>,
                queue: seq<Accepted>, queue': seq<Accepted>, arrived: seq<Accepted>, more: seq<Accepted>)
    requires took + queue' == queue + arrived && later + end == queue' + more
    ensures (took + later) + end == queue + (arrived + more)
  {
    calc {
      (took + later) + end;
      took + (later + end);
      (took + queue') + more;
      queue + (arrived + more);
    }
  }

  /** After a poll that says ready, neither accepting nor finishing a connection
      would block, whatever the system answers then. */
  lemma ReadyMeansNoBlock(s: Sys, reported: bool, attempt: Option<Result<nat, nat>>, next: Call)
    requires Answer(s, Poll(reported, attempt)).1 == Ready
    ensures Answer(Answer(s, Poll(reported, attempt)).0, next).1 != Failed(WouldBlock)
  {
  }

  /** A call that would block is one before which a poll would say pending. */
  lemma BlockMeansNotReady(s: Sys, next: Call)
    requires Answer(s, next).1 == Failed(WouldBlock)
    ensures Answer(s, next).0 == s
    ensures next.Accept? ==> Answer(s, Poll(next.reported, None)).1 == Pending
    ensures next.FinishConnect? ==> Answer(s, Poll(false, next.attempt)).1 == Pending
  {
  }

  /** A poll says pending exactly when the call it is for would block: accepting on a
      listening socket, finishing on one that connects. In any other state it is ready. */
  lemma PollPendsWhen(s: Sys, reported: bool, attempt: Option<Result<nat, nat>>)
    ensures var r := Answer(s, Poll(reported, attempt)).1;
            && (r == Ready || r == Pending)
            && (s.state.Listening? ==> (r == Pending <==> Answer(s, Accept(reported)).1 == Failed(WouldBlock)))
            && (s.state.ConnectStarted? ==> (r == Pending <==> Answer(s, FinishConnect(attempt)).1 == Failed(WouldBlock)))
            && (!s.state.Listening? && !s.state.ConnectStarted? ==> r == Ready)
            && (r == Pending ==> Answer(s, Poll(reported, attempt)).0 == s)
  {
  }

  /** And these two calls block exactly when there is nothing for them yet. */
  lemma BlocksWhen(s: Sys, call: Call)
    ensures Answer(s, call).1 == Failed(WouldBlock) <==>
              || (call.Accept? && s.state.Listening? && (Queue(s) == [] ||
                                                         (s.state.pendingAccept.None? && !call.reported)))
              || (call.FinishConnect? && s.state.ConnectStarted? && call.attempt.None?)
  {
  }

  /** What an error says about the call: a bad address; a finish with nothing started; a
      second start of listening; a wrong state; or else the system's own error. */
  lemma ErrorTellsCause(s: Sys, call: Call)
    ensures var r := Answer(s, call).1;
            && (r == Failed(InvalidArgument) <==> (call.StartBind? || call.StartConnect?) && !call.validAddress)
            && (r == Failed(NotInProgress) <==>
                  || (call.FinishBind? && !s.state.BindStarted?)
                  || (call.FinishConnect? && !s.state.ConnectStarted? && !s.state.ConnectReady?)
                  || (call.FinishListen? && !s.state.ListenStarted?))
            && (r == Failed(ConcurrencyConflict) <==> call.StartListen? && s.state.ListenStarted?)
            && (r == Failed(InvalidState) <==>
                  || (call.StartBind? && call.validAddress && !s.state.Default?)
                  || (call.StartConnect? && call.validAddress && Rank(s.state) > 2)
                  || (call.StartListen? && Rank(s.state) != 1 && Rank(s.state) != 2 && !s.state.ListenStarted?)
                  || (call.Accept? && !s.state.Listening?))
            && (forall e: nat :: r == Failed(Os(e)) <==>
                  || (call.StartBind? && call.validAddress && s.state.Default? && call.os == Err(e))
                  || (call.StartListen? && 1 <= Rank(s.state) <= 2 && call.os == Err(e))
                  || (call.FinishConnect? && s.state.ConnectStarted? && call.attempt == Some(Err(e)))
                  || (call.FinishConnect? && s.state == ConnectReady(Err(e))))
  {
  }

  /** Every start enables its finish and what can follow it: after a start, the finish
      succeeds as the system answers; a bound socket listens or connects, and so does one
      that has only started to bind; a listening socket takes what is first in the queue;
      and no finish succeeds twice. */
  lemma StartEnablesFinish(s: Sys, call: Call)
    requires Answer(s, call).1 == Done
    ensures var t := Answer(s, call).0;
            && t.backlog == s.backlog + ArrivedBy(call)
            && (call.StartBind? ==> Answer(t, FinishBind).1 == Done)
            && (call.StartBind? || call.FinishBind? ==>
                  Answer(t, StartListen(Ok(()))).1 == Done && Answer(t, StartConnect(true)).1 == Done)
            && (call.StartConnect? ==> t.state.ConnectStarted?)
            && (call.FinishBind? || call.FinishListen? ==> Answer(t, call).1 == Failed(NotInProgress))
            && (call.StartListen? ==> Answer(t, FinishListen).1 == Done)
            && (call.FinishListen? && t.backlog != [] ==> Answer(t, Accept(true)).1 == Took(t.backlog[0]))
  {
  }

  /** A started connection finishes as the system says, and is what polling waits for. */
  lemma ConnectionFinishes(s: Sys, attempt: Option<Result<nat, nat>>)
    requires s.state.ConnectStarted?
    ensures var (t, r) := Answer(s, FinishConnect(attempt));
            match attempt
            case None => r == Failed(WouldBlock) && t == s
            case Some(Ok(stream)) => r == Streams(stream) && t.state == Connected(stream)
            case Some(Err(e)) => r == Failed(Os(e)) && t.state == Closed
    ensures Answer(s, Poll(false, attempt)).1 == Ready <==> attempt.Some?
  {
  }

  /** A new socket can be bound, and connected without being bound. */
  lemma NewSocketStarts(k: nat, backlog: seq<Accepted>)
    ensures Answer(Sys(Default(k), backlog), StartBind(true, Ok(()))).1 == Done
    ensures Answer(Sys(Default(k), backlog), StartConnect(true)).1 == Done
    ensures Answer(Sys(Default(k), backlog), FinishBind).1.Failed?
  {
  }

  /** Polling first makes no difference: what it takes from the system is what the
      next call would have got, whatever the system would answer by then. */
  lemma PollIsTransparent(s: Sys, reported: bool, attempt: Option<Result<nat, nat>>, next: Call)
    requires Answer(s, Poll(reported, attempt)).1 == Ready
    ensures s.state.ConnectStarted? && next.FinishConnect? ==>
              Answer(Answer(s, Poll(reported, attempt)).0, next) == Answer(s, FinishConnect(attempt))
    ensures s.state.Listening? && next.Accept? ==>
              Answer(Answer(s, Poll(reported, attempt)).0, next) == Answer(s, Accept(true))
    ensures !s.state.ConnectStarted? && !s.state.Listening? ==> Answer(s, Poll(reported, attempt)).0 == s
  {
  }

  /** The system socket a state works on. */
  function SocketOf(s: State): Option<nat> {
    match s
    case Default(k) => Some(k)
    case BindStarted(k) => Some(k)
    case Bound(k) => Some(k)
    case ListenStarted(l) => Some(l)
    case Listening(l, _) => Some(l)
    case ConnectStarted(k) => Some(k)
    case _ => None
  }

  /** In any run a socket keeps the system socket it was created with, until it is
      connected or closed. */
  lemma {:induction false} KeepsItsSocket(s: Sys, calls: seq<Call>)
    ensures SocketOf(After(s, calls).state).Some? ==> SocketOf(After(s, calls).state) == SocketOf(s.state)
    decreases |calls|
  {
    if calls != [] {
      KeepsItsSocket(Answer(s, calls[0]).0, calls[1..]);
    }
  }

  /** A socket is listening exactly if finishing to listen once succeeded. */
  lemma {:induction false} ListensWhenFinished(s: Sys, calls: seq<Call>)
    ensures After(s, calls).state.Listening? <==>
              s.state.Listening? || exists i :: Succeeds(s, calls, i) && calls[i] == FinishListen
    decreases |calls|
  {
    if calls != [] {
      var s' := Answer(s, calls[0]).0;
      ListensWhenFinished(s', calls[1..]);
      if i :| Succeeds(s', calls[1..], i) && calls[1..][i] == FinishListen {
        assert Succeeds(s, calls, i + 1) && calls[i + 1] == FinishListen;
      }
      if i :| Succeeds(s, calls, i) && calls[i] == FinishListen && i > 0 {
        assert Succeeds(s', calls[1..], i - 1) && calls[1..][i - 1] == FinishListen;
      }
      if Succeeds(s, calls, 0) && calls[0] == FinishListen {
        assert s'.state.Listening?;
      }
    }
  }

  /** The i-th call of a run is answered by success. */
  predicate Succeeds(s: Sys, calls: seq<Call>, i: int) {
    0 <= i < |calls| && Responses(s, calls)[i] == Done
  }

  /** Finishing to listen succeeds only after starting to, and starting to listen only
      after starting to bind. */
  lemma {:induction false} OpensInOrder(s: Sys, calls: seq<Call>, i: int)
    requires Succeeds(s, calls, i)
    ensures calls[i] == FinishListen && Rank(s.state) <= 2 ==>
              exists j :: j < i && Succeeds(s, calls, j) && calls[j].StartListen?
    ensures calls[i].StartListen? && s.state.Default? ==>
              exists j :: j < i && Succeeds(s, calls, j) && calls[j].StartBind?
    decreases |calls|
  {
    if i > 0 {
      var s' := Answer(s, calls[0]).0;
      OpensInOrder(s', calls[1..], i - 1);
      if j :| j < i - 1 && Succeeds(s', calls[1..], j) && calls[1..][j].StartListen? {
        assert Succeeds(s, calls, j + 1) && calls[j + 1].StartListen?;
      }
      if j :| j < i - 1 && Succeeds(s', calls[1..], j) && calls[1..][j].StartBind? {
        assert Succeeds(s, calls, j + 1) && calls[j + 1].StartBind?;
      }
      StartsInOrder(s, calls[0]);
      assert Responses(s, calls)[0] == Answer(s, calls[0]).1;
      assert calls[0].StartListen? && Answer(s, calls[0]).1 == Done ==> Succeeds(s, calls, 0);
      assert calls[0].StartBind? && Answer(s, calls[0]).1 == Done ==> Succeeds(s, calls, 0);
      LaterStates(s', calls[1..], i - 1);
    }
  }

  /** How one call can leave the first states. */
  lemma StartsInOrder(s: Sys, call: Call)
    ensures var (s', r) := Answer(s, call);
            && (Rank(s.state) <= 2 && s'.state.ListenStarted? ==> call.StartListen? && r == Done)
            && (s.state.Default? && (s'.state.BindStarted? || s'.state.Bound?) ==> call.StartBind? && r == Done)
  {
  }

  /** From where listening can still be started or finished. */
  lemma {:induction false} LaterStates(s: Sys, calls: seq<Call>, i: int)
    requires Succeeds(s, calls, i)
    ensures calls[i] == FinishListen ==> Rank(s.state) <= 2 || s.state.ListenStarted?
    ensures calls[i].StartListen? ==> Rank(s.state) <= 2
    decreases |calls|
  {
    if i > 0 {
      LaterStates(Answer(s, calls[0]).0, calls[1..], i - 1);
    }
  }

  /** So a new socket listens exactly if it was told, successfully and in this order,
      to start to bind, to start to listen and to finish that. Finishing to bind is not
      among the calls it takes. */
  lemma ListensExactlyAfter(k: nat, backlog: seq<Accepted>, calls: seq<Call>)
    ensures var s := Sys(Default(k), backlog);
            After(s, calls).state.Listening? <==>
              exists a, b, c :: a < b < c && Succeeds(s, calls, a) && Succeeds(s, calls, b) && Succeeds(s, calls, c) &&
                                calls[a].StartBind? && calls[b].StartListen? && calls[c] == FinishListen
  {
    var s := Sys(Default(k), backlog);
    ListensWhenFinished(s, calls);
    if c :| Succeeds(s, calls, c) && calls[c] == FinishListen {
      OpensInOrder(s, calls, c);
      var b :| b < c && Succeeds(s, calls, b) && calls[b].StartListen?;
      OpensInOrder(s, calls, b);
      var a :| a < b && Succeeds(s, calls, a) && calls[a].StartBind?;
    }
  }

  function Rank(s: State): nat {
    match s
    case Default(_) => 0
    case BindStarted(_) => 1
    case Bound(_) => 2
    case ListenStarted(_) => 3
    case Listening(_, _) => 4
    case ConnectStarted(_) => 3
    case ConnectReady(_) => 4
    case Connected(_) => 5
    case Closed => 5
  }

  predicate SameVariant(a: State, b: State) {
    match a
    case Default(_) => b.Default?
    case BindStarted(_) => b.BindStarted?
    case Bound(_) => b.Bound?
    case ListenStarted(_) => b.ListenStarted?
    case Listening(_, _) => b.Listening?
    case ConnectStarted(_) => b.ConnectStarted?
    case ConnectReady(_) => b.ConnectReady?
    case Connected(_) => b.Connected?
    case Closed => b.Closed?
  }

  function Changes(s: Sys, calls: seq<Call>): nat
    decreases |calls|
  {
    if calls == [] then 0
    else
      var s' := Answer(s, calls[0]).0;
      (if SameVariant(s.state, s'.state) then 0 else 1) + Changes(s', calls[1..])
  }

  /** A socket never goes back to an earlier state, so in any run it changes state at
      most five times; a connected or closed socket does not change at all. */
  lemma {:induction false} BoundedChanges(s: Sys, calls: seq<Call>)
    ensures Rank(s.state) + Changes(s, calls) <= Rank(After(s, calls).state) <= 5
    ensures s.state.Connected? || s.state.Closed? ==> After(s, calls).state == s.state
    decreases |calls|
  {
    if calls != [] {
      BoundedChanges(Answer(s, calls[0]).0, calls[1..]);
    }
  }

  /** A failed call changes nothing, unless it is the system refusing to listen or a
      connection that failed: these, and only these, close the socket. */
  lemma FailureChangesNothing(s: Sys, call: Call)
    requires Answer(s, call).1.Failed?
    ensures var closes := (call.StartListen? || call.FinishConnect?) && Answer(s, call).1.error.Os?;
            Answer(s, call).0 == if closes then s.(state := Closed) else s
  {
  }

  function StreamsOut(rs: seq<Response>): nat {
    if rs == [] then 0 else (if rs[0].Streams? then 1 else 0) + StreamsOut(rs[1..])
  }

  predicate Connects(call: Call) {
    call.StartConnect? && call.validAddress
  }

  ghost predicate NoStreamsLeft(s: State) {
    s.Connected? || s.Closed? || s.ListenStarted? || s.Listening?
  }

  ghost predicate NoAcceptsLeft(s: State) {
    s.Connected? || s.Closed? || s.ConnectStarted? || s.ConnectReady?
  }

  /** What one call can do about streams and accepts. */
  lemma StreamsStep(s: Sys, call: Call)
    ensures var (s', r) := Answer(s, call);
            && (r.Streams? ==> s'.state.Connected? && !NoStreamsLeft(s.state) && (s.state.ConnectStarted? || s.state.ConnectReady?))
            && (r.Took? ==> s.state.Listening?)
            && (NoStreamsLeft(s.state) ==> NoStreamsLeft(s'.state))
            && (NoAcceptsLeft(s.state) ==> NoAcceptsLeft(s'.state))
            && (Rank(s.state) <= 2 && Rank(s'.state) > 2 ==>
                  s'.state.Closed? || s'.state.ListenStarted? || (Connects(call) && r == Done))
  {
  }

  /** A socket gives out its connection's streams at most once, never after an accept,
      and not at all unless a connection was started. */
  lemma {:induction false} StreamsAtMostOnce(s: Sys, calls: seq<Call>)
    ensures var rs := Responses(s, calls);
            && StreamsOut(rs) <= 1
            && (StreamsOut(rs) == 1 ==> After(s, calls).state.Connected? && Taken(rs) == [])
            && (NoStreamsLeft(s.state) ==> StreamsOut(rs) == 0)
            && (NoAcceptsLeft(s.state) ==> Taken(rs) == [])
            && (StreamsOut(rs) == 1 && Rank(s.state) <= 2 ==>
                  exists i :: 0 <= i < |calls| && Connects(calls[i]) && rs[i] == Done)
    decreases |calls|
  {
    if calls != [] {
      StreamsStep(s, calls[0]);
      var s', rs := Answer(s, calls[0]).0, Responses(s, calls);
      StreamsAtMostOnce(s', calls[1..]);
      BoundedChanges(s', calls[1..]);
      assert rs[1..] == Responses(s', calls[1..]);
      if StreamsOut(rs) == 1 && Rank(s.state) <= 2 {
        ConnectSomewhere(s, calls, s', rs);
      }
    }
  }

  lemma ConnectSomewhere(s: Sys, calls: seq<Call>, s': Sys, rs: seq<Response>)
    requires calls != [] && |rs| == |calls|
    requires Rank(s'.state) > 2 ==> Connects(calls[0]) && rs[0] == Done
    requires Rank(s'.state) <= 2 ==> exists i :: 0 <= i < |calls[1..]| && Connects(calls[1..][i]) && rs[1..][i] == Done
    ensures exists i :: 0 <= i < |calls| && Connects(calls[i]) && rs[i] == Done
  {
    if Rank(s'.state) <= 2 {
      var i :| 0 <= i < |calls[1..]| && Connects(calls[1..][i]) && rs[1..][i] == Done;
      assert Connects(calls[i + 1]) && rs[i + 1] == Done;
    }
  }
}
