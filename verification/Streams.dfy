/** Output streams in front of an HTTP response body: a stream that may still wait for
    its response to be sent, under any number of nested byte budgets. */
module Streams {
  import opened Wrappers
  import opened Numbers
  import opened BodyFlow

  /** What a pending stream finds on its one-shot channel. */
  datatype Arrival = NotSent | Arrived | NeverSent

  /** A stream of one body. A sink discards what it is given. */
  datatype OutputStream =
    | Sink
    | HttpWriting
    | HttpPending(arrival: Arrival)
    | Limited(budget: nat, stream: OutputStream)

  // ----------------------------------------------------------- specification

  datatype Checked = Checked(stream: OutputStream, chan: Chan, result: Result<nat, WriteError>)

  function CheckConn(c: Chan): Checked {
    if c.waiting.Some? then Checked(HttpWriting, c, Err(LockContended))
    else
      match c.conn
      case ErrorWaiting(e) => Checked(HttpWriting, c.(conn := Gone), Err(Http(e)))
      case Quiet => Checked(HttpWriting, c, Ok(Min(c.permits, U32_MAX)))
      case Gone => Checked(HttpWriting, c, Err(StreamClosed))
  }

  function CheckWrite(s: OutputStream, c: Chan): Checked {
    match s
    case Sink => Checked(s, c, Ok(U64_MAX))
    case HttpWriting => CheckConn(c)
    case HttpPending(NotSent) => Checked(s, c, Err(UnsentBody))
    case HttpPending(Arrived) => CheckConn(c)
    case HttpPending(NeverSent) => Checked(s, c, Err(StreamClosed))
    case Limited(budget, inner) =>
      if budget == 0 then Checked(s, c, Err(BudgetExceeded))
      else
        var r := CheckWrite(inner, c);
        Checked(Limited(budget, r.stream), r.chan, if r.result.Ok? then Ok(Min(r.result.value, budget)) else r.result)
  }

  datatype Outcome = Outcome(stream: OutputStream, chan: Chan, result: Written)

  function WriteTo(s: OutputStream, c: Chan, contents: seq<byte>, blocking: bool): Outcome {
    match s
    case Sink => Outcome(s, c, Wrote)
    case HttpWriting => var (c', r) := Send(c, contents, blocking); Outcome(s, c', r)
    case HttpPending(NotSent) => Outcome(s, c, Rejected(if blocking then Deadlock else WouldBlock))
    case HttpPending(Arrived) => var (c', r) := Send(c, contents, blocking); Outcome(HttpWriting, c', r)
    case HttpPending(NeverSent) => Outcome(s, c, Rejected(StreamClosed))
    case Limited(budget, inner) =>
      if |contents| > budget then Outcome(s, c, Rejected(BudgetExceeded))
      else
        var o := WriteTo(inner, c, contents, blocking);
        Outcome(Limited(if o.result == Wrote then budget - |contents| else budget, o.stream), o.chan, o.result)
  }

  /** What the waiting write, if there is one, has to write. */
  function WaitingBytes(c: Chan): seq<byte> {
    if c.waiting.Some? then c.waiting.value.contents else []
  }

  /** A waiting write goes on, when it has been served, and then pays the budgets. */
  function ResumeWrite(s: OutputStream, c: Chan): Outcome {
    match s
    case HttpWriting => var (c', r) := ResumeSend(c); Outcome(s, c', r)
    case Limited(budget, inner) =>
      var o := ResumeWrite(inner, c);
      Outcome(Limited(if o.result == Wrote then Monus(budget, |WaitingBytes(c)|) else budget, o.stream),
              o.chan, o.result)
    case _ => Outcome(s, c, Blocked)
  }

  // -------------------------------------------------------------- operations

  /** An output stream resource and the channel it feeds. */
  class StreamResource {
    var stream: OutputStream
    const chan: BodyChannel

    constructor (stream: OutputStream, chan: BodyChannel)
      ensures this.stream == stream && this.chan == chan
    {
      this.stream, this.chan := stream, chan;
    }

    method CheckConnection() returns (r: Result<nat, WriteError>)
      modifies chan
      ensures Checked(HttpWriting, chan.c, r) == CheckConn(old(chan.c))
    {
      if chan.c.waiting.Some? {
        return Err(LockContended);
      }
      match chan.c.conn
      case ErrorWaiting(e) =>
        chan.c := chan.c.(conn := Gone);
        r := Err(Http(e));
      case Quiet =>
        r := Ok(if chan.c.permits <= U32_MAX then chan.c.permits else U32_MAX);
      case Gone =>
        r := Err(StreamClosed);
    }

    method CheckInner(s: OutputStream) returns (s': OutputStream, r: Result<nat, WriteError>)
      modifies chan
      ensures Checked(s', chan.c, r) == CheckWrite(s, old(chan.c))
      decreases s
    {
      s' := s;
      match s
      case Sink =>
        r := Ok(U64_MAX);
      case HttpWriting =>
        r := CheckConnection();
      case HttpPending(arrival) =>
        match arrival {
          case NotSent =>
            r := Err(UnsentBody);
          case Arrived =>
            s' := HttpWriting;
            r := CheckConnection();
          case NeverSent =>
            r := Err(StreamClosed);
        }
      case Limited(budget, inner) =>
        if budget == 0 {
          return s, Err(BudgetExceeded);
        }
        var inner', n := CheckInner(inner);
        s' := Limited(budget, inner');
        r := if n.Ok? then Ok(Min(n.value, budget)) else n;
    }

    /** `OutputStream::check_write` */
    method CheckWritable() returns (r: Result<nat, WriteError>)
      modifies this, chan
      ensures Checked(stream, chan.c, r) == CheckWrite(old(stream), old(chan.c))
    {
      var s, n := CheckInner(stream);
      stream := s;
      r := n;
    }

    method WriteInner(s: OutputStream, contents: seq<byte>, blocking: bool) returns (s': OutputStream, r: Written)
      modifies chan
      ensures Outcome(s', chan.c, r) == WriteTo(s, old(chan.c), contents, blocking)
      decreases s
    {
      s' := s;
      match s
      case Sink =>
        r := Wrote;
      case HttpWriting =>
        r := chan.SendContents(contents, blocking);
      case HttpPending(arrival) =>
        match arrival {
          case NotSent =>
            r := Rejected(if blocking then Deadlock else WouldBlock);
          case Arrived =>
            r := chan.SendContents(contents, blocking);
            s' := HttpWriting;
          case NeverSent =>
            r := Rejected(StreamClosed);
        }
      case Limited(budget, inner) =>
        if |contents| > budget {
          return s, Rejected(BudgetExceeded);
        }
        var left := budget - |contents|;
        var inner', o := WriteInner(inner, contents, blocking);
        s' := Limited(if o == Wrote then left else budget, inner');
        r := o;
    }

    /** `OutputStream::write` and `OutputStream::blocking_write_and_flush` */
    method WriteContents(contents: seq<byte>, blocking: bool) returns (r: Written)
      modifies this, chan
      ensures Outcome(stream, chan.c, r) == WriteTo(old(stream), old(chan.c), contents, blocking)
    {
      var s, o := WriteInner(stream, contents, blocking);
      stream := s;
      r := o;
    }

    method ResumeInner(s: OutputStream) returns (s': OutputStream, r: Written)
      modifies chan
      ensures Outcome(s', chan.c, r) == ResumeWrite(s, old(chan.c))
      decreases s
    {
      s', r := s, Blocked;
      match s
      case HttpWriting =>
        r := chan.ResumeContents();
      case Limited(budget, inner) =>
        var waiting := WaitingBytes(chan.c);
        var inner', o := ResumeInner(inner);
        s' := Limited(if o == Wrote then Monus(budget, |waiting|) else budget, inner');
        r := o;
      case _ =>
    }

    /** The rest of `OutputStream::blocking_write_and_flush`, after the wait. */
    method ResumeContents() returns (r: Written)
      modifies this, chan
      ensures Outcome(stream, chan.c, r) == ResumeWrite(old(stream), old(chan.c))
    {
      var s, o := ResumeInner(stream);
      stream := s;
      r := o;
    }

    /** `OutputStream::splice`, which checks, reads and then writes. `source` is what
        reading gives, `meanwhile` what the connection does between check and write.
        Bytes are lost exactly if it ends the body's reception or its own life then. */
    method Splice(source: Result<seq<byte>, WriteError>, len: nat, meanwhile: seq<Op>)
      returns (r: Result<nat, WriteError>, rest: seq<byte>, ghost atWrite: Chan)
      requires forall op | op in meanwhile :: !IsWrite(op)
      modifies this, chan
      ensures Feeds(stream) == Feeds(old(stream))
      ensures atWrite == ChanAfter(CheckWrite(old(stream), old(chan.c)).chan, meanwhile)
      ensures var checked := CheckWrite(old(stream), old(chan.c)).result;
              var available := if source.Ok? then source.value else [];
              && (r.Ok? <==> checked.Ok? && source.Ok? && (Feeds(stream) ==> Accepting(atWrite)))
              && (r.Ok? ==> r.value == Min(Min(checked.value, len), |available|) && rest == available[r.value..])
              && (checked.Err? ==> r == Err(checked.error))
              && (checked.Ok? && source.Err? ==> r == Err(source.error))
              && (checked.Err? || source.Err? ==> rest == available)
              && (r.Err? && checked.Ok? && source.Ok? ==> rest == available[Min(Min(checked.value, len), |available|)..])
              && (r.Ok? && Feeds(stream) ==> chan.c.written == atWrite.written + available[..r.value])
              && (r.Err? || !Feeds(stream) ==> chan.c.written == atWrite.written)
    {
      ghost var s0, c0 := stream, chan.c;
      rest := if source.Ok? then source.value else [];
      var n := CheckWritable();
      CheckKeepsFeeding(s0, c0);
      atWrite := ChanAfter(chan.c, meanwhile);
      Proceed(meanwhile);
      if n.Err? {
        return Err(n.error), rest, atWrite;
      }
      if source.Err? {
        return Err(source.error), rest, atWrite;
      }
      var k := Min(Min(n.value, len), |rest|);
      var buf := rest[..k];
      rest := rest[k..];
      CheckCovers(s0, c0);
      ChanKeepsCover(stream, CheckWrite(s0, c0).chan, n.value, meanwhile);
      CoveredWrite(stream, chan.c, n.value, buf, false);
      WriteKeepsFeeding(stream, chan.c, buf, false);
      var o := WriteContents(buf, false);
      if o.Rejected? {
        return Err(o.error), rest, atWrite;
      }
      r := Ok(k);
    }

    /** The connection's part of a splice. */
    method Proceed(ops: seq<Op>)
      modifies chan
      ensures chan.c == ChanAfter(old(chan.c), ops)
    {
      chan.c := ChanAfter(chan.c, ops);
    }
  }

  /** What only the guest does, through its stream. */
  predicate IsWrite(op: Op) {
    op.Write? || op.BlockingWrite? || op.Resume?
  }

  function Act(c: Chan, op: Op): Chan {
    if Enabled(c, op) then Next(c, op) else c
  }

  function ChanAfter(c: Chan, ops: seq<Op>): Chan
    decreases |ops|
  {
    if ops == [] then c else ChanAfter(Act(c, ops[0]), ops[1..])
  }

  /** The connection is up and the body is being received. */
  predicate Accepting(c: Chan) {
    c.conn == Quiet && c.receiver == Reading
  }

  /** The stream leads to the body and not to a sink. */
  predicate Feeds(s: OutputStream) {
    match s
    case Sink => false
    case HttpWriting => true
    case HttpPending(_) => true
    case Limited(_, inner) => Feeds(inner)
  }

  // -------------------------------------------------------------------- laws

  /** Every budget covers n bytes, and the body, if the stream leads there, has been
      sent and has permits for n bytes that nobody waits for. */
  predicate Covers(s: OutputStream, c: Chan, n: nat) {
    match s
    case Sink => true
    case HttpWriting => c.waiting.None? && n <= Min(c.permits, U32_MAX)
    case HttpPending(_) => false
    case Limited(budget, inner) => n <= budget && Covers(inner, c, n)
  }

  lemma {:induction false} CheckCovers(s: OutputStream, c: Chan)
    requires CheckWrite(s, c).result.Ok?
    ensures Covers(CheckWrite(s, c).stream, CheckWrite(s, c).chan, CheckWrite(s, c).result.value)
  {
    if s.Limited? {
      CheckCovers(s.stream, c);
      CoversLess(CheckWrite(s.stream, c).stream, CheckWrite(s, c).chan, CheckWrite(s.stream, c).result.value,
                 CheckWrite(s, c).result.value);
    }
  }

  /** What covers n bytes covers fewer, also on a channel with more permits. */
  lemma {:induction false} CoversLess(s: OutputStream, c: Chan, n: nat, m: nat)
    requires Covers(s, c, n) && m <= n
    ensures Covers(s, c, m)
    ensures forall c': Chan | c'.waiting.None? && c.permits <= c'.permits :: Covers(s, c', m)
  {
    if s.Limited? {
      CoversLess(s.stream, c, n, m);
    }
  }

  lemma {:induction false} CoveredWrite(s: OutputStream, c: Chan, n: nat, contents: seq<byte>, blocking: bool)
    requires Covers(s, c, n) && |contents| <= n
    ensures WriteTo(s, c, contents, blocking).result == Permitted(s, c)
  {
    if s.Limited? {
      CoveredWrite(s.stream, c, n, contents, blocking);
    }
  }

  /** The answer to a permitted write: only a connection that failed, or a receiver that
      went away, can still refuse it. */
  function Permitted(s: OutputStream, c: Chan): Written {
    if !Feeds(s) then Wrote
    else
      match c.conn
      case ErrorWaiting(e) => Rejected(Http(e))
      case Gone => Rejected(StreamClosed)
      case Quiet => if c.receiver == Reading then Wrote else Rejected(StreamClosed)
  }

  lemma ActKeepsCover(s: OutputStream, c: Chan, n: nat, op: Op)
    requires Covers(s, c, n) && !IsWrite(op)
    ensures Covers(s, Act(c, op), n)
  {
    var c' := Act(c, op);
    if c.waiting.None? {
      assert c'.waiting.None? && c.permits <= c'.permits;
      CoversLess(s, c, n, n);
    } else {
      SinkIsCovered(s, c, c', n);
    }
  }

  lemma {:induction false} SinkIsCovered(s: OutputStream, c: Chan, c': Chan, n: nat)
    requires Covers(s, c, n) && c.waiting.Some?
    ensures Covers(s, c', n)
  {
    if s.Limited? {
      SinkIsCovered(s.stream, c, c', n);
    }
  }

  lemma {:induction false} ChanKeepsCover(s: OutputStream, c: Chan, n: nat, ops: seq<Op>)
    requires Covers(s, c, n) && forall op | op in ops :: !IsWrite(op)
    ensures Covers(s, ChanAfter(c, ops), n)
    decreases |ops|
  {
    if ops != [] {
      ActKeepsCover(s, c, n, ops[0]);
      ChanKeepsCover(s, Act(c, ops[0]), n, ops[1..]);
    }
  }

  /** And no more than the checked size is ever accepted, so a check is exact. */
  lemma {:induction false} CheckIsTight(s: OutputStream, c: Chan, contents: seq<byte>)
    requires CheckWrite(s, c).result.Ok? && CheckWrite(s, c).result.value < |contents| <= U64_MAX
    ensures var k := CheckWrite(s, c); WriteTo(k.stream, k.chan, contents, false).result != Wrote
  {
    if s.Limited? {
      var inner := CheckWrite(s.stream, c);
      if inner.result.value < |contents| {
        CheckIsTight(s.stream, c, contents);
      }
    }
  }

  lemma {:induction false} CheckKeepsFeeding(s: OutputStream, c: Chan)
    ensures Feeds(CheckWrite(s, c).stream) == Feeds(s)
    ensures CheckWrite(s, c).chan == c || CheckWrite(s, c).chan == c.(conn := Gone)
    ensures Budgets(CheckWrite(s, c).stream) == Budgets(s)
  {
    if s.Limited? {
      CheckKeepsFeeding(s.stream, c);
    }
  }

  lemma {:induction false} WriteKeepsFeeding(s: OutputStream, c: Chan, contents: seq<byte>, blocking: bool)
    ensures Feeds(WriteTo(s, c, contents, blocking).stream) == Feeds(s)
    ensures WriteTo(s, c, contents, blocking).chan.written ==
              if Feeds(s) && WriteTo(s, c, contents, blocking).result == Wrote then c.written + contents else c.written
  {
    if s.Limited? {
      WriteKeepsFeeding(s.stream, c, contents, blocking);
    }
  }

  /** The budgets a stream is nested under, outermost first. */
  function Budgets(s: OutputStream): seq<nat> {
    match s
    case Limited(budget, inner) => [budget] + Budgets(inner)
    case _ => []
  }

  /** The stream under all budgets. */
  function Core(s: OutputStream): OutputStream {
    match s
    case Limited(_, inner) => Core(inner)
    case _ => s
  }

  /** n is the least of a bound and some budgets. */
  ghost predicate IsLeast(n: nat, bound: nat, budgets: seq<nat>) {
    && n <= bound && (forall i | 0 <= i < |budgets| :: n <= budgets[i])
    && (n == bound || n in budgets)
  }

  /** What a stream under budgets leads to, if it is a connection that can be asked. */
  predicate AtConnection(s: OutputStream) {
    Core(s) == HttpWriting || Core(s) == HttpPending(Arrived)
  }

  /** The answer to a check, by its causes: a spent budget, then a body that is not sent
      or never will be, then a waiting write, then the connection. It succeeds in all
      other cases, with the least of the budgets and the free permits, which a sink does
      not need. */
  lemma {:induction false} CheckTellsCause(s: OutputStream, c: Chan)
    ensures var r := CheckWrite(s, c).result;
            if 0 in Budgets(s) then r == Err(BudgetExceeded)
            else if Core(s) == HttpPending(NotSent) then r == Err(UnsentBody)
            else if Core(s) == HttpPending(NeverSent) then r == Err(StreamClosed)
            else if Core(s) == Sink then r.Ok? && IsLeast(r.value, U64_MAX, Budgets(s))
            else if c.waiting.Some? then r == Err(LockContended)
            else if c.conn.ErrorWaiting? then r == Err(Http(c.conn.error))
            else if c.conn == Gone then r == Err(StreamClosed)
            else r.Ok? && IsLeast(r.value, if c.permits <= U32_MAX then c.permits else U32_MAX, Budgets(s))
  {
    if s.Limited? {
      CheckTellsCause(s.stream, c);
      LeastOf(s, c);
    }
  }

  lemma LeastOf(s: OutputStream, c: Chan)
    requires s.Limited?
    ensures Budgets(s) == [s.budget] + Budgets(s.stream) && Core(s) == Core(s.stream)
    ensures forall n, bound | IsLeast(n, bound, Budgets(s.stream)) :: IsLeast(Min(n, s.budget), bound, Budgets(s))
  {
    forall n, bound | IsLeast(n, bound, Budgets(s.stream)) ensures IsLeast(Min(n, s.budget), bound, Budgets(s)) {
      assert forall i | 0 < i < |Budgets(s)| :: Budgets(s)[i] == Budgets(s.stream)[i - 1];
      assert Budgets(s)[0] == s.budget;
      assert forall m | m in Budgets(s.stream) :: m in Budgets(s);
      assert s.budget in Budgets(s);
    }
  }

  /** What a check leaves: a stream that has seen its body sent leads to the connection
      for good, and an error that was waiting on the connection has been told. */
  lemma {:induction false} CheckLeaves(s: OutputStream, c: Chan)
    ensures var k, asked := CheckWrite(s, c), 0 !in Budgets(s) && AtConnection(s);
            && Budgets(k.stream) == Budgets(s)
            && Core(k.stream) == (if asked then HttpWriting else Core(s))
            && k.chan == if asked && c.waiting.None? && c.conn.ErrorWaiting? then c.(conn := Gone) else c
  {
    if s.Limited? {
      CheckLeaves(s.stream, c);
      assert Budgets(s) == [s.budget] + Budgets(s.stream);
    }
  }

  /** So a check succeeds exactly when no budget is spent and there is a sink or a
      connection that is up and that no write waits for. */
  lemma CheckSucceedsWhen(s: OutputStream, c: Chan)
    ensures CheckWrite(s, c).result.Ok? <==>
              0 !in Budgets(s) && (Core(s) == Sink || (AtConnection(s) && c.waiting.None? && c.conn == Quiet))
  {
    CheckTellsCause(s, c);
  }

  /** The answer to a write, by its causes: a budget that does not cover it, then a body
      that is not sent or never will be; anything else is the connection's answer. */
  lemma {:induction false} WriteTellsCause(s: OutputStream, c: Chan, contents: seq<byte>, blocking: bool)
    ensures var o := WriteTo(s, c, contents, blocking);
            if exists n :: n in Budgets(s) && n < |contents| then o == Outcome(s, c, Rejected(BudgetExceeded))
            else if Core(s) == HttpPending(NotSent) then
              o == Outcome(s, c, Rejected(if blocking then Deadlock else WouldBlock))
            else if Core(s) == HttpPending(NeverSent) then o == Outcome(s, c, Rejected(StreamClosed))
            else if Core(s) == Sink then o.chan == c && o.result == Wrote && Core(o.stream) == Sink
            else (o.chan, o.result) == Send(c, contents, blocking) && Core(o.stream) == HttpWriting
  {
    if s.Limited? {
      WriteTellsCause(s.stream, c, contents, blocking);
      assert Budgets(s) == [s.budget] + Budgets(s.stream);
      assert s.budget in Budgets(s) && forall n | n in Budgets(s.stream) :: n in Budgets(s);
      if n :| n in Budgets(s.stream) && n < |contents| {
        assert n in Budgets(s);
      }
    }
  }

  /** A write that waited and has been served is accepted if the body is still received. */
  lemma {:induction false} ResumeTellsCause(s: OutputStream, c: Chan)
    ensures var o := ResumeWrite(s, c);
            if Core(s) != HttpWriting || !Served(c) then o.result == Blocked && o.chan == c
            else o.result == (if c.receiver == Reading then Wrote else Rejected(StreamClosed)) && o.chan.waiting.None?
  {
    if s.Limited? {
      ResumeTellsCause(s.stream, c);
    }
  }

  /** A write is accepted exactly when every budget covers it, the body has been sent
      and is being received, the connection is up, and there are permits for it. */
  lemma {:induction false} WriteAcceptedWhen(s: OutputStream, c: Chan, contents: seq<byte>, blocking: bool)
    ensures WriteTo(s, c, contents, blocking).result == Wrote <==>
              && (forall i | 0 <= i < |Budgets(s)| :: |contents| <= Budgets(s)[i])
              && (Core(s) == Sink ||
                  ((Core(s) == HttpWriting || Core(s) == HttpPending(Arrived)) &&
                   c.waiting.None? && Accepting(c) && |contents| <= Min(c.permits, U32_MAX)))
  {
    if s.Limited? {
      WriteAcceptedWhen(s.stream, c, contents, blocking);
      assert Budgets(s)[0] == s.budget && Budgets(s)[1..] == Budgets(s.stream);
      assert forall i | 0 < i < |Budgets(s)| :: Budgets(s)[i] == Budgets(s.stream)[i - 1];
      assert forall i | 0 <= i < |Budgets(s.stream)| :: Budgets(s.stream)[i] == Budgets(s)[i + 1];
    }
  }

  /** An accepted write costs every budget its length; a refused one costs none. */
  lemma {:induction false} BudgetsAreExact(s: OutputStream, c: Chan, contents: seq<byte>, blocking: bool)
    ensures var o := WriteTo(s, c, contents, blocking);
            && |Budgets(o.stream)| == |Budgets(s)|
            && forall i | 0 <= i < |Budgets(s)| ::
                 Budgets(s)[i] == Budgets(o.stream)[i] + (if o.result == Wrote then |contents| else 0)
  {
    if s.Limited? {
      var o := WriteTo(s, c, contents, blocking);
      BudgetsAreExact(s.stream, c, contents, blocking);
      if |contents| <= s.budget {
        var inner := WriteTo(s.stream, c, contents, blocking);
        forall i | 0 <= i < |Budgets(s)|
          ensures Budgets(s)[i] == Budgets(o.stream)[i] + (if o.result == Wrote then |contents| else 0)
        {
          if i > 0 {
            assert Budgets(s)[i] == Budgets(s.stream)[i - 1] && Budgets(o.stream)[i] == Budgets(inner.stream)[i - 1];
          }
        }
      }
    }
  }

  /** What happens to a stream: guests check and write, a waiting write goes on, and the
      rest of the world acts on the channel or answers a pending stream. */
  datatype Event =
    | Check
    | Put(contents: seq<byte>, blocking: bool)
    | Resumed
    | Outside(op: Op)
    | Answered(arrival: Arrival)

  function Answer(s: OutputStream, arrival: Arrival): OutputStream {
    match s
    case HttpPending(NotSent) => HttpPending(arrival)
    case Limited(budget, inner) => Limited(budget, Answer(inner, arrival))
    case _ => s
  }

  /** An answer reaches the stream that waits for one, and no other. */
  lemma {:induction false} AnswerArrives(s: OutputStream, arrival: Arrival)
    ensures Core(Answer(s, arrival)) == if Core(s) == HttpPending(NotSent) then HttpPending(arrival) else Core(s)
  {
    if s.Limited? {
      AnswerArrives(s.stream, arrival);
    }
  }

  lemma {:induction false} AnswerKeepsBudgets(s: OutputStream, arrival: Arrival)
    ensures Budgets(Answer(s, arrival)) == Budgets(s) && Feeds(Answer(s, arrival)) == Feeds(s)
  {
    if s.Limited? {
      AnswerKeepsBudgets(s.stream, arrival);
    }
  }

  function Happen(s: OutputStream, c: Chan, e: Event): (OutputStream, Chan) {
    match e
    case Check => var k := CheckWrite(s, c); (k.stream, k.chan)
    case Put(contents, blocking) => var o := WriteTo(s, c, contents, blocking); (o.stream, o.chan)
    case Resumed => var o := ResumeWrite(s, c); (o.stream, o.chan)
    case Outside(op) => (s, if IsWrite(op) then c else Act(c, op))
    case Answered(arrival) => (Answer(s, arrival), c)
  }

  /** What the events of a run do: a check tells a stream that its body has been sent, an
      answer reaches it, a step of the channel is taken if it can be, and a write or its
      resumption leaves what it leaves. */
  lemma EventsAct(s: OutputStream, c: Chan, arrival: Arrival, contents: seq<byte>, blocking: bool)
    ensures 0 !in Budgets(s) && AtConnection(s) ==> Core(Happen(s, c, Check).0) == HttpWriting
    ensures Core(s) == HttpPending(NotSent) ==> Core(Happen(s, c, Answered(arrival)).0) == HttpPending(arrival)
    ensures Happen(s, c, Outside(CloseConn)).1.conn == if c.conn == Quiet then Gone else c.conn
    ensures forall op | Enabled(c, op) && !IsWrite(op) :: Happen(s, c, Outside(op)) == (s, Next(c, op))
    ensures Feeds(s) && WriteTo(s, c, contents, blocking).result == Wrote ==>
              Happen(s, c, Put(contents, blocking)).1.written == c.written + contents
    ensures Core(s) == HttpWriting && Served(c) ==> Happen(s, c, Resumed).1.waiting.None?
  {
    CheckLeaves(s, c);
    AnswerArrives(s, arrival);
    WriteKeepsFeeding(s, c, contents, blocking);
    ResumeTellsCause(s, c);
  }

  /** The stream and the channel after a run. */
  function End(s: OutputStream, c: Chan, es: seq<Event>): (OutputStream, Chan)
    decreases |es|
  {
    if es == [] then (s, c) else var (s', c') := Happen(s, c, es[0]); End(s', c', es[1..])
  }

  /** The bytes the stream accepts by an event. */
  function AcceptedBy(s: OutputStream, c: Chan, e: Event): nat {
    match e
    case Put(contents, blocking) => if WriteTo(s, c, contents, blocking).result == Wrote then |contents| else 0
    case Resumed => if ResumeWrite(s, c).result == Wrote then |WaitingBytes(c)| else 0
    case _ => 0
  }

  /** The bytes the stream accepted over a run. */
  function AcceptedCount(s: OutputStream, c: Chan, es: seq<Event>): nat
    decreases |es|
  {
    if es == [] then 0
    else
      var (s', c') := Happen(s, c, es[0]);
      AcceptedBy(s, c, es[0]) + AcceptedCount(s', c', es[1..])
  }

  // ------------------------------------------------------- checks are permits

  lemma HappenKeepsCover(s: OutputStream, c: Chan, n: nat, e: Event)
    requires Covers(s, c, n) && !e.Put?
    ensures var (s', c') := Happen(s, c, e); Covers(s', c', n) && Feeds(s') == Feeds(s)
  {
    match e
    case Check => CheckKeepsCover(s, c, n); CheckKeepsFeeding(s, c);
    case Resumed => ResumeKeepsCover(s, c, n);
    case Outside(op) => if !IsWrite(op) { ActKeepsCover(s, c, n, op); }
    case Answered(arrival) => AnswerKeepsCover(s, c, n, arrival);
  }

  lemma {:induction false} CheckKeepsCover(s: OutputStream, c: Chan, n: nat)
    requires Covers(s, c, n)
    ensures Covers(CheckWrite(s, c).stream, CheckWrite(s, c).chan, n)
  {
    if s.Limited? {
      CheckKeepsCover(s.stream, c, n);
    }
  }

  lemma {:induction false} ResumeKeepsCover(s: OutputStream, c: Chan, n: nat)
    requires Covers(s, c, n)
    ensures ResumeWrite(s, c) == Outcome(s, c, Blocked)
  {
    if s.Limited? {
      ResumeKeepsCover(s.stream, c, n);
    }
  }

  lemma {:induction false} AnswerKeepsCover(s: OutputStream, c: Chan, n: nat, arrival: Arrival)
    requires Covers(s, c, n)
    ensures Answer(s, arrival) == s
  {
    if s.Limited? {
      AnswerKeepsCover(s.stream, c, n, arrival);
    }
  }

  lemma {:induction false} RunKeepsCover(s: OutputStream, c: Chan, n: nat, es: seq<Event>)
    requires Covers(s, c, n) && forall e | e in es :: !e.Put?
    ensures var (s', c') := End(s, c, es); Covers(s', c', n) && Feeds(s') == Feeds(s)
    decreases |es|
  {
    if es != [] {
      HappenKeepsCover(s, c, n, es[0]);
      var (s', c') := Happen(s, c, es[0]);
      RunKeepsCover(s', c', n, es[1..]);
    }
  }

  /** A successful check permits any one write of up to the checked size, blocking or
      not, whatever happens on the channel and however often it is checked before that
      write. Budgets and permits never refuse it, and it never waits; it is accepted
      unless by then the connection has failed or the receiver is gone. */
  lemma CheckIsPermit(s: OutputStream, c: Chan, es: seq<Event>, contents: seq<byte>, blocking: bool)
    requires CheckWrite(s, c).result.Ok? && |contents| <= CheckWrite(s, c).result.value
    requires forall e | e in es :: !e.Put?
    ensures var k := CheckWrite(s, c);
            var (s', c') := End(k.stream, k.chan, es);
            WriteTo(s', c', contents, blocking).result ==
            if Feeds(s) && c'.conn.ErrorWaiting? then Rejected(Http(c'.conn.error))
            else if Feeds(s) && !Accepting(c') then Rejected(StreamClosed)
            else Wrote
  {
    var k := CheckWrite(s, c);
    CheckCovers(s, c);
    CheckKeepsFeeding(s, c);
    RunKeepsCover(k.stream, k.chan, k.result.value, es);
    var (s', c') := End(k.stream, k.chan, es);
    CoveredWrite(s', c', k.result.value, contents, blocking);
  }

  /** In particular, a write right after the check is refused only by a gone receiver. */
  lemma CheckedWriteAccepted(s: OutputStream, c: Chan, contents: seq<byte>, blocking: bool)
    requires CheckWrite(s, c).result.Ok? && |contents| <= CheckWrite(s, c).result.value
    ensures var k := CheckWrite(s, c);
            WriteTo(k.stream, k.chan, contents, blocking).result ==
            if Feeds(s) && c.receiver != Reading then Rejected(StreamClosed) else Wrote
  {
    CheckIsPermit(s, c, [], contents, blocking);
    CheckedConn(s, c);
  }

  lemma {:induction false} CheckedConn(s: OutputStream, c: Chan)
    requires CheckWrite(s, c).result.Ok?
    ensures CheckWrite(s, c).chan == c && (Feeds(s) ==> c.conn == Quiet)
  {
    if s.Limited? {
      CheckedConn(s.stream, c);
    }
  }

  // --------------------------------------------------------- budgets over runs

  /** A waiting write is covered by every budget it will be charged to. */
  ghost predicate WaitPaid(s: OutputStream, c: Chan) {
    Feeds(s) ==> forall i | 0 <= i < |Budgets(s)| :: |WaitingBytes(c)| <= Budgets(s)[i]
  }

  lemma {:induction false} ResumeSpends(s: OutputStream, c: Chan)
    requires WaitPaid(s, c)
    ensures var o := ResumeWrite(s, c);
            && |Budgets(o.stream)| == |Budgets(s)|
            && (o.result == Wrote ==> c.waiting.Some?)
            && (o.result != Blocked ==> o.chan.waiting.None?)
            && (o.result == Blocked ==> o.chan == c)
            && forall i | 0 <= i < |Budgets(s)| :: Budgets(s)[i] == Budgets(o.stream)[i] + AcceptedBy(s, c, Resumed)
  {
    if s.Limited? {
      var o, inner := ResumeWrite(s, c), ResumeWrite(s.stream, c);
      assert forall i | 0 < i < |Budgets(s)| :: Budgets(s)[i] == Budgets(s.stream)[i - 1];
      assert forall i | 0 <= i < |Budgets(s.stream)| :: Budgets(s.stream)[i] == Budgets(s)[i + 1];
      ResumeSpends(s.stream, c);
      assert forall i | 0 < i < |Budgets(o.stream)| :: Budgets(o.stream)[i] == Budgets(inner.stream)[i - 1];
      ResumeNeedsFeed(s, c);
      assert Budgets(s)[0] == s.budget;
    }
  }

  lemma {:induction false} ResumeNeedsFeed(s: OutputStream, c: Chan)
    ensures !Feeds(s) || Core(s) != HttpWriting ==> ResumeWrite(s, c).result == Blocked
    ensures Core(s) == HttpWriting ==> Feeds(s)
  {
    if s.Limited? {
      ResumeNeedsFeed(s.stream, c);
    }
  }

  /** A write that has to wait is within every budget, and while it waits none is spent. */
  lemma {:induction false} PutKeepsPaid(s: OutputStream, c: Chan, contents: seq<byte>, blocking: bool)
    requires WaitPaid(s, c)
    ensures var o := WriteTo(s, c, contents, blocking);
            && Feeds(o.stream) == Feeds(s)
            && WaitPaid(o.stream, o.chan)
  {
    var o := WriteTo(s, c, contents, blocking);
    WriteKeepsFeeding(s, c, contents, blocking);
    BudgetsAreExact(s, c, contents, blocking);
    PutWaits(s, c, contents, blocking);
  }

  lemma {:induction false} PutWaits(s: OutputStream, c: Chan, contents: seq<byte>, blocking: bool)
    ensures var o := WriteTo(s, c, contents, blocking);
            && (Feeds(s) && c.waiting.Some? ==> o.result != Wrote && o.chan == c)
            && (c.waiting.None? && o.chan.waiting.Some? ==>
                  && o.result == Blocked && o.chan.waiting.value.contents == contents
                  && forall i | 0 <= i < |Budgets(s)| :: |contents| <= Budgets(s)[i])
  {
    if s.Limited? {
      PutWaits(s.stream, c, contents, blocking);
      assert forall i | 0 < i < |Budgets(s)| :: Budgets(s)[i] == Budgets(s.stream)[i - 1];
    }
  }

  /** An event spends every budget by what it accepted. */
  lemma HappenSpends(s: OutputStream, c: Chan, e: Event)
    requires WaitPaid(s, c)
    ensures var (s', c') := Happen(s, c, e);
            && |Budgets(s')| == |Budgets(s)|
            && (forall i | 0 <= i < |Budgets(s)| :: Budgets(s)[i] == Budgets(s')[i] + AcceptedBy(s, c, e))
            && WaitPaid(s', c')
  {
    match e
    case Check => CheckKeepsFeeding(s, c);
    case Put(contents, blocking) => BudgetsAreExact(s, c, contents, blocking); PutKeepsPaid(s, c, contents, blocking);
    case Resumed => ResumeSpends(s, c); ResumeKeepsFeeding(s, c);
    case Outside(op) => if !IsWrite(op) { ActKeepsWait(c, op); }
    case Answered(arrival) => AnswerKeepsBudgets(s, arrival);
  }

  lemma ActKeepsWait(c: Chan, op: Op)
    requires !IsWrite(op)
    ensures Act(c, op).waiting.Some? ==> c.waiting.Some? && Act(c, op).waiting.value.contents == c.waiting.value.contents
  {
  }

  lemma {:induction false} ResumeKeepsFeeding(s: OutputStream, c: Chan)
    ensures Feeds(ResumeWrite(s, c).stream) == Feeds(s)
  {
    if s.Limited? {
      ResumeKeepsFeeding(s.stream, c);
    }
  }

  /** Over any run, each budget has been spent on exactly the bytes that were accepted,
      so no more than any of them was ever accepted. */
  lemma {:induction false} BudgetsBoundRun(s: OutputStream, c: Chan, es: seq<Event>, i: nat)
    requires WaitPaid(s, c) && i < |Budgets(s)|
    ensures |Budgets(End(s, c, es).0)| == |Budgets(s)|
    ensures Budgets(s)[i] == Budgets(End(s, c, es).0)[i] + AcceptedCount(s, c, es)
    decreases |es|
  {
    if es != [] {
      var (s', c') := Happen(s, c, es[0]);
      HappenSpends(s, c, es[0]);
      BudgetsBoundRun(s', c', es[1..], i);
    }
  }
}
