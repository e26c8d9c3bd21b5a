/** A response body with a declared length: every frame is counted against the limit,
    and a body that ends short of it ends in an error. */
module ContentLength {
  import opened Wrappers
  import opened Numbers
  import BodyFlow

  type byte = BodyFlow.byte

  datatype Length = Length(limit: nat, sent: nat)

  /** The channel the contents come from, until its end has been seen. */
  datatype Source = Source(queue: seq<seq<byte>>, closed: bool)

  datatype Body = Body(contents: Option<Source>, buffer: seq<byte>, length: Option<Length>)

  datatype Polled = Data(bytes: seq<byte>) | Ended | SizeError | NotReady

  // ----------------------------------------------------------- specification

  /** Counts a frame against the limit; a frame that does not fit is lost. */
  function Count(b: Body, bytes: seq<byte>): (Body, Polled) {
    match b.length
    case None => (b, Data(bytes))
    case Some(l) =>
      if l.sent + |bytes| > U64_MAX || l.sent + |bytes| > l.limit then (b, SizeError)
      else (b.(length := Some(l.(sent := l.sent + |bytes|))), Data(bytes))
  }

  function PollFrame(b: Body): (Body, Polled) {
    if b.buffer != [] then Count(b.(buffer := []), b.buffer)
    else if b.contents.None? then (b, Ended)
    else
      var src := b.contents.value;
      if src.queue != [] then Count(b.(contents := Some(src.(queue := src.queue[1..]))), src.queue[0])
      else if !src.closed then (b, NotReady)
      else
        var b' := b.(contents := None);
        (b', if b.length.Some? && b.length.value.limit != b.length.value.sent then SizeError else Ended)
  }

  class OutgoingResponseBody {
    var body: Body

    constructor (source: Source, buffer: seq<byte>, limit: Option<nat>)
      ensures body == Body(Some(source), buffer, if limit.Some? then Some(Length(limit.value, 0)) else None)
    {
      body := Body(Some(source), buffer, if limit.Some? then Some(Length(limit.value, 0)) else None);
    }

    method CountBytes(bytes: seq<byte>) returns (p: Polled)
      modifies this
      ensures (body, p) == Count(old(body), bytes)
    {
      if body.length.Some? {
        var l := body.length.value;
        var n := l.sent + |bytes|;
        if n > U64_MAX || n > l.limit {
          return SizeError;
        }
        body := body.(length := Some(l.(sent := n)));
      }
      p := Data(bytes);
    }

    /** `OutgoingResponseBody::poll_frame` */
    method Poll() returns (p: Polled)
      modifies this
      ensures (body, p) == PollFrame(old(body))
    {
      if body.buffer != [] {
        var buffer := body.buffer;
        body := body.(buffer := []);
        p := CountBytes(buffer);
        return;
      }
      if body.contents.None? {
        return Ended;
      }
      var src := body.contents.value;
      if src.queue != [] {
        body := body.(contents := Some(src.(queue := src.queue[1..])));
        p := CountBytes(src.queue[0]);
      } else if !src.closed {
        p := NotReady;
      } else {
        body := body.(contents := None);
        p := if body.length.Some? && body.length.value.limit != body.length.value.sent then SizeError else Ended;
      }
    }
  }

  // -------------------------------------------------------------------- laws

  /** The bytes still to come from a body whose source is closed. */
  function Remaining(b: Body): seq<byte> {
    b.buffer + (if b.contents.Some? then BodyFlow.Concat(b.contents.value.queue) else [])
  }

  function Steps(b: Body): nat {
    (if b.buffer != [] then 1 else 0) + (if b.contents.Some? then |b.contents.value.queue| + 1 else 0)
  }

  predicate Closed(b: Body) {
    b.contents.Some? ==> b.contents.value.closed
  }

  /** The bytes of the data frames up to the first end or error, and which it was. */
  function Deliver(b: Body): (seq<byte>, Polled)
    requires Closed(b)
    decreases Steps(b)
  {
    var (b', p) := PollFrame(b);
    if p.Data? then var (rest, end) := Deliver(b'); (p.bytes + rest, end) else ([], p)
  }

  /** Polled to the end, a body ends normally exactly when its contents have the
      declared length, and then they have all been delivered; if they have another
      length, what was delivered is a prefix that stays within the limit. */
  lemma {:induction false} DeliversDeclaredLength(b: Body)
    requires Closed(b) && b.contents.Some?
    requires b.length.Some? ==> b.length.value.sent <= b.length.value.limit <= U64_MAX
    ensures var (bytes, end) := Deliver(b);
            && (end == Ended <==> b.length.None? || b.length.value.sent + |Remaining(b)| == b.length.value.limit)
            && (end == Ended || end == SizeError)
            && BodyFlow.IsPrefix(bytes, Remaining(b))
            && (end == Ended ==> bytes == Remaining(b))
            && (b.length.Some? ==> b.length.value.sent + |bytes| <= b.length.value.limit)
    decreases Steps(b)
  {
    PollStep(b);
    var (b', p) := PollFrame(b);
    if p.Data? {
      DeliversDeclaredLength(b');
      var (rest, _) := Deliver(b');
      PrefixCons(p.bytes, rest, Remaining(b'));
    } else {
      assert Remaining(b)[..0] == [];
    }
  }

  lemma PrefixCons(a: seq<byte>, rest: seq<byte>, all: seq<byte>)
    requires BodyFlow.IsPrefix(rest, all)
    ensures BodyFlow.IsPrefix(a + rest, a + all)
  {
    assert (a + all)[..|a + rest|] == a + all[..|rest|];
  }

  /** One poll of a body whose source is closed: a counted frame, an error because the
      next frame does not fit, or the end of the source. */
  lemma PollStep(b: Body)
    requires Closed(b) && b.contents.Some?
    requires b.length.Some? ==> b.length.value.sent <= b.length.value.limit <= U64_MAX
    ensures var (b', p) := PollFrame(b);
            match p
            case Data(bytes) =>
              && Closed(b') && b'.contents.Some? && Steps(b') < Steps(b)
              && Remaining(b) == bytes + Remaining(b')
              && b'.length.None? == b.length.None?
              && (b.length.Some? ==>
                    b'.length.value == Length(b.length.value.limit, b.length.value.sent + |bytes|) &&
                    b'.length.value.sent <= b.length.value.limit)
            case SizeError => b.length.Some? && b.length.value.sent + |Remaining(b)| != b.length.value.limit
            case Ended => Remaining(b) == [] && (b.length.Some? ==> b.length.value.sent == b.length.value.limit)
            case NotReady => false
  {
    if b.buffer == [] {
      assert Remaining(b) == BodyFlow.Concat(b.contents.value.queue);
    }
    var (b', p) := PollFrame(b);
    if p.Data? && b.buffer == [] {
      assert Remaining(b') == BodyFlow.Concat(b'.contents.value.queue);
    }
  }

  /** The frame that a poll takes, if one is there. */
  function First(b: Body): Option<seq<byte>> {
    if b.buffer != [] then Some(b.buffer)
    else if b.contents.Some? && b.contents.value.queue != [] then Some(b.contents.value.queue[0])
    else None
  }

  predicate Fits(b: Body, bytes: seq<byte>) {
    b.length.Some? ==> b.length.value.sent + |bytes| <= b.length.value.limit
  }

  /** The answer to a poll, by its causes, whether or not the source is still open: the
      next frame, if it fits; nothing while more can come; the end, which is an error if
      it comes short; and from then on the end. What a poll takes, it takes for good. */
  lemma PollTellsCause(b: Body)
    requires b.length.Some? ==> b.length.value.sent <= b.length.value.limit <= U64_MAX
    ensures var (b', p) := PollFrame(b);
            match First(b)
            case Some(bytes) =>
              && p == (if Fits(b, bytes) then Data(bytes) else SizeError)
              && Remaining(b) == bytes + Remaining(b')
              && (b.length.Some? ==>
                    b'.length == Some(Length(b.length.value.limit, b.length.value.sent + if Fits(b, bytes) then |bytes| else 0)))
            case None =>
              if b.contents.None? then p == Ended && b' == b
              else if !b.contents.value.closed then p == NotReady && b' == b
              else
                && p == (if b.length.Some? && b.length.value.sent < b.length.value.limit then SizeError else Ended)
                && PollFrame(b') == (b', Ended)
  {
    if b.buffer == [] && First(b).Some? {
      assert Remaining(b) == BodyFlow.Concat(b.contents.value.queue);
      assert Remaining(PollFrame(b).0) == BodyFlow.Concat(b.contents.value.queue[1..]);
    }
  }
}
