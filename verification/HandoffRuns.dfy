/** What comes of a call between workloads over a whole run: what the caller is told,
    and what the callee's pool is offered. */
module HandoffRuns {
  import opened Wrappers
  import opened Handoff

  ghost predicate IsRun(c: Call, acts: seq<Act>)
    decreases |acts|
  {
    acts != [] ==> Enabled(c, acts[0]) && IsRun(Next(c, acts[0]).0, acts[1..])
  }

  ghost function RunEnd(c: Call, acts: seq<Act>): Call
    requires IsRun(c, acts)
    decreases |acts|
  {
    if acts == [] then c else RunEnd(Next(c, acts[0]).0, acts[1..])
  }

  /** What the steps of a run offer to the pool. */
  ghost function Offers(c: Call, acts: seq<Act>): seq<Pooled>
    requires IsRun(c, acts)
    decreases |acts|
  {
    if acts == [] then []
    else
      var (c', pooled) := Next(c, acts[0]);
      (if pooled.Some? then [pooled.value] else []) + Offers(c', acts[1..])
  }

  /** One of the parties drops out, or the caller cannot move a value. */
  predicate Fault(a: Act) {
    a.CallerDrops? || a.CalleeAborts? || a.LowerFails? || a.LiftFails?
  }

  // ------------------------------------------------------------------ any run

  /** A caller is told of success exactly if it handed the store back. */
  lemma {:induction false} SucceedsByHandingBack(c: Call, acts: seq<Act>)
    requires IsRun(c, acts)
    ensures RunEnd(c, acts).caller == Returned(true) <==> c.caller == Returned(true) || HandBack in acts
    decreases |acts|
  {
    if acts != [] {
      SucceedsByHandingBack(Next(c, acts[0]).0, acts[1..]);
      assert HandBack in acts <==> acts[0] == HandBack || HandBack in acts[1..];
    }
  }

  /** And it hands the store back only after the function ran well, it took the results
      and lifted all of them. */
  lemma {:induction false} HandsBackResultsOnly(c: Call, acts: seq<Act>)
    requires CallOk(c) && IsRun(c, acts) && HandBack in acts
    ensures c.caller.LiftingResults? || (TakeReply in acts && (c.reply.Some? || Run(true) in acts))
    decreases |acts|
  {
    var c' := Next(c, acts[0]).0;
    assert acts == [acts[0]] + acts[1..];
    StepKeepsCallOk(c, acts[0]);
    if HandBack in acts[1..] {
      HandsBackResultsOnly(c', acts[1..]);
      assert !c.caller.LiftingResults? && c'.caller.LiftingResults? ==> acts[0] == TakeReply && c.reply.Some?;
      assert c'.reply.Some? && c.reply.None? ==> acts[0] == Run(true) || c'.reply == Some(Failed);
      if c'.reply == Some(Failed) && c.reply.None? && !c.caller.LiftingResults? && Run(true) !in acts {
        FailedIsNotLifted(c', acts[1..]);
      }
    }
  }

  lemma {:induction false} FailedIsNotLifted(c: Call, acts: seq<Act>)
    requires CallOk(c) && IsRun(c, acts) && (c.reply == Some(Failed) || c.caller.Returned?)
    ensures HandBack !in acts
    decreases |acts|
  {
    if acts != [] {
      StepKeepsCallOk(c, acts[0]);
      FailedIsNotLifted(Next(c, acts[0]).0, acts[1..]);
      assert acts == [acts[0]] + acts[1..];
    }
  }

  /** A store is offered to the pool at most once in a call, with its own instance. */
  lemma {:induction false} OfferedAtMostOnce(c: Call, acts: seq<Act>)
    requires CallOk(c) && IsRun(c, acts)
    ensures |Offers(c, acts)| <= Holders(c) <= 1
    ensures Offers(c, acts) == [] || Offers(c, acts) == [Pooled(Instance(c.sid), c.sid)]
    decreases |acts|
  {
    if acts != [] {
      StepKeepsCallOk(c, acts[0]);
      OfferedAtMostOnce(Next(c, acts[0]).0, acts[1..]);
    }
  }

  /** The occasions on which a step offers an instance: nobody is there to take the
      store, the function failed, a request was handled well, or the store came back. */
  lemma OfferedWhen(c: Call, a: Act)
    requires CallOk(c) && Enabled(c, a)
    ensures Next(c, a).1.Some? <==>
              || (a.MakeOffer? && c.callee.instance.Some? && !c.caller.AwaitOffer?)
              || (a == Run(false) && c.callee.instance.Some?)
              || (a == Serve(true) && c.callee.instance.Some?)
              || a.TakeStore?
  {
  }

  /** Nothing is taken for granted: either side may drop out as long as it takes part,
      instance and function may do well or not, and so may moving the values. */
  lemma AnythingCanFail(c: Call)
    ensures Enabled(c, CallerDrops) <==> !c.caller.Returned?
    ensures Enabled(c, CalleeAborts) <==> Running(c)
    ensures forall ok :: Enabled(c, Instantiated(ok)) <==> c.callee.Instantiating?
    ensures forall ok :: Enabled(c, Run(ok)) <==> c.callee.Invoking?
    ensures forall ok :: Enabled(c, Serve(ok)) <==> c.callee.Serving?
    ensures Enabled(c, LowerFails) <==> Enabled(c, Invoke)
    ensures Enabled(c, LiftFails) <==> Enabled(c, HandBack)
  {
  }

  // --------------------------------------------------------- runs without faults

  /** The states of a call between workloads that nobody has dropped out of. */
  ghost predicate Smooth(c: Call) {
    && c.dynamic && CallOk(c)
    && match c.callee
       case Instantiating(_) => c.caller.AwaitOffer?
       case Offering(_, _) => c.caller.AwaitOffer?
       case AwaitInvocation(_) => c.offer.Some? || c.caller.LoweringParams? || (c.invocation.Some? && c.caller.AwaitResult?)
       case Invoking(_, _) => c.caller.AwaitResult?
       case AwaitStore(_) =>
         (c.reply.Some? && c.reply.value.Done?) || c.caller.LiftingResults? || c.handback.Some?
       case Exited => c.reply == Some(Failed) || c.caller.Returned?
       case Serving(_, _) => false
  }

  /** It is already known that the call fails. */
  predicate Doomed(c: Call) {
    match c.callee
    case Offering(_, instance) => instance.None?
    case AwaitInvocation(instance) => instance.None?
    case Invoking(_, instance) => instance.None?
    case Exited => c.caller != Returned(true)
    case _ => false
  }

  lemma StepKeepsSmooth(c: Call, a: Act)
    requires Smooth(c) && Enabled(c, a) && !Fault(a)
    ensures var (c', pooled) := Next(c, a);
            && Smooth(c')
            && (Doomed(c') <==> Doomed(c) || a == Instantiated(false) || a == Run(false))
  {
    StepKeepsCallOk(c, a);
  }

  predicate Fails(acts: seq<Act>) {
    Instantiated(false) in acts || Run(false) in acts
  }

  /** Without faults a finished call tells its caller exactly how instance and function
      did. */
  lemma {:induction false} FinishedCallTells(c: Call, acts: seq<Act>)
    requires Smooth(c) && IsRun(c, acts) && Over(RunEnd(c, acts))
    requires forall a | a in acts :: !Fault(a)
    ensures RunEnd(c, acts).caller == Returned(!Doomed(c) && !Fails(acts))
    decreases |acts|
  {
    if acts != [] {
      StepKeepsSmooth(c, acts[0]);
      FinishedCallTells(Next(c, acts[0]).0, acts[1..]);
      assert acts == [acts[0]] + acts[1..];
    }
  }

  /** The instance will still be offered, if it gets made. */
  predicate Due(c: Call) {
    match c.callee
    case Instantiating(_) => true
    case Offering(_, instance) => instance.Some?
    case AwaitInvocation(instance) => instance.Some?
    case Invoking(_, instance) => instance.Some?
    case AwaitStore(_) => true
    case _ => false
  }

  lemma StepKeepsDue(c: Call, a: Act)
    requires Smooth(c) && Enabled(c, a) && !Fault(a)
    ensures var (c', pooled) := Next(c, a);
            && (pooled.Some? ==> Due(c) && !Due(c') && pooled.value == Pooled(Instance(c.sid), c.sid) && !Instantiates(c))
            && (pooled.None? ==> (Due(c') <==> Due(c) && a != Instantiated(false)))
            && c'.sid == c.sid
            && (Instantiates(c') ==> Instantiates(c))
            && (a.Instantiated? ==> Instantiates(c))
  {
    StepKeepsCallOk(c, a);
  }

  predicate Instantiates(c: Call) {
    c.callee.Instantiating?
  }

  lemma {:induction false} InstantiatesOnce(c: Call, acts: seq<Act>)
    requires IsRun(c, acts) && !Instantiates(c)
    ensures Instantiated(false) !in acts
    decreases |acts|
  {
    if acts != [] {
      InstantiatesOnce(Next(c, acts[0]).0, acts[1..]);
      assert acts == [acts[0]] + acts[1..];
    }
  }

  /** And its instance, if it was made, is offered to the pool exactly once, whether the
      function did well or not. */
  lemma {:induction false} FinishedCallIsPooled(c: Call, acts: seq<Act>)
    requires Smooth(c) && IsRun(c, acts) && Over(RunEnd(c, acts))
    requires forall a | a in acts :: !Fault(a)
    ensures Offers(c, acts) == if Due(c) && Instantiated(false) !in acts then [Pooled(Instance(c.sid), c.sid)] else []
    decreases |acts|
  {
    if acts != [] {
      var (c', pooled) := Next(c, acts[0]);
      StepKeepsSmooth(c, acts[0]);
      StepKeepsDue(c, acts[0]);
      FinishedCallIsPooled(c', acts[1..]);
      assert acts == [acts[0]] + acts[1..];
      if !Instantiates(c') {
        InstantiatesOnce(c', acts[1..]);
      }
    }
  }

  /** A new call between workloads, on a new instance or one from the pool, with a caller
      that waits and no fault on the way: when both parties are done, the caller has been
      told of success exactly if the instance was made and the function did well, and the
      pool has been offered the instance exactly once if it was made. */
  lemma CallWithoutFaults(c: Call, callee: Callee, sid: nat, acts: seq<Act>)
    requires c == NewCall(true, true, callee, sid)
    requires callee == Instantiating(sid) || callee == Start(true, sid, Instance(sid))
    requires IsRun(c, acts) && Over(RunEnd(c, acts)) && forall a | a in acts :: !Fault(a)
    ensures RunEnd(c, acts).caller == Returned(!Fails(acts))
    ensures Offers(c, acts) == if Instantiated(false) in acts then [] else [Pooled(Instance(sid), sid)]
    ensures !Fails(acts) ==> HandBack in acts && TakeReply in acts && Run(true) in acts
  {
    FinishedCallTells(c, acts);
    FinishedCallIsPooled(c, acts);
    SucceedsByHandingBack(c, acts);
    if HandBack in acts {
      HandsBackResultsOnly(c, acts);
    }
  }

  // --------------------------------------------- calls nobody waits for, requests

  /** A call whose caller is gone before the offer: the instance goes to the pool unused. */
  lemma {:induction false} UnclaimedIsPooled(c: Call, acts: seq<Act>)
    requires CallOk(c) && c.dynamic && c.caller == Returned(false) && (c.callee.Instantiating? || c.callee.Offering?)
    requires IsRun(c, acts) && Over(RunEnd(c, acts)) && CalleeAborts !in acts
    ensures Offers(c, acts) ==
              if Due(c) && Instantiated(false) !in acts then [Pooled(Instance(c.sid), c.sid)] else []
    decreases |acts|
  {
    var (c', pooled) := Next(c, acts[0]);
    StepKeepsCallOk(c, acts[0]);
    assert acts == [acts[0]] + acts[1..];
    if c.callee.Instantiating? {
      UnclaimedIsPooled(c', acts[1..]);
      InstantiatesOnce(c', acts[1..]);
    } else {
      InstantiatesOnce(c', acts[1..]);
      NothingAfterTheEnd(c', acts[1..]);
    }
  }

  lemma {:induction false} NothingAfterTheEnd(c: Call, acts: seq<Act>)
    requires IsRun(c, acts) && c.callee.Exited?
    ensures Offers(c, acts) == []
    ensures forall ok :: Serve(ok) !in acts
    decreases |acts|
  {
    if acts != [] {
      NothingAfterTheEnd(Next(c, acts[0]).0, acts[1..]);
      assert acts == [acts[0]] + acts[1..];
    }
  }

  /** An instance that handles an HTTP request is offered exactly if it handled it well. */
  lemma {:induction false} ServedIsPooled(c: Call, acts: seq<Act>)
    requires CallOk(c) && !c.dynamic && (c.callee.Instantiating? || c.callee.Serving?)
    requires IsRun(c, acts) && Over(RunEnd(c, acts)) && CalleeAborts !in acts
    ensures Offers(c, acts) ==
              if (c.callee.Serving? ==> c.callee.instance.Some?) && Instantiated(false) !in acts && Serve(true) in acts
              then [Pooled(Instance(c.sid), c.sid)] else []
    decreases |acts|
  {
    var (c', pooled) := Next(c, acts[0]);
    StepKeepsCallOk(c, acts[0]);
    assert acts == [acts[0]] + acts[1..];
    if c.callee.Instantiating? {
      ServedIsPooled(c', acts[1..]);
      InstantiatesOnce(c', acts[1..]);
    } else {
      InstantiatesOnce(c', acts[1..]);
      NothingAfterTheEnd(c', acts[1..]);
    }
  }
}
