/** One dynamic call between workloads: how a store travels from the callee's task
    to the caller and back through four one-shot channels, with either side free to
    drop out at any point. */
module Handoff {
  import opened Wrappers

  /** An instance, known by the store it was created in. */
  datatype Instance = Instance(home: nat)

  /** The callee's task. Each phase holds what the task's locals hold. */
  datatype Callee =
    | Instantiating(store: nat)
    | Offering(store: nat, instance: Option<Instance>)
    | Serving(store: nat, instance: Option<Instance>)
    | AwaitInvocation(instance: Option<Instance>)
    | Invoking(store: nat, instance: Option<Instance>)
    | AwaitStore(home: Instance)
    | Exited

  /** The caller's side; `Returned` also covers a caller that was dropped. */
  datatype Caller =
    | AwaitOffer
    | LoweringParams(store: nat)
    | AwaitResult
    | LiftingResults(store: nat)
    | Returned(ok: bool)

  datatype Reply = Done(store: nat) | Failed

  /** A call: both parties, the contents of the four channels, and the store it was
      started with. `dynamic` tells a call from another workload from an HTTP request. */
  datatype Call = Call(
    dynamic: bool, sid: nat, callee: Callee, caller: Caller,
    offer: Option<nat>, invocation: Option<nat>, reply: Option<Reply>, handback: Option<nat>)

  /** An instance put in the pool together with a store. */
  datatype Pooled = Pooled(instance: Instance, store: nat)

  datatype Act =
    | Instantiated(ok: bool)
    | MakeOffer
    | TakeOffer
    | OfferLost
    | LowerFails
    | Invoke
    | TakeInvocation
    | InvocationLost
    | Run(ok: bool)
    | TakeReply
    | ReplyLost
    | LiftFails
    | HandBack
    | TakeStore
    | StoreLost
    | Serve(ok: bool)
    | CallerDrops
    | CalleeAborts

  /** When a party can take its next step. A receiver learns that nothing will come
      only once the sender is gone, wherever it was. */
  predicate Enabled(c: Call, a: Act) {
    match a
    case Instantiated(_) => c.callee.Instantiating?
    case MakeOffer => c.callee.Offering?
    case TakeOffer => c.caller.AwaitOffer? && c.offer.Some?
    case OfferLost => c.caller.AwaitOffer? && c.offer.None? && !c.callee.Instantiating? && !c.callee.Offering?
    case LowerFails => c.caller.LoweringParams?
    case Invoke => c.caller.LoweringParams?
    case TakeInvocation => c.callee.AwaitInvocation? && c.invocation.Some?
    case InvocationLost =>
      c.callee.AwaitInvocation? && c.invocation.None? && c.offer.None? && !c.caller.LoweringParams?
    case Run(_) => c.callee.Invoking?
    case TakeReply => c.caller.AwaitResult? && c.reply.Some?
    case ReplyLost => c.caller.AwaitResult? && c.reply.None? && c.invocation.None? && !c.callee.Invoking?
    case LiftFails => c.caller.LiftingResults?
    case HandBack => c.caller.LiftingResults?
    case TakeStore => c.callee.AwaitStore? && c.handback.Some?
    case StoreLost =>
      c.callee.AwaitStore? && c.handback.None? && c.reply.None? && !c.caller.LiftingResults?
    case Serve(_) => c.callee.Serving?
    case CallerDrops => !c.caller.Returned?
    case CalleeAborts => !c.callee.Exited?
  }

  function PoolIf(instance: Option<Instance>, store: nat): Option<Pooled> {
    match instance
    case Some(i) => Some(Pooled(i, store))
    case None => None
  }

  /** The call after a step, and what the step offers to the pool. */
  function Next(c: Call, a: Act): (Call, Option<Pooled>)
    requires Enabled(c, a)
  {
    match a
    case Instantiated(ok) =>
      var s := c.callee.store;
      var instance := if ok then Some(Instance(s)) else None;
      (c.(callee := if c.dynamic then Offering(s, instance) else Serving(s, instance)), None)
    case MakeOffer =>
      if c.caller.AwaitOffer?
      then (c.(callee := AwaitInvocation(c.callee.instance), offer := Some(c.callee.store)), None)
      else (c.(callee := Exited), PoolIf(c.callee.instance, c.callee.store))
    case TakeOffer => (c.(caller := LoweringParams(c.offer.value), offer := None), None)
    case OfferLost => (c.(caller := Returned(false)), None)
    case LowerFails => (c.(caller := Returned(false)), None)
    case Invoke =>
      if c.callee.AwaitInvocation?
      then (c.(caller := AwaitResult, invocation := Some(c.caller.store)), None)
      else (c.(caller := Returned(false)), None)
    case TakeInvocation =>
      (c.(callee := Invoking(c.invocation.value, c.callee.instance), invocation := None), None)
    case InvocationLost => (c.(callee := Exited), None)
    case Run(ok) =>
      var heard := c.caller.AwaitResult?;
      (match c.callee.instance
       case None => (c.(callee := Exited, reply := if heard then Some(Failed) else None), None)
       case Some(i) =>
         if ok then (c.(callee := AwaitStore(i), reply := if heard then Some(Done(c.callee.store)) else None), None)
         else (c.(callee := Exited, reply := if heard then Some(Failed) else None), Some(Pooled(i, c.callee.store))))
    case TakeReply =>
      (match c.reply.value
       case Done(s) => (c.(caller := LiftingResults(s), reply := None), None)
       case Failed => (c.(caller := Returned(false), reply := None), None))
    case ReplyLost => (c.(caller := Returned(false)), None)
    case LiftFails => (c.(caller := Returned(false)), None)
    case HandBack =>
      (c.(caller := Returned(true), handback := if c.callee.AwaitStore? then Some(c.caller.store) else None), None)
    case TakeStore => (c.(callee := Exited, handback := None), Some(Pooled(c.callee.home, c.handback.value)))
    case StoreLost => (c.(callee := Exited), None)
    case Serve(ok) => (c.(callee := Exited), if ok then PoolIf(c.callee.instance, c.callee.store) else None)
    case CallerDrops => (c.(caller := Returned(false), offer := None, reply := None), None)
    case CalleeAborts => (c.(callee := Exited, invocation := None, handback := None), None)
  }

  /** A call as the callee's loop starts it. */
  function NewCall(dynamic: bool, callerAlive: bool, callee: Callee, sid: nat): Call {
    Call(dynamic, sid, callee, if dynamic && callerAlive then AwaitOffer else Returned(false), None, None, None, None)
  }

  function Start(dynamic: bool, store: nat, instance: Instance): Callee {
    if dynamic then Offering(store, Some(instance)) else Serving(store, Some(instance))
  }

  // --------------------------------------------------------------- ownership

  /** The places a store can be while a call is under way. */
  datatype Place = AtCallee | InOffer | InInvocation | InReply | InHandback | AtCaller

  function Held(c: Call, p: Place): Option<nat> {
    match p
    case AtCallee =>
      if c.callee.Instantiating? || c.callee.Offering? || c.callee.Serving? || c.callee.Invoking?
      then Some(c.callee.store) else None
    case InOffer => c.offer
    case InInvocation => c.invocation
    case InReply => if c.reply.Some? && c.reply.value.Done? then Some(c.reply.value.store) else None
    case InHandback => c.handback
    case AtCaller => if c.caller.LoweringParams? || c.caller.LiftingResults? then Some(c.caller.store) else None
  }

  function One(held: Option<nat>): nat {
    if held.Some? then 1 else 0
  }

  /** In how many places the call has a store. */
  function Holders(c: Call): nat {
    One(Held(c, AtCallee)) + One(Held(c, InOffer)) + One(Held(c, InInvocation))
    + One(Held(c, InReply)) + One(Held(c, InHandback)) + One(Held(c, AtCaller))
  }

  ghost predicate IsSid(c: Call, p: Place) {
    Held(c, p).Some? ==> Held(c, p).value == c.sid
  }

  /** The call's store is in at most one place, and its instance is that store's. */
  ghost predicate CallOk(c: Call) {
    && Holders(c) <= 1
    && IsSid(c, AtCallee) && IsSid(c, InOffer) && IsSid(c, InInvocation)
    && IsSid(c, InReply) && IsSid(c, InHandback) && IsSid(c, AtCaller)
    && InstanceOk(c)
    && PhaseOk(c)
  }

  ghost predicate InstanceOk(c: Call) {
    match c.callee
    case Offering(_, Some(i)) => i.home == c.sid
    case Serving(_, Some(i)) => i.home == c.sid
    case AwaitInvocation(Some(i)) => i.home == c.sid
    case Invoking(_, Some(i)) => i.home == c.sid
    case AwaitStore(i) => i.home == c.sid
    case _ => true
  }

  /** Which messages can be under way in which phases of the two parties. */
  ghost predicate PhaseOk(c: Call) {
    && (!c.dynamic ==> c.caller == Returned(false))
    && (c.offer.Some? ==> c.caller.AwaitOffer? && (c.callee.AwaitInvocation? || c.callee.Exited?))
    && (c.invocation.Some? ==> c.callee.AwaitInvocation? && (c.caller.AwaitResult? || c.caller == Returned(false)))
    && (c.reply.Some? ==> c.caller.AwaitResult? &&
                          (c.callee.Exited? || (c.reply.value.Done? && c.callee.AwaitStore?)))
    && (c.handback.Some? ==> c.callee.AwaitStore? && c.caller == Returned(true))
    && (match c.callee
        case Instantiating(_) => c.caller.AwaitOffer? || c.caller == Returned(false)
        case Offering(_, _) => c.caller.AwaitOffer? || c.caller == Returned(false)
        case Serving(_, _) => c.caller == Returned(false)
        case AwaitInvocation(_) =>
          && (c.caller.AwaitOffer? ==> c.offer.Some?)
          && (c.caller.AwaitResult? ==> c.invocation.Some?)
          && !c.caller.LiftingResults? && c.caller != Returned(true)
        case Invoking(_, _) => c.caller.AwaitResult? || c.caller == Returned(false)
        case AwaitStore(_) =>
          (c.caller.AwaitResult? && c.reply.Some?) || c.caller.LiftingResults? || c.caller.Returned?
        case Exited => true)
  }

  predicate Running(c: Call) {
    !c.callee.Exited?
  }

  predicate Over(c: Call) {
    c.callee.Exited? && c.caller.Returned?
  }

  ghost function Rank(c: Call): nat {
    (match c.callee
     case Instantiating(_) => 5
     case Offering(_, _) => 4
     case Serving(_, _) => 4
     case AwaitInvocation(_) => 3
     case Invoking(_, _) => 2
     case AwaitStore(_) => 1
     case Exited => 0)
    +
    (match c.caller
     case AwaitOffer => 4
     case LoweringParams(_) => 3
     case AwaitResult => 2
     case LiftingResults(_) => 1
     case Returned(_) => 0)
  }

  /** Every step of either party keeps the store in one place; a store reaches the
      pool only from that place, leaves the call for good, and goes there with the
      instance that was created in it. */
  lemma StepKeepsCallOk(c: Call, a: Act)
    requires CallOk(c) && Enabled(c, a)
    ensures var (c', pooled) := Next(c, a);
            && CallOk(c')
            && c'.sid == c.sid
            && Holders(c') <= Holders(c)
            && (pooled.Some? ==>
                  && pooled.value == Pooled(Instance(c.sid), c.sid)
                  && Holders(c) == 1 && Holders(c') == 0 && !Running(c'))
  {
  }

  /** Each step moves one of the parties forward, so a call takes at most nine steps. */
  lemma StepLowersRank(c: Call, a: Act)
    requires CallOk(c) && Enabled(c, a)
    ensures Rank(Next(c, a).0) < Rank(c) <= 9
    ensures Running(Next(c, a).0) ==> Running(c)
  {
  }

  /** Neither party ever waits in vain: while the call is not over, some party can
      take a step that is neither a drop nor an abort. */
  lemma CallProgress(c: Call)
    requires CallOk(c) && !Over(c)
    ensures exists a :: Enabled(c, a) && !a.CallerDrops? && !a.CalleeAborts?
  {
    var a :=
      match c.callee
      case Instantiating(_) => Instantiated(true)
      case Offering(_, _) => MakeOffer
      case Serving(_, _) => Serve(true)
      case Invoking(_, _) => Run(true)
      case AwaitInvocation(_) =>
        if c.invocation.Some? then TakeInvocation else if c.offer.Some? then TakeOffer
        else if c.caller.LoweringParams? then Invoke else InvocationLost
      case AwaitStore(_) =>
        if c.handback.Some? then TakeStore else if c.reply.Some? then TakeReply
        else if c.caller.LiftingResults? then HandBack else StoreLost
      case Exited =>
        match c.caller
        case AwaitOffer => if c.offer.Some? then TakeOffer else OfferLost
        case LoweringParams(_) => Invoke
        case AwaitResult => if c.reply.Some? then TakeReply else ReplyLost
        case LiftingResults(_) => HandBack
        case Returned(_) => CallerDrops;
    assert Enabled(c, a);
  }

  /** After a successful call the store is pooled only once the caller has lifted
      every result and handed it back. */
  lemma PooledAfterLift(c: Call, a: Act)
    requires CallOk(c) && Enabled(c, a) && c.callee.AwaitStore? && Next(c, a).1.Some?
    ensures c.caller == Returned(true)
  {
  }

  /** While a caller has the store, the callee does not. */
  lemma CallerHoldsAlone(c: Call)
    requires CallOk(c) && (c.caller.LoweringParams? || c.caller.LiftingResults?)
    ensures Held(c, AtCaller) == Some(c.sid)
    ensures forall p | p != AtCaller :: Held(c, p).None?
  {
  }

  /** At most one place has the store. */
  lemma OnePlace(c: Call, p: Place, q: Place)
    requires CallOk(c) && Held(c, p).Some? && Held(c, q).Some?
    ensures p == q && Held(c, p).value == c.sid && Holders(c) == 1
  {
  }
}
