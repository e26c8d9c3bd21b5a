/** Laws of lowering and lifting: when they succeed, what they leave in the two
    tables, that lifting and lowering back is the identity, and that no host
    resource is lost or duplicated. */
module TransferLaws {
  import opened Wrappers
  import opened Tables
  import opened Transfer

  // ------------------------------------------------- values, by their structure

  /** A payload is moved on its own, and wrapped again as it was. */
  lemma PayloadMoves(d: Direction, source: Table, target: Table, p: Val, k: string, ok: bool)
    ensures var m := MoveVal(d, source, target, p);
            if m.result.Err? then
              && MoveVal(d, source, target, Variant(k, Some(p))) == m
              && MoveVal(d, source, target, Opt(Some(p))) == m
              && MoveVal(d, source, target, Res(ok, Some(p))) == m
            else
              var w := m.result.value;
              && MoveVal(d, source, target, Variant(k, Some(p))) == m.(result := Ok(Variant(k, Some(w))))
              && MoveVal(d, source, target, Opt(Some(p))) == m.(result := Ok(Opt(Some(w))))
              && MoveVal(d, source, target, Res(ok, Some(p))) == m.(result := Ok(Res(ok, Some(w))))
  {
  }

  /** Members are moved as one list of values, and keep their names. */
  lemma MembersMove(d: Direction, source: Table, target: Table, vs: seq<Val>, names: seq<string>)
    ensures var m := MoveVals(d, source, target, vs);
            if m.result.Err? then
              && MoveVal(d, source, target, List(vs)) == Moved(Err(m.result.error), m.source, m.target)
              && MoveVal(d, source, target, Record(names, vs)) == Moved(Err(m.result.error), m.source, m.target)
              && MoveVal(d, source, target, Tuple(vs)) == Moved(Err(m.result.error), m.source, m.target)
            else
              var ws := m.result.value;
              && MoveVal(d, source, target, List(vs)) == Moved(Ok(List(ws)), m.source, m.target)
              && MoveVal(d, source, target, Record(names, vs)) == Moved(Ok(Record(names, ws)), m.source, m.target)
              && MoveVal(d, source, target, Tuple(vs)) == Moved(Ok(Tuple(ws)), m.source, m.target)
    ensures vs == [] ==> MoveVals(d, source, target, vs) == Moved(Ok([]), source, target)
  {
    assert Handles(List(vs)) == Handles(Record(names, vs)) == Handles(Tuple(vs)) == AllHandles(vs);
    var m := MoveAll(d, source, target, AllHandles(vs));
    if vs == [] {
      assert AllHandles(vs) == [] && m == Moved(Ok([]), source, target);
    }
  }

  /** A resource value is its handle. */
  lemma ResourceMoves(d: Direction, source: Table, target: Table, any: Handle)
    ensures var m := MoveHandle(d, source, target, any);
            MoveVal(d, source, target, Resource(any)) ==
            Moved(if m.result.Ok? then Ok(Resource(m.result.value)) else Err(m.result.error), m.source, m.target)
  {
    MoveOne(d, source, target, any);
  }

  /** A value without parts: a scalar, a string, a name, flags, or an empty payload. */
  predicate IsPlain(v: Val) {
    || v.Bool? || v.Integer? || v.Float? || v.Char? || v.String? || v.Enum? || v.Flags?
    || ((v.Variant? || v.Opt? || v.Res?) && v.payload.None?)
  }

  lemma PlainStays(d: Direction, source: Table, target: Table, v: Val)
    requires IsPlain(v)
    ensures MoveVal(d, source, target, v) == Moved(Ok(v), source, target)
  {
  }

  /** Why a handle cannot be moved, and what is left then: a missing entry, an entry of
      another type, or a host resource that is only borrowed. What is borrowed is looked
      up in the caller's table in both directions. */
  lemma FailureTellsCause(d: Direction, source: Table, target: Table, h: Handle)
    requires MoveHandle(d, source, target, h).result.Err?
    ensures var m, borrowed := MoveHandle(d, source, target, h), h.ty.Host? && !h.owned;
            var looked := if borrowed && d == Lifting then target else source;
            && (m.result.error == NotPresent <==> h.rep !in looked)
            && (m.result.error == WrongType <==> h.rep in looked && !Fits(h.ty, looked[h.rep]))
            && (m.result.error == BorrowUnsupported <==> borrowed && h.rep in looked && Fits(h.ty, looked[h.rep]))
            && m.target == target
            && m.source == (if h.owned && h.rep in source then source - {h.rep} else source)
  {
  }

  // ------------------------------------------------------------------- shape

  lemma {:induction false} HandlesOfResult(v: Val, hs: seq<Handle>)
    requires |hs| == |Handles(v)|
    ensures Handles(WithHandles(v, hs)) == hs
    decreases v, 1
  {
    match v
    case List(vs) => AllHandlesOfResult(vs, hs);
    case Record(_, vs) => AllHandlesOfResult(vs, hs);
    case Tuple(vs) => AllHandlesOfResult(vs, hs);
    case Variant(_, Some(p)) => HandlesOfResult(p, hs);
    case Opt(Some(p)) => HandlesOfResult(p, hs);
    case Res(_, Some(p)) => HandlesOfResult(p, hs);
    case _ =>
  }

  lemma HandlesCons(first: Val, rest: seq<Val>)
    ensures AllHandles([first] + rest) == Handles(first) + AllHandles(rest)
  {
    assert ([first] + rest)[1..] == rest;
  }

  lemma {:induction false} AllHandlesOfResult(vs: seq<Val>, hs: seq<Handle>)
    requires |hs| == |AllHandles(vs)|
    ensures |AllWithHandles(vs, hs)| == |vs|
    ensures AllHandles(AllWithHandles(vs, hs)) == hs
    decreases vs, 0
  {
    if vs != [] {
      var n := |Handles(vs[0])|;
      HandlesOfResult(vs[0], hs[..n]);
      AllHandlesOfResult(vs[1..], hs[n..]);
      var first, rest := WithHandles(vs[0], hs[..n]), AllWithHandles(vs[1..], hs[n..]);
      HandlesCons(first, rest);
      assert hs[..n] + hs[n..] == hs;
    }
  }

  /** Two values that differ in nothing but their handles. */
  predicate SameShape(v: Val, w: Val)
    decreases v, 1
  {
    match v
    case List(vs) => w.List? && AllSameShape(vs, w.vs)
    case Record(names, vs) => w.Record? && w.names == names && AllSameShape(vs, w.vs)
    case Tuple(vs) => w.Tuple? && AllSameShape(vs, w.vs)
    case Variant(k, Some(p)) => w.Variant? && w.case_ == k && w.payload.Some? && SameShape(p, w.payload.value)
    case Opt(Some(p)) => w.Opt? && w.payload.Some? && SameShape(p, w.payload.value)
    case Res(ok, Some(p)) => w.Res? && w.ok == ok && w.payload.Some? && SameShape(p, w.payload.value)
    case Resource(_) => w.Resource?
    case _ => w == v
  }

  predicate AllSameShape(vs: seq<Val>, ws: seq<Val>)
    decreases vs, 0
  {
    |vs| == |ws| && (vs != [] ==> SameShape(vs[0], ws[0]) && AllSameShape(vs[1..], ws[1..]))
  }

  lemma {:induction false} ReplacingKeepsShape(v: Val, hs: seq<Handle>)
    requires |hs| == |Handles(v)|
    ensures SameShape(v, WithHandles(v, hs))
    decreases v, 1
  {
    match v
    case List(vs) => AllReplacingKeepsShape(vs, hs);
    case Record(_, vs) => AllReplacingKeepsShape(vs, hs);
    case Tuple(vs) => AllReplacingKeepsShape(vs, hs);
    case Variant(_, Some(p)) => ReplacingKeepsShape(p, hs);
    case Opt(Some(p)) => ReplacingKeepsShape(p, hs);
    case Res(_, Some(p)) => ReplacingKeepsShape(p, hs);
    case _ =>
  }

  lemma {:induction false} AllReplacingKeepsShape(vs: seq<Val>, hs: seq<Handle>)
    requires |hs| == |AllHandles(vs)|
    ensures AllSameShape(vs, AllWithHandles(vs, hs))
    decreases vs, 0
  {
    if vs != [] {
      var n := |Handles(vs[0])|;
      ReplacingKeepsShape(vs[0], hs[..n]);
      AllReplacingKeepsShape(vs[1..], hs[n..]);
      assert AllWithHandles(vs, hs)[1..] == AllWithHandles(vs[1..], hs[n..]);
    }
  }

  /** Whatever is lowered or lifted keeps its shape and its scalars. */
  lemma MovingKeepsShape(d: Direction, source: Table, target: Table, v: Val)
    requires MoveVal(d, source, target, v).result.Ok?
    ensures SameShape(v, MoveVal(d, source, target, v).result.value)
  {
    ReplacingKeepsShape(v, MoveAll(d, source, target, Handles(v)).result.value);
  }

  /** Replacing handles twice keeps the last replacement; replacing by itself, nothing. */
  lemma {:induction false} ReplaceTwice(v: Val, a: seq<Handle>, b: seq<Handle>)
    requires |a| == |b| == |Handles(v)|
    ensures |Handles(WithHandles(v, a))| == |b| && WithHandles(WithHandles(v, a), b) == WithHandles(v, b)
    decreases v, 1
  {
    HandlesOfResult(v, a);
    match v
    case List(vs) => AllReplaceTwice(vs, a, b);
    case Record(_, vs) => AllReplaceTwice(vs, a, b);
    case Tuple(vs) => AllReplaceTwice(vs, a, b);
    case Variant(_, Some(p)) => ReplaceTwice(p, a, b);
    case Opt(Some(p)) => ReplaceTwice(p, a, b);
    case Res(_, Some(p)) => ReplaceTwice(p, a, b);
    case _ =>
  }

  lemma {:induction false} AllReplaceTwice(vs: seq<Val>, a: seq<Handle>, b: seq<Handle>)
    requires |a| == |b| == |AllHandles(vs)|
    ensures |AllHandles(AllWithHandles(vs, a))| == |b|
    ensures AllWithHandles(AllWithHandles(vs, a), b) == AllWithHandles(vs, b)
    decreases vs, 0
  {
    AllHandlesOfResult(vs, a);
    if vs != [] {
      var n := |Handles(vs[0])|;
      ReplaceTwice(vs[0], a[..n], b[..n]);
      AllReplaceTwice(vs[1..], a[n..], b[n..]);
      assert AllWithHandles(vs, a)[1..] == AllWithHandles(vs[1..], a[n..]);
    }
  }

  lemma {:induction false} ReplaceByItself(v: Val)
    ensures WithHandles(v, Handles(v)) == v
    decreases v, 1
  {
    match v
    case List(vs) => AllReplaceByItself(vs);
    case Record(_, vs) => AllReplaceByItself(vs);
    case Tuple(vs) => AllReplaceByItself(vs);
    case Variant(_, Some(p)) => ReplaceByItself(p);
    case Opt(Some(p)) => ReplaceByItself(p);
    case Res(_, Some(p)) => ReplaceByItself(p);
    case _ =>
  }

  lemma {:induction false} AllReplaceByItself(vs: seq<Val>)
    ensures AllWithHandles(vs, AllHandles(vs)) == vs
    decreases vs, 0
  {
    if vs != [] {
      var n := |Handles(vs[0])|;
      ReplaceByItself(vs[0]);
      AllReplaceByItself(vs[1..]);
      assert AllHandles(vs)[..n] == Handles(vs[0]) && AllHandles(vs)[n..] == AllHandles(vs[1..]);
      assert vs == [vs[0]] + vs[1..];
    }
  }

  // ----------------------------------------------------------- when it works

  /** The handle refers to a table of its own store. */
  predicate InTable(d: Direction, h: Handle) {
    if d == Lowering then !h.ty.Other? else h.ty.Host?
  }

  /** The handle can be moved on its own. */
  predicate Movable(d: Direction, source: Table, h: Handle) {
    InTable(d, h) ==> h.rep in source && Fits(h.ty, source[h.rep]) && (h.ty.Host? ==> h.owned)
  }

  /** No handle names a table entry that an earlier, owned handle has taken away. */
  predicate NoReuse(d: Direction, hs: seq<Handle>) {
    forall i, j | 0 <= i < j < |hs| :: InTable(d, hs[i]) && hs[i].owned && InTable(d, hs[j]) ==> hs[i].rep != hs[j].rep
  }

  predicate AllMovable(d: Direction, source: Table, hs: seq<Handle>) {
    forall i | 0 <= i < |hs| :: Movable(d, source, hs[i])
  }

  lemma NoReuseCons(d: Direction, hs: seq<Handle>)
    requires hs != []
    ensures NoReuse(d, hs) <==>
              && NoReuse(d, hs[1..])
              && forall j | 0 <= j < |hs[1..]| ::
                   InTable(d, hs[0]) && hs[0].owned && InTable(d, hs[1..][j]) ==> hs[0].rep != hs[1..][j].rep
  {
    var rest := hs[1..];
    assert forall j | 0 <= j < |rest| :: rest[j] == hs[j + 1];
    assert forall j | 0 < j < |hs| :: hs[j] == rest[j - 1];
  }

  lemma MoveOneWhen(d: Direction, source: Table, target: Table, h: Handle)
    ensures MoveHandle(d, source, target, h).result.Ok? <==> Movable(d, source, h)
    ensures Movable(d, source, h) ==>
              MoveHandle(d, source, target, h).source == if InTable(d, h) && h.owned then source - {h.rep} else source
  {
  }

  /** Moving succeeds exactly when every handle can be moved and none is reused. */
  lemma {:induction false} MoveAllWhen(d: Direction, source: Table, target: Table, hs: seq<Handle>)
    ensures MoveAll(d, source, target, hs).result.Ok? <==> AllMovable(d, source, hs) && NoReuse(d, hs)
    decreases |hs|
  {
    if hs != [] {
      var first, rest := MoveHandle(d, source, target, hs[0]), hs[1..];
      MoveOneWhen(d, source, target, hs[0]);
      NoReuseCons(d, hs);
      assert AllMovable(d, source, hs) <==> Movable(d, source, hs[0]) && AllMovable(d, source, rest) by {
        assert forall j | 0 <= j < |rest| :: rest[j] == hs[j + 1];
        assert forall j | 0 < j < |hs| :: hs[j] == rest[j - 1];
      }
      if Movable(d, source, hs[0]) {
        MoveAllWhen(d, first.source, first.target, rest);
        SmallerSource(d, source, hs[0], rest);
      }
    }
  }

  /** Once the first handle has been moved, the others can be moved if they could
      before and do not name the entry it took. */
  lemma SmallerSource(d: Direction, source: Table, h: Handle, rest: seq<Handle>)
    ensures var taken := InTable(d, h) && h.owned;
            var source' := if taken then source - {h.rep} else source;
            AllMovable(d, source', rest) <==>
              && AllMovable(d, source, rest)
              && forall j | 0 <= j < |rest| :: taken && InTable(d, rest[j]) ==> h.rep != rest[j].rep
  {
    var source' := if InTable(d, h) && h.owned then source - {h.rep} else source;
    forall j | 0 <= j < |rest|
      ensures Movable(d, source', rest[j]) <==>
                Movable(d, source, rest[j]) && (InTable(d, h) && h.owned && InTable(d, rest[j]) ==> h.rep != rest[j].rep)
    {
    }
  }

  /** `lower` succeeds exactly when the value's handles are in the caller's table
      with the right types, owned if they are host resources, and not reused. */
  lemma LowerSucceedsWhen(caller: Table, callee: Table, v: Val)
    ensures MoveVal(Lowering, caller, callee, v).result.Ok? <==>
              AllMovable(Lowering, caller, Handles(v)) && NoReuse(Lowering, Handles(v))
  {
    MoveAllWhen(Lowering, caller, callee, Handles(v));
  }

  /** `lift` succeeds under the same condition on host resources only. */
  lemma LiftSucceedsWhen(callee: Table, caller: Table, v: Val)
    ensures MoveVal(Lifting, callee, caller, v).result.Ok? <==>
              AllMovable(Lifting, callee, Handles(v)) && NoReuse(Lifting, Handles(v))
  {
    MoveAllWhen(Lifting, callee, caller, Handles(v));
  }

  // ----------------------------------------------------------------- effects

  ghost function Taken(d: Direction, hs: seq<Handle>): set<nat> {
    set h | h in hs && InTable(d, h) && h.owned :: h.rep
  }

  ghost predicate Extends(t: Table, t': Table) {
    forall k | k in t :: k in t' && t'[k] == t[k]
  }

  /** Where the handle h of the source ends up as h' in the target. */
  ghost predicate Arrives(d: Direction, source: Table, target: Table, target': Table, h: Handle, h': Handle) {
    match (d, h.ty)
    case (_, Host(_)) =>
      h.rep in source && source[h.rep].HostEntry? && source[h.rep].kind == h.ty.kind && h'.ty == h.ty && h'.owned && h'.rep !in target && h'.rep in target' && target'[h'.rep] == source[h.rep]
    case (Lowering, Wrapped) => h.rep in source && source[h.rep] == GuestEntry(h')
    case (Lowering, Other(_)) => h' == h
    case (Lifting, _) =>
      h'.ty == Wrapped && h'.owned && h'.rep !in target && h'.rep in target' && target'[h'.rep] == GuestEntry(h)
  }

  /** The result handle is a new entry of the target table. */
  predicate IsNew(d: Direction, h: Handle) {
    d == Lifting || h.ty.Host?
  }

  ghost predicate Effect(d: Direction, source: Table, target: Table, hs: seq<Handle>,
                         source': Table, target': Table, hs': seq<Handle>) {
    && |hs'| == |hs|
    && source' == source - Taken(d, hs)
    && Extends(target, target')
    && (forall i | 0 <= i < |hs| :: Arrives(d, source, target, target', hs[i], hs'[i]))
    && (forall i, j | 0 <= i < j < |hs| && IsNew(d, hs[i]) && IsNew(d, hs[j]) :: hs'[i].rep != hs'[j].rep)
    && KeysFrom(d, target, target', hs, hs')
  }

  lemma EffectOfOne(d: Direction, source: Table, target: Table, h: Handle)
    requires MoveHandle(d, source, target, h).result.Ok?
    ensures var m := MoveHandle(d, source, target, h);
            && m.source == (if InTable(d, h) && h.owned then source - {h.rep} else source)
            && Extends(target, m.target)
            && Arrives(d, source, target, m.target, h, m.result.value)
            && (if IsNew(d, h) then m.target.Keys == target.Keys + {m.result.value.rep} else m.target == target)
  {
  }

  lemma {:induction false} EffectOfAll(d: Direction, source: Table, target: Table, hs: seq<Handle>)
    requires MoveAll(d, source, target, hs).result.Ok?
    ensures var m := MoveAll(d, source, target, hs);
            Effect(d, source, target, hs, m.source, m.target, m.result.value)
    decreases |hs|
  {
    if hs != [] {
      var first, rest := MoveHandle(d, source, target, hs[0]), hs[1..];
      EffectOfOne(d, source, target, hs[0]);
      EffectOfAll(d, first.source, first.target, rest);
      var m := MoveAll(d, first.source, first.target, rest);
      EffectCons(d, source, target, hs, first, m);
    } else {
      assert source == source - Taken(d, hs);
    }
  }

  lemma EffectCons(d: Direction, source: Table, target: Table, hs: seq<Handle>, first: Moved<Handle>, m: Moved<seq<Handle>>)
    requires hs != [] && first == MoveHandle(d, source, target, hs[0]) && first.result.Ok? && m.result.Ok?
    requires Effect(d, first.source, first.target, hs[1..], m.source, m.target, m.result.value)
    ensures Effect(d, source, target, hs, m.source, m.target, [first.result.value] + m.result.value)
  {
    EffectOfOne(d, source, target, hs[0]);
    TakenCons(d, source, hs);
    EffectArrives(d, source, target, hs, first, m);
    KeysFromCons(d, target, first.target, m.target, hs[0], first.result.value, hs[1..], m.result.value);
    assert [hs[0]] + hs[1..] == hs;
  }

  /** Taking the first handle's entry and then the others' is taking all of them. */
  lemma TakenCons(d: Direction, source: Table, hs: seq<Handle>)
    requires hs != []
    ensures (if InTable(d, hs[0]) && hs[0].owned then source - {hs[0].rep} else source) - Taken(d, hs[1..])
            == source - Taken(d, hs)
  {
    assert hs == [hs[0]] + hs[1..];
    assert Taken(d, hs) == Taken(d, [hs[0]]) + Taken(d, hs[1..]);
  }

  /** Steps before and after the others keep what the others say of a handle. */
  lemma ArrivesLater(d: Direction, source: Table, target: Table, first: Moved<Handle>, h0: Handle, target': Table,
                     h: Handle, h': Handle)
    requires first == MoveHandle(d, source, target, h0) && first.result.Ok?
    requires Arrives(d, first.source, first.target, target', h, h')
    ensures Arrives(d, source, target, target', h, h')
    ensures IsNew(d, h) ==> h'.rep !in first.target
    ensures IsNew(d, h0) ==> first.result.value.rep in first.target
  {
    EffectOfOne(d, source, target, h0);
  }

  lemma EffectArrives(d: Direction, source: Table, target: Table, hs: seq<Handle>, first: Moved<Handle>, m: Moved<seq<Handle>>)
    requires hs != [] && first == MoveHandle(d, source, target, hs[0]) && first.result.Ok? && m.result.Ok?
    requires Effect(d, first.source, first.target, hs[1..], m.source, m.target, m.result.value)
    ensures var hs' := [first.result.value] + m.result.value;
            && (forall i | 0 <= i < |hs| :: Arrives(d, source, target, m.target, hs[i], hs'[i]))
            && (forall i, j | 0 <= i < j < |hs| && IsNew(d, hs[i]) && IsNew(d, hs[j]) :: hs'[i].rep != hs'[j].rep)
  {
    var rest, later, hs' := hs[1..], m.result.value, [first.result.value] + m.result.value;
    assert hs'[1..] == later;
    EffectOfOne(d, source, target, hs[0]);
    assert Arrives(d, source, target, m.target, hs[0], hs'[0]);
    forall i | 0 <= i < |rest|
      ensures Arrives(d, source, target, m.target, rest[i], later[i])
      ensures IsNew(d, rest[i]) && IsNew(d, hs[0]) ==> later[i].rep != hs'[0].rep
    {
      ArrivesLater(d, source, target, first, hs[0], m.target, rest[i], later[i]);
    }
    ShiftByOne(d, source, target, m.target, hs, hs');
  }

  lemma ShiftByOne(d: Direction, source: Table, target: Table, target': Table, hs: seq<Handle>, hs': seq<Handle>)
    requires |hs| == |hs'| > 0
    requires Arrives(d, source, target, target', hs[0], hs'[0])
    requires forall i | 0 <= i < |hs[1..]| ::
               && Arrives(d, source, target, target', hs[1..][i], hs'[1..][i])
               && (IsNew(d, hs[1..][i]) && IsNew(d, hs[0]) ==> hs'[1..][i].rep != hs'[0].rep)
    requires forall i, j | 0 <= i < j < |hs[1..]| && IsNew(d, hs[1..][i]) && IsNew(d, hs[1..][j]) ::
               hs'[1..][i].rep != hs'[1..][j].rep
    ensures forall i | 0 <= i < |hs| :: Arrives(d, source, target, target', hs[i], hs'[i])
    ensures forall i, j | 0 <= i < j < |hs| && IsNew(d, hs[i]) && IsNew(d, hs[j]) :: hs'[i].rep != hs'[j].rep
  {
    forall i | 0 < i < |hs| ensures hs[i] == hs[1..][i - 1] && hs'[i] == hs'[1..][i - 1] {
    }
  }

  /** Every new key of the target comes from one of the handles. */
  ghost predicate KeysFrom(d: Direction, target: Table, target': Table, hs: seq<Handle>, hs': seq<Handle>)
    requires |hs'| == |hs|
  {
    forall k | k in target' && k !in target :: exists i :: 0 <= i < |hs| && IsNew(d, hs[i]) && hs'[i].rep == k
  }

  lemma KeysFromCons(d: Direction, target: Table, middle: Table, target': Table, h: Handle, h': Handle,
                     rest: seq<Handle>, rest': seq<Handle>)
    requires |rest'| == |rest| && KeysFrom(d, middle, target', rest, rest')
    requires middle.Keys <= target.Keys + (if IsNew(d, h) then {h'.rep} else {})
    ensures KeysFrom(d, target, target', [h] + rest, [h'] + rest')
  {
    var hs, hs' := [h] + rest, [h'] + rest';
    forall k | k in target' && k !in target ensures exists i :: 0 <= i < |hs| && IsNew(d, hs[i]) && hs'[i].rep == k {
      if k in middle {
        assert IsNew(d, hs[0]) && hs'[0].rep == k;
      } else {
        var i :| 0 <= i < |rest| && IsNew(d, rest[i]) && rest'[i].rep == k;
        assert hs[i + 1] == rest[i] && hs'[i + 1] == rest'[i];
      }
    }
  }

  // -------------------------------------------------------------- round trip

  /** The two handles denote the same resource, up to its index in the callee's table. */
  ghost predicate SameResource(before: Table, h: Handle, after: Table, h': Handle) {
    if h.ty.Host?
    then h'.ty == h.ty && h'.owned == h.owned && h.rep in before && h'.rep in after && after[h'.rep] == before[h.rep]
    else h' == h
  }

  /** What was lifted can be lowered, and that empties the caller's table of it. */
  lemma LiftedCanBeLowered(callee: Table, caller: Table, hs: seq<Handle>)
    requires MoveAll(Lifting, callee, caller, hs).result.Ok?
    ensures var m := MoveAll(Lifting, callee, caller, hs);
            && AllMovable(Lowering, m.target, m.result.value)
            && NoReuse(Lowering, m.result.value)
            && m.target - Taken(Lowering, m.result.value) == caller
  {
    var m := MoveAll(Lifting, callee, caller, hs);
    EffectOfAll(Lifting, callee, caller, hs);
    MoveAllWhen(Lifting, callee, caller, hs);
    LiftedReps(callee, caller, hs, m.source, m.target, m.result.value);
    assert m.target - Taken(Lowering, m.result.value) == caller;
  }

  lemma LiftedReps(callee: Table, caller: Table, hs: seq<Handle>, callee': Table, caller': Table, hs': seq<Handle>)
    requires Effect(Lifting, callee, caller, hs, callee', caller', hs')
    requires AllMovable(Lifting, callee, hs)
    ensures AllMovable(Lowering, caller', hs') && NoReuse(Lowering, hs')
    ensures forall k | k in caller' :: k in Taken(Lowering, hs') <==> k !in caller
  {
    forall i | 0 <= i < |hs'|
      ensures Movable(Lowering, caller', hs'[i]) && hs'[i].owned && InTable(Lowering, hs'[i]) && hs'[i].rep !in caller
    {
      assert Arrives(Lifting, callee, caller, caller', hs[i], hs'[i]);
      assert Movable(Lifting, callee, hs[i]);
    }
    forall k | k in caller' && k !in caller ensures k in Taken(Lowering, hs') {
      var i :| 0 <= i < |hs| && IsNew(Lifting, hs[i]) && hs'[i].rep == k;
      assert hs'[i] in hs';
    }
  }

  lemma RoundTripHandle(callee: Table, caller: Table, caller': Table, kept: Table, callee': Table,
                        h: Handle, h': Handle, h'': Handle)
    requires Arrives(Lifting, callee, caller, caller', h, h') && (h.ty.Host? ==> h.owned)
    requires Arrives(Lowering, caller', kept, callee', h', h'')
    ensures SameResource(callee, h, callee', h'')
  {
  }

  /** Lifting any value into a caller and lowering the result back succeeds, gives
      the same value around the same resources, and leaves the caller's table as it
      was; entries of the callee's table the value does not own stay put. */
  lemma LiftThenLower(callee: Table, caller: Table, v: Val)
    requires MoveVal(Lifting, callee, caller, v).result.Ok?
    ensures var up := MoveVal(Lifting, callee, caller, v);
            var down := MoveVal(Lowering, up.target, up.source, up.result.value);
            && down.result.Ok?
            && down.source == caller
            && Extends(callee - Taken(Lifting, Handles(v)), down.target)
            && |Handles(down.result.value)| == |Handles(v)|
            && down.result.value == WithHandles(v, Handles(down.result.value))
            && forall i | 0 <= i < |Handles(v)| ::
                 SameResource(callee, Handles(v)[i], down.target, Handles(down.result.value)[i])
  {
    var hs := Handles(v);
    var up := MoveVal(Lifting, callee, caller, v);
    var m := MoveAll(Lifting, callee, caller, hs);
    var hs' := m.result.value;
    HandlesOfResult(v, hs');
    LiftedCanBeLowered(callee, caller, hs);
    MoveAllWhen(Lowering, m.target, m.source, hs');
    var n := MoveAll(Lowering, m.target, m.source, hs');
    EffectOfAll(Lifting, callee, caller, hs);
    EffectOfAll(Lowering, m.target, m.source, hs');
    MoveAllWhen(Lifting, callee, caller, hs);
    ReplaceTwice(v, hs', n.result.value);
    HandlesOfResult(v, n.result.value);
    forall i | 0 <= i < |hs| ensures SameResource(callee, hs[i], n.target, n.result.value[i]) {
      assert Movable(Lifting, callee, hs[i]);
      assert Arrives(Lifting, callee, caller, m.target, hs[i], hs'[i]);
      assert Arrives(Lowering, m.target, m.source, n.target, hs'[i], n.result.value[i]);
      RoundTripHandle(callee, caller, m.target, m.source, n.target, hs[i], hs'[i], n.result.value[i]);
    }
  }

  lemma ArrivesAt(d: Direction, source: Table, target: Table, hs: seq<Handle>, i: nat)
    requires MoveAll(d, source, target, hs).result.Ok? && i < |hs|
    ensures var m := MoveAll(d, source, target, hs);
            Arrives(d, source, target, m.target, hs[i], m.result.value[i])
  {
    EffectOfAll(d, source, target, hs);
  }

  /** Moving takes nothing, or adds nothing, where no handle asks for it. */
  lemma UntouchedTables(d: Direction, source: Table, target: Table, hs: seq<Handle>)
    requires MoveAll(d, source, target, hs).result.Ok?
    ensures (forall i | 0 <= i < |hs| :: !InTable(d, hs[i])) ==> MoveAll(d, source, target, hs).source == source
    ensures (forall i | 0 <= i < |hs| :: !IsNew(d, hs[i])) ==> MoveAll(d, source, target, hs).target == target
  {
    EffectOfAll(d, source, target, hs);
    var m := MoveAll(d, source, target, hs);
    if forall i | 0 <= i < |hs| :: !InTable(d, hs[i]) {
      assert Taken(d, hs) == {};
    }
    if forall i | 0 <= i < |hs| :: !IsNew(d, hs[i]) {
      assert m.target.Keys == target.Keys;
    }
  }

  /** Without host resources, the round trip does not touch the callee's table. */
  lemma GuestHandlesComeBack(callee: Table, caller: Table, hs: seq<Handle>)
    requires forall i | 0 <= i < |hs| :: !hs[i].ty.Host?
    requires MoveAll(Lifting, callee, caller, hs).result.Ok?
    ensures var m := MoveAll(Lifting, callee, caller, hs);
            MoveAll(Lowering, m.target, m.source, m.result.value) == Moved(Ok(hs), caller, callee)
  {
    var m := MoveAll(Lifting, callee, caller, hs);
    LiftedCanBeLowered(callee, caller, hs);
    MoveAllWhen(Lowering, m.target, m.source, m.result.value);
    var n := MoveAll(Lowering, m.target, m.source, m.result.value);
    forall i | 0 <= i < |hs| ensures !IsNew(Lowering, m.result.value[i]) && n.result.value[i] == hs[i] {
      ArrivesAt(Lifting, callee, caller, hs, i);
      ArrivesAt(Lowering, m.target, m.source, m.result.value, i);
    }
    UntouchedTables(Lifting, callee, caller, hs);
    UntouchedTables(Lowering, m.target, m.source, m.result.value);
    LowerTakes(m.target, m.source, m.result.value);
    assert n.result.value == hs;
  }

  lemma LowerTakes(source: Table, target: Table, hs: seq<Handle>)
    requires MoveAll(Lowering, source, target, hs).result.Ok?
    ensures MoveAll(Lowering, source, target, hs).source == source - Taken(Lowering, hs)
  {
    EffectOfAll(Lowering, source, target, hs);
  }

  /** A value without host resources comes back identical, and both tables with it. */
  lemma GuestValueComesBack(callee: Table, caller: Table, v: Val)
    requires forall i | 0 <= i < |Handles(v)| :: !Handles(v)[i].ty.Host?
    ensures var up := MoveVal(Lifting, callee, caller, v);
            && up.result.Ok?
            && MoveVal(Lowering, up.target, up.source, up.result.value) == Moved(Ok(v), caller, callee)
  {
    LiftSucceedsWhen(callee, caller, v);
    GuestHandlesComeBack(callee, caller, Handles(v));
    var hs' := MoveAll(Lifting, callee, caller, Handles(v)).result.value;
    HandlesOfResult(v, hs');
    ReplaceTwice(v, hs', Handles(v));
    ReplaceByItself(v);
  }

  // ------------------------------------------------------------ conservation

  /** The host resources in a table, with multiplicity. */
  ghost function HostsOf(t: Table): multiset<Entry>
    decreases |t|
  {
    if t == map[] then multiset{}
    else
      var k :| k in t;
      AsHost(t[k]) + HostsOf(t - {k})
  }

  ghost function AsHost(e: Entry): multiset<Entry> {
    if e.HostEntry? then multiset{e} else multiset{}
  }

  lemma HostsUnfold(t: Table) returns (j: nat)
    requires t != map[]
    ensures j in t && HostsOf(t) == AsHost(t[j]) + HostsOf(t - {j})
  {
    j :| j in t && HostsOf(t) == AsHost(t[j]) + HostsOf(t - {j});
  }

  /** Any entry can be counted first. */
  lemma {:induction false} HostsRemove(t: Table, k: nat)
    requires k in t
    ensures HostsOf(t) == AsHost(t[k]) + HostsOf(t - {k})
    decreases |t|
  {
    var j := HostsUnfold(t);
    if j != k {
      RemoveTwo(t, j, k);
      HostsRemove(t - {j}, k);
      HostsRemove(t - {k}, j);
    }
  }

  lemma RemoveTwo(t: Table, j: nat, k: nat)
    requires j in t && k in t && j != k
    ensures t - {j} - {k} == t - {k} - {j}
    ensures |t - {j}| < |t| && |t - {k}| < |t|
    ensures k in t - {j} && (t - {j})[k] == t[k] && j in t - {k} && (t - {k})[j] == t[j]
  {
    assert (t - {j}).Keys == t.Keys - {j} && (t - {k}).Keys == t.Keys - {k};
    assert |t - {j}| == |(t - {j}).Keys| && |t - {k}| == |(t - {k}).Keys| && |t| == |t.Keys|;
  }

  lemma AddThenRemove(t: Table, k: nat, e: Entry)
    requires k !in t
    ensures t[k := e] - {k} == t && t[k := e][k] == e
  {
  }

  lemma HostsAdd(t: Table, k: nat, e: Entry)
    requires k !in t
    ensures HostsOf(t[k := e]) == AsHost(e) + HostsOf(t)
  {
    HostsRemove(t[k := e], k);
    AddThenRemove(t, k, e);
  }

  /** Moving this handle on its own removes a host resource without passing it on: the
      handle is owned, and its table entry is a host resource of another type. */
  predicate Loses(d: Direction, source: Table, h: Handle) {
    && InTable(d, h) && h.owned && h.rep in source
    && source[h.rep].HostEntry? && !Fits(h.ty, source[h.rep])
  }

  /** All handles before the i-th are moved, and the i-th loses a host resource. */
  predicate LosesAt(d: Direction, source: Table, hs: seq<Handle>, i: nat) {
    && i < |hs|
    && AllMovable(d, source, hs[..i])
    && NoReuse(d, hs[..i + 1])
    && Loses(d, source, hs[i])
  }

  ghost predicate LosesSome(d: Direction, source: Table, hs: seq<Handle>) {
    exists i: nat :: LosesAt(d, source, hs, i)
  }

  /** The host resources of two tables. */
  ghost function Total(a: Table, b: Table): multiset<Entry> {
    HostsOf(a) + HostsOf(b)
  }

  /** What moving a handle on its own loses. */
  ghost function Lost(d: Direction, source: Table, h: Handle): multiset<Entry> {
    if Loses(d, source, h) then multiset{source[h.rep]} else multiset{}
  }

  lemma EntryGoes(source: Table, target: Table, k: nat)
    requires k in source
    ensures Total(source - {k}, target) + AsHost(source[k]) == Total(source, target)
  {
    HostsRemove(source, k);
  }

  lemma EntryMoves(source: Table, target: Table, k: nat)
    requires k in source
    ensures Total(source - {k}, target[Slot(target) := source[k]]) == Total(source, target)
  {
    HostsRemove(source, k);
    HostsAdd(target, Slot(target), source[k]);
  }

  lemma WrapperAdded(source: Table, target: Table, any: Handle)
    ensures Total(source, target[Slot(target) := GuestEntry(any)]) == Total(source, target)
  {
    HostsAdd(target, Slot(target), GuestEntry(any));
  }

  lemma MoveHostConserves(source: Table, target: Table, lookup: Table, h: Handle)
    requires h.ty.Host?
    ensures var m := MoveHost(source, target, lookup, h);
            Total(m.source, m.target) + Lost(Lowering, source, h) == Total(source, target)
  {
    if h.owned && h.rep in source {
      if Fits(h.ty, source[h.rep]) {
        EntryMoves(source, target, h.rep);
      } else {
        EntryGoes(source, target, h.rep);
      }
    }
  }

  lemma UnwrapConserves(source: Table, target: Table, h: Handle)
    requires h.ty.Wrapped?
    ensures var m := Unwrap(source, target, h);
            Total(m.source, m.target) + Lost(Lowering, source, h) == Total(source, target)
  {
    if h.owned && h.rep in source {
      EntryGoes(source, target, h.rep);
    }
  }

  lemma WrapConserves(source: Table, target: Table, h: Handle)
    requires !h.ty.Host?
    ensures var m := MoveHandle(Lifting, source, target, h);
            Total(m.source, m.target) == Total(source, target)
  {
    WrapperAdded(source, target, h);
  }

  lemma MoveOneConserves(d: Direction, source: Table, target: Table, h: Handle)
    ensures var m := MoveHandle(d, source, target, h);
            Total(m.source, m.target) + Lost(d, source, h) == Total(source, target)
  {
    match (d, h.ty)
    case (Lowering, Host(_)) => MoveHostConserves(source, target, source, h);
    case (Lifting, Host(_)) => MoveHostConserves(source, target, target, h);
    case (Lowering, Wrapped) => UnwrapConserves(source, target, h);
    case (Lowering, Other(_)) =>
    case (Lifting, _) => WrapConserves(source, target, h);
  }

  /** What moving several handles loses: nothing until one fails. */
  ghost function LostOf(d: Direction, source: Table, hs: seq<Handle>): multiset<Entry>
    decreases |hs|
  {
    if hs == [] then multiset{}
    else if !Movable(d, source, hs[0]) then Lost(d, source, hs[0])
    else LostOf(d, if InTable(d, hs[0]) && hs[0].owned then source - {hs[0].rep} else source, hs[1..])
  }

  lemma MoveAllCons(d: Direction, source: Table, target: Table, hs: seq<Handle>)
    requires hs != []
    ensures var m, first := MoveAll(d, source, target, hs), MoveHandle(d, source, target, hs[0]);
            if Movable(d, source, hs[0]) then
              var rest := MoveAll(d, first.source, first.target, hs[1..]);
              && m.source == rest.source && m.target == rest.target
              && !Loses(d, source, hs[0])
              && LostOf(d, source, hs) == LostOf(d, first.source, hs[1..])
            else
              && m.source == first.source && m.target == first.target
              && LostOf(d, source, hs) == Lost(d, source, hs[0])
  {
    MoveOneWhen(d, source, target, hs[0]);
  }

  lemma {:induction false} MoveAllLoses(d: Direction, source: Table, target: Table, hs: seq<Handle>)
    ensures var m := MoveAll(d, source, target, hs);
            Total(m.source, m.target) + LostOf(d, source, hs) == Total(source, target)
    decreases |hs|
  {
    if hs != [] {
      MoveAllCons(d, source, target, hs);
      MoveOneConserves(d, source, target, hs[0]);
      if Movable(d, source, hs[0]) {
        var first := MoveHandle(d, source, target, hs[0]);
        MoveAllLoses(d, first.source, first.target, hs[1..]);
      }
    }
  }

  /** Later handles lose what they would have lost before the first was moved, unless
      they name the entry it took. */
  lemma LosesLater(d: Direction, source: Table, hs: seq<Handle>, i: nat)
    requires 0 < i < |hs| && Movable(d, source, hs[0])
    ensures var source' := if InTable(d, hs[0]) && hs[0].owned then source - {hs[0].rep} else source;
            LosesAt(d, source', hs[1..], i - 1) <==> LosesAt(d, source, hs, i)
  {
    var source' := if InTable(d, hs[0]) && hs[0].owned then source - {hs[0].rep} else source;
    var before, upto := hs[..i], hs[..i + 1];
    assert hs[1..][..i - 1] == before[1..] && hs[1..][..i] == upto[1..] && upto[0] == hs[0];
    assert hs[1..][i - 1] == hs[i] == upto[1..][i - 1];
    NoReuseCons(d, upto);
    SmallerSource(d, source, hs[0], before[1..]);
    AllMovableCons(d, source, before);
    assert forall j | 0 <= j < i - 1 :: before[1..][j] == upto[1..][j];
  }

  lemma AllMovableCons(d: Direction, source: Table, hs: seq<Handle>)
    requires hs != []
    ensures AllMovable(d, source, hs) <==> Movable(d, source, hs[0]) && AllMovable(d, source, hs[1..])
  {
    assert forall j | 0 <= j < |hs[1..]| :: hs[1..][j] == hs[j + 1];
    assert forall j | 0 < j < |hs| :: hs[j] == hs[1..][j - 1];
  }

  /** Something is lost exactly if some handle loses it, and it is that one resource. */
  lemma {:induction false} LostOfWhen(d: Direction, source: Table, hs: seq<Handle>)
    ensures LostOf(d, source, hs) != multiset{} <==> LosesSome(d, source, hs)
    ensures forall i: nat | LosesAt(d, source, hs, i) :: LostOf(d, source, hs) == multiset{source[hs[i].rep]}
    decreases |hs|
  {
    if hs != [] {
      if Movable(d, source, hs[0]) {
        var source' := if InTable(d, hs[0]) && hs[0].owned then source - {hs[0].rep} else source;
        LostOfWhen(d, source', hs[1..]);
        assert !LosesAt(d, source, hs, 0);
        forall i: nat | LosesAt(d, source, hs, i)
          ensures 0 < i && LosesAt(d, source', hs[1..], i - 1) && source'[hs[1..][i - 1].rep] == source[hs[i].rep]
        {
          LosesLater(d, source, hs, i);
        }
        forall i: nat | LosesAt(d, source', hs[1..], i) ensures LosesAt(d, source, hs, i + 1) {
          LosesLater(d, source, hs, i + 1);
        }
      } else {
        FailsAtFirst(d, source, hs);
        if Loses(d, source, hs[0]) {
          assert LosesAt(d, source, hs, 0);
        }
      }
    }
  }

  /** Host resources over both tables are the same after moving, whether it succeeds
      or fails part-way, unless the handle it fails at is an owned one whose entry is a
      host resource of another type: that one resource, and no other, is lost. */
  lemma MoveAllConserves(d: Direction, source: Table, target: Table, hs: seq<Handle>)
    ensures var m := MoveAll(d, source, target, hs);
            && (Total(m.source, m.target) == Total(source, target) <==> !LosesSome(d, source, hs))
            && forall i: nat | LosesAt(d, source, hs, i) ::
                 Total(m.source, m.target) + multiset{source[hs[i].rep]} == Total(source, target)
  {
    var m := MoveAll(d, source, target, hs);
    MoveAllLoses(d, source, target, hs);
    LostOfWhen(d, source, hs);
    assert |Total(source, target)| == |Total(m.source, m.target)| + |LostOf(d, source, hs)|;
  }

  lemma FailsAtFirst(d: Direction, source: Table, hs: seq<Handle>)
    requires hs != [] && !Movable(d, source, hs[0])
    ensures forall i: nat | LosesAt(d, source, hs, i) :: i == 0
    ensures LosesAt(d, source, hs, 0) <==> Loses(d, source, hs[0])
  {
    forall i: nat | 0 < i < |hs| ensures !AllMovable(d, source, hs[..i]) {
      assert hs[..i][0] == hs[0];
    }
  }

  /** Lowering or lifting any value conserves the host resources of the two stores
      exactly unless it fails at such a handle of the value. */
  lemma ValueConserves(d: Direction, source: Table, target: Table, v: Val)
    ensures var m := MoveVal(d, source, target, v);
            Total(m.source, m.target) == Total(source, target)
            <==> !LosesSome(d, source, Handles(v))
  {
    MoveAllConserves(d, source, target, Handles(v));
    var m, n := MoveVal(d, source, target, v), MoveAll(d, source, target, Handles(v));
    assert m.source == n.source && m.target == n.target;
  }

  /** A handle that is in the table has the type of its entry. */
  predicate WellTyped(d: Direction, source: Table, hs: seq<Handle>) {
    forall h | h in hs && InTable(d, h) && h.rep in source :: Fits(h.ty, source[h.rep])
  }

  /** So nothing is ever lost of a value whose handles have the types of their entries. */
  lemma WellTypedConserves(d: Direction, source: Table, target: Table, v: Val)
    requires WellTyped(d, source, Handles(v))
    ensures var m := MoveVal(d, source, target, v);
            Total(m.source, m.target) == Total(source, target)
  {
    ValueConserves(d, source, target, v);
  }

  /** Lowering a pollable's handle whose entry is a socket loses the socket. */
  lemma MistypedHandleLoses(contents: nat)
    ensures var source: Table, v := map[0 := HostEntry(TcpSocket, contents)], Resource(Handle(Host(Pollable), 0, true));
            var m := MoveVal(Lowering, source, map[], v);
            m.result == Err(WrongType) && Total(m.source, m.target) != Total(source, map[])
  {
    var source: Table, h := map[0 := HostEntry(TcpSocket, contents)], Handle(Host(Pollable), 0, true);
    MoveOne(Lowering, source, map[], h);
    assert [h][..0] == [] && [h][..1] == [h];
    assert LosesAt(Lowering, source, Handles(Resource(h)), 0);
    ValueConserves(Lowering, source, map[], Resource(h));
  }
}
