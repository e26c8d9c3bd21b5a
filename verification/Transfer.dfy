/** Moving a component-model value between two stores: `lower` takes a caller's
    value to a callee, `lift` takes a callee's value to its caller. Owned host
    resources move between the stores' tables; guest resources are wrapped in the
    caller's table on the way out and unwrapped on the way in. */
module Transfer {
  import opened Wrappers
  import opened Tables

  // -------------------------------------------------------------- data model

  datatype HostKind = Pollable | InputStream | OutputStream | TcpSocket

  /** The type a resource handle carries: a host type that is moved, the host type
      of a wrapped guest resource, or any other type (a guest's own, an I/O error). */
  datatype ResourceType = Host(kind: HostKind) | Wrapped | Other(id: nat)

  /** A resource handle: its type, its index in a table, and whether it is owned. */
  datatype Handle = Handle(ty: ResourceType, rep: nat, owned: bool)

  datatype Val =
    | Bool(b: bool)
    | Integer(width: nat, signed: bool, n: int)
    | Float(width: nat, bits: nat)
    | Char(c: char)
    | String(s: string)
    | List(vs: seq<Val>)
    | Record(names: seq<string>, vs: seq<Val>)
    | Tuple(vs: seq<Val>)
    | Variant(case_: string, payload: Option<Val>)
    | Enum(case_: string)
    | Opt(payload: Option<Val>)
    | Res(ok: bool, payload: Option<Val>)
    | Flags(names: seq<string>)
    | Resource(any: Handle)

  /** A table entry: a host resource with its contents, or a wrapped guest resource. */
  datatype Entry = HostEntry(kind: HostKind, contents: nat) | GuestEntry(any: Handle)

  /** A store's resource table. */
  type Table = map<nat, Entry>

  datatype Error = NotPresent | WrongType | BorrowUnsupported

  /** The entry has the type the handle claims. */
  predicate Fits(ty: ResourceType, e: Entry) {
    match ty
    case Host(kind) => e.HostEntry? && e.kind == kind
    case Wrapped => e.GuestEntry?
    case Other(_) => false
  }

  // ----------------------------------------------------------- specification

  /** Outcome of moving a value: the result and both tables afterwards. */
  datatype Moved<T> = Moved(result: Result<T, Error>, source: Table, target: Table)

  /** A borrowed host resource is looked up, and then refused. */
  function RefuseBorrow(t: Table, any: Handle): Error {
    if any.rep !in t then NotPresent else if !Fits(any.ty, t[any.rep]) then WrongType else BorrowUnsupported
  }

  /** Moves one owned host resource; `lookup` is where a borrowed one is looked up. */
  function MoveHost(source: Table, target: Table, lookup: Table, any: Handle): Moved<Handle> {
    if !any.owned then Moved(Err(RefuseBorrow(lookup, any)), source, target)
    else if any.rep !in source then Moved(Err(NotPresent), source, target)
    else if !Fits(any.ty, source[any.rep]) then Moved(Err(WrongType), source - {any.rep}, target)
    else Moved(Ok(Handle(any.ty, Slot(target), true)), source - {any.rep}, target[Slot(target) := source[any.rep]])
  }

  /** Unwraps a guest resource; an owned wrapper is consumed. */
  function Unwrap(source: Table, target: Table, any: Handle): Moved<Handle> {
    if any.rep !in source then Moved(Err(NotPresent), source, target)
    else
      var after := if any.owned then source - {any.rep} else source;
      Moved(if source[any.rep].GuestEntry? then Ok(source[any.rep].any) else Err(WrongType), after, target)
  }

  datatype Direction = Lowering | Lifting

  /** What moving a single handle does to it and to the two tables. */
  function MoveHandle(d: Direction, source: Table, target: Table, any: Handle): Moved<Handle> {
    match (d, any.ty)
    case (Lowering, Host(_)) => MoveHost(source, target, source, any)
    case (Lowering, Wrapped) => Unwrap(source, target, any)
    case (Lowering, Other(_)) => Moved(Ok(any), source, target)
    case (Lifting, Host(_)) => MoveHost(source, target, target, any)
    case (Lifting, _) => Moved(Ok(Handle(Wrapped, Slot(target), true)), source, target[Slot(target) := GuestEntry(any)])
  }

  /** Moves handles one after the other, up to the first failure. */
  function MoveAll(d: Direction, source: Table, target: Table, hs: seq<Handle>): (m: Moved<seq<Handle>>)
    ensures m.result.Ok? ==> |m.result.value| == |hs|
    decreases |hs|
  {
    if hs == [] then Moved(Ok([]), source, target)
    else
      var first := MoveHandle(d, source, target, hs[0]);
      if first.result.Err? then Moved(Err(first.result.error), first.source, first.target)
      else
        var rest := MoveAll(d, first.source, first.target, hs[1..]);
        if rest.result.Ok? then rest.(result := Ok([first.result.value] + rest.result.value)) else rest
  }

  /** The handles of a value, in the order they are moved. */
  function Handles(v: Val): seq<Handle>
    decreases v, 1
  {
    match v
    case List(vs) => AllHandles(vs)
    case Record(_, vs) => AllHandles(vs)
    case Tuple(vs) => AllHandles(vs)
    case Variant(_, Some(p)) => Handles(p)
    case Opt(Some(p)) => Handles(p)
    case Res(_, Some(p)) => Handles(p)
    case Resource(any) => [any]
    case _ => []
  }

  function AllHandles(vs: seq<Val>): seq<Handle>
    decreases vs, 0
  {
    if vs == [] then [] else Handles(vs[0]) + AllHandles(vs[1..])
  }

  /** The value with its handles replaced, in order. */
  function WithHandles(v: Val, hs: seq<Handle>): Val
    requires |hs| == |Handles(v)|
    decreases v, 1
  {
    match v
    case List(vs) => List(AllWithHandles(vs, hs))
    case Record(names, vs) => Record(names, AllWithHandles(vs, hs))
    case Tuple(vs) => Tuple(AllWithHandles(vs, hs))
    case Variant(k, Some(p)) => Variant(k, Some(WithHandles(p, hs)))
    case Opt(Some(p)) => Opt(Some(WithHandles(p, hs)))
    case Res(ok, Some(p)) => Res(ok, Some(WithHandles(p, hs)))
    case Resource(_) => Resource(hs[0])
    case _ => v
  }

  function AllWithHandles(vs: seq<Val>, hs: seq<Handle>): seq<Val>
    requires |hs| == |AllHandles(vs)|
    decreases vs, 0
  {
    if vs == [] then []
    else
      var n := |Handles(vs[0])|;
      [WithHandles(vs[0], hs[..n])] + AllWithHandles(vs[1..], hs[n..])
  }

  /** What moving a value means: its handles are moved in order, and the result is
      the same value around the moved handles. */
  function MoveVal(d: Direction, source: Table, target: Table, v: Val): Moved<Val> {
    var m := MoveAll(d, source, target, Handles(v));
    Moved(if m.result.Ok? then Ok(WithHandles(v, m.result.value)) else Err(m.result.error), m.source, m.target)
  }

  function MoveVals(d: Direction, source: Table, target: Table, vs: seq<Val>): Moved<seq<Val>> {
    var m := MoveAll(d, source, target, AllHandles(vs));
    Moved(if m.result.Ok? then Ok(AllWithHandles(vs, m.result.value)) else Err(m.result.error), m.source, m.target)
  }

  lemma {:induction false} MoveAllConcat(d: Direction, source: Table, target: Table, a: seq<Handle>, b: seq<Handle>)
    ensures var m, n := MoveAll(d, source, target, a), MoveAll(d, source, target, a + b);
            if m.result.Err? then n == m
            else
              var rest := MoveAll(d, m.source, m.target, b);
              && n.source == rest.source && n.target == rest.target
              && n.result == (if rest.result.Ok? then Ok(m.result.value + rest.result.value) else rest.result)
    decreases |a|
  {
    if a == [] {
      assert a + b == b;
      var rest := MoveAll(d, source, target, b);
      assert rest.result.Ok? ==> [] + rest.result.value == rest.result.value;
    } else {
      var first := MoveHandle(d, source, target, a[0]);
      assert (a + b)[1..] == a[1..] + b;
      if first.result.Ok? {
        MoveAllConcat(d, first.source, first.target, a[1..], b);
        var m := MoveAll(d, first.source, first.target, a[1..]);
        if m.result.Ok? {
          var rest := MoveAll(d, m.source, m.target, b);
          assert rest.result.Ok? ==>
            [first.result.value] + (m.result.value + rest.result.value) ==
            ([first.result.value] + m.result.value) + rest.result.value;
        }
      }
    }
  }

  /** Moving a list of values is moving its first and then the others. */
  lemma MoveValsCons(d: Direction, source: Table, target: Table, vs: seq<Val>)
    requires vs != []
    ensures var first, n := MoveVal(d, source, target, vs[0]), MoveVals(d, source, target, vs);
            if first.result.Err? then n == Moved(Err(first.result.error), first.source, first.target)
            else
              var rest := MoveVals(d, first.source, first.target, vs[1..]);
              && n.source == rest.source && n.target == rest.target
              && n.result == (if rest.result.Ok? then Ok([first.result.value] + rest.result.value) else rest.result)
  {
    var a, b := Handles(vs[0]), AllHandles(vs[1..]);
    MoveAllConcat(d, source, target, a, b);
    var m := MoveAll(d, source, target, a);
    if m.result.Ok? {
      var rest := MoveAll(d, m.source, m.target, b);
      if rest.result.Ok? {
        var hs := m.result.value + rest.result.value;
        assert hs[..|a|] == m.result.value && hs[|a|..] == rest.result.value;
      }
    }
  }

  // -------------------------------------------------------------- operations

  class Store {
    var table: Table

    constructor (entries: Table)
      ensures table == entries
    {
      table := entries;
    }

    method Delete(any: Handle) returns (r: Result<Entry, Error>)
      modifies this
      ensures any.rep !in old(table) ==> r == Err(NotPresent) && table == old(table)
      ensures any.rep in old(table) ==>
                && table == old(table) - {any.rep}
                && r == if Fits(any.ty, old(table)[any.rep]) then Ok(old(table)[any.rep]) else Err(WrongType)
    {
      if any.rep !in table {
        return Err(NotPresent);
      }
      var e := table[any.rep];
      table := table - {any.rep};
      r := if Fits(any.ty, e) then Ok(e) else Err(WrongType);
    }

    method Push(e: Entry) returns (i: nat)
      modifies this
      ensures i == Slot(old(table)) && table == old(table)[i := e]
    {
      i := Slot(table);
      table := table[i := e];
    }
  }

  method MoveResource(source: Store, target: Store, lookup: Store, any: Handle) returns (r: Result<Handle, Error>)
    requires source != target && any.ty.Host?
    modifies source, target
    ensures Moved(r, source.table, target.table) == MoveHost(old(source.table), old(target.table), old(lookup.table), any)
  {
    if any.owned {
      var e := source.Delete(any);
      if e.Err? {
        return Err(e.error);
      }
      var at := target.Push(e.value);
      r := Ok(Handle(any.ty, at, true));
    } else {
      r := Err(RefuseBorrow(lookup.table, any));
    }
  }

  method LowerResource(caller: Store, callee: Store, any: Handle) returns (r: Result<Handle, Error>)
    requires caller != callee
    modifies caller, callee
    ensures Moved(r, caller.table, callee.table) == MoveHandle(Lowering, old(caller.table), old(callee.table), any)
  {
    match any.ty
    case Host(_) =>
      r := MoveResource(caller, callee, caller, any);
    case Wrapped =>
      if any.owned {
        var e := caller.Delete(any);
        r := if e.Ok? then Ok(e.value.any) else Err(e.error);
      } else if any.rep !in caller.table {
        r := Err(NotPresent);
      } else {
        r := if caller.table[any.rep].GuestEntry? then Ok(caller.table[any.rep].any) else Err(WrongType);
      }
    case Other(_) =>
      r := Ok(any);
  }

  method LiftResource(caller: Store, callee: Store, any: Handle) returns (r: Result<Handle, Error>)
    requires caller != callee
    modifies caller, callee
    ensures Moved(r, callee.table, caller.table) == MoveHandle(Lifting, old(callee.table), old(caller.table), any)
  {
    if any.ty.Host? {
      r := MoveResource(callee, caller, caller, any);
    } else {
      var at := caller.Push(GuestEntry(any));
      r := Ok(Handle(Wrapped, at, true));
    }
  }

  method Lower(caller: Store, callee: Store, v: Val) returns (r: Result<Val, Error>)
    requires caller != callee
    modifies caller, callee
    ensures Moved(r, caller.table, callee.table) == MoveVal(Lowering, old(caller.table), old(callee.table), v)
    decreases v, 1
  {
    match v
    case List(vs) =>
      var ws := LowerAll(caller, callee, vs);
      r := if ws.Ok? then Ok(List(ws.value)) else Err(ws.error);
    case Record(names, vs) =>
      var ws := LowerAll(caller, callee, vs);
      r := if ws.Ok? then Ok(Record(names, ws.value)) else Err(ws.error);
    case Tuple(vs) =>
      var ws := LowerAll(caller, callee, vs);
      r := if ws.Ok? then Ok(Tuple(ws.value)) else Err(ws.error);
    case Variant(k, Some(p)) =>
      var w := Lower(caller, callee, p);
      r := if w.Ok? then Ok(Variant(k, Some(w.value))) else w;
    case Opt(Some(p)) =>
      var w := Lower(caller, callee, p);
      r := if w.Ok? then Ok(Opt(Some(w.value))) else w;
    case Res(ok, Some(p)) =>
      var w := Lower(caller, callee, p);
      r := if w.Ok? then Ok(Res(ok, Some(w.value))) else w;
    case Resource(any) =>
      MoveOne(Lowering, caller.table, callee.table, any);
      var h := LowerResource(caller, callee, any);
      r := if h.Ok? then Ok(Resource(h.value)) else Err(h.error);
    case _ =>
      r := Ok(v);
  }

  lemma MoveOne(d: Direction, source: Table, target: Table, any: Handle)
    ensures var m, one := MoveAll(d, source, target, [any]), MoveHandle(d, source, target, any);
            && m.source == one.source && m.target == one.target
            && m.result == (if one.result.Ok? then Ok([one.result.value]) else Err(one.result.error))
  {
    var one := MoveHandle(d, source, target, any);
    if one.result.Ok? {
      assert MoveAll(d, one.source, one.target, []) == Moved(Ok([]), one.source, one.target);
      assert [one.result.value] + [] == [one.result.value];
    }
  }

  method LowerAll(caller: Store, callee: Store, vs: seq<Val>) returns (r: Result<seq<Val>, Error>)
    requires caller != callee
    modifies caller, callee
    ensures Moved(r, caller.table, callee.table) == MoveVals(Lowering, old(caller.table), old(callee.table), vs)
    decreases vs, 0
  {
    if vs == [] {
      return Ok([]);
    }
    MoveValsCons(Lowering, caller.table, callee.table, vs);
    var first := Lower(caller, callee, vs[0]);
    if first.Err? {
      return Err(first.error);
    }
    var rest := LowerAll(caller, callee, vs[1..]);
    r := if rest.Ok? then Ok([first.value] + rest.value) else rest;
  }

  method Lift(caller: Store, callee: Store, v: Val) returns (r: Result<Val, Error>)
    requires caller != callee
    modifies caller, callee
    ensures Moved(r, callee.table, caller.table) == MoveVal(Lifting, old(callee.table), old(caller.table), v)
    decreases v, 1
  {
    match v
    case List(vs) =>
      var ws := LiftAll(caller, callee, vs);
      r := if ws.Ok? then Ok(List(ws.value)) else Err(ws.error);
    case Record(names, vs) =>
      var ws := LiftAll(caller, callee, vs);
      r := if ws.Ok? then Ok(Record(names, ws.value)) else Err(ws.error);
    case Tuple(vs) =>
      var ws := LiftAll(caller, callee, vs);
      r := if ws.Ok? then Ok(Tuple(ws.value)) else Err(ws.error);
    case Variant(k, Some(p)) =>
      var w := Lift(caller, callee, p);
      r := if w.Ok? then Ok(Variant(k, Some(w.value))) else w;
    case Opt(Some(p)) =>
      var w := Lift(caller, callee, p);
      r := if w.Ok? then Ok(Opt(Some(w.value))) else w;
    case Res(ok, Some(p)) =>
      var w := Lift(caller, callee, p);
      r := if w.Ok? then Ok(Res(ok, Some(w.value))) else w;
    case Resource(any) =>
      MoveOne(Lifting, callee.table, caller.table, any);
      var h := LiftResource(caller, callee, any);
      r := if h.Ok? then Ok(Resource(h.value)) else Err(h.error);
    case _ =>
      r := Ok(v);
  }

  method LiftAll(caller: Store, callee: Store, vs: seq<Val>) returns (r: Result<seq<Val>, Error>)
    requires caller != callee
    modifies caller, callee
    ensures Moved(r, callee.table, caller.table) == MoveVals(Lifting, old(callee.table), old(caller.table), vs)
    decreases vs, 0
  {
    if vs == [] {
      return Ok([]);
    }
    MoveValsCons(Lifting, callee.table, caller.table, vs);
    var first := Lift(caller, callee, vs[0]);
    if first.Err? {
      return Err(first.error);
    }
    var rest := LiftAll(caller, callee, vs[1..]);
    r := if rest.Ok? then Ok([first.value] + rest.value) else rest;
  }
}
