/**
  The `Pushable` protocol: a Rust value is turned into values on the Lua
  stack, and the push returns how many it pushed.

  `PushEffect` specifies, for every shape of value, what a push appends to the
  stack and how it ends. The methods below, one per `impl Pushable`, perform
  the push with the primitives of `Lua.LuaState`. The scalar methods
  (`PushUnit` to `PushString`) state the value they append and the count
  they return outright, and meet `PushEffect` through `Push`;
  `PushTryIntoInteger`, `PushOption`, `PushVec`, `PushResult`, `PushTuple`
  and `Push` are proved to have exactly `PushEffect`'s effect. `Succeeds`,
  `Width` and `Count` are independent structural descriptions of a push (whether it raises, how many slots it
  fills, what it returns), and `EffectMatchesShape` ties them to
  `PushEffect`.
 */
module Pushable {
  import opened Lua

  /** The Rust integer types with an `impl Pushable`; `LuaInteger` is
      `ffi::Integer` itself. */
  datatype IntKind = I8 | U8 | I16 | U16 | I32 | U32 | I64 | U64 | Usize | LuaInteger

  /** The types pushed through `push_into_integer!` (an infallible `into`). */
  predicate Widens(k: IntKind)
  {
    k == I8 || k == U8 || k == I16
  }

  /** The types pushed through `push_try_into_integer!` (a checked `try_into`). */
  predicate Narrows(k: IntKind)
  {
    !Widens(k) && k != LuaInteger
  }

  /** `n` is a value of the Rust integer type `k`. */
  predicate InKindRange(p: Platform, k: IntKind, n: int)
  {
    match k
    case I8 => -0x80 <= n < 0x80
    case U8 => 0 <= n < 0x100
    case I16 => -0x8000 <= n < 0x8000
    case U16 => 0 <= n < 0x1_0000
    case I32 => -0x8000_0000 <= n < 0x8000_0000
    case U32 => 0 <= n < 0x1_0000_0000
    case I64 => -0x8000_0000_0000_0000 <= n < 0x8000_0000_0000_0000
    case U64 => 0 <= n < 0x1_0000_0000_0000_0000
    case Usize => 0 <= n < Pow2(p.usizeBits)
    case LuaInteger => InIntegerRange(p, n)
  }

  /** The errors a push can raise. `IntConversion(k)` is the error that
      `crate::Error::push_error` builds from the name of the type `k` and the
      message of the `TryFromIntError`; both texts are left symbolic.
      `HostFailure` stands for any other `std::error::Error`, by its message. */
  datatype HostError = IntConversion(kind: IntKind) | HostFailure(message: string)

  /** The shapes of Rust value that have an `impl Pushable`. */
  datatype RustValue =
    | Unit
    | Bool(b: bool)
    | Int(kind: IntKind, n: int)
    | Num(bits: bv64)                 // ffi::Number (an f64), by its bits
    | F32(single: bv32)               // an f32, by its bits
    | Str(bytes: seq<Byte>)           // a String, by its UTF-8 bytes
    | OptNone
    | OptSome(inner: RustValue)
    | Vec(elems: seq<RustValue>)
    | ResOk(value: RustValue)
    | ResErr(error: HostError)
    | Tuple(members: seq<RustValue>)  // arity 1 to 16

  /** How a push ends: it returns a count; or the error path
      (`utils::push_error`) raises an error; or a vector element pushed other
      than one value, so that `lua_rawseti(L, -2, ..)` would not address the
      vector's table, and the model does not follow the stack further. */
  datatype Outcome = Returned(count: int) | Raised(error: HostError) | Misaligned

  /** What a push appends to the stack, and how it ends. */
  datatype Effect = Effect(pushed: seq<LuaValue>, outcome: Outcome)

  /** The result of `try_into::<Integer>()`, with the error already mapped
      by `map_err`. */
  datatype Conversion = Converted(value: int) | Failed(error: HostError)

  /** `x.try_into()` for an integer type `k` whose values may not fit in
      `ffi::Integer`, with its error mapped to `IntConversion(k)`. */
  function TryIntoInteger(p: Platform, k: IntKind, x: int): (r: Conversion)
    ensures r.Converted? <==> InIntegerRange(p, x)
    ensures r.Converted? ==> r.value == x
    ensures r.Failed? ==> r.error == IntConversion(k)
  {
    if InIntegerRange(p, x) then Converted(x) else Failed(IntConversion(k))
  }

  /** The value is one of its Rust type (integers within their type's range,
      tuples of arity 1 to 16), and every element of a vector that the loop
      reaches and that pushes successfully pushes exactly one value, which
      `lua_rawseti(L, -2, ..)` in the vector's loop needs to address the
      table. Elements after the first failing one are never pushed and may
      have any width. */
  predicate WellFormed(p: Platform, v: RustValue)
  {
    match v
    case Int(k, n) => InKindRange(p, k, n)
    case OptSome(t) => WellFormed(p, t)
    case Vec(es) => (forall i :: 0 <= i < |es| ==> WellFormed(p, es[i])) && OneSlotFrom(p, es, 0)
    case ResOk(t) => WellFormed(p, t)
    case Tuple(ms) => 1 <= |ms| <= 16 && forall i :: 0 <= i < |ms| ==> WellFormed(p, ms[i])
    case _ => true
  }

  /** Once the vector's loop has reached element `i`, every element it
      goes on to reach and that succeeds fills exactly one slot; the loop
      stops at the first element that fails, and what follows is not
      constrained. */
  predicate OneSlotFrom(p: Platform, es: seq<RustValue>, i: nat)
    requires i <= |es|
    decreases |es| - i
  {
    i == |es| || (Succeeds(p, es[i]) ==> Width(es[i]) == 1 && OneSlotFrom(p, es, i + 1))
  }

  /** The push returns normally, without taking the error path: no `Err`
      and no integer outside `ffi::Integer`'s range is met on the way. */
  predicate Succeeds(p: Platform, v: RustValue)
  {
    match v
    case Int(k, n) => !Narrows(k) || InIntegerRange(p, n)
    case OptSome(t) => Succeeds(p, t)
    case Vec(es) => forall i :: 0 <= i < |es| ==> Succeeds(p, es[i])
    case ResOk(t) => Succeeds(p, t)
    case ResErr(_) => false
    case Tuple(ms) => forall i :: 0 <= i < |ms| ==> Succeeds(p, ms[i])
    case _ => true
  }

  /** How many stack slots a successful push fills: one per scalar, option
      and vector, the sum of the members' for a tuple (an `Err` fills none). */
  function Width(v: RustValue): nat
    decreases v, 1, 0
  {
    match v
    case OptSome(t) => Width(t)
    case ResOk(t) => Width(t)
    case ResErr(_) => 0
    case Tuple(ms) => WidthFrom(ms, 0)
    case _ => 1
  }

  /** The summed widths of `ms[i..]`. */
  function WidthFrom(ms: seq<RustValue>, i: nat): nat
    requires i <= |ms|
    decreases Tuple(ms), 0, |ms| - i
  {
    if i == |ms| then 0 else Width(ms[i]) + WidthFrom(ms, i + 1)
  }

  /** What a successful push returns: 1 for scalars, options' `None` and
      vectors, the arity for a tuple (`count!`), what the inner value
      returns for `Some` and `Ok`. */
  function Count(v: RustValue): int
  {
    match v
    case OptSome(t) => Count(t)
    case ResOk(t) => Count(t)
    case Tuple(ms) => |ms|
    case _ => 1
  }

  /** `().push`: one nil. */
  function UnitEffect(): Effect
  {
    Effect([Nil], Returned(1))
  }

  /** `Integer::push`: one integer. */
  function IntegerEffect(n: int): Effect
  {
    Effect([Integer(n)], Returned(1))
  }

  /** `Number::push`: one number. */
  function NumberEffect(x: Float): Effect
  {
    Effect([Number(x)], Returned(1))
  }

  /** The `Err` arm of `Result::push`: nothing of a success value is
      pushed and the error is raised. */
  function ErrorEffect(e: HostError): Effect
  {
    Effect([], Raised(e))
  }

  /** The effect of `v.push(lstate)`. Whatever the value, a push that
      returns has met no error on the way, has filled `Width` slots and
      returns `Count`; a value that `Succeeds` never raises. */
  function PushEffect(p: Platform, v: RustValue): (r: Effect)
    ensures r.outcome.Returned? ==> Succeeds(p, v)
    ensures r.outcome.Returned? ==> |r.pushed| == Width(v) && r.outcome.count == Count(v)
    ensures Succeeds(p, v) ==> !r.outcome.Raised?
    decreases v, 1, 0
  {
    match v
    case Unit => UnitEffect()
    case Bool(b) => Effect([Boolean(b)], Returned(1))
    case Int(k, n) =>
      if Narrows(k) then
        match TryIntoInteger(p, k, n)
        case Converted(m) => IntegerEffect(m)
        case Failed(e) => ErrorEffect(e)
      else IntegerEffect(n)
    case Num(bits) => NumberEffect(F64(bits))
    case F32(single) => NumberEffect(WidenedF32(single))
    case Str(bytes) => Effect([LString(bytes)], Returned(1))
    case OptNone => UnitEffect()
    case OptSome(t) => PushEffect(p, t)
    case Vec(es) => VecEffect(p, es, 0, map[])
    case ResOk(t) => PushEffect(p, t)
    case ResErr(e) => ErrorEffect(e)
    case Tuple(ms) => TupleEffect(p, ms, 0, [])
  }

  /** The rest of `Vec::push` from element `i` on, when the table on top of
      the stack holds `t`: push the element, store it at key `i + 1`, pop it. */
  function VecEffect(p: Platform, es: seq<RustValue>, i: nat, t: map<int, LuaValue>): (r: Effect)
    requires i <= |es|
    ensures |r.pushed| >= 1 && r.pushed[0].Table?
    ensures r.outcome.Returned? ==>
              |r.pushed| == 1 && r.outcome.count == 1 && forall j :: i <= j < |es| ==> Succeeds(p, es[j])
    ensures (forall j :: i <= j < |es| ==> Succeeds(p, es[j])) ==> !r.outcome.Raised?
    decreases Vec(es), 0, |es| - i
  {
    if i == |es| then Effect([Table(t)], Returned(1))
    else
      var e := PushEffect(p, es[i]);
      if !e.outcome.Returned? then Effect([Table(t)] + e.pushed, e.outcome)
      else if |e.pushed| != 1 then Effect([Table(t)] + e.pushed, Misaligned)
      else VecEffect(p, es, i + 1, RawSet(t, i + 1, e.pushed[0]))
  }

  /** The rest of a tuple's push from member `i` on, when the members before
      it pushed `acc`; the count returned is the arity. */
  function TupleEffect(p: Platform, ms: seq<RustValue>, i: nat, acc: seq<LuaValue>): (r: Effect)
    requires i <= |ms|
    ensures acc <= r.pushed
    ensures r.outcome.Returned? ==>
              |r.pushed| == |acc| + WidthFrom(ms, i) && r.outcome.count == |ms|
              && forall j :: i <= j < |ms| ==> Succeeds(p, ms[j])
    ensures (forall j :: i <= j < |ms| ==> Succeeds(p, ms[j])) ==> !r.outcome.Raised?
    decreases Tuple(ms), 0, |ms| - i
  {
    if i == |ms| then Effect(acc, Returned(|ms|))
    else
      var e := PushEffect(p, ms[i]);
      if e.outcome.Returned? then TupleEffect(p, ms, i + 1, acc + e.pushed)
      else Effect(acc + e.pushed, e.outcome)
  }

  /** A well-formed value's push is never misaligned; it returns exactly
      when `Succeeds` says so, and then it has filled `Width` slots and
      returns `Count`. */
  lemma {:induction false} EffectMatchesShape(p: Platform, v: RustValue)
    requires WellFormed(p, v)
    ensures PushEffect(p, v).outcome.Returned? == Succeeds(p, v)
    ensures !PushEffect(p, v).outcome.Misaligned?
    ensures Succeeds(p, v) ==>
              |PushEffect(p, v).pushed| == Width(v) && PushEffect(p, v).outcome.count == Count(v)
    decreases v, 1, 0
  {
    match v
    case OptSome(t) => EffectMatchesShape(p, t);
    case ResOk(t) => EffectMatchesShape(p, t);
    case Vec(es) => VecEffectMatchesShape(p, es, 0, map[]);
    case Tuple(ms) => TupleEffectMatchesShape(p, ms, 0, []);
    case _ =>
  }

  lemma {:induction false} VecEffectMatchesShape(p: Platform, es: seq<RustValue>, i: nat, t: map<int, LuaValue>)
    requires i <= |es| && WellFormed(p, Vec(es)) && OneSlotFrom(p, es, i)
    ensures VecEffect(p, es, i, t).outcome.Returned? == (forall j :: i <= j < |es| ==> Succeeds(p, es[j]))
    ensures !VecEffect(p, es, i, t).outcome.Misaligned?
    ensures VecEffect(p, es, i, t).outcome.Returned? ==>
              |VecEffect(p, es, i, t).pushed| == 1 && VecEffect(p, es, i, t).outcome.count == 1
    decreases Vec(es), 0, |es| - i
  {
    if i < |es| {
      assert WellFormed(p, es[i]);
      EffectMatchesShape(p, es[i]);
      var e := PushEffect(p, es[i]);
      if e.outcome.Returned? {
        VecEffectMatchesShape(p, es, i + 1, RawSet(t, i + 1, e.pushed[0]));
      }
    }
  }

  /** One round of the vector's loop at an element `i` it reaches: the
      element is well formed; if its push returns, it pushed one value, the
      loop goes on with that value stored at key `i + 1`, and the elements
      it reaches next still fill one slot; otherwise the loop ends with the
      element's values above the table and its outcome. */
  lemma VecRound(p: Platform, es: seq<RustValue>, i: nat, t: map<int, LuaValue>)
    requires i < |es| && WellFormed(p, Vec(es)) && OneSlotFrom(p, es, i)
    ensures WellFormed(p, es[i])
    ensures var e := PushEffect(p, es[i]);
      e.outcome.Returned? ==>
        |e.pushed| == 1 && OneSlotFrom(p, es, i + 1)
        && VecEffect(p, es, i, t) == VecEffect(p, es, i + 1, RawSet(t, i + 1, e.pushed[0]))
    ensures var e := PushEffect(p, es[i]);
      !e.outcome.Returned? ==> VecEffect(p, es, i, t) == Effect([Table(t)] + e.pushed, e.outcome)
  {
    assert WellFormed(p, es[i]);
    EffectMatchesShape(p, es[i]);
  }

  /** `lua_rawseti(L, -2, n)` with a table under the top value stores that
      value in the table and leaves the table on top. */
  lemma StoreBelowTop(s: seq<LuaValue>, t: map<int, LuaValue>, x: LuaValue, n: int)
    ensures var u := s + [Table(t), x];
      u[..|u| - 2] + [Table(RawSet(u[|u| - 2].entries, n, u[|u| - 1]))] + u[|u| - 1..|u| - 1]
        == s + [Table(RawSet(t, n, x))]
  {
    var u := s + [Table(t), x];
    assert u[..|u| - 2] == s;
  }

  lemma {:induction false} TupleEffectMatchesShape(p: Platform, ms: seq<RustValue>, i: nat, acc: seq<LuaValue>)
    requires i <= |ms| && forall j :: 0 <= j < |ms| ==> WellFormed(p, ms[j])
    ensures TupleEffect(p, ms, i, acc).outcome.Returned? == (forall j :: i <= j < |ms| ==> Succeeds(p, ms[j]))
    ensures !TupleEffect(p, ms, i, acc).outcome.Misaligned?
    ensures TupleEffect(p, ms, i, acc).outcome.Returned? ==>
              |TupleEffect(p, ms, i, acc).pushed| == |acc| + WidthFrom(ms, i)
              && TupleEffect(p, ms, i, acc).outcome.count == |ms|
    decreases Tuple(ms), 0, |ms| - i
  {
    if i < |ms| {
      EffectMatchesShape(p, ms[i]);
      var e := PushEffect(p, ms[i]);
      if e.outcome.Returned? {
        TupleEffectMatchesShape(p, ms, i + 1, acc + e.pushed);
      }
    }
  }

  /** Every value of the types behind `push_into_integer!` is an
      `ffi::Integer`, so `into` cannot fail. */
  lemma IntoIntegerFits(p: Platform, k: IntKind, x: int)
    requires Widens(k) && InKindRange(p, k, x)
    ensures InIntegerRange(p, x)
  {
    Pow2Monotone(15, p.integerBits - 1);
    assert Pow2(15) == 0x8000;
  }

  // ---------------------------------------------------------------------
  // The implementations, one per `impl Pushable`.
  // ---------------------------------------------------------------------

  /** `impl Pushable for ()` */
  method PushUnit(L: LuaState) returns (n: int)
    modifies L
    ensures L.stack == old(L.stack) + [Nil] && n == 1
  {
    L.PushNil();
    n := 1;
  }

  /** `impl Pushable for bool`: the flag goes through a `c_int`. */
  method PushBool(L: LuaState, b: bool) returns (n: int)
    modifies L
    ensures L.stack == old(L.stack) + [Boolean(b)] && n == 1
  {
    L.PushBoolean(BoolAsCInt(b));
    n := 1;
  }

  /** `impl Pushable for Integer` */
  method PushInteger(L: LuaState, x: int) returns (n: int)
    requires InIntegerRange(L.platform, x)
    modifies L
    ensures L.stack == old(L.stack) + [Integer(x)] && n == 1
  {
    L.PushInteger(x);
    n := 1;
  }

  /** `push_into_integer!`: widen into `Integer` and push that. */
  method PushIntoInteger(L: LuaState, k: IntKind, x: int) returns (n: int)
    requires Widens(k) && InKindRange(L.platform, k, x)
    modifies L
    ensures L.stack == old(L.stack) + [Integer(x)] && n == 1
  {
    IntoIntegerFits(L.platform, k, x);
    var m := x;
    n := PushInteger(L, m);
  }

  /** `push_try_into_integer!`: a checked conversion into `Integer`, whose
      `Result` is then pushed: `Ok` pushes the integer, `Err` takes the
      error path. */
  method PushTryIntoInteger(L: LuaState, k: IntKind, x: int) returns (r: Outcome)
    requires Narrows(k)
    modifies L
    ensures L.stack == old(L.stack) + PushEffect(L.platform, Int(k, x)).pushed
    ensures r == PushEffect(L.platform, Int(k, x)).outcome
  {
    match TryIntoInteger(L.platform, k, x)
    case Converted(m) =>
      var n := PushInteger(L, m);
      r := Returned(n);
    case Failed(e) =>
      r := Raised(e);
  }

  /** `impl Pushable for Number` */
  method PushNumber(L: LuaState, x: Float) returns (n: int)
    modifies L
    ensures L.stack == old(L.stack) + [Number(x)] && n == 1
  {
    L.PushNumber(x);
    n := 1;
  }

  /** `impl Pushable for f32`: cast to `Number` and push that. */
  method PushF32(L: LuaState, single: bv32) returns (n: int)
    modifies L
    ensures L.stack == old(L.stack) + [Number(WidenedF32(single))] && n == 1
  {
    n := PushNumber(L, WidenedF32(single));
  }

  /** `impl Pushable for String`: the bytes and their count, not a
      NUL-terminated C string. */
  method PushString(L: LuaState, bytes: seq<Byte>) returns (n: int)
    modifies L
    ensures L.stack == old(L.stack) + [LString(bytes)] && n == 1
  {
    L.PushLString(bytes, |bytes|);
    assert bytes[..|bytes|] == bytes;
    n := 1;
  }

  /** `impl Pushable for Option<T>`: `Some(t)` is `t.push`, `None` is `().push`. */
  method PushOption(L: LuaState, v: RustValue) returns (r: Outcome)
    requires (v.OptNone? || v.OptSome?) && WellFormed(L.platform, v)
    modifies L
    ensures L.stack == old(L.stack) + PushEffect(L.platform, v).pushed
    ensures r == PushEffect(L.platform, v).outcome
    decreases v, 0
  {
    match v
    case OptSome(t) =>
      r := Push(L, t);
    case OptNone =>
      var n := PushUnit(L);
      r := Returned(n);
  }

  /** `impl Pushable for Vec<T>`: a new table, then each element pushed and
      stored at its 1-based index, popping it again. */
  method PushVec(L: LuaState, v: RustValue) returns (r: Outcome)
    requires v.Vec? && WellFormed(L.platform, v)
    modifies L
    ensures L.stack == old(L.stack) + PushEffect(L.platform, v).pushed
    ensures r == PushEffect(L.platform, v).outcome
    decreases v, 1
  {
    var es := v.elems;
    ghost var s := L.stack;
    L.CreateTable(|es|, 0);
    ghost var t: map<int, LuaValue> := map[];
    var i := 0;
    while i < |es|
      invariant 0 <= i <= |es|
      invariant L.stack == s + [Table(t)]
      invariant VecEffect(L.platform, es, i, t) == VecEffect(L.platform, es, 0, map[])
      invariant OneSlotFrom(L.platform, es, i)
    {
      var ri;
      ri, t := PushVecElement(L, es, i, s, t);
      if !ri.Returned? {
        r := ri;
        return;
      }
      i := i + 1;
    }
    r := Returned(1);
  }

  /** One round of the loop in `Vec::push`: element `i` is pushed and, if
      that returns, stored at key `i + 1` of the table below it
      (`lua_rawseti(L, -2, i + 1)`), which pops it. */
  method PushVecElement(L: LuaState, es: seq<RustValue>, i: nat, ghost s: seq<LuaValue>, ghost t: map<int, LuaValue>)
    returns (r: Outcome, ghost t': map<int, LuaValue>)
    requires i < |es| && WellFormed(L.platform, Vec(es)) && OneSlotFrom(L.platform, es, i)
    requires L.stack == s + [Table(t)]
    modifies L
    ensures r.Returned? ==>
              && L.stack == s + [Table(t')]
              && VecEffect(L.platform, es, i, t) == VecEffect(L.platform, es, i + 1, t')
              && OneSlotFrom(L.platform, es, i + 1)
    ensures !r.Returned? ==>
              && L.stack == s + VecEffect(L.platform, es, i, t).pushed
              && r == VecEffect(L.platform, es, i, t).outcome
    decreases Vec(es), 0
  {
    VecRound(L.platform, es, i, t);
    r := Push(L, es[i]);
    t' := t;
    if r.Returned? {
      ghost var x := L.stack[|L.stack| - 1];
      assert L.stack == s + [Table(t), x];
      StoreBelowTop(s, t, x, i + 1);
      L.RawSetI(-2, i + 1);
      t' := RawSet(t, i + 1, x);
    }
  }

  /** `impl Pushable for Result<T, E>`: `Ok(v)` is `v.push`; `Err(e)` takes
      the error path. */
  method PushResult(L: LuaState, v: RustValue) returns (r: Outcome)
    requires (v.ResOk? || v.ResErr?) && WellFormed(L.platform, v)
    modifies L
    ensures L.stack == old(L.stack) + PushEffect(L.platform, v).pushed
    ensures r == PushEffect(L.platform, v).outcome
    decreases v, 0
  {
    match v
    case ResOk(t) =>
      r := Push(L, t);
    case ResErr(e) =>
      r := Raised(e);
  }

  /** `push_tuple!`: the members pushed left to right; the count returned is
      the arity. */
  method PushTuple(L: LuaState, v: RustValue) returns (r: Outcome)
    requires v.Tuple? && WellFormed(L.platform, v)
    modifies L
    ensures L.stack == old(L.stack) + PushEffect(L.platform, v).pushed
    ensures r == PushEffect(L.platform, v).outcome
    decreases v, 0
  {
    var ms := v.members;
    ghost var acc: seq<LuaValue> := [];
    var i := 0;
    while i < |ms|
      invariant 0 <= i <= |ms|
      invariant L.stack == old(L.stack) + acc
      invariant TupleEffect(L.platform, ms, i, acc) == PushEffect(L.platform, v)
    {
      var ri := Push(L, ms[i]);
      acc := acc + PushEffect(L.platform, ms[i]).pushed;
      if !ri.Returned? {
        r := ri;
        return;
      }
      i := i + 1;
    }
    r := Returned(|ms|);
  }

  /** `v.push(lstate)`, dispatched on the value's type. */
  method Push(L: LuaState, v: RustValue) returns (r: Outcome)
    requires WellFormed(L.platform, v)
    modifies L
    ensures L.stack == old(L.stack) + PushEffect(L.platform, v).pushed
    ensures r == PushEffect(L.platform, v).outcome
    decreases v, 2
  {
    match v
    case Unit =>
      var n := PushUnit(L);
      r := Returned(n);
    case Bool(b) =>
      var n := PushBool(L, b);
      r := Returned(n);
    case Int(k, x) =>
      if k == LuaInteger {
        var n := PushInteger(L, x);
        r := Returned(n);
      } else if Widens(k) {
        var n := PushIntoInteger(L, k, x);
        r := Returned(n);
      } else {
        r := PushTryIntoInteger(L, k, x);
      }
    case Num(bits) =>
      var n := PushNumber(L, F64(bits));
      r := Returned(n);
    case F32(single) =>
      var n := PushF32(L, single);
      r := Returned(n);
    case Str(bytes) =>
      var n := PushString(L, bytes);
      r := Returned(n);
    case OptNone =>
      r := PushOption(L, v);
    case OptSome(_) =>
      r := PushOption(L, v);
    case Vec(_) =>
      r := PushVec(L, v);
    case ResOk(_) =>
      r := PushResult(L, v);
    case ResErr(_) =>
      r := PushResult(L, v);
    case Tuple(_) =>
      r := PushTuple(L, v);
  }
}
