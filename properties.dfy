/**
  What the `Pushable` implementations promise, stated about `PushEffect`
  (which `Pushable.Push` and the composite and checked-integer methods are
  proved to perform; the scalar methods state their pushed value outright
  and meet `PushEffect` through `Push`): how many slots
  each push fills and in what order, which key of a vector's table gets which
  element, that `None` pushes as `()` does and `Some(t)`, `Ok(t)` as `t`
  does, which integers take the error path, and what count is returned.
 */
module PushableProperties {
  import opened Lua
  import opened Pushable

  // ---------------------------------------------------------------------
  // Scalars
  // ---------------------------------------------------------------------

  /** A scalar is one Rust value that becomes one Lua value. */
  predicate IsScalar(v: RustValue)
  {
    v.Unit? || v.Bool? || (v.Int? && v.kind == LuaInteger) || v.Num? || v.F32? || v.Str?
  }

  /** Every scalar push fills exactly one slot and returns 1; `()` pushes
      nil and the others the Lua value of the same content. */
  lemma ScalarPushesOneValue(p: Platform, v: RustValue)
    requires IsScalar(v)
    ensures PushEffect(p, v).outcome == Returned(1) && |PushEffect(p, v).pushed| == 1
    ensures v.Unit? ==> PushEffect(p, v).pushed == [Nil]
    ensures v.Bool? ==> PushEffect(p, v).pushed == [Boolean(v.b)]
    ensures v.Int? ==> PushEffect(p, v).pushed == [Integer(v.n)]
    ensures v.Num? ==> PushEffect(p, v).pushed == [Number(F64(v.bits))]
    ensures v.F32? ==> PushEffect(p, v).pushed == [Number(WidenedF32(v.single))]
    ensures v.Str? ==> PushEffect(p, v).pushed == [LString(v.bytes)]
  {
  }

  /** A string is pushed with its full byte count: the Lua string has the
      same length and the same byte at every position, NUL bytes included. */
  lemma StringKeepsEveryByte(p: Platform, bytes: seq<Byte>)
    ensures PushEffect(p, Str(bytes)).outcome == Returned(1)
    ensures |PushEffect(p, Str(bytes)).pushed| == 1
    ensures PushEffect(p, Str(bytes)).pushed[0].LString?
    ensures |PushEffect(p, Str(bytes)).pushed[0].bytes| == |bytes|
    ensures forall i :: 0 <= i < |bytes| ==> PushEffect(p, Str(bytes)).pushed[0].bytes[i] == bytes[i]
  {
  }

  // ---------------------------------------------------------------------
  // Integers
  // ---------------------------------------------------------------------

  /** `i8`, `u8` and `i16` never fail: every value of them is an
      `ffi::Integer` and is pushed exactly as that `Integer` is, in one slot. */
  lemma WideningPushesAsInteger(p: Platform, k: IntKind, x: int)
    requires Widens(k) && InKindRange(p, k, x)
    ensures WellFormed(p, Int(LuaInteger, x))
    ensures PushEffect(p, Int(k, x)) == PushEffect(p, Int(LuaInteger, x))
    ensures PushEffect(p, Int(k, x)) == Effect([Integer(x)], Returned(1))
  {
    IntoIntegerFits(p, k, x);
  }

  /** `u16` up to `usize`: a value within `ffi::Integer`'s range is pushed as
      that `Integer`; any other value pushes nothing and raises the
      conversion error carrying its type. */
  lemma NarrowingChecksIntegerRange(p: Platform, k: IntKind, x: int)
    requires Narrows(k)
    ensures PushEffect(p, Int(k, x)).outcome.Raised? <==> !InIntegerRange(p, x)
    ensures InIntegerRange(p, x) ==> PushEffect(p, Int(k, x)) == PushEffect(p, Int(LuaInteger, x))
    ensures !InIntegerRange(p, x) ==> PushEffect(p, Int(k, x)) == Effect([], Raised(IntConversion(k)))
  {
  }

  /** On 64-bit LuaJIT every `i64` fits: its checked conversion never fails. */
  lemma I64NeverFailsOnLuaJit64(x: int)
    requires InKindRange(LuaJit64, I64, x)
    ensures PushEffect(LuaJit64, Int(I64, x)) == Effect([Integer(x)], Returned(1))
  {
    Pow2Of63();
  }

  /** On 64-bit LuaJIT the largest `u64` does not fit and is raised as a
      conversion error of `u64`, with nothing pushed. */
  lemma U64MaxFailsOnLuaJit64()
    ensures WellFormed(LuaJit64, Int(U64, 0xFFFF_FFFF_FFFF_FFFF))
    ensures PushEffect(LuaJit64, Int(U64, 0xFFFF_FFFF_FFFF_FFFF)) == Effect([], Raised(IntConversion(U64)))
  {
    Pow2Of63();
  }

  // ---------------------------------------------------------------------
  // Option and Result
  // ---------------------------------------------------------------------

  /** `None` pushes exactly what `()` pushes: one nil. */
  lemma NoneIsUnit(p: Platform)
    ensures PushEffect(p, OptNone) == PushEffect(p, Unit)
    ensures PushEffect(p, OptNone) == Effect([Nil], Returned(1))
  {
  }

  /** `Some(t)` pushes exactly what `t` pushes and ends as `t` does. */
  lemma SomeIsInner(p: Platform, t: RustValue)
    ensures PushEffect(p, OptSome(t)) == PushEffect(p, t)
  {
  }

  /** `Ok(t)` pushes exactly what `t` pushes and ends as `t` does. */
  lemma OkIsInner(p: Platform, t: RustValue)
    ensures PushEffect(p, ResOk(t)) == PushEffect(p, t)
  {
  }

  /** `Err(e)` pushes no part of a success value and raises `e`. */
  lemma ErrRaisesIt(p: Platform, e: HostError)
    ensures PushEffect(p, ResErr(e)) == Effect([], Raised(e))
  {
  }

  // ---------------------------------------------------------------------
  // Vec
  // ---------------------------------------------------------------------

  /** An empty vector pushes one empty table. */
  lemma EmptyVecIsEmptyTable(p: Platform)
    ensures PushEffect(p, Vec([])) == Effect([Table(map[])], Returned(1))
  {
  }

  /** A vector whose elements all push successfully fills one slot, with a
      table, and returns 1; reading key `k` (1 to the length) of that table
      gives exactly the value element `k - 1` pushed, and the table has no
      other key. */
  lemma VecBuildsArrayTable(p: Platform, es: seq<RustValue>)
    requires WellFormed(p, Vec(es)) && Succeeds(p, Vec(es))
    ensures PushEffect(p, Vec(es)).outcome == Returned(1)
    ensures |PushEffect(p, Vec(es)).pushed| == 1 && PushEffect(p, Vec(es)).pushed[0].Table?
    ensures var t := PushEffect(p, Vec(es)).pushed[0].entries;
      && (forall k :: 1 <= k <= |es| ==> [RawGet(t, k)] == PushEffect(p, es[k - 1]).pushed)
      && (forall k :: k in t ==> 1 <= k <= |es|)
      && NoNils(t)
  {
    VecFillsFrom(p, es, 0, map[]);
  }

  /** The loop of `Vec::push` from element `i` on, when the table so far
      holds the first `i` elements at keys 1 to `i`. */
  lemma {:induction false} VecFillsFrom(p: Platform, es: seq<RustValue>, i: nat, t: map<int, LuaValue>)
    requires i <= |es| && WellFormed(p, Vec(es)) && Succeeds(p, Vec(es)) && OneSlotFrom(p, es, i)
    requires forall k :: 1 <= k <= i ==> [RawGet(t, k)] == PushEffect(p, es[k - 1]).pushed
    requires forall k :: k in t ==> 1 <= k <= i
    requires NoNils(t)
    ensures VecEffect(p, es, i, t).outcome == Returned(1)
    ensures |VecEffect(p, es, i, t).pushed| == 1 && VecEffect(p, es, i, t).pushed[0].Table?
    ensures var r := VecEffect(p, es, i, t).pushed[0].entries;
      && (forall k :: 1 <= k <= |es| ==> [RawGet(r, k)] == PushEffect(p, es[k - 1]).pushed)
      && (forall k :: k in r ==> 1 <= k <= |es|)
      && NoNils(r)
    decreases |es| - i
  {
    if i < |es| {
      EffectMatchesShape(p, es[i]);
      var e := PushEffect(p, es[i]);
      var t' := RawSet(t, i + 1, e.pushed[0]);
      assert forall k :: 1 <= k <= i + 1 ==> [RawGet(t', k)] == PushEffect(p, es[k - 1]).pushed;
      VecFillsFrom(p, es, i + 1, t');
    }
  }

  /** When no element pushes nil, the table holds keys 1 to the length and
      nothing else. */
  lemma VecOfNonNilsFillsEveryKey(p: Platform, es: seq<RustValue>)
    requires WellFormed(p, Vec(es)) && Succeeds(p, Vec(es))
    requires forall i :: 0 <= i < |es| ==> PushEffect(p, es[i]).pushed != [Nil]
    ensures |PushEffect(p, Vec(es)).pushed| == 1 && PushEffect(p, Vec(es)).pushed[0].Table?
    ensures forall k :: k in PushEffect(p, Vec(es)).pushed[0].entries <==> 1 <= k <= |es|
  {
    VecBuildsArrayTable(p, es);
    var t := PushEffect(p, Vec(es)).pushed[0].entries;
    forall k | 1 <= k <= |es|
      ensures k in t
    {
      assert [RawGet(t, k)] == PushEffect(p, es[k - 1]).pushed;
    }
  }

  /** If element `j` is the first that takes the error path, the vector
      stops there and raises that element's error. */
  lemma VecRaisesFirstFailure(p: Platform, es: seq<RustValue>, j: nat)
    requires WellFormed(p, Vec(es)) && j < |es|
    requires !Succeeds(p, es[j]) && forall i :: 0 <= i < j ==> Succeeds(p, es[i])
    ensures PushEffect(p, Vec(es)).outcome.Raised?
    ensures PushEffect(p, Vec(es)).outcome == PushEffect(p, es[j]).outcome
  {
    VecStopsAt(p, es, 0, map[], j);
  }

  lemma {:induction false} VecStopsAt(p: Platform, es: seq<RustValue>, i: nat, t: map<int, LuaValue>, j: nat)
    requires WellFormed(p, Vec(es)) && i <= j < |es|
    requires !Succeeds(p, es[j]) && forall k :: i <= k < j ==> Succeeds(p, es[k])
    requires OneSlotFrom(p, es, i)
    ensures VecEffect(p, es, i, t).outcome.Raised?
    ensures VecEffect(p, es, i, t).outcome == PushEffect(p, es[j]).outcome
    decreases j - i
  {
    EffectMatchesShape(p, es[i]);
    if i < j {
      var e := PushEffect(p, es[i]);
      VecStopsAt(p, es, i + 1, RawSet(t, i + 1, e.pushed[0]), j);
    } else {
      assert PushEffect(p, es[i]).outcome.Raised?;
    }
  }

  /** A vector whose element pushes two values (a pair) is outside what
      `Vec::push` handles: `lua_rawseti(L, -2, 1)` would address the pair's
      first member, not the table. */
  lemma VecOfPairIsMisaligned(p: Platform)
    ensures !WellFormed(p, Vec([Tuple([Unit, Unit])]))
    ensures PushEffect(p, Vec([Tuple([Unit, Unit])])).outcome == Misaligned
  {
    var pair := Tuple([Unit, Unit]);
    assert Succeeds(p, pair.members[0]) && Succeeds(p, pair.members[1]);
    assert WidthFrom([Unit, Unit], 0) == 2;
    assert Vec([pair]).elems[0] == pair;
    assert PushEffect(p, Tuple([Unit, Unit])).pushed == [Nil, Nil];
  }

  /** A vector that fails before it reaches a two-value element is well
      formed: `vec![Err(e), Ok(((), ()))]` raises `e`, leaving its empty table. */
  lemma VecFailsBeforeWideElement(p: Platform, e: HostError)
    ensures WellFormed(p, Vec([ResErr(e), ResOk(Tuple([Unit, Unit]))]))
    ensures PushEffect(p, Vec([ResErr(e), ResOk(Tuple([Unit, Unit]))])) == Effect([Table(map[])], Raised(e))
  {
    var es := [ResErr(e), ResOk(Tuple([Unit, Unit]))];
    assert !Succeeds(p, es[0]);
    assert WellFormed(p, es[0]) && WellFormed(p, es[1]);
    assert WellFormed(p, Vec(es));
    assert PushEffect(p, es[0]) == Effect([], Raised(e));
    assert VecEffect(p, es, 0, map[]) == Effect([Table(map[])] + [], Raised(e));
  }

  // ---------------------------------------------------------------------
  // Tuples
  // ---------------------------------------------------------------------

  /** The values the members of `ms` push, one member after another. */
  function Concat(p: Platform, ms: seq<RustValue>): seq<LuaValue>
  {
    if ms == [] then [] else PushEffect(p, ms[0]).pushed + Concat(p, ms[1..])
  }

  /** A tuple whose members all push successfully pushes their values in
      declaration order, directly on the stack, and returns the arity. */
  lemma TuplePushesMembersInOrder(p: Platform, ms: seq<RustValue>)
    requires WellFormed(p, Tuple(ms)) && Succeeds(p, Tuple(ms))
    ensures PushEffect(p, Tuple(ms)) == Effect(Concat(p, ms), Returned(|ms|))
  {
    TupleConcatFrom(p, ms, 0, []);
    assert ms[0..] == ms;
  }

  lemma {:induction false} TupleConcatFrom(p: Platform, ms: seq<RustValue>, i: nat, acc: seq<LuaValue>)
    requires i <= |ms| && forall j :: i <= j < |ms| ==> WellFormed(p, ms[j]) && Succeeds(p, ms[j])
    ensures TupleEffect(p, ms, i, acc) == Effect(acc + Concat(p, ms[i..]), Returned(|ms|))
    decreases |ms| - i
  {
    if i == |ms| {
      assert ms[i..] == [];
    } else {
      var e := PushEffect(p, ms[i]);
      EffectMatchesShape(p, ms[i]);
      TupleConcatFrom(p, ms, i + 1, acc + e.pushed);
      assert ms[i..][1..] == ms[i + 1..];
    }
  }

  /** When every member fills one slot, slot `i` of the pushed region holds
      exactly what member `i` pushes. */
  lemma TupleSlotsAreMembers(p: Platform, ms: seq<RustValue>)
    requires WellFormed(p, Tuple(ms)) && Succeeds(p, Tuple(ms))
    requires forall i :: 0 <= i < |ms| ==> Width(ms[i]) == 1
    ensures |PushEffect(p, Tuple(ms)).pushed| == |ms|
    ensures forall i :: 0 <= i < |ms| ==> [PushEffect(p, Tuple(ms)).pushed[i]] == PushEffect(p, ms[i]).pushed
  {
    TuplePushesMembersInOrder(p, ms);
    ConcatOfSingles(p, ms);
  }

  lemma {:induction false} ConcatOfSingles(p: Platform, ms: seq<RustValue>)
    requires forall i :: 0 <= i < |ms| ==> WellFormed(p, ms[i]) && Succeeds(p, ms[i]) && Width(ms[i]) == 1
    ensures |Concat(p, ms)| == |ms|
    ensures forall i :: 0 <= i < |ms| ==> [Concat(p, ms)[i]] == PushEffect(p, ms[i]).pushed
  {
    if ms != [] {
      EffectMatchesShape(p, ms[0]);
      ConcatOfSingles(p, ms[1..]);
      assert forall i :: 1 <= i < |ms| ==> ms[1..][i - 1] == ms[i];
    }
  }

  /** The count a tuple returns is its arity (`count!`), not the number of
      slots its members fill; the two agree exactly when every member fills
      one slot. */
  lemma TupleCountIsArity(p: Platform, ms: seq<RustValue>)
    requires WellFormed(p, Tuple(ms)) && Succeeds(p, Tuple(ms))
    ensures PushEffect(p, Tuple(ms)).outcome == Returned(|ms|)
    ensures |PushEffect(p, Tuple(ms)).pushed| == |ms| <==> forall i :: 0 <= i < |ms| ==> Width(ms[i]) == 1
  {
    EffectMatchesShape(p, Tuple(ms));
    forall i | 0 <= i < |ms|
      ensures Width(ms[i]) >= 1
    {
      WidthPositive(p, ms[i]);
    }
    WidthFromBounds(ms, 0);
  }

  /** A successful push of a well-formed value fills at least one slot. */
  lemma {:induction false} WidthPositive(p: Platform, v: RustValue)
    requires WellFormed(p, v) && Succeeds(p, v)
    ensures Width(v) >= 1
  {
    match v
    case OptSome(t) => WidthPositive(p, t);
    case ResOk(t) => WidthPositive(p, t);
    case Tuple(ms) =>
      forall i | 0 <= i < |ms|
        ensures Width(ms[i]) >= 1
      {
        WidthPositive(p, ms[i]);
      }
      WidthFromBounds(ms, 0);
    case _ =>
  }

  /** With every member at least one slot wide, the members from `i` on fill
      at least one slot each, and exactly one each only if each is one wide. */
  lemma {:induction false} WidthFromBounds(ms: seq<RustValue>, i: nat)
    requires i <= |ms| && forall j :: i <= j < |ms| ==> Width(ms[j]) >= 1
    ensures WidthFrom(ms, i) >= |ms| - i
    ensures WidthFrom(ms, i) == |ms| - i <==> forall j :: i <= j < |ms| ==> Width(ms[j]) == 1
    decreases |ms| - i
  {
    if i < |ms| {
      WidthFromBounds(ms, i + 1);
    }
  }

  /** The count returned equals the number of slots filled exactly when
      every tuple on the way (past `Some` and `Ok`) has one-slot members. */
  predicate CountHonest(v: RustValue)
  {
    match v
    case OptSome(t) => CountHonest(t)
    case ResOk(t) => CountHonest(t)
    case Tuple(ms) => forall i :: 0 <= i < |ms| ==> Width(ms[i]) == 1
    case _ => true
  }

  /** The trait's documented promise (the count returned is the number of
      values pushed, `pushable.rs:9-10`) holds for a successful push exactly
      when `CountHonest` holds. */
  lemma {:induction false} ReturnedCountMatchesSlots(p: Platform, v: RustValue)
    requires WellFormed(p, v) && Succeeds(p, v)
    ensures PushEffect(p, v).outcome.Returned?
    ensures PushEffect(p, v).outcome.count == |PushEffect(p, v).pushed| <==> CountHonest(v)
  {
    EffectMatchesShape(p, v);
    match v
    case OptSome(t) => ReturnedCountMatchesSlots(p, t);
    case ResOk(t) => ReturnedCountMatchesSlots(p, t);
    case Tuple(ms) => TupleCountIsArity(p, ms);
    case _ =>
  }

  /** `((), ((), ()))`: a member that fills two slots makes the tuple push
      three values but return 2. */
  lemma NestedTupleMiscounts()
    ensures WellFormed(LuaJit64, Tuple([Unit, Tuple([Unit, Unit])]))
    ensures PushEffect(LuaJit64, Tuple([Unit, Tuple([Unit, Unit])])) == Effect([Nil, Nil, Nil], Returned(2))
  {
    assert PushEffect(LuaJit64, Tuple([Unit, Unit])) == Effect([Nil, Nil], Returned(2));
  }

  /** If member `j` is the first that takes the error path, the members
      before it have pushed their values, member `j` has pushed what it
      pushes before raising, and its error is raised. */
  lemma TupleRaisesFirstFailure(p: Platform, ms: seq<RustValue>, j: nat)
    requires WellFormed(p, Tuple(ms)) && j < |ms|
    requires !Succeeds(p, ms[j]) && forall i :: 0 <= i < j ==> Succeeds(p, ms[i])
    ensures PushEffect(p, Tuple(ms)).outcome == PushEffect(p, ms[j]).outcome
    ensures PushEffect(p, Tuple(ms)).outcome.Raised?
    ensures PushEffect(p, Tuple(ms)).pushed == Concat(p, ms[..j]) + PushEffect(p, ms[j]).pushed
  {
    TupleStopsAt(p, ms, 0, [], j);
    assert ms[0..j] == ms[..j];
  }

  lemma {:induction false} TupleStopsAt(p: Platform, ms: seq<RustValue>, i: nat, acc: seq<LuaValue>, j: nat)
    requires i <= j < |ms| && !Succeeds(p, ms[j]) && forall k :: i <= k < j ==> Succeeds(p, ms[k])
    requires forall k :: i <= k <= j ==> WellFormed(p, ms[k])
    ensures TupleEffect(p, ms, i, acc).outcome == PushEffect(p, ms[j]).outcome
    ensures TupleEffect(p, ms, i, acc).outcome.Raised?
    ensures TupleEffect(p, ms, i, acc).pushed == acc + Concat(p, ms[i..j]) + PushEffect(p, ms[j]).pushed
    decreases j - i
  {
    if i < j {
      EffectMatchesShape(p, ms[i]);
      var e := PushEffect(p, ms[i]);
      TupleStopsAt(p, ms, i + 1, acc + e.pushed, j);
      assert ms[i..j][1..] == ms[i + 1..j];
    } else {
      EffectMatchesShape(p, ms[j]);
      assert ms[i..j] == [];
    }
  }

  // ---------------------------------------------------------------------
  // The count the trait documents
  // ---------------------------------------------------------------------

  /** The push with the count the trait's documentation promises: a tuple
      returns the sum of what its members' pushes return, instead of its
      arity; everything else is pushed as before. */
  function CorrectedPushEffect(p: Platform, v: RustValue): (r: Effect)
    ensures r.outcome.Returned? ==> r.outcome.count == |r.pushed|
    decreases v, 1, 0
  {
    match v
    case OptSome(t) => CorrectedPushEffect(p, t)
    case ResOk(t) => CorrectedPushEffect(p, t)
    case Tuple(ms) => CorrectedTupleEffect(p, ms, 0, [], 0)
    case _ => PushEffect(p, v)
  }

  /** The members of a tuple from `i` on, when the members before it pushed
      `acc` and returned `n` in all. */
  function CorrectedTupleEffect(p: Platform, ms: seq<RustValue>, i: nat, acc: seq<LuaValue>, n: int): (r: Effect)
    requires i <= |ms|
    ensures r.outcome.Returned? ==> r.outcome.count - n == |r.pushed| - |acc|
    decreases Tuple(ms), 0, |ms| - i
  {
    if i == |ms| then Effect(acc, Returned(n))
    else
      var e := CorrectedPushEffect(p, ms[i]);
      if e.outcome.Returned? then CorrectedTupleEffect(p, ms, i + 1, acc + e.pushed, n + e.outcome.count)
      else Effect(acc + e.pushed, e.outcome)
  }

  /** The correction changes only the count: the values pushed, and whether
      and how the push fails, are those of the code as written. */
  lemma {:induction false} CorrectionKeepsPushes(p: Platform, v: RustValue)
    ensures CorrectedPushEffect(p, v).pushed == PushEffect(p, v).pushed
    ensures CorrectedPushEffect(p, v).outcome.Returned? == PushEffect(p, v).outcome.Returned?
    ensures !PushEffect(p, v).outcome.Returned? ==> CorrectedPushEffect(p, v).outcome == PushEffect(p, v).outcome
    decreases v, 1, 0
  {
    match v
    case OptSome(t) => CorrectionKeepsPushes(p, t);
    case ResOk(t) => CorrectionKeepsPushes(p, t);
    case Tuple(ms) => CorrectionKeepsTuplePushes(p, ms, 0, [], 0);
    case _ =>
  }

  lemma {:induction false} CorrectionKeepsTuplePushes(p: Platform, ms: seq<RustValue>, i: nat, acc: seq<LuaValue>, n: int)
    requires i <= |ms|
    ensures CorrectedTupleEffect(p, ms, i, acc, n).pushed == TupleEffect(p, ms, i, acc).pushed
    ensures CorrectedTupleEffect(p, ms, i, acc, n).outcome.Returned? == TupleEffect(p, ms, i, acc).outcome.Returned?
    ensures !TupleEffect(p, ms, i, acc).outcome.Returned? ==>
              CorrectedTupleEffect(p, ms, i, acc, n).outcome == TupleEffect(p, ms, i, acc).outcome
    decreases Tuple(ms), 0, |ms| - i
  {
    if i < |ms| {
      CorrectionKeepsPushes(p, ms[i]);
      var e := CorrectedPushEffect(p, ms[i]);
      if e.outcome.Returned? {
        CorrectionKeepsTuplePushes(p, ms, i + 1, acc + e.pushed, n + e.outcome.count);
      }
    }
  }

  /** With the corrected count, every well-formed push that succeeds returns
      exactly the number of values it pushed. */
  lemma CorrectedCountIsHonest(p: Platform, v: RustValue)
    requires WellFormed(p, v) && Succeeds(p, v)
    ensures CorrectedPushEffect(p, v) == Effect(PushEffect(p, v).pushed, Returned(|PushEffect(p, v).pushed|))
  {
    EffectMatchesShape(p, v);
    CorrectionKeepsPushes(p, v);
  }

  /** `((), ((), ()))` with the corrected count returns 3. */
  lemma NestedTupleCountedCorrectly()
    ensures CorrectedPushEffect(LuaJit64, Tuple([Unit, Tuple([Unit, Unit])])) == Effect([Nil, Nil, Nil], Returned(3))
  {
    CorrectedCountIsHonest(LuaJit64, Tuple([Unit, Tuple([Unit, Unit])]));
    NestedTupleMiscounts();
  }
}
