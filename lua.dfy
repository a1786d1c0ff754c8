/**
  The part of the LuaJIT C API that the marshalling layer uses, as an
  abstract value stack. Only the stack effect of each primitive is modelled:
  the `lua_State` pointer becomes a `LuaState` object whose `stack` field the
  primitives update, and Lua tables are values holding their integer-keyed
  entries (every table here is freshly created, so nothing can alias it).
 */
module Lua {

  /** A byte of a Lua string. */
  type Byte = b: int | 0 <= b < 256

  /** A floating-point number, kept opaque: either the bit pattern of a
      `double`, or the `double` that Rust's `as` cast makes of an `f32`. */
  datatype Float = F64(bits: bv64) | WidenedF32(single: bv32)

  /** The Lua values that the marshalling layer can produce. */
  datatype LuaValue =
    | Nil
    | Boolean(b: bool)
    | Integer(i: int)
    | Number(x: Float)
    | LString(bytes: seq<Byte>)
    | Table(entries: map<int, LuaValue>)

  /** Bit widths that the build of the VM and the host fix: `lua_Integer`
      (signed) and Rust's `usize`. Rust guarantees at least 16 bits for
      pointer-sized integers, and `Into<lua_Integer>` for `i16`. The checked
      conversion of `i64` and `i32` maps a `TryFromIntError`, which only
      compiles when `lua_Integer` is Rust's `isize`; so the two widths are
      the same. */
  datatype Widths = Widths(integerBits: nat, usizeBits: nat)

  type Platform = w: Widths | w.integerBits >= 16 && w.usizeBits == w.integerBits
    witness Widths(64, 64)

  /** LuaJIT on a 64-bit host: `lua_Integer` is `ptrdiff_t`. */
  const LuaJit64: Platform := Widths(64, 64)

  function Pow2(n: nat): nat
  {
    if n == 0 then 1 else 2 * Pow2(n - 1)
  }

  lemma {:induction false} Pow2Monotone(a: nat, b: nat)
    requires a <= b
    ensures Pow2(a) <= Pow2(b)
    decreases b
  {
    if a < b {
      Pow2Monotone(a, b - 1);
    }
  }

  lemma {:induction false} Pow2Add(a: nat, b: nat)
    ensures Pow2(a + b) == Pow2(a) * Pow2(b)
    decreases a
  {
    if a > 0 {
      Pow2Add(a - 1, b);
    }
  }

  lemma Pow2Of63()
    ensures Pow2(63) == 0x8000_0000_0000_0000
  {
    assert Pow2(15) == 0x8000;
    assert Pow2(16) == 0x1_0000;
    Pow2Add(16, 16);
    Pow2Add(32, 15);
    Pow2Add(47, 16);
  }

  /** `n` is a value of the platform's `lua_Integer` type. */
  predicate InIntegerRange(p: Platform, n: int)
  {
    var half: int := Pow2(p.integerBits - 1);
    -half <= n < half
  }

  /** The value a table holds at key `k`; an absent key reads as nil. */
  function RawGet(t: map<int, LuaValue>, k: int): LuaValue
  {
    if k in t then t[k] else Nil
  }

  /** A Lua table never stores nil: an absent key is what reads as nil. */
  predicate NoNils(t: map<int, LuaValue>)
  {
    forall k :: k in t ==> t[k] != Nil
  }

  /** Raw assignment `t[k] = v`: assigning nil removes the key. */
  function RawSet(t: map<int, LuaValue>, k: int, v: LuaValue): (r: map<int, LuaValue>)
    ensures RawGet(r, k) == v
    ensures forall j :: j != k ==> RawGet(r, j) == RawGet(t, j)
    ensures r.Keys <= t.Keys + {k}
    ensures NoNils(t) ==> NoNils(r)
  {
    if v == Nil then t - {k} else t[k := v]
  }

  /** What a Rust `bool as c_int` cast yields. */
  function BoolAsCInt(b: bool): (r: int)
    ensures (r != 0) == b
  {
    if b then 1 else 0
  }

  /** The VM's value stack; index 0 is the bottom. */
  class LuaState {
    const platform: Platform
    var stack: seq<LuaValue>

    constructor (platform: Platform)
      ensures this.platform == platform && stack == []
    {
      this.platform := platform;
      stack := [];
    }

    /** `lua_pushnil` */
    method PushNil()
      modifies this
      ensures stack == old(stack) + [Nil]
    {
      stack := stack + [Nil];
    }

    /** `lua_pushboolean`: any non-zero C int is true. */
    method PushBoolean(b: int)
      modifies this
      ensures stack == old(stack) + [Boolean(b != 0)]
    {
      stack := stack + [Boolean(b != 0)];
    }

    /** `lua_pushinteger`: its argument has type `lua_Integer`. */
    method PushInteger(n: int)
      requires InIntegerRange(platform, n)
      modifies this
      ensures stack == old(stack) + [Integer(n)]
    {
      stack := stack + [Integer(n)];
    }

    /** `lua_pushnumber` */
    method PushNumber(x: Float)
      modifies this
      ensures stack == old(stack) + [Number(x)]
    {
      stack := stack + [Number(x)];
    }

    /** `lua_pushlstring`: copies the first `len` bytes of the buffer, NUL
        bytes included; the buffer must hold at least `len` bytes. */
    method PushLString(s: seq<Byte>, len: nat)
      requires len <= |s|
      modifies this
      ensures stack == old(stack) + [LString(s[..len])]
    {
      stack := stack + [LString(s[..len])];
    }

    /** `lua_createtable`: the sizes are only preallocation hints, so the new
        table is empty whatever they are. */
    method CreateTable(narr: int, nrec: int)
      modifies this
      ensures stack == old(stack) + [Table(map[])]
    {
      stack := stack + [Table(map[])];
    }

    /** `lua_rawseti(L, idx, n)`: `t[n] = v` where `t` is the table at the
        negative (top-relative) index `idx` and `v` the value on top, which
        is then popped. The slot at `idx` must be a table and must not be the
        top itself. */
    method RawSetI(idx: int, n: int)
      requires -|stack| <= idx <= -2
      requires stack[|stack| + idx].Table?
      modifies this
      ensures var j, top := |old(stack)| + idx, |old(stack)| - 1;
        stack == old(stack)[..j]
                 + [Table(RawSet(old(stack)[j].entries, n, old(stack)[top]))]
                 + old(stack)[j + 1..top]
    {
      var j, top := |stack| + idx, |stack| - 1;
      stack := stack[..j] + [Table(RawSet(stack[j].entries, n, stack[top]))] + stack[j + 1..top];
    }
  }
}
