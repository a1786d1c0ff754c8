# Pushable: marshalling Rust values onto the LuaJIT stack

This project models the `Pushable` protocol of the `luajit` crate
(`crates/luajit/src/pushable.rs`). Each implementation of `Pushable::push`
turns a Rust value into values on the Lua stack and returns how many it
pushed. There are implementations for the scalars (`()`, `bool`, `Integer`,
`Number`, `f32`, `String`), for the smaller and larger integer types, and for
the composites `Option<T>`, `Vec<T>`, `Result<T, E>` and tuples of arity 1
to 16.

The project has three modules.

- `Lua` (`lua.dfy`) stands in for the part of the LuaJIT C API that the
  protocol calls. The `lua_State` becomes a `LuaState` object whose `stack`
  field (a `seq<LuaValue>`) is updated by one method per primitive:
  `lua_pushnil`, `lua_pushboolean`, `lua_pushinteger`, `lua_pushnumber`,
  `lua_pushlstring`, `lua_createtable` and `lua_rawseti`. A table is a value
  holding its integer-keyed entries. Assigning nil removes a key, as in Lua.
  The bit widths of `lua_Integer` and of `usize` are a `Platform` parameter.
  They are equal: the checked conversions of `i32` and `i64` map a
  `TryFromIntError` (`pushable.rs:55`), which compiles only when
  `lua_Integer` is Rust's `isize`.
  `LuaJit64` is 64-bit LuaJIT, where `lua_Integer` is `ptrdiff_t`.
- `Pushable` (`pushable.dfy`) holds the Rust-side value shapes (`RustValue`)
  and the specification function `PushEffect`. `PushEffect` gives what a push
  appends to the stack and how it ends: it returns a count, or it raises an
  error through the error path. There is one method per `impl Pushable`
  (`PushUnit`, `PushVec`, `PushTuple`, …) and a dispatching `Push`. The
  scalar methods (`PushUnit` to `PushString`) return their `c_int` count
  and state the value they append outright; they meet `PushEffect` through
  `Push`. `PushTryIntoInteger`, `PushOption`, `PushVec`, `PushResult`,
  `PushTuple` and `Push` are proved to change the stack by exactly
  `PushEffect` and to end with its outcome. Three structural functions describe a push independently of
  `PushEffect`: `Succeeds` (it does not raise), `Width` (the slots it fills)
  and `Count` (what it returns). `EffectMatchesShape` ties them to
  `PushEffect`.
- `PushableProperties` (`properties.dfy`) holds the lemmas for what the
  protocol promises:
  - which slots each push fills;
  - that the table built for a vector has element `k - 1` at key `k`;
  - that `None` pushes like `()`, and `Some(t)` and `Ok(t)` push like `t`;
  - which integers take the error path;
  - what count is returned.

The error path (`utils::push_error`, reached from the `Err` arm of
`Result::push`) is an abstract outcome, `Raised(e)`. The push stops there.
The error raised for an out-of-range integer is `IntConversion(k)`. It
stands for `crate::Error::push_error(type_name::<k>(), err.to_string())`.

A tuple returns its arity (`count!`), not the sum of its members' counts.
The trait's documentation (`pushable.rs:9-10`) says the count is the number
of values pushed. The code is followed here. The two agree exactly when
every member fills one slot (`TupleCountIsArity`). A tuple with a member
that fills more than one slot, such as `((), ((), ()))`, pushes more values
than it reports (`NestedTupleMiscounts`). `Vec::push` stores each element with
`lua_rawseti(L, -2, i + 1)`, and that index reaches the table only when the
element pushed exactly one value. `WellFormed` demands this of the vector
elements that the loop reaches; elements after the first failing one are
never pushed and may have any width (`VecFailsBeforeWideElement`). The
`Misaligned` outcome marks what happens otherwise (`VecOfPairIsMisaligned`).
`CorrectedPushEffect` is the push with the documented count, where a tuple
returns the sum of its members' counts; with it every successful push
returns the number of values it pushed (`CorrectedCountIsHonest`).

## Model

| member | source | states |
|---|---|---|
| `Lua.LuaState.PushNil` | crates/luajit/src/pushable.rs:16 | appends exactly one nil to the stack |
| `Lua.LuaState.PushBoolean` | crates/luajit/src/pushable.rs:23 | appends one boolean, true exactly when the C int is non-zero |
| `Lua.BoolAsCInt` | crates/luajit/src/pushable.rs:23 | the `bool as c_int` cast is non-zero exactly for `true` |
| `Lua.LuaState.PushInteger` | crates/luajit/src/pushable.rs:30 | takes a value of `lua_Integer`'s range and appends that integer |
| `Lua.LuaState.PushNumber` | crates/luajit/src/pushable.rs:80 | appends one number |
| `Lua.LuaState.PushLString` | crates/luajit/src/pushable.rs:93-97 | appends a string of exactly the first `len` bytes of the buffer, NUL bytes included |
| `Lua.LuaState.CreateTable` | crates/luajit/src/pushable.rs:119 | appends one empty table; the size hints do not change its contents |
| `Lua.LuaState.RawSetI` | crates/luajit/src/pushable.rs:123 | stores the top value into the table at the given negative index under key `n`, pops it, and leaves every other slot unchanged |
| `Lua.RawSet` | crates/luajit/src/pushable.rs:123 | after `t[k] = v` key `k` reads `v`, every other key reads as before, no key but `k` is added, and no nil is ever stored |
| `Pushable.TryIntoInteger` | crates/luajit/src/pushable.rs:54-61 | the checked conversion succeeds exactly when the value is in `lua_Integer`'s range, then keeps the value; otherwise its error is the conversion error of the source type |
| `Pushable.Succeeds` | crates/luajit/src/pushable.rs:8-12 | a definition of the pushes that return normally: no `Err` and no out-of-range checked integer anywhere in the value |
| `Pushable.Width` | crates/luajit/src/pushable.rs:8-12 | a definition of the slots a successful push fills: one per scalar, `None` and vector, the inner value's for `Some`/`Ok`, the members' sum for a tuple |
| `Pushable.Count` | crates/luajit/src/pushable.rs:8-12 | a definition of what a successful push returns: 1 for scalars, `None` and vectors, the inner value's for `Some`/`Ok`, the arity for a tuple |
| `Pushable.PushEffect` | crates/luajit/src/pushable.rs:8-163 | for every value, a push that returns has met no error, has filled `Width` slots and returns `Count`; a value that `Succeeds` never raises |
| `Pushable.VecEffect` | crates/luajit/src/pushable.rs:121-124 | the vector's table is always the first value left; when the loop returns it has left only the table and returns 1, every remaining element having succeeded; if they all succeed it does not raise |
| `Pushable.TupleEffect` | crates/luajit/src/pushable.rs:157-159 | the values already pushed stay a prefix; when the member pushes return they have added the remaining members' summed widths and return the arity, every remaining member having succeeded; if they all succeed it does not raise |
| `Pushable.PushUnit` | crates/luajit/src/pushable.rs:14-19 | `()` appends one nil and returns 1 |
| `Pushable.PushBool` | crates/luajit/src/pushable.rs:21-26 | a `bool` appends the Lua boolean of the same truth value and returns 1 |
| `Pushable.PushInteger` | crates/luajit/src/pushable.rs:28-33 | an `Integer` appends that integer and returns 1 |
| `Pushable.IntoIntegerFits` | crates/luajit/src/pushable.rs:41 | every `i8`, `u8` and `i16` value lies in `lua_Integer`'s range, for every platform width of at least 16 bits |
| `Pushable.PushIntoInteger` | crates/luajit/src/pushable.rs:37-46 | `i8`, `u8`, `i16` widen into `Integer`, append that integer and return 1 |
| `Pushable.PushTryIntoInteger` | crates/luajit/src/pushable.rs:50-66 | `u16` to `usize` convert with a check and push the resulting `Result`: the stack and outcome are exactly `PushEffect`'s |
| `Pushable.PushNumber` | crates/luajit/src/pushable.rs:78-83 | a `Number` appends one number and returns 1 |
| `Pushable.PushF32` | crates/luajit/src/pushable.rs:85-89 | an `f32` is cast to `Number`, appended, and returns 1 |
| `Pushable.PushString` | crates/luajit/src/pushable.rs:91-100 | a `String` appends a Lua string with exactly its bytes and returns 1 |
| `Pushable.PushOption` | crates/luajit/src/pushable.rs:102-112 | `Some(t)` pushes as `t.push` does, `None` as `().push`; stack and outcome are `PushEffect`'s |
| `Pushable.PushVec` | crates/luajit/src/pushable.rs:114-128 | creates a table, pushes each element in order and stores it at key `i + 1`, popping it; stack and outcome are `PushEffect`'s |
| `Pushable.PushVecElement` | crates/luajit/src/pushable.rs:122-123 | pushes element `i`; if that returns, stores it at key `i + 1` of the table below and pops it, with the table left on top as `VecEffect` goes on; otherwise the stack and outcome are where `VecEffect` stops |
| `Pushable.PushResult` | crates/luajit/src/pushable.rs:130-142 | `Ok(v)` pushes as `v.push` does; `Err(e)` takes the error path with `e` |
| `Pushable.PushTuple` | crates/luajit/src/pushable.rs:146-163 | pushes the members left to right and returns the arity; stack and outcome are `PushEffect`'s |
| `Pushable.Push` | crates/luajit/src/pushable.rs:8-12 | for every well-formed value, the stack grows by exactly `PushEffect`'s values and the outcome is `PushEffect`'s |
| `Pushable.EffectMatchesShape` | crates/luajit/src/pushable.rs:8-12 | a well-formed push is never misaligned; it returns exactly when `Succeeds`, and then it has filled `Width` slots and returns `Count` |
| `Pushable.VecEffectMatchesShape` | crates/luajit/src/pushable.rs:118-127 | the vector loop returns exactly when every remaining element succeeds, and then leaves one slot and returns 1 |
| `Pushable.TupleEffectMatchesShape` | crates/luajit/src/pushable.rs:153-160 | the tuple pushes return exactly when every remaining member succeeds, filling the members' summed widths and returning the arity |
| `PushableProperties.ScalarPushesOneValue` | crates/luajit/src/pushable.rs:14-100 | `()`, `bool`, `Integer` (14-33), `Number`, `f32`, `String` (78-100) fill exactly one slot and return 1; `()` pushes nil, the others the value with the same content |
| `PushableProperties.StringKeepsEveryByte` | crates/luajit/src/pushable.rs:91-100 | the pushed string has the same length and the same byte at every position as the `String`, NUL bytes included |
| `PushableProperties.WideningPushesAsInteger` | crates/luajit/src/pushable.rs:37-46 | every `i8`, `u8` or `i16` value pushes exactly what the `Integer` of the same value pushes, one slot, and never fails |
| `PushableProperties.NarrowingChecksIntegerRange` | crates/luajit/src/pushable.rs:50-66 | a checked integer raises exactly when it is outside `Integer`'s range; inside, it pushes as that `Integer`; outside, it pushes nothing and raises the conversion error of its type |
| `PushableProperties.I64NeverFailsOnLuaJit64` | crates/luajit/src/pushable.rs:74 | on 64-bit LuaJIT every `i64` pushes as its `Integer` |
| `PushableProperties.U64MaxFailsOnLuaJit64` | crates/luajit/src/pushable.rs:75 | on 64-bit LuaJIT the largest `u64` pushes nothing and raises the `u64` conversion error |
| `PushableProperties.NoneIsUnit` | crates/luajit/src/pushable.rs:109 | `None` pushes exactly what `()` pushes: one nil, count 1 |
| `PushableProperties.SomeIsInner` | crates/luajit/src/pushable.rs:108 | `Some(t)` pushes exactly what `t` pushes and ends as `t` does |
| `PushableProperties.OkIsInner` | crates/luajit/src/pushable.rs:138 | `Ok(t)` pushes exactly what `t` pushes and ends as `t` does |
| `PushableProperties.ErrRaisesIt` | crates/luajit/src/pushable.rs:139 | `Err(e)` pushes no part of a success value and raises `e` |
| `PushableProperties.EmptyVecIsEmptyTable` | crates/luajit/src/pushable.rs:119-126 | an empty vector pushes one empty table and returns 1 |
| `PushableProperties.VecBuildsArrayTable` | crates/luajit/src/pushable.rs:114-128 | a vector whose elements succeed fills one slot with a table and returns 1; key `k` (1 to the length) reads what element `k - 1` pushed, and there are no other keys |
| `PushableProperties.VecFillsFrom` | crates/luajit/src/pushable.rs:121-124 | the loop keeps the invariant that keys 1 to `i` hold the first `i` elements and no other key is present |
| `PushableProperties.VecOfNonNilsFillsEveryKey` | crates/luajit/src/pushable.rs:121-124 | when no element pushes nil, the table's keys are exactly 1 to the length |
| `PushableProperties.VecRaisesFirstFailure` | crates/luajit/src/pushable.rs:121-124 | the first element that takes the error path ends the vector's push with that element's error |
| `PushableProperties.VecStopsAt` | crates/luajit/src/pushable.rs:121-124 | from element `i` on, the loop raises the error of the first failing element `j` |
| `Pushable.VecRound` | crates/luajit/src/pushable.rs:121-124 | at an element the loop reaches, a push that returns has pushed exactly one value and the loop goes on with it stored at key `i + 1`; a push that does not return ends the loop with its values above the table and its outcome |
| `PushableProperties.VecFailsBeforeWideElement` | crates/luajit/src/pushable.rs:121-124 | `vec![Err(e), Ok(((), ()))]` is well formed and raises `e` with only its empty table pushed, before the two-value element is reached |
| `PushableProperties.VecOfPairIsMisaligned` | crates/luajit/src/pushable.rs:122-123 | an element that pushes two values breaks the one-value assumption behind index `-2` |
| `PushableProperties.TuplePushesMembersInOrder` | crates/luajit/src/pushable.rs:157-159 | a tuple whose members succeed pushes their values one member after another, in declaration order, and returns the arity |
| `PushableProperties.TupleConcatFrom` | crates/luajit/src/pushable.rs:158 | from member `i` on, the members' values follow those already pushed, in order |
| `PushableProperties.TupleSlotsAreMembers` | crates/luajit/src/pushable.rs:157-159 | when every member fills one slot, slot `i` of the pushed region holds exactly what member `i` pushes |
| `PushableProperties.TupleCountIsArity` | crates/luajit/src/pushable.rs:158-159 | a tuple returns its arity; that equals the number of slots filled exactly when every member fills one slot |
| `PushableProperties.ReturnedCountMatchesSlots` | crates/luajit/src/pushable.rs:9-11 | the returned count equals the number of values pushed exactly when every tuple met past `Some`/`Ok` has one-slot members |
| `PushableProperties.NestedTupleMiscounts` | crates/luajit/src/pushable.rs:157-159 | `((), ((), ()))` pushes three nils but returns 2 |
| `PushableProperties.TupleRaisesFirstFailure` | crates/luajit/src/pushable.rs:157-158 | at the first failing member, the earlier members' values and that member's partial push are on the stack, and its error is raised |
| `PushableProperties.TupleStopsAt` | crates/luajit/src/pushable.rs:158 | from member `i` on, the pushes stop at the first failing member `j` with its error |
| `PushableProperties.CorrectedPushEffect` | crates/luajit/src/pushable.rs:9-10 | the push with a tuple's count the sum of its members' counts: whenever it returns, the count is the number of values it pushed |
| `PushableProperties.CorrectedTupleEffect` | crates/luajit/src/pushable.rs:157-159 | the corrected member pushes: the count added since `acc` equals the number of values added since `acc` |
| `PushableProperties.CorrectionKeepsPushes` | crates/luajit/src/pushable.rs:157-159 | the corrected push pushes the same values, and fails the same way, as the code as written; only the count differs |
| `PushableProperties.CorrectionKeepsTuplePushes` | crates/luajit/src/pushable.rs:157-159 | the corrected member pushes from `i` on push the same values and fail the same way as the code's |
| `PushableProperties.CorrectedCountIsHonest` | crates/luajit/src/pushable.rs:9-10 | every well-formed push that succeeds, with the corrected count, pushes what the code pushes and returns exactly the number of those values |
| `PushableProperties.NestedTupleCountedCorrectly` | crates/luajit/src/pushable.rs:9-10 | with the corrected count, `((), ((), ()))` pushes three nils and returns 3 |

## Left out

- `lua_pushinteger`'s conversion to LuaJIT's number representation is not modelled; `Integer(n)` is the exact argument.
- The raw `*mut State` pointer, its validity, and stack capacity (`lua_checkstack`) are not modelled. The primitives only append to, or update, an unbounded `seq`.
- Overflow of the returned `c_int` count is not modelled. A count is an unbounded `int`, at most 16 for a tuple.
- The casts `self.len() as _` and `(i + 1) as _` in `Vec::push` are not modelled. Lengths and keys are assumed to fit in `c_int`.
- `utils::push_error` and `crate::Error::push_error` are not part of this model. Their bodies are not shown. The error path is the outcome `Raised(e)`. The push is taken to stop there, which is the reading under which `push_error` raises with `lua_error`. What `push_error` itself pushes is not modelled.
- The texts of `std::any::type_name` and of `TryFromIntError::to_string()` are kept symbolic, in `IntConversion(kind)`.
- Floating-point values are opaque: a `Number` is its 64-bit pattern, and an `f32` cast to `Number` is the symbolic `WidenedF32(bits)`. Numeric equality between the two forms is not modelled.
- `Width` and `WellFormed` read a vector one element at a time. A Rust `Vec<T>` has a single element type, and the model does not require this.
- After a vector element pushes other than one value, the stack is not followed. That outcome is `Misaligned`, and `WellFormed` excludes it from the methods: a vector is excluded when an element that the loop reaches, and that succeeds, fills other than one slot.
- Table identity is not modelled. Tables are values, which is exact here because every table the protocol builds is new and unaliased. Non-integer keys, the length operator `#`, and the size hints of `lua_createtable` are also not modelled.
- `lua_rawseti` is modelled only for negative indices below the top, the only form the protocol uses. Positive and pseudo-indices are not modelled.
- `push_tuple!` generates one `impl` per arity from 1 to 16. Here it is a single `Tuple` of 1 to 16 members, pushed by one loop. `count!` is the member count.
- `Succeeds`, `Width` and `Count` are definitions without contracts of their own; what they state is proved about them by `PushEffect` and `EffectMatchesShape`.
- UTF-8 validity of `String`, and Rust's move of `self` into `push`, are not modelled. Neither affects what is pushed.

## Findings

| source | as written | input that shows it | evidently intended | confidence | as-written member | corrected member |
|---|---|---|---|---|---|---|
| crates/luajit/src/pushable.rs:157-159 | a tuple returns `count!`, its arity, whatever its members push | `((), ((), ()))` pushes three nils and returns 2 | the count is the number of values pushed, as the trait says at `pushable.rs:9-10`: a tuple returns the sum of its members' counts (`CorrectedPushEffect`) | medium, not executed | `PushableProperties.NestedTupleMiscounts` | `PushableProperties.CorrectedCountIsHonest` |
| crates/luajit/src/pushable.rs:121-123 | each element is stored with `lua_rawseti(L, -2, i + 1)`, which addresses the table only if the element pushed one value | `vec![((), ())]`: the pair leaves two values above the table, so index `-2` is the first nil | every element pushes exactly one value; the model demands this of the elements the loop reaches in `WellFormed`, under which the push is never misaligned | medium, not executed | `PushableProperties.VecOfPairIsMisaligned` | `Pushable.EffectMatchesShape` |
