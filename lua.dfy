/**
 * The part of the Lua C API (through the gmod crate) that the core uses:
 * a value stack, pushes of scalars, table creation and the three table
 * stores. A table is modelled as a value that records, in order, every
 * store performed on it; Lua's own treatment of a stored nil is not
 * modelled.
 */
module Lua {

  /** A lua_Number: either converted from an integer or an opaque double. */
  datatype LuaNumber = Whole(n: int) | Float(bits: bv64)

  datatype LuaValue =
    | Nil
    | Boolean(b: bool)
    | Integer(i: int)
    | Number(n: LuaNumber)
    | Str(s: string)
    | Table(narr: int, nrec: int, stores: seq<Store>)

  /** One store into a table, by the API call that made it. */
  datatype Store =
    | FieldSet(name: string, value: LuaValue)       // lua_setfield
    | TableSet(key: LuaValue, value: LuaValue)      // lua_settable
    | RawIndexSet(index: int, value: LuaValue)      // lua_rawseti

  function WithStore(t: LuaValue, st: Store): (r: LuaValue)
    requires t.Table?
    ensures r.Table? && r.narr == t.narr && r.nrec == t.nrec
    ensures r.stores == t.stores + [st]
  {
    Table(t.narr, t.nrec, t.stores + [st])
  }

  /** Position in `s` of the negative stack index `idx`. */
  function Slot(s: seq<LuaValue>, idx: int): int {
    |s| + idx
  }

  /**
   * The stack after a store into the table at index `idx` that pops the
   * `popped` topmost values.
   */
  function AfterStore(s: seq<LuaValue>, idx: int, popped: nat, st: Store): (r: seq<LuaValue>)
    requires popped < -idx <= |s|
    requires s[Slot(s, idx)].Table?
    ensures |r| == |s| - popped
    ensures forall i :: 0 <= i < |r| && i != Slot(s, idx) ==> r[i] == s[i]
    ensures r[Slot(s, idx)] == WithStore(s[Slot(s, idx)], st)
  {
    s[..|s| - popped][Slot(s, idx) := WithStore(s[Slot(s, idx)], st)]
  }

  class LuaState {
    var stack: seq<LuaValue>

    constructor ()
      ensures stack == []
    {
      stack := [];
    }

    method PushNil()
      modifies this
      ensures stack == old(stack) + [Nil]
    {
      stack := stack + [Nil];
    }

    method PushBoolean(b: bool)
      modifies this
      ensures stack == old(stack) + [Boolean(b)]
    {
      stack := stack + [Boolean(b)];
    }

    method PushInteger(i: int)
      modifies this
      ensures stack == old(stack) + [Integer(i)]
    {
      stack := stack + [Integer(i)];
    }

    method PushNumber(n: LuaNumber)
      modifies this
      ensures stack == old(stack) + [Number(n)]
    {
      stack := stack + [Number(n)];
    }

    method PushString(s: string)
      modifies this
      ensures stack == old(stack) + [Str(s)]
    {
      stack := stack + [Str(s)];
    }

    /** lua_newtable, that is lua_createtable(L, 0, 0). */
    method NewTable()
      modifies this
      ensures stack == old(stack) + [Table(0, 0, [])]
    {
      stack := stack + [Table(0, 0, [])];
    }

    method CreateTable(narr: int, nrec: int)
      modifies this
      ensures stack == old(stack) + [Table(narr, nrec, [])]
    {
      stack := stack + [Table(narr, nrec, [])];
    }

    /** t[name] = v, where t is at `idx` and v on top; pops v. */
    method SetField(idx: int, name: string)
      requires 1 < -idx <= |stack| && stack[Slot(stack, idx)].Table?
      modifies this
      ensures stack == AfterStore(old(stack), idx, 1, FieldSet(name, old(stack)[|old(stack)| - 1]))
    {
      stack := AfterStore(stack, idx, 1, FieldSet(name, stack[|stack| - 1]));
    }

    /** t[k] = v, where t is at `idx`, k just below the top and v on top; pops both. */
    method SetTable(idx: int)
      requires 2 < -idx <= |stack| && stack[Slot(stack, idx)].Table?
      modifies this
      ensures stack == AfterStore(old(stack), idx, 2,
                                  TableSet(old(stack)[|old(stack)| - 2], old(stack)[|old(stack)| - 1]))
    {
      stack := AfterStore(stack, idx, 2, TableSet(stack[|stack| - 2], stack[|stack| - 1]));
    }

    /** t[n] = v without metamethods, where t is at `idx` and v on top; pops v. */
    method RawSetI(idx: int, n: int)
      requires 1 < -idx <= |stack| && stack[Slot(stack, idx)].Table?
      modifies this
      ensures stack == AfterStore(old(stack), idx, 1, RawIndexSet(n, old(stack)[|old(stack)| - 1]))
    {
      stack := AfterStore(stack, idx, 1, RawIndexSet(n, stack[|stack| - 1]));
    }
  }
}
