/**
 * set_args and _set_args (oclhelpers.hpp): bind a list of arguments to a
 * kernel's argument slots by position, argument i to slot i. The kernel
 * object's argument table is a map from slot index to the value last set
 * there; every native setArg call is also recorded, in order.
 */
module KernelArgs {

  /** The bytes of one argument value as setArg hands them to the runtime. */
  datatype ArgValue = ArgValue(bytes: seq<bv8>)

  /** The table after binding args to the slots from pos on, one slot at a time. */
  function Bound(table: map<nat, ArgValue>, pos: nat, args: seq<ArgValue>): map<nat, ArgValue>
    decreases |args|
  {
    if args == [] then table else Bound(table[pos := args[0]], pos + 1, args[1..])
  }

  /** The setArg calls binding args from pos on: (pos + i, args[i]) for each i, in order. */
  function Calls(pos: nat, args: seq<ArgValue>): seq<(nat, ArgValue)>
    decreases |args|
  {
    if args == [] then [] else [(pos, args[0])] + Calls(pos + 1, args[1..])
  }

  /** One call per argument; the i-th call sets slot pos + i to argument i. */
  lemma {:induction false} CallsAt(pos: nat, args: seq<ArgValue>, i: nat)
    requires i < |args|
    ensures |Calls(pos, args)| == |args| && Calls(pos, args)[i] == (pos + i, args[i])
    decreases |args|
  {
    CallsLength(pos, args);
    if i > 0 {
      CallsAt(pos + 1, args[1..], i - 1);
    }
  }

  lemma {:induction false} CallsLength(pos: nat, args: seq<ArgValue>)
    ensures |Calls(pos, args)| == |args|
    decreases |args|
  {
    if args != [] {
      CallsLength(pos + 1, args[1..]);
    }
  }

  /** The table after a sequence of setArg calls, applied in order. */
  function Replay(table: map<nat, ArgValue>, calls: seq<(nat, ArgValue)>): map<nat, ArgValue>
    decreases |calls|
  {
    if calls == [] then table else Replay(table[calls[0].0 := calls[0].1], calls[1..])
  }

  /** Argument i lands in slot pos + i. */
  lemma {:induction false} BoundWrites(table: map<nat, ArgValue>, pos: nat, args: seq<ArgValue>, i: nat)
    requires i < |args|
    ensures pos + i in Bound(table, pos, args) && Bound(table, pos, args)[pos + i] == args[i]
    decreases |args|
  {
    if i == 0 {
      BoundKeeps(table[pos := args[0]], pos + 1, args[1..], pos);
    } else {
      BoundWrites(table[pos := args[0]], pos + 1, args[1..], i - 1);
    }
  }

  /** Slots outside pos .. pos + |args| - 1 keep what they held. */
  lemma {:induction false} BoundKeeps(table: map<nat, ArgValue>, pos: nat, args: seq<ArgValue>, k: nat)
    requires k < pos || pos + |args| <= k
    ensures k in Bound(table, pos, args) <==> k in table
    ensures k in table ==> Bound(table, pos, args)[k] == table[k]
    decreases |args|
  {
    if args != [] {
      BoundKeeps(table[pos := args[0]], pos + 1, args[1..], k);
    }
  }

  /** Binding writes exactly the slots pos .. pos + |args| - 1 and nothing else. */
  lemma BoundKeys(table: map<nat, ArgValue>, pos: nat, args: seq<ArgValue>)
    ensures forall k: nat :: k in Bound(table, pos, args) <==> k in table || pos <= k < pos + |args|
  {
    forall k: nat
      ensures k in Bound(table, pos, args) <==> k in table || pos <= k < pos + |args|
    {
      if k < pos || pos + |args| <= k {
        BoundKeeps(table, pos, args, k);
      } else {
        BoundWrites(table, pos, args, k - pos);
      }
    }
  }

  /** Replaying the recorded calls gives the bound table: the two views agree. */
  lemma {:induction false} ReplayCalls(table: map<nat, ArgValue>, pos: nat, args: seq<ArgValue>)
    ensures Replay(table, Calls(pos, args)) == Bound(table, pos, args)
    decreases |args|
  {
    if args != [] {
      ReplayCalls(table[pos := args[0]], pos + 1, args[1..]);
    }
  }

  /** A kernel object: its argument slots and the trace of setArg calls made on it. */
  class Kernel {
    var slots: map<nat, ArgValue>
    var calls: seq<(nat, ArgValue)>

    constructor ()
      ensures slots == map[] && calls == []
    {
      slots := map[];
      calls := [];
    }

    /** The native k.setArg(pos, arg). */
    method SetArg(pos: nat, arg: ArgValue)
      modifies this
      ensures slots == old(slots)[pos := arg]
      ensures calls == old(calls) + [(pos, arg)]
    {
      slots := slots[pos := arg];
      calls := calls + [(pos, arg)];
    }

    /**
     * _set_args(k, pos, args...): set the first argument at pos, then the
     * rest from pos + 1; with no arguments, nothing.
     */
    method SetArgsFrom(pos: nat, args: seq<ArgValue>)
      modifies this
      ensures slots == Bound(old(slots), pos, args)
      ensures calls == old(calls) + Calls(pos, args)
      decreases |args|
    {
      if args != [] {
        SetArg(pos, args[0]);
        SetArgsFrom(pos + 1, args[1..]);
      }
    }

    /**
     * set_args(k, args...): argument i goes to slot i and every other slot
     * keeps its value; one setArg call per argument, in increasing slot order.
     */
    method SetArgs(args: seq<ArgValue>)
      modifies this
      ensures slots == Bound(old(slots), 0, args)
      ensures forall i :: 0 <= i < |args| ==> i in slots && slots[i] == args[i]
      ensures forall k: nat :: |args| <= k ==> (k in slots <==> k in old(slots))
      ensures forall k: nat :: |args| <= k && k in old(slots) ==> slots[k] == old(slots)[k]
      ensures args == [] ==> slots == old(slots) && calls == old(calls)
      ensures calls == old(calls) + Calls(0, args)
      ensures |calls| == |old(calls)| + |args|
      ensures forall i :: 0 <= i < |args| ==> calls[|old(calls)| + i] == (i, args[i])
    {
      SetArgsFrom(0, args);
      CallsLength(0, args);
      forall i | 0 <= i < |args| ensures calls[|old(calls)| + i] == (i, args[i]) {
        CallsAt(0, args, i);
      }
      forall i | 0 <= i < |args| ensures i in slots && slots[i] == args[i] {
        BoundWrites(old(slots), 0, args, i);
      }
      forall k: nat | |args| <= k ensures (k in slots <==> k in old(slots)) && (k in old(slots) ==> slots[k] == old(slots)[k]) {
        BoundKeeps(old(slots), 0, args, k);
      }
    }
  }
}
