/**
  The shared word updated in place, and the part of the helloworld session that works on it.
 */
module AtomicsRuntime {
  import opened Atomics

  /** The word, the client's variables `local_value` and `reply_value`, and what has been printed. */
  class Word {
    var value: bv64
    var local: bv64
    var reply: bv64
    var replies: seq<bv64>
    var shown: seq<bv64>

    function Snapshot(): Memory
      reads this
    {
      Memory(value, local, reply, replies, shown)
    }

    /** Line for line, an atomic operation and the line that prints its reply. */
    method Replace(operand: bv64, result: bv64)
      modifies this
      ensures Snapshot() == Fetch(old(Snapshot()), operand, result)
    {
      local := operand;
      reply, value := value, result;
      replies := replies + [reply];
    }

    /** `atomic_compare_swap(raddr, local_value, reply_value)`: expected, and desired and old. */
    method CompareAndSwap()
      modifies this
      ensures Snapshot() == Perform(CompareSwap, old(Snapshot()))
    {
      local := Plus(reply, local);
      var desired := 456;
      reply := value;
      if value == local {
        value := desired;
      }
      replies := replies + [reply];
    }

    method Set(x: bv64)
      modifies this
      ensures Snapshot() == Perform(Publish(x), old(Snapshot()))
    {
      value := x;
    }

    method Print()
      modifies this
      ensures Snapshot() == Perform(Show, old(Snapshot()))
    {
      shown := shown + [value];
    }

    method Add(d: bv64)
      modifies this
      ensures Snapshot() == Perform(FetchAdd(d), old(Snapshot()))
    {
      Replace(d, Plus(value, d));
    }

    method Exchange()
      modifies this
      ensures Snapshot() == Perform(Swap, old(Snapshot()))
    {
      Replace(123, 123);
    }

    method And()
      modifies this
      ensures Snapshot() == Perform(FetchAnd, old(Snapshot()))
    {
      Replace(0xF, value & 0xF);
    }

    method Or()
      modifies this
      ensures Snapshot() == Perform(FetchOr, old(Snapshot()))
    {
      Replace(0xF, value | 0xF);
    }

    method Xor()
      modifies this
      ensures Snapshot() == Perform(FetchXor, old(Snapshot()))
    {
      Replace(0xF, value ^ 0xF);
    }

    /** Two of the client's operations; after each, the server prints the word. */
    method AddThenCompare(addend: bv64)
      requires replies == [] && shown == []
      modifies this
      ensures var sum := Plus(old(value), addend);
              Snapshot() == Memory(456, sum, sum, [old(value), sum], [sum, 456])
    {
      Add(addend);
      Print();
      CompareAndSwap();
      Print();
    }

    method ExchangeThenAnd(word: bv64, sum: bv64)
      requires Snapshot() == Memory(456, sum, sum, [word, sum], [sum, 456])
      modifies this
      ensures Snapshot() == Memory(123 & 0xF, 0xF, 123, [word, sum, 456, 123], [sum, 456, 123, 123 & 0xF])
    {
      Exchange();
      Print();
      And();
      Print();
    }

    method OrThenXor(word: bv64, sum: bv64)
      requires Snapshot() == Memory(123 & 0xF, 0xF, 123, [word, sum, 456, 123], [sum, 456, 123, 123 & 0xF])
      modifies this
      ensures value == 0
      ensures replies == [word, sum, 456, 123, 123 & 0xF, (123 & 0xF) | 0xF]
      ensures shown == [sum, 456, 123, 123 & 0xF, (123 & 0xF) | 0xF, 0]
    {
      Or();
      Print();
      MaskedOut(123, 0xF);
      Xor();
      Print();
    }

    /**
      The part of the session that works on the word: the server sets it, the client operates on it six
      times, and each time the server prints what it finds.
     */
    method WorkOnWord(word: bv64, addend: bv64)
      requires replies == [] && shown == []
      modifies this
      ensures var sum := Plus(word, addend);
              && value == 0
              && replies == [word, sum, 456, 123, 123 & 0xF, (123 & 0xF) | 0xF]
              && shown == [sum, 456, 123, 123 & 0xF, (123 & 0xF) | 0xF, 0]
    {
      Set(word);
      AddThenCompare(addend);
      ExchangeThenAnd(word, Plus(word, addend));
      OrThenXor(word, Plus(word, addend));
    }
  }
}
