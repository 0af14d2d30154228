/**
  The word that a server shares with its client, and the client's atomic operations on it. All
  arithmetic is on 64-bit words and wraps around.
 */
module Atomics {

  /** The steps of the session that touch the word or the client's two variables. */
  datatype Action =
    | Publish(x: bv64)   // the server sets the word before it announces it
    | Show               // the server reads the word and prints it
    | FetchAdd(d: bv64)
    | CompareSwap
    | Swap
    | FetchAnd
    | FetchOr
    | FetchXor

  /** `replies` are the values the client printed, `shown` those the server printed. */
  datatype Memory = Memory(value: bv64, local: bv64, reply: bv64, replies: seq<bv64>, shown: seq<bv64>)

  /** Addition modulo 2^64. */
  function Plus(a: bv64, b: bv64): bv64 {
    ((a as int + b as int) % 0x1_0000_0000_0000_0000) as bv64
  }

  /** An atomic operation with operand `operand`: the word becomes `value`, the reply is its old value. */
  function Fetch(m: Memory, operand: bv64, value: bv64): Memory {
    Memory(value, operand, m.value, m.replies + [m.value], m.shown)
  }

  function Perform(a: Action, m: Memory): Memory {
    match a
    case Publish(x) => m.(value := x)
    case Show => m.(shown := m.shown + [m.value])
    case FetchAdd(d) => Fetch(m, d, Plus(m.value, d))
    case CompareSwap =>
      var expected := Plus(m.reply, m.local);
      Fetch(m, expected, if m.value == expected then 456 else m.value)
    case Swap => Fetch(m, 123, 123)
    case FetchAnd => Fetch(m, 0xF, m.value & 0xF)
    case FetchOr => Fetch(m, 0xF, m.value | 0xF)
    case FetchXor => Fetch(m, 0xF, m.value ^ 0xF)
  }

  /** An AND, an OR and a XOR with one mask leave nothing of any word. */
  lemma MaskedOut(v: bv64, k: bv64)
    ensures ((v & k) | k) ^ k == 0
  {
    assert (v & k) | k == k;
  }
}
