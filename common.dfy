/** Values shared by every component of the 8-bit von Neumann simulator. */
module Common {

  /** A port slot for one delivery: `Some(v)` when the port holds a value, `None` when it is empty. */
  datatype Option<T> = None | Some(value: T)

  /** An 8-bit value: the range of every register, address and memory cell. */
  type Byte = x: int | 0 <= x < 256

  /** `x & 0xFF` on Python's unbounded two's-complement integers: the low eight bits of `x`,
      that is, its residue modulo 256 (also for negative `x`). */
  function Mask(x: int): (b: Byte)
    ensures (x - b) % 256 == 0
    ensures 0 <= x < 256 ==> b == x
  {
    x % 256
  }

  /** The scheduling request a transition leaves behind: `hold_in(phase, n)` asks for the next
      internal transition after `n` time units, `passivate()` for none until an input arrives,
      `activate()` for one at once. A transition that calls none of them leaves the request as it was. */
  datatype Delay = Hold(n: nat) | Passive | Active
}
