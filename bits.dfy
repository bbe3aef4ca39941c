/** Machine words of the emulated 8-bit CPU: bytes, 16-bit words, and the
    64 KiB address space as the dispatcher sees it. */
module Bits {

  type u8 = x: int | 0 <= x < 0x100
  type u16 = x: int | 0 <= x < 0x1_0000

  /** The 64 KiB of guest memory currently visible through the bank selector. */
  type Mem64 = s: seq<u8> | |s| == 0x1_0000 witness seq(0x1_0000, _ => 0 as u8)

  /** Low byte of a register pair (C of BC, E of DE). */
  function Lo(w: u16): u8 { w % 0x100 }

  /** High byte of a register pair (B of BC, D of DE). */
  function Hi(w: u16): u8 { w / 0x100 }

  /** The word `(hi << 8) | lo`. */
  function Word(hi: u8, lo: u8): (w: u16)
    ensures Hi(w) == hi && Lo(w) == lo
  {
    hi * 0x100 + lo
  }

  datatype Option<T> = None | Some(value: T)

  /** 16-bit wrap-around, as a store into a `uint16_t` performs. */
  function Wrap16(x: int): u16 { x % 0x1_0000 }
}
