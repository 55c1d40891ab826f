/** The address space seen by the processor: 64 KiB of bytes addressed by a
    16-bit word, plus the byte/word helpers the core needs. */
module Bus {

  /** Every 16-bit address holds one byte; nothing is ever unmapped. */
  type Memory = bv16 -> bv8

  /** `m` with the byte at `addr` replaced by `v`. */
  function Write(m: Memory, addr: bv16, v: bv8): (r: Memory)
    ensures r(addr) == v
    ensures forall b :: b != addr ==> r(b) == m(b)
  {
    (b: bv16) => if b == addr then v else m(b)
  }

  /** High byte of a word. */
  function Hi(w: bv16): bv8
  {
    (w >> 8) as bv8
  }

  /** Low byte of a word. */
  function Lo(w: bv16): bv8
  {
    (w & 0x00FF) as bv8
  }

  /** The word whose high byte is `hi` and low byte is `lo`. */
  function Word(hi: bv8, lo: bv8): (w: bv16)
    ensures Hi(w) == hi && Lo(w) == lo
  {
    (hi as bv16 << 8) | lo as bv16
  }

  /** The 256-byte page an address lies in. */
  function Page(w: bv16): bv8
  {
    (w / 0x100) as bv8
  }

  /** The stack occupies page 0x01: offset `sp` names address 0x0100 + sp. */
  function StackAddr(sp: bv8): (r: bv16)
    ensures Page(r) == 0x01 && Lo(r) == sp
  {
    0x0100 + sp as bv16
  }

  /** A word splits into its two bytes and is rebuilt from them. */
  lemma WordSplit(w: bv16)
    ensures Word(Hi(w), Lo(w)) == w
  {
  }

  /** Two stack offsets name the same address only when they are equal. */
  lemma StackAddrInjective(p: bv8, q: bv8)
    ensures StackAddr(p) == StackAddr(q) <==> p == q
  {
  }

  /** Two addresses agree in their high byte exactly when they lie on the
      same page. */
  lemma PageMask(w: bv16, v: bv16)
    ensures (w & 0xFF00 == v & 0xFF00) == (Page(w) == Page(v))
  {
  }
}
