/** One 8086 register: a 16-bit word with a low-byte view (bits 7..0) and a
    high-byte view (bits 15..8) over the same storage. The views are derived
    by masking on every access; there is no separate byte storage. */
module Registers {

  /** `u8` */
  type Byte = bv8
  /** `u16` */
  type Word = bv16

  /** `(value & 0xFF) as u8` */
  function Low(w: Word): Byte
  {
    (w & 0xFF) as Byte
  }

  /** `((value >> 8) & 0xFF) as u8` */
  function High(w: Word): Byte
  {
    ((w >> 8) & 0xFF) as Byte
  }

  /** `(value & 0xFF00) | (b as u16)`: replaces the low byte only. */
  function WithLow(w: Word, b: Byte): (r: Word)
    ensures Low(r) == b
    ensures High(r) == High(w)
  {
    (w & 0xFF00) | (b as Word)
  }

  /** `(value & 0x00FF) | ((b as u16) << 8)`: replaces the high byte only. */
  function WithHigh(w: Word, b: Byte): (r: Word)
    ensures High(r) == b
    ensures Low(r) == Low(w)
  {
    (w & 0x00FF) | ((b as Word) << 8)
  }

  /** The two byte views recombine to the word: high * 256 + low. */
  lemma Recombine(w: Word)
    ensures High(w) as int * 0x100 + Low(w) as int == w as int
  {
    assert Low(w) as int == (w & 0xFF) as int;
    assert High(w) as int == (w >> 8) as int;
    assert (w >> 8) as int * 0x100 + (w & 0xFF) as int == w as int;
  }

  /** The byte views are the two base-256 digits of the word. */
  lemma ByteViewsAreDigits(w: Word)
    ensures Low(w) as int == w as int % 0x100
    ensures High(w) as int == w as int / 0x100
  {
    Recombine(w);
  }

  /** A word is determined by its two byte views. */
  lemma BytesDetermineWord(w: Word, w': Word)
    ensures Low(w) == Low(w') && High(w) == High(w') <==> w == w'
  {
  }

  class Register {
    var value: Word

    /** `Register::new`: every register starts at 0. */
    constructor ()
      ensures value == 0
      ensures GetLow() == 0 && GetHigh() == 0
    {
      value := 0;
    }

    /** `get`: the full word, which is high * 256 + low. */
    function Get(): (w: Word)
      reads this
      ensures w as int == GetHigh() as int * 0x100 + GetLow() as int
    {
      Recombine(value);
      value
    }

    /** `set`: replaces the full word. */
    method Set(v: Word)
      modifies this
      ensures value == v
      ensures Get() == v
    {
      value := v;
    }

    /** `get_low`: bits 7..0, i.e. the word modulo 256. */
    function GetLow(): (b: Byte)
      reads this
      ensures b as int == value as int % 0x100
    {
      ByteViewsAreDigits(value);
      Low(value)
    }

    /** `get_high`: bits 15..8, i.e. the word divided by 256. */
    function GetHigh(): (b: Byte)
      reads this
      ensures b as int == value as int / 0x100
    {
      ByteViewsAreDigits(value);
      High(value)
    }

    /** `set_low`: the low byte becomes `b`, the high byte keeps its value. */
    method SetLow(b: Byte)
      modifies this
      ensures value == WithLow(old(value), b)
      ensures Low(value) == b
      ensures High(value) == High(old(value))
    {
      value := (value & 0xFF00) | (b as Word);
    }

    /** `set_high`: the high byte becomes `b`, the low byte keeps its value. */
    method SetHigh(b: Byte)
      modifies this
      ensures value == WithHigh(old(value), b)
      ensures High(value) == b
      ensures Low(value) == Low(old(value))
    {
      value := (value & 0x00FF) | ((b as Word) << 8);
    }
  }
}
