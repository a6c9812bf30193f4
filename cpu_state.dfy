/** The architectural state of an 8086: eight 16-bit registers (four general
    purpose ones with byte halves, four index/pointer ones), a signed 16-bit
    instruction pointer and two flags, addressed by name. */
module Cpu {
  import opened Registers

  /** `i16` */
  type I16 = x: int | -0x8000 <= x < 0x8000

  /** The ways in which a call aborts: each is a `panic!` of the original. */
  datatype Error = UnknownRegister | InvalidOperation | UnknownFlag

  datatype Option<T> = None | Some(value: T)

  /** A read that either yields a value or aborts. */
  datatype Result<T> = Ok(value: T) | Err(error: Error)

  /** A write that either takes effect or aborts. */
  datatype Outcome = Done | Failed(error: Error)

  // ---------------------------------------------------------------------
  // Register and flag names

  /** The sixteen names a register can be read or written by. */
  datatype RegisterName =
    | AL | AH | AX
    | BL | BH | BX
    | CL | CH | CX
    | DL | DH | DX
    | SI | DI | BP | SP

  /** Which part of its register a name addresses. */
  datatype Part = Whole | LowByte | HighByte

  function Spelling(n: RegisterName): string
  {
    match n
    case AL => "al" case AH => "ah" case AX => "ax"
    case BL => "bl" case BH => "bh" case BX => "bx"
    case CL => "cl" case CH => "ch" case CX => "cx"
    case DL => "dl" case DH => "dh" case DX => "dx"
    case SI => "si" case DI => "di" case BP => "bp" case SP => "sp"
  }

  /** Resolves a name against the closed set of sixteen register names
      (case-sensitive); `Spelling` is its inverse. */
  function ParseRegister(name: string): (r: Option<RegisterName>)
    ensures r.Some? ==> Spelling(r.value) == name
    ensures r.None? <==> forall n :: Spelling(n) != name
  {
    match name
    case "al" => Some(AL) case "ah" => Some(AH) case "ax" => Some(AX)
    case "bl" => Some(BL) case "bh" => Some(BH) case "bx" => Some(BX)
    case "cl" => Some(CL) case "ch" => Some(CH) case "cx" => Some(CX)
    case "dl" => Some(DL) case "dh" => Some(DH) case "dx" => Some(DX)
    case "si" => Some(SI) case "di" => Some(DI) case "bp" => Some(BP) case "sp" => Some(SP)
    case _ => None
  }

  /** Every register name is reachable: some string resolves to it. With
      the contract of `ParseRegister`, the accepted strings and the sixteen
      names are in one-to-one correspondence. */
  lemma RegisterNameReachable(n: RegisterName)
    ensures exists name :: ParseRegister(name) == Some(n)
  {
    assert ParseRegister(Spelling(n)) == Some(n);
  }

  /** The part of its register that a name addresses: the byte names of
      the four general purpose registers address one byte, every other name
      the whole word. */
  function PartOf(n: RegisterName): Part
  {
    match n
    case AL | BL | CL | DL => LowByte
    case AH | BH | CH | DH => HighByte
    case _ => Whole
  }

  /** The word name of the register that `n` addresses a part of. */
  function Home(n: RegisterName): (w: RegisterName)
    ensures PartOf(w) == Whole
    ensures PartOf(n) == Whole ==> w == n
  {
    match n
    case AL | AH | AX => AX
    case BL | BH | BX => BX
    case CL | CH | CX => CX
    case DL | DH | DX => DX
    case _ => n
  }

  /** Two names share storage: the same register, and the same byte or one
      of them the whole word. `al` and `ah` do not alias; `al` and `ax` do. */
  predicate Aliases(n: RegisterName, m: RegisterName)
  {
    Home(n) == Home(m) && (PartOf(n) == Whole || PartOf(m) == Whole || PartOf(n) == PartOf(m))
  }

  datatype Flag = Sign | Zero

  function FlagSpelling(f: Flag): string
  {
    match f
    case Sign => "sign"
    case Zero => "zero"
  }

  /** Resolves a name against the closed set of flag names; `FlagSpelling`
      is its inverse. */
  function ParseFlag(name: string): (r: Option<Flag>)
    ensures r.Some? ==> FlagSpelling(r.value) == name
    ensures r.None? <==> forall f :: FlagSpelling(f) != name
  {
    match name
    case "sign" => Some(Sign)
    case "zero" => Some(Zero)
    case _ => None
  }

  /** Every flag is reachable: some string resolves to it. */
  lemma FlagReachable(f: Flag)
    ensures exists name :: ParseFlag(name) == Some(f)
  {
    assert ParseFlag(FlagSpelling(f)) == Some(f);
  }

  // ---------------------------------------------------------------------
  // The state as a value, and reads and writes on it by name

  /** Everything a `CpuState` holds, as one value. */
  datatype Snapshot = Snapshot(
    ax: Word, bx: Word, cx: Word, dx: Word,
    si: Word, di: Word, bp: Word, sp: Word,
    ip: I16,
    signFlag: bool, zeroFlag: bool)

  /** The state after construction. */
  function Reset(): (s: Snapshot)
    ensures forall n :: Read(s, n) == 0
    ensures s.ip == 0 && !s.signFlag && !s.zeroFlag
  {
    Snapshot(0, 0, 0, 0, 0, 0, 0, 0, 0, false, false)
  }

  /** The full word of the register that `n` names or is a byte of. */
  function WordOf(s: Snapshot, n: RegisterName): Word
  {
    match n
    case AL | AH | AX => s.ax
    case BL | BH | BX => s.bx
    case CL | CH | CX => s.cx
    case DL | DH | DX => s.dx
    case SI => s.si
    case DI => s.di
    case BP => s.bp
    case SP => s.sp
  }

  /** `s` with the register that `n` names or is a byte of set to `w`. */
  function WithWord(s: Snapshot, n: RegisterName, w: Word): (t: Snapshot)
    ensures WordOf(t, n) == w
    ensures t.ip == s.ip && t.signFlag == s.signFlag && t.zeroFlag == s.zeroFlag
  {
    match n
    case AL | AH | AX => s.(ax := w)
    case BL | BH | BX => s.(bx := w)
    case CL | CH | CX => s.(cx := w)
    case DL | DH | DX => s.(dx := w)
    case SI => s.(si := w)
    case DI => s.(di := w)
    case BP => s.(bp := w)
    case SP => s.(sp := w)
  }

  /** `s` with the word of the register whose word name is `h` set to `w`,
      stated register by register: each word is replaced exactly when its
      name is `h`. */
  function SetRegister(s: Snapshot, h: RegisterName, w: Word): Snapshot
  {
    s.(ax := if h == AX then w else s.ax, bx := if h == BX then w else s.bx,
       cx := if h == CX then w else s.cx, dx := if h == DX then w else s.dx,
       si := if h == SI then w else s.si, di := if h == DI then w else s.di,
       bp := if h == BP then w else s.bp, sp := if h == SP then w else s.sp)
  }

  /** Setting two different registers commutes. */
  lemma SetRegistersCommute(s: Snapshot, h: RegisterName, k: RegisterName, a: Word, b: Word)
    requires h != k
    ensures SetRegister(SetRegister(s, h, a), k, b) == SetRegister(SetRegister(s, k, b), h, a)
  {
  }

  /** Writing the word of a name writes the word of its register and no
      other. */
  lemma WithWordSetsHome(s: Snapshot, n: RegisterName, w: Word)
    ensures WithWord(s, n, w) == SetRegister(s, Home(n), w)
  {
  }

  /** Setting the word of one register leaves the word of every other
      register as it was. */
  lemma WithWordFrame(s: Snapshot, n: RegisterName, w: Word, m: RegisterName)
    requires Home(m) != Home(n)
    ensures WordOf(WithWord(s, n, w), m) == WordOf(s, m)
  {
  }

  /** Setting the words of two different registers commutes. */
  lemma WithWordsCommute(s: Snapshot, n: RegisterName, m: RegisterName, a: Word, b: Word)
    requires Home(n) != Home(m)
    ensures WithWord(WithWord(s, n, a), m, b) == WithWord(WithWord(s, m, b), n, a)
  {
    WithWordSetsHome(s, n, a);
    WithWordSetsHome(s, m, b);
    WithWordSetsHome(WithWord(s, n, a), m, b);
    WithWordSetsHome(WithWord(s, m, b), n, a);
    SetRegistersCommute(s, Home(n), Home(m), a, b);
  }

  /** Setting the word of one register twice keeps the second word. */
  lemma WithWordTwice(s: Snapshot, n: RegisterName, a: Word, b: Word)
    ensures WithWord(WithWord(s, n, a), n, b) == WithWord(s, n, b)
  {
    WithWordSetsHome(s, n, a);
    WithWordSetsHome(s, n, b);
    WithWordSetsHome(WithWord(s, n, a), n, b);
  }

  /** The value a part of a word reads as: a byte zero-extended, or the
      word. */
  function View(w: Word, p: Part): (v: Word)
    ensures p != Whole ==> v < 0x100
  {
    match p
    case Whole => w
    case LowByte => Low(w) as Word
    case HighByte => High(w) as Word
  }

  /** `w` with part `p` replaced by `v`; a byte part takes `v as u8`, the
      low eight bits of `v`. */
  function Update(w: Word, p: Part, v: Word): Word
  {
    match p
    case Whole => v
    case LowByte => WithLow(w, Low(v))
    case HighByte => WithHigh(w, Low(v))
  }

  /** The value read by name. */
  function Read(s: Snapshot, n: RegisterName): (v: Word)
    ensures PartOf(n) != Whole ==> v < 0x100
  {
    View(WordOf(s, n), PartOf(n))
  }

  /** The state after a write by name. */
  function Write(s: Snapshot, n: RegisterName, v: Word): (t: Snapshot)
    ensures t.ip == s.ip && t.signFlag == s.signFlag && t.zeroFlag == s.zeroFlag
  {
    WithWord(s, n, Update(WordOf(s, n), PartOf(n), v))
  }

  function FlagValue(s: Snapshot, f: Flag): bool
  {
    match f
    case Sign => s.signFlag
    case Zero => s.zeroFlag
  }

  /** The state after setting one flag: only that flag changes. */
  function WithFlag(s: Snapshot, f: Flag, b: bool): (t: Snapshot)
    ensures FlagValue(t, f) == b
    ensures forall g :: g != f ==> FlagValue(t, g) == FlagValue(s, g)
    ensures t.(signFlag := s.signFlag, zeroFlag := s.zeroFlag) == s
  {
    match f
    case Sign => s.(signFlag := b)
    case Zero => s.(zeroFlag := b)
  }

  /** A byte part reads as the corresponding base-256 digit of the word:
      the low byte is the word modulo 256, the high byte the word divided
      by 256. */
  lemma ViewIsDigit(w: Word, p: Part)
    ensures p == LowByte ==> View(w, p) as int == w as int % 0x100
    ensures p == HighByte ==> View(w, p) as int == w as int / 0x100
  {
    ByteViewsAreDigits(w);
  }

  /** Reading back an updated part: the whole word reads as `v`, a byte as
      `v` modulo 256. */
  lemma ViewAfterUpdate(w: Word, p: Part, v: Word)
    ensures p == Whole ==> View(Update(w, p, v), p) == v
    ensures p != Whole ==> View(Update(w, p, v), p) as int == v as int % 0x100
  {
    ByteViewsAreDigits(v);
  }

  /** Updating one byte leaves the other byte as it was. */
  lemma UpdateKeepsOtherByte(w: Word, p: Part, q: Part, v: Word)
    requires p != Whole && q != Whole && p != q
    ensures View(Update(w, p, v), q) == View(w, q)
  {
  }

  /** A byte update is mask-and-combine: the result, as a number, keeps
      the other digit of `w` and takes `v` modulo 256 as the new digit. */
  lemma UpdateMergesByte(w: Word, p: Part, v: Word)
    ensures p == LowByte ==> Update(w, p, v) as int == w as int / 0x100 * 0x100 + v as int % 0x100
    ensures p == HighByte ==> Update(w, p, v) as int == v as int % 0x100 * 0x100 + w as int % 0x100
  {
    var w' := Update(w, p, v);
    Recombine(w');
    ByteViewsAreDigits(w);
    ByteViewsAreDigits(v);
  }

  /** A second update of the same part overrides the first. */
  lemma UpdateTwice(w: Word, p: Part, v: Word, u: Word)
    ensures Update(Update(w, p, v), p, u) == Update(w, p, u)
  {
    BytesDetermineWord(Update(Update(w, p, v), p, u), Update(w, p, u));
  }

  /** Updates of the two different bytes of a word commute. */
  lemma ByteUpdatesCommute(w: Word, p: Part, q: Part, v: Word, u: Word)
    requires p != Whole && q != Whole && p != q
    ensures Update(Update(w, p, v), q, u) == Update(Update(w, q, u), p, v)
  {
    BytesDetermineWord(Update(Update(w, p, v), q, u), Update(Update(w, q, u), p, v));
  }

  /** A name and the word name of its register address the same word. */
  lemma HomeSharesWord(s: Snapshot, n: RegisterName)
    ensures WordOf(s, Home(n)) == WordOf(s, n)
    ensures Read(s, Home(n)) == WordOf(s, n)
  {
  }

  /** A byte name reads the corresponding base-256 digit of its register,
      zero-extended. */
  lemma ByteReadIsDigit(s: Snapshot, n: RegisterName)
    ensures PartOf(n) == LowByte ==> Read(s, n) as int == Read(s, Home(n)) as int % 0x100
    ensures PartOf(n) == HighByte ==> Read(s, n) as int == Read(s, Home(n)) as int / 0x100
  {
    HomeSharesWord(s, n);
    ViewIsDigit(WordOf(s, n), PartOf(n));
  }

  /** Reading back what was written: a word name returns the word, a byte
      name the written value truncated to its low eight bits. */
  lemma ReadAfterWrite(s: Snapshot, n: RegisterName, v: Word)
    ensures PartOf(n) == Whole ==> Read(Write(s, n, v), n) == v
    ensures PartOf(n) != Whole ==> Read(Write(s, n, v), n) as int == v as int % 0x100
  {
    ViewAfterUpdate(WordOf(s, n), PartOf(n), v);
  }

  /** A write changes nothing that a name not aliasing it reads: the other
      registers, and the other byte of the same register. */
  lemma WriteFrame(s: Snapshot, n: RegisterName, m: RegisterName, v: Word)
    requires !Aliases(n, m)
    ensures Read(Write(s, n, v), m) == Read(s, m)
  {
    if Home(n) == Home(m) {
      UpdateKeepsOtherByte(WordOf(s, n), PartOf(n), PartOf(m), v);
    } else {
      WithWordFrame(s, n, Update(WordOf(s, n), PartOf(n), v), m);
    }
  }

  /** A second write by the same name overrides the first. */
  lemma LastWriteWins(s: Snapshot, n: RegisterName, v: Word, u: Word)
    ensures Write(Write(s, n, v), n, u) == Write(s, n, u)
  {
    var a := Update(WordOf(s, n), PartOf(n), v);
    UpdateTwice(WordOf(s, n), PartOf(n), v, u);
    WithWordTwice(s, n, a, Update(a, PartOf(n), u));
  }

  /** Writes by names that do not alias commute. */
  lemma WritesCommute(s: Snapshot, n: RegisterName, m: RegisterName, v: Word, u: Word)
    requires !Aliases(n, m)
    ensures Write(Write(s, n, v), m, u) == Write(Write(s, m, u), n, v)
  {
    if Home(n) == Home(m) {
      SameRegisterWritesCommute(s, n, m, v, u);
    } else {
      OtherRegisterWritesCommute(s, n, m, v, u);
    }
  }

  /** Writes to two different registers commute. */
  lemma OtherRegisterWritesCommute(s: Snapshot, n: RegisterName, m: RegisterName, v: Word, u: Word)
    requires Home(n) != Home(m)
    ensures Write(Write(s, n, v), m, u) == Write(Write(s, m, u), n, v)
  {
    var a, b := Update(WordOf(s, n), PartOf(n), v), Update(WordOf(s, m), PartOf(m), u);
    WithWordFrame(s, n, a, m);
    WithWordFrame(s, m, b, n);
    WithWordsCommute(s, n, m, a, b);
  }

  /** Writes to the two different bytes of one register commute. */
  lemma SameRegisterWritesCommute(s: Snapshot, n: RegisterName, m: RegisterName, v: Word, u: Word)
    requires Home(n) == Home(m) && !Aliases(n, m)
    ensures Write(Write(s, n, v), m, u) == Write(Write(s, m, u), n, v)
  {
    ByteUpdatesCommute(WordOf(s, n), PartOf(n), PartOf(m), v, u);
  }

  /** A byte write merges into the word of its register: the other byte
      keeps its value. */
  lemma ByteWriteMergesIntoWord(s: Snapshot, n: RegisterName, v: Word)
    ensures PartOf(n) == LowByte ==>
      Read(Write(s, n, v), Home(n)) as int == Read(s, Home(n)) as int / 0x100 * 0x100 + v as int % 0x100
    ensures PartOf(n) == HighByte ==>
      Read(Write(s, n, v), Home(n)) as int == v as int % 0x100 * 0x100 + Read(s, Home(n)) as int % 0x100
  {
    HomeSharesWord(s, n);
    HomeSharesWord(Write(s, n, v), n);
    UpdateMergesByte(WordOf(s, n), PartOf(n), v);
  }

  // ---------------------------------------------------------------------
  // The processor state object

  class CpuState {
    // General purpose registers
    const ax: Register
    const bx: Register
    const cx: Register
    const dx: Register
    // Index registers
    const si: Register
    const di: Register
    const bp: Register
    const sp: Register

    var ip: I16
    var signFlag: bool
    var zeroFlag: bool

    /** The eight registers are eight separate objects. It reads only the
        `const` register fields, which no method can change, so once the
        constructor establishes it, it holds for the object's whole life;
        that is why the methods do not restate it in an `ensures`. */
    ghost predicate Valid()
    {
      ax != bx && ax != cx && ax != dx && ax != si && ax != di && ax != bp && ax != sp &&
      bx != cx && bx != dx && bx != si && bx != di && bx != bp && bx != sp &&
      cx != dx && cx != si && cx != di && cx != bp && cx != sp &&
      dx != si && dx != di && dx != bp && dx != sp &&
      si != di && si != bp && si != sp &&
      di != bp && di != sp &&
      bp != sp
    }

    /** The whole state as a value. */
    function State(): Snapshot
      reads this, ax, bx, cx, dx, si, di, bp, sp
    {
      Snapshot(ax.value, bx.value, cx.value, dx.value,
               si.value, di.value, bp.value, sp.value,
               ip, signFlag, zeroFlag)
    }

    /** `CpuState::new`: all registers 0, ip 0, both flags clear. */
    constructor ()
      ensures Valid()
      ensures fresh(ax) && fresh(bx) && fresh(cx) && fresh(dx)
      ensures fresh(si) && fresh(di) && fresh(bp) && fresh(sp)
      ensures State() == Reset()
    {
      ax := new Register();
      bx := new Register();
      cx := new Register();
      dx := new Register();
      si := new Register();
      di := new Register();
      bp := new Register();
      sp := new Register();
      ip := 0;
      signFlag := false;
      zeroFlag := false;
    }

    /** `modify_ip`: moves ip by `d`; the plain `+=` of the original aborts
        on i16 overflow in a checked build, so callers stay in range. */
    method ModifyIp(d: I16)
      requires -0x8000 <= ip + d < 0x8000
      modifies this
      ensures State() == old(State()).(ip := old(ip) + d)
    {
      ip := ip + d;
    }

    /** `get_register_value`: a byte name yields its byte zero-extended, a
        word name its word; any other name aborts with UnknownRegister. */
    function GetRegisterValue(name: string): (r: Result<Word>)
      reads this, ax, bx, cx, dx, si, di, bp, sp
      ensures r.Err? <==> ParseRegister(name).None?
      ensures r.Err? ==> r.error == UnknownRegister
      ensures r.Ok? ==> r.value == Read(State(), ParseRegister(name).value)
    {
      match name
      case "al" => Ok(ax.GetLow() as Word)
      case "ah" => Ok(ax.GetHigh() as Word)
      case "ax" => Ok(ax.Get())
      case "bl" => Ok(bx.GetLow() as Word)
      case "bh" => Ok(bx.GetHigh() as Word)
      case "bx" => Ok(bx.Get())
      case "cl" => Ok(cx.GetLow() as Word)
      case "ch" => Ok(cx.GetHigh() as Word)
      case "cx" => Ok(cx.Get())
      case "dl" => Ok(dx.GetLow() as Word)
      case "dh" => Ok(dx.GetHigh() as Word)
      case "dx" => Ok(dx.Get())
      case "si" => Ok(si.Get())
      case "di" => Ok(di.Get())
      case "bp" => Ok(bp.Get())
      case "sp" => Ok(sp.Get())
      case _ => Err(UnknownRegister)
    }

    /** `get_ip` */
    function GetIp(): (r: I16)
      reads this
      ensures r == ip
    {
      ip
    }

    /** `set_new_register_value`: a byte name stores the low eight bits of
        `v` into its byte, a word name stores `v`. Writing "ip" aborts with
        InvalidOperation, any other unknown name with UnknownRegister; an
        aborted call changes nothing. */
    method SetNewRegisterValue(name: string, v: Word) returns (o: Outcome)
      requires Valid()
      modifies ax, bx, cx, dx, si, di, bp, sp
      ensures o.Done? <==> ParseRegister(name).Some?
      ensures o == Failed(InvalidOperation) <==> name == "ip"
      ensures o == Failed(UnknownRegister) <==> name != "ip" && ParseRegister(name).None?
      ensures o.Done? ==> State() == Write(old(State()), ParseRegister(name).value, v)
      ensures o.Failed? ==> State() == old(State())
    {
      o := Done;
      match name {
        case "al" => ax.SetLow(Low(v));
        case "ah" => ax.SetHigh(Low(v));
        case "ax" => ax.Set(v);
        case "bl" => bx.SetLow(Low(v));
        case "bh" => bx.SetHigh(Low(v));
        case "bx" => bx.Set(v);
        case "cl" => cx.SetLow(Low(v));
        case "ch" => cx.SetHigh(Low(v));
        case "cx" => cx.Set(v);
        case "dl" => dx.SetLow(Low(v));
        case "dh" => dx.SetHigh(Low(v));
        case "dx" => dx.Set(v);
        case "si" => si.Set(v);
        case "di" => di.Set(v);
        case "bp" => bp.Set(v);
        case "sp" => sp.Set(v);
        case "ip" => o := Failed(InvalidOperation);
        case _ => o := Failed(UnknownRegister);
      }
    }

    /** `set_flag`: sets the named flag; any name but "sign" and "zero"
        aborts with UnknownFlag and changes nothing. */
    method SetFlag(name: string, b: bool) returns (o: Outcome)
      modifies this
      ensures o.Failed? <==> ParseFlag(name).None?
      ensures o.Failed? ==> o.error == UnknownFlag && State() == old(State())
      ensures o.Done? ==> State() == WithFlag(old(State()), ParseFlag(name).value, b)
    {
      match name {
        case "sign" => signFlag := b; o := Done;
        case "zero" => zeroFlag := b; o := Done;
        case _ => o := Failed(UnknownFlag);
      }
    }
  }

  /** What a caller can conclude from the contracts above alone: a byte
      write truncates and leaves the other byte alone. */
  method ClientByteWrite()
  {
    var cpu := new CpuState();
    assert cpu.GetRegisterValue("sp") == Ok(0) && cpu.GetIp() == 0;
    var o := cpu.SetNewRegisterValue("ax", 0x1234);
    assert cpu.State().ax == 0x1234;
    o := cpu.SetNewRegisterValue("al", 0x1FF);
    assert o == Done && cpu.State().ax == 0x12FF;
    assert cpu.GetRegisterValue("al") == Ok(0xFF);
    assert cpu.GetRegisterValue("ah") == Ok(0x12);
  }

  /** What a caller can conclude about rejected names, flags and ip. */
  method ClientErrors()
  {
    var cpu := new CpuState();
    var o := cpu.SetNewRegisterValue("ip", 5);
    assert o == Failed(InvalidOperation);
    o := cpu.SetNewRegisterValue("zz", 5);
    assert o == Failed(UnknownRegister);
    assert cpu.GetRegisterValue("zz") == Err(UnknownRegister);
    assert cpu.GetRegisterValue("ip") == Err(UnknownRegister);
    o := cpu.SetFlag("carry", true);
    assert o == Failed(UnknownFlag);
    o := cpu.SetFlag("zero", true);
    assert cpu.zeroFlag && !cpu.signFlag;
    cpu.ModifyIp(3);
    cpu.ModifyIp(-1);
    assert cpu.GetIp() == 2;
  }
}
