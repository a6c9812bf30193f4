# sim8086 register state, in Dafny

A model of `src/cpu_state.rs` of the sim8086 emulator: the architectural
register and flag state of an 8086 and the by-name interface through which
the emulator reads and writes it.

- `register.dfy`, module `Registers`: one register (`Register`), a 16-bit
  word (`bv16`) with a low-byte and a high-byte view over the same storage.
  The views are the masks and shifts of the original (`Low`, `High`), and the
  byte writes are its mask-and-combine expressions (`WithLow`, `WithHigh`).
  The class `Register` holds the word in a field that `Set`, `SetLow` and
  `SetHigh` update in place.
- `cpu_state.dfy`, module `Cpu`: the class `CpuState` with the eight
  registers ax, bx, cx, dx, si, di, bp, sp (as eight distinct `Register`
  objects), the signed 16-bit `ip` and the sign and zero flags.
  `GetRegisterValue`, `SetNewRegisterValue` and `SetFlag` dispatch on the
  name string exactly as the original's `match` does; each `panic!` becomes a
  failure value (`Err` / `Failed`) carrying `UnknownRegister`,
  `InvalidOperation` or `UnknownFlag`, and a failed call changes nothing.
  The specification side is a value `Snapshot` of the whole state with
  `Read` and `Write` by a `RegisterName` (the closed set of sixteen names:
  `al ah ax bl bh bx cl ch cx dl dh dx si di bp sp`), built from the register
  a name belongs to (`WordOf`, `WithWord`, restated register by register
  as `SetRegister`) and the part it addresses (`View`, `Update`). The class's methods are proved against these
  functions (`State() == Write(old(State()), n, v)`), and the lemmas prove
  what a caller relies on: read-after-write, truncation of byte writes,
  zero-extension of byte reads, and the frame of every write.

The byte views are related to arithmetic: the low byte is the word modulo
256, the high byte the word divided by 256, and high * 256 + low is the word.

## Model

| member | source | states |
|---|---|---|
| Registers.WithLow | src/cpu_state.rs:33 | the new low byte is the given byte and the high byte is unchanged |
| Registers.WithHigh | src/cpu_state.rs:38 | the new high byte is the given byte and the low byte is unchanged |
| Registers.Recombine | src/cpu_state.rs:22-29 | high byte * 256 + low byte equals the word |
| Registers.ByteViewsAreDigits | src/cpu_state.rs:21-29 | the low byte is the word mod 256, the high byte the word div 256 |
| Registers.BytesDetermineWord | src/cpu_state.rs:21-29 | two words are equal exactly when both their byte views are |
| Registers.Register.constructor | src/cpu_state.rs:7-9 | a new register holds 0, and so do both its bytes |
| Registers.Register.Get | src/cpu_state.rs:11-14 | the word read is high byte * 256 + low byte |
| Registers.Register.Set | src/cpu_state.rs:16-19 | after `set(v)`, `get()` returns v |
| Registers.Register.GetLow | src/cpu_state.rs:21-24 | the low byte is the word mod 256 |
| Registers.Register.GetHigh | src/cpu_state.rs:26-29 | the high byte is the word div 256 |
| Registers.Register.SetLow | src/cpu_state.rs:31-34 | afterwards the low byte is b and the high byte is what it was before |
| Registers.Register.SetHigh | src/cpu_state.rs:36-39 | afterwards the high byte is b and the low byte is what it was before |
| Cpu.ParseRegister | src/cpu_state.rs:90-112 | a name resolves exactly when it is the spelling of one of the sixteen register names, and to that name |
| Cpu.RegisterNameReachable | src/cpu_state.rs:90-110 | every one of the sixteen register names is what some string resolves to |
| Cpu.Home | src/cpu_state.rs:90-110 | every name belongs to a register with a word name; a word name belongs to itself |
| Cpu.ParseFlag | src/cpu_state.rs:163-166 | a flag name resolves exactly when it is "sign" or "zero", and to that flag |
| Cpu.FlagReachable | src/cpu_state.rs:163-165 | both flags are what some string resolves to |
| Cpu.Reset | src/cpu_state.rs:65-82 | in the initial state every name reads 0, ip is 0, both flags are false |
| Cpu.WithWord | src/cpu_state.rs:122-142 | afterwards the addressed register holds the new word; ip and both flags are unchanged |
| Cpu.WithWordSetsHome | src/cpu_state.rs:122-142 | setting a word by name replaces the word of that name's register and of no other register |
| Cpu.SetRegistersCommute | src/cpu_state.rs:122-142 | setting two different registers gives the same state in either order |
| Cpu.WithWordFrame | src/cpu_state.rs:122-142 | setting one register's word leaves the word of every other register unchanged |
| Cpu.WithWordsCommute | src/cpu_state.rs:122-142 | setting the words of two different registers gives the same state in either order |
| Cpu.WithWordTwice | src/cpu_state.rs:122-142 | setting one register's word twice leaves the state the second setting alone leaves |
| Cpu.View | src/cpu_state.rs:91-110 | a byte part of a word views as a value below 0x100 |
| Cpu.Read | src/cpu_state.rs:90-110 | a byte name reads a value below 0x100 |
| Cpu.Write | src/cpu_state.rs:122-142 | a register write leaves ip and both flags unchanged |
| Cpu.WithFlag | src/cpu_state.rs:162-167 | setting a flag sets it to b and changes nothing else |
| Cpu.ViewIsDigit | src/cpu_state.rs:91-104 | a low-byte view is the word mod 256, a high-byte view the word div 256 |
| Cpu.ViewAfterUpdate | src/cpu_state.rs:123-125 | an updated part reads back as v, or v mod 256 for a byte (`as u8` truncation) |
| Cpu.UpdateKeepsOtherByte | src/cpu_state.rs:123-124 | updating one byte leaves the other byte's view unchanged |
| Cpu.UpdateMergesByte | src/cpu_state.rs:32-39 | a byte update keeps the other base-256 digit and takes v mod 256 as the new one |
| Cpu.UpdateTwice | src/cpu_state.rs:17-39 | a second update of the same part of a word overrides the first |
| Cpu.ByteUpdatesCommute | src/cpu_state.rs:32-39 | updating the low byte and the high byte of a word gives the same word in either order |
| Cpu.HomeSharesWord | src/cpu_state.rs:90-105 | a byte name and the word name of its register address the same word |
| Cpu.ByteReadIsDigit | src/cpu_state.rs:90-105 | `al` reads `ax` mod 256, `ah` reads `ax` div 256, and likewise for b, c, d |
| Cpu.ReadAfterWrite | src/cpu_state.rs:89-142 | after a write by name, a read by the same name returns v for a word name and v mod 256 for a byte name |
| Cpu.WriteFrame | src/cpu_state.rs:121-142 | a write changes no read by a non-aliasing name: other registers and the partner byte are unchanged |
| Cpu.LastWriteWins | src/cpu_state.rs:121-142 | two writes by the same name leave the state the second one alone leaves |
| Cpu.WritesCommute | src/cpu_state.rs:121-142 | writes by two names that do not alias give the same state in either order |
| Cpu.OtherRegisterWritesCommute | src/cpu_state.rs:121-142 | writes to two different registers give the same state in either order |
| Cpu.SameRegisterWritesCommute | src/cpu_state.rs:123-136 | writes to the low and the high byte of one register give the same state in either order |
| Cpu.ByteWriteMergesIntoWord | src/cpu_state.rs:123-136 | after a byte write the register's word keeps the other byte and takes v mod 256 as the written byte |
| Cpu.CpuState.constructor | src/cpu_state.rs:65-82 | the eight registers are distinct fresh objects and the state is the all-zero reset state |
| Cpu.CpuState.ModifyIp | src/cpu_state.rs:84-86 | ip becomes old ip + d, nothing else changes |
| Cpu.CpuState.GetRegisterValue | src/cpu_state.rs:89-114 | fails with UnknownRegister exactly on names outside the sixteen (including "ip"); otherwise returns `Read` of the state |
| Cpu.CpuState.GetIp | src/cpu_state.rs:116-118 | returns the current ip |
| Cpu.CpuState.SetNewRegisterValue | src/cpu_state.rs:120-148 | succeeds exactly on the sixteen names and then the state is `Write` of the old state; "ip" fails with InvalidOperation, any other name with UnknownRegister, and a failure changes nothing |
| Cpu.CpuState.SetFlag | src/cpu_state.rs:162-168 | "sign" and "zero" set that flag only; any other name fails with UnknownFlag and changes nothing |

## Left out

- `print_register_state` (src/cpu_state.rs:150-160): console output only; it does not change the state.
- The text of the `panic!` messages: the model records only which kind of failure occurs.
- Process abort: every `panic!` is modelled as a failure value returned to the caller, with the state left as it was (the original aborts before changing anything).
- Cpu.CpuState.ModifyIp: requires that ip + d stays within i16. The original's plain `+=` aborts on overflow in a checked build and wraps only in an unchecked one; the wrap-around that 8086 IP arithmetic would suggest is not what the code guarantees, so it is not modelled.
- The register-name set is the code's sixteen names (eight byte names and eight word names), not a smaller set; "ip" is not readable by name either, since `get_register_value` sends it to its unknown-register arm.
- `#[derive(Debug)]` and Rust ownership: no behavioural content. The eight registers, which the original owns by value, are eight distinct objects here (`CpuState.Valid`).
