# rcpu clocking core in Dafny

A model of the synchronous, two-phase clocking core of the rcpu cycle-level
CPU simulator. Every stateful component has two halves:

- A combinational half reads only committed values and writes pending slots.
- A clock edge (`tick`) commits those slots.

The model has one module per source file:

- `Bits` (bits.dfy) holds the machine integer types. Rust's `u8`, `u32` and `u64` are ranges of the mathematical integers, so an overflow or underflow that panics in a debug build becomes a proof obligation. The module also holds the little-endian view of a 32-bit word as four bytes.
- `Register` (reg.dfy) is the clocked register `Reg<T>`. It is a class with a committed slot (`prev`), a pending slot (`next`) and an `enable` flag. Its abstract value is the `RegState` datatype, which also carries the multi-edge lemmas.
- `Memory` (mem.dfy) is the memory block `Mem`. It has a 0x4_0000-byte array and a high window: a virtual address `a >= 0x8000_0000` is physical index `0x2_0000 + (a - 0x8000_0000)`. A byte store is latched until the edge. The read port's word goes through a clocked output register, and `read_u32` is a pure function over the array.
- `Pipeline` (pipeline.dfy) is the fetch stage `Fetch`: a PC register, a private instruction memory, an instruction latch and a one-shot redirect.
- `Processor` (cpu.dfy) is the register file, whose only register is `a0`, and the `CPU` shell. The shell's `tick` runs the fetch stage's combinational step and then its edge.

The code is modelled as it is written:

- `load_elf` loads at address 0, which the memory ignores.
- `run` only returns the register file.
- The fetch stage reads a private memory that nothing ever loads, so every latched instruction is 0. The `Fetch.Blank` invariant states this.
- `CPU::new` starts the committed PC at 0x7FFF_FFFC, below the window, so the first read is ignored.
- `read_u32` translates a high address once more, although the read port already holds a translated index. For a read at `a >= 0xFFFE_0000` the latched index is itself at least 0x8000_0000, so the second translation takes effect. Such a read serves the word of `a - 0x7FFE_0000`, which means 0xFFFE_0000 aliases 0x8000_0000. `WordIndex` models both translations and `Readable` accepts exactly the reads whose word ends up inside the array.
- Rust panics are `requires` clauses: slice and array bounds, the `pc - 4` underflow in `Fetch::new`, and the `pc + 4` overflow in `run`.

## Model

| member | source | states |
|---|---|---|
| Bits.LanesOfLittleEndian | src/cpu/mem.rs:74-77 | byte lane k of the assembled word is exactly the k-th byte, so the shifted sum loses and mixes nothing |
| Bits.WordOfBytes | src/cpu/mem.rs:74-77 | every 32-bit word is the little-endian composition of its own four lanes, so the composition is a bijection onto u32 |
| Register.SetVisibleOnlyAfterTick | src/cpu/reg.rs:31-50 | `set` leaves the committed value unchanged; after an edge readers see the written value exactly when the register is enabled |
| Register.DisabledTicksKeepState | src/cpu/reg.rs:39-50 | a disabled register keeps its whole state across any number of edges |
| Register.EnabledTicksSettle | src/cpu/reg.rs:44-51 | for an enabled register, n >= 1 edges with no write equal one edge and expose the pending value, so the edge is idempotent |
| Register.NewThenTicksReadsDefault | src/cpu/reg.rs:19-25 | a register built by `new(init)` reads the default, not init, after any edge with no write |
| Register.Reg.Default | src/cpu/reg.rs:11-17 | both slots hold the default and the register is enabled |
| Register.Reg.New | src/cpu/reg.rs:19-25 | init is committed and visible, the pending slot holds the default, the register is enabled |
| Register.Reg.Set | src/cpu/reg.rs:31-33 | only the pending slot changes; the visible value does not |
| Register.Reg.Enable | src/cpu/reg.rs:35-37 | only the enable flag changes, to true |
| Register.Reg.Disable | src/cpu/reg.rs:39-41 | only the enable flag changes, to false |
| Register.Reg.Tick | src/cpu/reg.rs:44-51 | the committed slot takes the pending value when enabled and is untouched otherwise; nothing else changes |
| Register.NewReadsInitTest | src/cpu/reg.rs:53-59 | `new(0)` reads 0 and `new(0xffff_ffff_ffff_ffff)` reads that value before any edge |
| Register.SetThenTickTest | src/cpu/reg.rs:61-68 | after `set(32)` a default register reads 0, and 32 after the edge |
| Register.DisabledTickTest | src/cpu/reg.rs:70-77 | a disabled register still reads 0 after `set(32)` and an edge |
| Register.EnabledTickTest | src/cpu/reg.rs:79-86 | an enabled register reads 32 after `set(32)` and an edge |
| Memory.Translate | src/cpu/mem.rs:43-67 | a high-window address keeps its offset from the window base and lands below itself, so the u64 arithmetic of `read`, `write` and `load_array` cannot overflow |
| Memory.ReadAliasesWindow | src/cpu/mem.rs:51-78 | a readable address at or above 0xFFFE_0000 serves the same word as the readable address 0x7FFE_0000 below it |
| Memory.IssuedStaysInside | src/cpu/mem.rs:51-57 | issuing a read at a readable address (one below the window, or one whose word after both translations fits) keeps the next edge's read index inside the array |
| Memory.Splice | src/cpu/mem.rs:43-47 | the copied range holds bin byte for byte; every other byte and the length are unchanged |
| Memory.SpliceReadBack | src/cpu/mem.rs:43-47 | reading back the copied range yields exactly bin |
| Memory.Mem.constructor | src/cpu/mem.rs:30-41 | the memory is enabled, has no pending store, has indices 0, an all-zero array of MEMSIZE bytes, a default output register and curpc at the window base |
| Memory.Mem.LoadArray | src/cpu/mem.rs:43-49 | a high address copies bin to its translated index and leaves the other bytes as they were; a low address leaves the array unchanged; the copy must fit the array |
| Memory.Mem.Read | src/cpu/mem.rs:51-57 | a high address latches its translated index; a low address leaves the read index unchanged |
| Memory.Mem.Write | src/cpu/mem.rs:59-67 | a high address latches the translated index, the data and the store flag; a low address changes nothing |
| Memory.Mem.Tick | src/cpu/mem.rs:81-93 | the latched store (if any) is applied and cleared, no other byte changes, the output commits, and the word at the read index, sampled after the store, becomes the output's pending value |
| Memory.Mem.ReadU32 | src/cpu/mem.rs:69-78 | lane k of the word is the byte at the word index plus k, where the word index translates an address at or above 0x8000_0000 |
| Memory.ReadLatency | src/cpu/mem.rs:81-93 | for any high address whose word is readable, after `read(a)` one edge exposes only the previously pending word, and the second edge exposes the word at the index `tick` reads for a, including the second translation |
| Memory.WriteLatency | src/cpu/mem.rs:59-93 | for a high address whose translated word fits, `write` leaves the array as it was; the next edge stores the byte at the translated index only and clears the store; a read of that word in the same edge samples the new byte |
| Memory.LoadArrayTest | src/cpu/mem.rs:118-126 | bytes 0..7 loaded at 0x8000_0000 appear at physical 0x2_0000.. |
| Memory.WriteThenTickTest | src/cpu/mem.rs:128-134 | a byte 1 written at 0x8000_0000 is at physical 0x2_0000 after one edge |
| Memory.ReadTwoTicksTest | src/cpu/mem.rs:136-146 | a read of 0x8000_0003 shows 0, then 0 after one edge, then 3 after two |
| Memory.AliasedReadTest | src/cpu/mem.rs:51-90 | with 7 at physical 0x2_0000, a read of 0xFFFE_0000 shows 7 after two edges |
| Register.Reg.Get | src/cpu/reg.rs:27-29 | the value readers see is the committed slot of the abstract register, never the pending one |
| Pipeline.NextPc | src/cpu/pipeline.rs:25-28 | the next PC is the pending redirect when there is one, and otherwise PC + 4, which must not overflow |
| Pipeline.Fetch.constructor | src/cpu/pipeline.rs:13-20 | the committed PC is one word before the entry point, the latch reads 0, no redirect is pending and the private memory is blank; the entry point must be at least 4 |
| Pipeline.Fetch.Run | src/cpu/pipeline.rs:22-30 | visible PC and instruction unchanged; pending PC is the redirect or PC + 4; the redirect is consumed; the read is issued at the committed PC; the latch's pending value is the memory's committed word |
| Pipeline.Fetch.SetNewpc | src/cpu/pipeline.rs:32-34 | a redirect to the target is pending |
| Pipeline.Fetch.Tick | src/cpu/pipeline.rs:37-43 | PC and latch commit their pending values once; the memory output commits and samples the word at the read index; the private array is unchanged |
| Pipeline.StraightLine | src/cpu/pipeline.rs:13-43 | with no redirects, after `new(p)` and k cycles of `run; tick` the PC is p - 4 + 4k and the latched instruction is 0; the requires are exactly the source's panics, namely no overflow of the last PC + 4 and a readable PC in every cycle |
| Pipeline.RedirectOnce | src/cpu/pipeline.rs:22-34 | for readable p - 4 and t, after `set_newpc(t)` the next cycle commits t and the one after commits t + 4, so a redirect is used once |
| Processor.RegFile.constructor | src/cpu/cpu.rs:33-38 | a0 is a default register, so every name reads 0 |
| Processor.RegFile.Get | src/cpu/cpu.rs:40-42 | whatever name is asked for, the result is a0's committed value |
| Processor.GetIgnoresName | src/cpu/cpu.rs:40-42 | any two names read the same value |
| Processor.CPU.constructor | src/cpu/cpu.rs:62-68 | a0 is a default register, so every name reads 0. The data memory is zero, with no pending store, indices 0, a default output register and curpc at the window base. The fetch PC is 0x8000_0000 - 4 with pending PC 0, no redirect, read index 0 and a blank private memory. The three parts share no object |
| Processor.CPU.LoadElf | src/cpu/cpu.rs:53-56 | loading at address 0 leaves the data memory unchanged |
| Processor.CPU.Run | src/cpu/cpu.rs:58-60 | the register file itself is returned and nothing changes |
| Processor.CPU.SetStartPc | src/cpu/cpu.rs:70-73 | a fresh fetch stage replaces the old one, with PC start - 4, pending PC 0, no redirect, read index 0 and a blank private memory; registers and data memory are not in the frame |
| Processor.CPU.Tick | src/cpu/cpu.rs:76-82 | the PC commits to the redirect or PC + 4, and the latch to the word the memory exposed before the cycle. The redirect is consumed. The read index is the one issued at the old PC, and the memory output commits and samples the word there. The pending slots equal the committed ones, and the private array is unchanged. The frame leaves the private memory's store latch, data and curpc alone, and the registers and data memory are unchanged |
| Processor.IsaTest | tests/cli.rs:7-15 | for any image, `new; load_elf; run` reads 0 from a0 |
| Processor.FirstCycle | src/cpu/cpu.rs:76-82 | the first tick of a fresh CPU brings the PC to 0x8000_0000 and latches 0 |
| Processor.StartPcTest | src/cpu/cpu.rs:70-82 | after `set_start_pc(8)` a tick reaches 8, and a redirect to 4 commits 4 and then 8 |

## Left out

- Terminal UI: `DebugUI::draw` for the memory, `CPU::draw`, `run_tui` and `events`. These are rendering through termion/tui, a channel and a spawned input thread. The `curpc` field, which only the UI reads, is kept and initialised but never used.
- `Tickable` and `DebugUI` (src/cpu/traits.rs) are interfaces. `tick` is a method of each class instead.
- src/cpu/mod.rs and src/main.rs are module wiring and the binary entry point.
- The empty `Decode`, `Execute`, `MemAccess` and `WriteBack` stages hold nothing to model.
- tests/cli.rs reads the ELF image from a file. The image is a parameter of `Processor.IsaTest`.
- Integer widths are ranges, and debug-build panics are preconditions. Release-build wrap-around is not modelled.
- Processor.RegFile: the source's `RegFile<T>` is generic, but the model fixes it at u64, the only width `CPU` uses.
- Register.Reg.Default: `T::default()` is passed as an explicit `zero` argument. The same holds for `Register.Reg.New`. The simulator only instantiates the register at u32 and u64, whose default is 0.
- Memory.Mem.Tick: the disabled branch (`en` false) is not reachable in the model. `Valid` includes `en`, because the source sets it in `new` and never clears it.
- Pipeline.Fetch.Run and Pipeline.Fetch.Tick assume `Fetch.Valid`:
  - the stage's registers are enabled;
  - no store is pending in the private memory;
  - the latch is not the memory's output register.

  The source guarantees all three, because nothing disables those registers or writes that memory.
