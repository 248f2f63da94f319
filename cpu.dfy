/** The processor shell: a register file holding the single architectural
    register a0, a data memory, and the fetch stage, which `tick` drives
    through one combinational step and one clock edge. */
module Processor {

  import opened Bits
  import opened Register
  import opened Memory
  import opened Pipeline

  /** Entry point used by `CPU::new`. */
  const DEFAULT_PC: u64 := 0x8000_0000

  /** The register file, at the only width the simulator instantiates. */
  class RegFile {
    const a0: Reg<u64>

    /** `RegFile::new`: a0 is a default register. */
    constructor ()
      ensures fresh(a0)
      ensures a0.State() == RegState(0, 0, true)
      ensures forall name: string :: Get(name) == 0
    {
      a0 := new Reg<u64>.Default(0);
    }

    /** `get(name)`: the name is not looked at; the committed value of a0 is
        returned whatever register is asked for. */
    function Get(name: string): (v: u64)
      reads a0
      ensures v == a0.Get()
    {
      a0.Get()
    }
  }

  /** Every name reads the same register. */
  lemma GetIgnoresName(r: RegFile, n1: string, n2: string)
    ensures r.Get(n1) == r.Get(n2)
  {
  }

  class CPU {
    const regs: RegFile
    const mem: Mem
    var fetch: Fetch

    ghost function Repr(): set<object>
      reads this
    {
      {this, regs, regs.a0} + mem.Repr() + fetch.Repr()
    }

    /** The data memory, the register file and the fetch stage (with its own
        private instruction memory) share no object. */
    ghost predicate Valid()
      reads Repr()
    {
      mem.Valid() && fetch.Valid() &&
      {this, regs, regs.a0} !! mem.Repr() &&
      {this, regs, regs.a0} !! fetch.Repr() &&
      mem.Repr() !! fetch.Repr()
    }

    /** `CPU::new`: zeroed registers and memory, and a fetch stage built for
        DEFAULT_PC, so its committed PC is one word below the entry point. */
    constructor ()
      ensures Valid()
      ensures fresh(regs) && fresh(regs.a0) && fresh(mem.Repr()) && fresh(fetch.Repr())
      ensures forall name: string :: regs.Get(name) == 0
      ensures forall i | 0 <= i < MEMSIZE :: mem.mem[i] == 0
      ensures regs.a0.State() == RegState(0, 0, true)
      ensures !mem.wen && mem.raddr == 0 && mem.waddr == 0 && mem.wdata == 0
      ensures mem.out.State() == RegState(0, 0, true) && mem.curpc == INSTBASE
      ensures fetch.pc.Get() == DEFAULT_PC - 4 && fetch.pc.next == 0 && fetch.newpc == None
      ensures fetch.imem.raddr == 0 && fetch.Blank()
    {
      regs := new RegFile();
      mem := new Mem();
      fetch := new Fetch(DEFAULT_PC);
    }

    /** `load_elf`: hands the image to the memory at address 0, which lies
        below the high window, so the memory ignores it. */
    method LoadElf(bin: seq<u8>)
      requires Valid()
      modifies mem.mem
      ensures Valid()
      ensures mem.mem[..] == old(mem.mem[..])
    {
      mem.LoadArray(0, bin);
    }

    /** `run`: no cycle is simulated; the register file is returned as it is. */
    function Run(): (r: RegFile)
      reads this
      ensures r == regs
    {
      regs
    }

    /** `set_start_pc(p)`: a fresh fetch stage replaces the old one; the
        register file and the data memory are untouched. */
    method SetStartPc(start: u64)
      requires Valid() && start >= 4
      modifies this`fetch
      ensures Valid() && fresh(fetch.Repr())
      ensures fetch.pc.Get() == start - 4 && fetch.pc.next == 0 && fetch.newpc == None
      ensures fetch.imem.raddr == 0 && fetch.Blank()
    {
      fetch := new Fetch(start);
    }

    /** `tick`: the fetch stage's combinational step followed by its clock
        edge. The PC commits to the value the step computed, the instruction
        latch to the word the memory exposed before the cycle, and neither the
        register file nor the data memory is touched. The source panics unless
        the PC does not overflow and the issued word lies inside the array. */
    method Tick()
      requires Valid()
      requires fetch.newpc.None? ==> fetch.pc.Get() as int + 4 < U64_LIMIT
      requires WordIndex(Issued(fetch.imem.raddr, fetch.pc.Get())) + 3 < MEMSIZE
      modifies fetch`newpc, fetch.pc, fetch.inst, fetch.imem`raddr, fetch.imem`wen
      modifies fetch.imem.mem, fetch.imem.out
      ensures Valid() && fetch == old(fetch) && fetch.newpc == None
      ensures fetch.pc.Get() == NextPc(old(fetch.pc.Get()), old(fetch.newpc))
      ensures fetch.inst.Get() == old(fetch.imem.out.Get())
      ensures fetch.pc.next == fetch.pc.Get() && fetch.inst.next == fetch.inst.Get()
      ensures fetch.imem.raddr == Issued(old(fetch.imem.raddr), old(fetch.pc.Get()))
      ensures fetch.imem.out.Get() == old(fetch.imem.out.next)
      ensures fetch.imem.out.next == WordAt(fetch.imem.mem, WordIndex(fetch.imem.raddr))
      ensures fetch.imem.mem[..] == old(fetch.imem.mem[..])
      ensures old(fetch.Blank()) ==> fetch.Blank()
      ensures regs.a0.State() == old(regs.a0.State())
      ensures unchanged(mem, mem.out) && mem.mem[..] == old(mem.mem[..])
    {
      fetch.Run();
      fetch.Tick();
    }
  }

  /** The integration test: a fresh CPU, any image loaded, then `run`, reads
      0 from a0. */
  method IsaTest(bin: seq<u8>) returns (a0: u64)
    ensures a0 == 0
  {
    var cpu := new CPU();
    cpu.LoadElf(bin);
    var regs := cpu.Run();
    a0 := regs.Get("a0");
  }

  /** The first cycle of a fresh CPU reads at 0x7FFF_FFFC, below the high
      window, so the read is ignored; the PC reaches the entry point and the
      latched instruction is 0. */
  method FirstCycle() returns (pcv: u64, instv: u32)
    ensures pcv == DEFAULT_PC && instv == 0
  {
    var cpu := new CPU();
    cpu.Tick();
    pcv := cpu.fetch.pc.Get();
    instv := cpu.fetch.inst.Get();
  }

  /** `set_start_pc(8)` on a fresh CPU: the first tick reads at 4, below the
      window, so the read index stays 0, and the PC reaches 8. A redirect to 4
      then takes two more ticks without a panic. */
  method StartPcTest() returns (first: u64, redirected: u64, after: u64)
    ensures first == 8 && redirected == 4 && after == 8
  {
    var cpu := new CPU();
    cpu.SetStartPc(8);
    cpu.Tick();
    first := cpu.fetch.pc.Get();
    cpu.fetch.SetNewpc(4);
    cpu.Tick();
    redirected := cpu.fetch.pc.Get();
    cpu.Tick();
    after := cpu.fetch.pc.Get();
  }
}
