/** The fetch stage: a program-counter register, a private instruction memory,
    an instruction latch and a one-shot redirect. `Run` is the combinational
    half of a cycle (it only reads committed values and writes pending slots),
    `Tick` is the clock edge that commits them. */
module Pipeline {

  import opened Bits
  import opened Register
  import opened Memory

  /** The PC the next edge commits: the redirect when one is pending, else the
      sequential successor (whose u64 overflow panics in the source). */
  function NextPc(pc: u64, newpc: Option<u64>): (r: u64)
    requires newpc.None? ==> pc as int + 4 < U64_LIMIT
    ensures newpc.Some? ==> r == newpc.value
    ensures newpc.None? ==> r as int == pc as int + 4
  {
    match newpc
    case Some(target) => target
    case None => pc + 4
  }

  class Fetch {
    const pc: Reg<u64>
    const imem: Mem
    const inst: Reg<u32>
    var newpc: Option<u64>

    ghost function Repr(): set<object>
    {
      {this, pc, inst} + imem.Repr()
    }

    /** The stage's registers are never disabled (they are private and nothing
        calls `disable` on them), the instruction latch is a register of its
        own, and the private memory is never written, so no store is pending. */
    ghost predicate Valid()
      reads Repr()
    {
      imem.Valid() && inst != imem.out &&
      pc.enable && inst.enable && imem.out.enable && !imem.wen
    }

    /** The private instruction memory is never loaded, so it stays all zero
        and every word the stage latches is 0. */
    ghost predicate Blank()
      reads Repr()
      requires Valid()
    {
      (forall i | 0 <= i < MEMSIZE :: imem.mem[i] == 0) &&
      imem.out.Get() == 0 && imem.out.next == 0 && inst.Get() == 0 && inst.next == 0
    }

    /** `Fetch::new(pc)`: the PC register starts one word before the entry point
        (the subtraction panics below 4), so the first cycle advances it to the
        entry point itself. */
    constructor (start: u64)
      requires start >= 4
      ensures Valid() && Blank()
      ensures fresh(pc) && fresh(inst) && fresh(imem) && fresh(imem.out) && fresh(imem.mem)
      ensures pc.Get() == start - 4 && pc.next == 0
      ensures inst.Get() == 0 && newpc == None
      ensures imem.raddr == 0
    {
      pc := new Reg<u64>.New(start - 4, 0);
      imem := new Mem();
      inst := new Reg<u32>.Default(0);
      newpc := None;
    }

    /** The combinational step: issue a read at the committed PC, latch the
        memory's committed output as the next instruction, and set the next PC
        to the redirect (consuming it) or to PC + 4. Nothing visible changes. */
    method Run()
      requires Valid()
      requires newpc.None? ==> pc.Get() as int + 4 < U64_LIMIT
      modifies this`newpc, pc`next, inst`next, imem`raddr
      ensures Valid() && newpc == None
      ensures pc.Get() == old(pc.Get()) && inst.Get() == old(inst.Get())
      ensures pc.next == NextPc(old(pc.Get()), old(newpc))
      ensures inst.next == imem.out.Get()
      ensures imem.raddr == Issued(old(imem.raddr), old(pc.Get()))
      ensures old(Blank()) ==> Blank()
    {
      imem.Read(pc.Get());
      inst.Set(imem.out.Get());
      match newpc {
        case Some(target) => pc.Set(target);
        case None => pc.Set(pc.Get() + 4);
      }
      newpc := None;
    }

    /** Registers a redirect for the next `Run`. */
    method SetNewpc(target: u64)
      modifies this`newpc
      ensures newpc == Some(target)
    {
      newpc := Some(target);
    }

    /** The clock edge: commit the PC, the instruction latch and the memory,
        each exactly once. The memory's word must lie inside its array. */
    method Tick()
      requires Valid()
      requires WordIndex(imem.raddr) + 3 < MEMSIZE
      modifies pc`prev, inst`prev, imem`wen, imem.mem, imem.out
      ensures Valid()
      ensures pc.Get() == old(pc.next) && inst.Get() == old(inst.next)
      ensures pc.next == old(pc.next) && inst.next == old(inst.next)
      ensures imem.out.Get() == old(imem.out.next)
      ensures imem.out.next == WordAt(imem.mem, WordIndex(imem.raddr))
      ensures imem.mem[..] == old(imem.mem[..])
      ensures old(Blank()) ==> Blank()
    {
      ghost var wasBlank := Blank();
      pc.Tick();
      inst.Tick();
      imem.Tick();
      if wasBlank {
        ZeroWordAt(imem.mem, WordIndex(imem.raddr));
      }
    }
  }

  /** The committed PC after j straight-line cycles from `new(p)`. */
  function StraightPc(p: u64, j: int): int
  {
    p as int - 4 + 4 * j
  }

  /** With no redirect, each `run; tick` cycle advances the committed PC by 4:
      after `new(p)` and k cycles it is p - 4 + 4k, and the latched instruction
      is 0 because the private memory is empty. The source panics unless the
      last cycle's PC + 4 fits in 64 bits and every PC fetched on the way is
      readable. */
  method StraightLine(p: u64, k: nat) returns (pcv: u64, instv: u32)
    requires p >= 4
    requires StraightPc(p, k) < U64_LIMIT
    requires forall j | 0 <= j < k :: Readable(StraightPc(p, j) as u64)
    ensures pcv as int == StraightPc(p, k)
    ensures instv == 0
  {
    var f := new Fetch(p);
    var i := 0;
    while i < k
      invariant 0 <= i <= k
      invariant f.Valid() && f.Blank() && f.newpc == None
      invariant f.pc.Get() as int == StraightPc(p, i)
      invariant WordIndex(f.imem.raddr) + 3 < MEMSIZE
      invariant fresh(f.Repr())
    {
      IssuedStaysInside(f.imem.raddr, f.pc.Get());
      f.Run();
      f.Tick();
      i := i + 1;
    }
    pcv := f.pc.Get();
    instv := f.inst.Get();
  }

  /** A redirect is used exactly once: the first cycle after `set_newpc(t)`
      commits t, the second falls back to t + 4. */
  method RedirectOnce(p: u64, target: u64) returns (first: u64, second: u64)
    requires p >= 4 && Readable(p - 4) && Readable(target)
    ensures first == target && second as int == target as int + 4
  {
    var f := new Fetch(p);
    f.SetNewpc(target);
    IssuedStaysInside(f.imem.raddr, p - 4);
    f.Run();
    f.Tick();
    first := f.pc.Get();
    IssuedStaysInside(f.imem.raddr, target);
    f.Run();
    f.Tick();
    second := f.pc.Get();
  }
}
