/** The clocked register: a two-slot cell with a committed value that every
    reader sees, a pending value that writers set during a cycle, and an enable
    flag that decides whether the clock edge copies pending into committed.

    `T::default()` of the source is passed explicitly as `zero`; the simulator
    only instantiates the register at u32 and u64, whose default is 0. */
module Register {

  import Bits

  /** The abstract value of a register: committed slot, pending slot, enable. */
  datatype RegState<T> = RegState(prev: T, next: T, enable: bool) {

    /** What readers observe during a cycle. */
    function Get(): T { prev }

    /** Writing during a cycle touches the pending slot only. */
    function Set(v: T): RegState<T> { this.(next := v) }

    /** The clock edge: commit the pending slot, but only when enabled. */
    function Tick(): RegState<T> { if enable then this.(prev := next) else this }
  }

  /** The state after n clock edges with no writes in between. */
  function Ticks<T>(s: RegState<T>, n: nat): RegState<T>
    decreases n
  {
    if n == 0 then s else Ticks(s.Tick(), n - 1)
  }

  /** Writing is invisible until the next edge, and after the edge readers see
      the written value exactly when the register is enabled. */
  lemma SetVisibleOnlyAfterTick<T>(s: RegState<T>, v: T)
    ensures s.Set(v).Get() == s.Get()
    ensures s.Set(v).Tick().Get() == (if s.enable then v else s.Get())
  {
  }

  /** A disabled register keeps its committed value (and all else) however many
      edges pass. */
  lemma {:induction false} DisabledTicksKeepState<T>(s: RegState<T>, n: nat)
    requires !s.enable
    ensures Ticks(s, n) == s
    decreases n
  {
    if n > 0 {
      assert s.Tick() == s;
      DisabledTicksKeepState(s, n - 1);
    }
  }

  /** An enabled register settles after one edge: further edges with no
      intervening write change nothing, so the edge is idempotent. */
  lemma {:induction false} EnabledTicksSettle<T>(s: RegState<T>, n: nat)
    requires s.enable && n >= 1
    ensures Ticks(s, n) == s.Tick()
    ensures Ticks(s, n).Get() == s.next
    decreases n
  {
    if n > 1 {
      assert s.Tick().Tick() == s.Tick();
      EnabledTicksSettle(s.Tick(), n - 1);
    }
  }

  /** A register built by `new(init)` holds the default in its pending slot, so
      any number of edges without a write make it read the default, not init. */
  lemma {:induction false} NewThenTicksReadsDefault<T>(init: T, zero: T, n: nat)
    requires n >= 1
    ensures Ticks(RegState(init, zero, true), n).Get() == zero
  {
    EnabledTicksSettle(RegState(init, zero, true), n);
  }

  class Reg<T> {
    var prev: T
    var next: T
    var enable: bool

    function State(): RegState<T>
      reads this
    {
      RegState(prev, next, enable)
    }

    /** The committed value: what the abstract register shows its readers. */
    function Get(): (v: T)
      reads this
      ensures v == State().Get()
    {
      prev
    }

    /** `Reg::default()`: both slots hold the default and the register is enabled. */
    constructor Default(zero: T)
      ensures State() == RegState(zero, zero, true)
      ensures Get() == zero
    {
      prev, next, enable := zero, zero, true;
    }

    /** `Reg::new(init)`: init is committed, the pending slot holds the default. */
    constructor New(init: T, zero: T)
      ensures State() == RegState(init, zero, true)
      ensures Get() == init
    {
      prev, next, enable := init, zero, true;
    }

    method Set(v: T)
      modifies this`next
      ensures State() == old(State()).Set(v)
      ensures Get() == old(Get()) && next == v
    {
      next := v;
    }

    method Enable()
      modifies this`enable
      ensures State() == old(State()).(enable := true)
    {
      enable := true;
    }

    method Disable()
      modifies this`enable
      ensures State() == old(State()).(enable := false)
    {
      enable := false;
    }

    method Tick()
      modifies this`prev
      ensures State() == old(State()).Tick()
      ensures Get() == if enable then old(next) else old(Get())
    {
      if enable {
        prev := next;
      }
    }
  }

  /** test_reg_default: a new register reads its initial value before any edge. */
  method NewReadsInitTest() returns (small: Bits.u64, large: Bits.u64)
    ensures small == 0 && large == 0xffff_ffff_ffff_ffff
  {
    var reg := new Reg<Bits.u64>.New(0, 0);
    small := reg.Get();
    reg := new Reg<Bits.u64>.New(0xffff_ffff_ffff_ffff, 0);
    large := reg.Get();
  }

  /** test_reg_tick: a write is invisible until the edge, visible after it. */
  method SetThenTickTest() returns (before: Bits.u64, after: Bits.u64)
    ensures before == 0 && after == 32
  {
    var reg := new Reg<Bits.u64>.Default(0);
    reg.Set(32);
    before := reg.Get();
    reg.Tick();
    after := reg.Get();
  }

  /** test_reg_disable: a disabled register ignores the edge. */
  method DisabledTickTest() returns (after: Bits.u64)
    ensures after == 0
  {
    var reg := new Reg<Bits.u64>.Default(0);
    reg.Set(32);
    reg.Disable();
    reg.Tick();
    after := reg.Get();
  }

  /** test_reg_enable: an enabled register commits on the edge. */
  method EnabledTickTest() returns (after: Bits.u64)
    ensures after == 32
  {
    var reg := new Reg<Bits.u64>.Default(0);
    reg.Set(32);
    reg.Enable();
    reg.Tick();
    after := reg.Get();
  }
}
