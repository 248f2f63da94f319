/** The memory block: a fixed byte array with a translated high window, a
    single-byte write port latched until the clock edge, and a read port whose
    word goes through a clocked output register. */
module Memory {

  import opened Bits
  import opened Register

  /** Size of the backing store in bytes. */
  const MEMSIZE: int := 0x4_0000
  /** Physical index at which the high window starts. */
  const KERNBASE: int := 0x2_0000
  /** First virtual address of the high window. */
  const INSTBASE: u64 := 0x8000_0000

  /** The physical index of a high-window address. The subtraction cannot
      underflow and the sum cannot overflow, since the result is below addr. */
  function Translate(addr: u64): (r: u64)
    requires addr >= INSTBASE
    ensures r as int - KERNBASE == addr as int - INSTBASE as int
    ensures r < addr
  {
    KERNBASE as u64 + (addr - INSTBASE)
  }

  /** The index `read_u32` reads from: it translates high addresses and uses
      lower ones as physical indices as they are. */
  function WordIndex(addr: u64): int
  {
    if addr >= INSTBASE then Translate(addr) as int else addr as int
  }

  /** An address whose read the next edge can serve: either it is below the
      window, so the read is ignored, or the word at the index that `tick`
      reads for it (after `read` and `read_u32` have each translated it) lies
      inside the array. */
  predicate Readable(addr: u64)
  {
    addr < INSTBASE || WordIndex(Translate(addr)) + 3 < MEMSIZE
  }

  /** The second translation makes the top of the 32-bit range an alias of the
      window: a read at a >= 0xFFFE_0000 serves the same word as a read at
      a - 0x7FFE_0000, so 0xFFFE_0000 reads the word of 0x8000_0000. */
  lemma {:induction false} ReadAliasesWindow(raddr: u64, a: u64)
    requires a >= 0xFFFE_0000 && Readable(a)
    ensures a - 0x7FFE_0000 >= INSTBASE && Readable(a - 0x7FFE_0000)
    ensures WordIndex(Issued(raddr, a)) == WordIndex(Issued(raddr, a - 0x7FFE_0000))
  {
  }

  /** The little-endian word stored at index r of a byte array. */
  function WordAt(bytes: array<u8>, r: int): u32
    reads bytes
    requires 0 <= r && r + 3 < bytes.Length
  {
    LittleEndian(bytes[r..r + 4])
  }

  /** Four zero bytes make the zero word. */
  lemma ZeroWordAt(bytes: array<u8>, r: int)
    requires 0 <= r && r + 3 < bytes.Length
    requires bytes[r] == 0 && bytes[r + 1] == 0 && bytes[r + 2] == 0 && bytes[r + 3] == 0
    ensures WordAt(bytes, r) == 0
  {
  }

  /** The read index latched by `read(addr)` over a previous index raddr. */
  function Issued(raddr: u64, addr: u64): u64
  {
    if addr >= INSTBASE then Translate(addr) else raddr
  }

  /** Issuing a readable address keeps the next edge's word inside the array. */
  lemma IssuedStaysInside(raddr: u64, addr: u64)
    requires WordIndex(raddr) + 3 < MEMSIZE && Readable(addr)
    ensures WordIndex(Issued(raddr, addr)) + 3 < MEMSIZE
  {
  }

  /** The image of `bytes` after copying `bin` over it from `index` on. */
  function Splice(bytes: seq<u8>, index: int, bin: seq<u8>): (r: seq<u8>)
    requires 0 <= index && index + |bin| <= |bytes|
    ensures |r| == |bytes|
    ensures forall i | 0 <= i < |r| ::
      r[i] == if index <= i < index + |bin| then bin[i - index] else bytes[i]
  {
    bytes[..index] + bin + bytes[index + |bin|..]
  }

  /** Reading back the copied range gives exactly the copied bytes. */
  lemma SpliceReadBack(bytes: seq<u8>, index: int, bin: seq<u8>)
    requires 0 <= index && index + |bin| <= |bytes|
    ensures Splice(bytes, index, bin)[index..index + |bin|] == bin
  {
  }

  class Mem {
    var en: bool
    var wen: bool
    var raddr: u64
    var waddr: u64
    var wdata: u8
    const out: Reg<u32>
    const mem: array<u8>
    /** Only used by the terminal viewer. */
    var curpc: u64

    ghost function Repr(): set<object>
    {
      {this, out, mem}
    }

    /** The array has its fixed size, and `en` is set by `new` and never
        cleared, so every edge takes the active branch. */
    ghost predicate Valid()
      reads this
    {
      mem.Length == MEMSIZE && en
    }

    constructor ()
      ensures Valid() && fresh(out) && fresh(mem)
      ensures !wen && raddr == 0 && waddr == 0 && wdata == 0 && curpc == INSTBASE
      ensures out.State() == RegState(0, 0, true)
      ensures forall i | 0 <= i < MEMSIZE :: mem[i] == 0
    {
      en := true;
      raddr := 0;
      waddr := 0;
      wen := false;
      wdata := 0;
      out := new Reg<u32>.Default(0);
      mem := new u8[MEMSIZE](_ => 0);
      curpc := INSTBASE;
    }

    /** `load_array`: copy bin into the array at the translated index of a high
        address; a low address is ignored. The slice copy panics unless the
        whole image fits. */
    method LoadArray(addr: u64, bin: seq<u8>)
      requires Valid()
      requires addr >= INSTBASE ==> Translate(addr) as int + |bin| <= MEMSIZE
      modifies mem
      ensures Valid()
      ensures addr < INSTBASE ==> mem[..] == old(mem[..])
      ensures addr >= INSTBASE ==> mem[..] == Splice(old(mem[..]), Translate(addr) as int, bin)
    {
      if addr >= INSTBASE {
        var index := Translate(addr) as int;
        forall i | index <= i < index + |bin| {
          mem[i] := bin[i - index];
        }
        assert mem[..] == Splice(old(mem[..]), index, bin);
      }
    }

    /** `read`: latch the translated address of a high read; ignore a low one. */
    method Read(addr: u64)
      modifies this`raddr
      ensures raddr == Issued(old(raddr), addr)
    {
      if addr >= INSTBASE {
        raddr := Translate(addr);
      } else {
        return;
      }
    }

    /** `write`: latch a byte store to the translated address of a high write,
        to be performed on the next edge; ignore a low one. */
    method Write(addr: u64, data: u8)
      modifies this`waddr, this`wdata, this`wen
      ensures addr >= INSTBASE ==> waddr == Translate(addr) && wdata == data && wen
      ensures addr < INSTBASE ==> unchanged(this)
    {
      if addr >= INSTBASE {
        waddr := Translate(addr);
      } else {
        return;
      }
      wdata := data;
      wen := true;
    }

    /** `read_u32`: the word whose little-endian bytes are the four bytes
        starting at the word index of addr, lowest byte first. */
    function ReadU32(addr: u64): (w: u32)
      reads mem
      requires mem.Length == MEMSIZE
      requires WordIndex(addr) + 3 < MEMSIZE
      ensures ByteOf(w, 0) == mem[WordIndex(addr)]
      ensures ByteOf(w, 1) == mem[WordIndex(addr) + 1]
      ensures ByteOf(w, 2) == mem[WordIndex(addr) + 2]
      ensures ByteOf(w, 3) == mem[WordIndex(addr) + 3]
    {
      var r := WordIndex(addr);
      LanesOfLittleEndian(mem[r..r + 4]);
      WordAt(mem, r)
    }

    /** The clock edge: perform the latched store, clear it, commit the output
        register, then sample the word at the read address into the output's
        pending slot. The store precedes the sample, so a read of the stored
        word already sees the new byte. The store index and the sampled word
        must lie inside the array, or the source panics. */
    method Tick()
      requires Valid()
      requires wen ==> waddr as int < MEMSIZE
      requires WordIndex(raddr) + 3 < MEMSIZE
      modifies this`wen, mem, out
      ensures Valid() && !wen
      ensures forall i | 0 <= i < MEMSIZE ::
        mem[i] == if old(wen) && i == waddr as int then wdata else old(mem[i])
      ensures out.State() == old(out.State()).Tick().Set(WordAt(mem, WordIndex(raddr)))
    {
      if en {
        if wen {
          mem[waddr as int] := wdata;
        }
        wen := false;
        out.Tick();
        var rdata := ReadU32(raddr);
        out.Set(rdata);
      }
    }
  }

  /** Read latency on a memory with no pending store and an enabled output
      register: after `read(a)`, one edge exposes only the word that was
      already pending (never the word at a), and the second edge exposes the
      word at the index `tick` reads for a, as the array held it. */
  method ReadLatency(m: Mem, a: u64) returns (first: u32, second: u32)
    requires m.Valid() && !m.wen && m.out.enable
    requires a >= INSTBASE && Readable(a)
    modifies m`raddr, m`wen, m.mem, m.out
    ensures first == old(m.out.next)
    ensures second == old(WordAt(m.mem, WordIndex(Translate(a))))
    ensures m.mem[..] == old(m.mem[..])
  {
    m.Read(a);
    m.Tick();
    first := m.out.Get();
    m.Tick();
    second := m.out.Get();
  }

  /** Write latency on any memory: `write(a, d)` leaves the array as it was,
      and the next edge stores d at the translated index, changes no other
      byte and clears the pending store. A read of the same word in that edge
      already samples d in its lowest lane. */
  method WriteLatency(m: Mem, a: u64, d: u8) returns (beforeEdge: seq<u8>, sampled: u32)
    requires m.Valid() && a >= INSTBASE && Translate(a) as int + 3 < MEMSIZE
    modifies m`raddr, m`waddr, m`wdata, m`wen, m.mem, m.out
    ensures beforeEdge == old(m.mem[..])
    ensures m.Valid() && !m.wen
    ensures forall i | 0 <= i < MEMSIZE ::
      m.mem[i] == if i == Translate(a) as int then d else old(m.mem[i])
    ensures sampled == m.out.next && ByteOf(sampled, 0) == d
  {
    m.Write(a, d);
    m.Read(a);
    beforeEdge := m.mem[..];
    m.Tick();
    assert ByteOf(m.ReadU32(m.raddr), 0) == d;
    sampled := m.out.next;
  }

  /** test_mem_init: bytes loaded at 0x8000_0000 land at physical 0x2_0000. */
  method LoadArrayTest() returns (loaded: seq<u8>)
    ensures loaded == [0, 1, 2, 3, 4, 5, 6, 7]
  {
    var m := new Mem();
    var bin: seq<u8> := [0, 1, 2, 3, 4, 5, 6, 7, 8];
    ghost var before := m.mem[..];
    m.LoadArray(INSTBASE, bin);
    SpliceReadBack(before, KERNBASE, bin);
    loaded := m.mem[KERNBASE..KERNBASE + 8];
    assert loaded == bin[..8];
  }

  /** test_mem_write: a byte written at 0x8000_0000 is stored at physical
      0x2_0000 by the next edge. */
  method WriteThenTickTest() returns (stored: u8)
    ensures stored == 1
  {
    var m := new Mem();
    m.Write(INSTBASE, 1);
    assert m.waddr as int == KERNBASE && m.wen && m.wdata == 1;
    m.Tick();
    assert m.waddr as int == KERNBASE && m.wdata == 1;
    stored := m.mem[KERNBASE];
  }

  /** test_mem_read: with byte 3 at physical 0x2_0003, reading 0x8000_0003
      shows 0 before the first edge, still 0 after it, and 3 after the second. */
  method ReadTwoTicksTest() returns (atRead: u32, afterOne: u32, afterTwo: u32)
    ensures atRead == 0 && afterOne == 0 && afterTwo == 3
  {
    var m := new Mem();
    m.mem[0x2_0003] := 3;
    m.Read(0x8000_0003);
    atRead := m.out.Get();
    m.Tick();
    afterOne := m.out.Get();
    m.Tick();
    afterTwo := m.out.Get();
  }

  /** At the top of the 32-bit range the double translation aliases the
      window: reading 0xFFFE_0000 exposes, two edges later, the byte stored at
      physical 0x2_0000, which is the word of 0x8000_0000. */
  method AliasedReadTest() returns (afterTwo: u32)
    ensures afterTwo == 7
  {
    var m := new Mem();
    m.mem[0x2_0000] := 7;
    m.Read(0xFFFE_0000);
    m.Tick();
    m.Tick();
    afterTwo := m.out.Get();
  }
}
