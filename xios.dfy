/** The MP/M II Extended I/O System as a trap dispatcher, stated on values.

    The guest reaches an XIOS entry point with a CALL; the emulator notices
    the program counter on an entry address, does the entry's work on the
    machine state, and returns to the guest as the entry's own RET would.
    Two jump tables are recognised: the full XIOS at `xiosBase` (entries
    BOOT .. IDLE) and the bootstrap LDRBIOS at `ldrbiosBase` (BOOT .. SECTRAN).

    The console layer, the disk engine and the bank selector are not part of
    this model: what they answer is an input (`Env`), and what the dispatcher
    asks of them is recorded (`conReads`, `diskLog`, `consoles`). */
module Xios {
  import opened Bits

  // ---------------------------------------------------------------------
  // The jump table: one 3-byte JP per entry, in this order.

  datatype Entry =
    | Boot | WBoot | ConSt | ConIn | ConOut | List | Punch | Reader
    | Home | SelDsk | SetTrk | SetSec | SetDma | Read | Write | ListSt
    | SecTran | SelMemory | PollDevice | StartClock | StopClock
    | ExitRegion | MaxConsole | SystemInit | Idle

  const SelDskOffset: u16 := 0x1B
  const SecTranOffset: u16 := 0x30
  const IdleOffset: u16 := 0x48

  /** Offset of an entry from the table base: three bytes per slot. */
  function Offset(e: Entry): (o: u16)
    ensures o % 3 == 0 && o <= IdleOffset
  {
    match e
    case Boot => 0x00
    case WBoot => 0x03
    case ConSt => 0x06
    case ConIn => 0x09
    case ConOut => 0x0C
    case List => 0x0F
    case Punch => 0x12
    case Reader => 0x15
    case Home => 0x18
    case SelDsk => 0x1B
    case SetTrk => 0x1E
    case SetSec => 0x21
    case SetDma => 0x24
    case Read => 0x27
    case Write => 0x2A
    case ListSt => 0x2D
    case SecTran => 0x30
    case SelMemory => 0x33
    case PollDevice => 0x36
    case StartClock => 0x39
    case StopClock => 0x3C
    case ExitRegion => 0x3F
    case MaxConsole => 0x42
    case SystemInit => 0x45
    case Idle => 0x48
  }

  /** The `switch (offset)` of the dispatcher: which entry an offset names. */
  function EntryAt(offset: int): (r: Option<Entry>)
    ensures r.Some? <==> 0 <= offset <= IdleOffset && offset % 3 == 0
    ensures r.Some? ==> Offset(r.value) == offset
  {
    if offset == 0x00 then Some(Boot)
    else if offset == 0x03 then Some(WBoot)
    else if offset == 0x06 then Some(ConSt)
    else if offset == 0x09 then Some(ConIn)
    else if offset == 0x0C then Some(ConOut)
    else if offset == 0x0F then Some(List)
    else if offset == 0x12 then Some(Punch)
    else if offset == 0x15 then Some(Reader)
    else if offset == 0x18 then Some(Home)
    else if offset == 0x1B then Some(SelDsk)
    else if offset == 0x1E then Some(SetTrk)
    else if offset == 0x21 then Some(SetSec)
    else if offset == 0x24 then Some(SetDma)
    else if offset == 0x27 then Some(Read)
    else if offset == 0x2A then Some(Write)
    else if offset == 0x2D then Some(ListSt)
    else if offset == 0x30 then Some(SecTran)
    else if offset == 0x33 then Some(SelMemory)
    else if offset == 0x36 then Some(PollDevice)
    else if offset == 0x39 then Some(StartClock)
    else if offset == 0x3C then Some(StopClock)
    else if offset == 0x3F then Some(ExitRegion)
    else if offset == 0x42 then Some(MaxConsole)
    else if offset == 0x45 then Some(SystemInit)
    else if offset == 0x48 then Some(Idle)
    else None
  }

  /** Every entry is found again at its own offset. */
  lemma EntryAtOffset(e: Entry)
    ensures EntryAt(Offset(e)) == Some(e)
  {
  }

  // ---------------------------------------------------------------------
  // Recognising a trap.

  /** The 256-byte window of a jump table (integer arithmetic: no wrap). */
  predicate InWindow(base: u16, pc: u16)
  {
    base <= pc < base + 0x100
  }

  /** `is_xios_call`: the full XIOS window is checked first and, when `pc`
      lies in it, decides alone; only otherwise is the LDRBIOS window tried. */
  function IsXiosCall(xiosBase: u16, ldrbiosBase: u16, pc: u16): (r: bool)
    ensures r <==>
      || (InWindow(xiosBase, pc) && EntryAt(pc - xiosBase).Some?)
      || (!InWindow(xiosBase, pc) && InWindow(ldrbiosBase, pc)
          && EntryAt(pc - ldrbiosBase).Some? && Offset(EntryAt(pc - ldrbiosBase).value) <= SecTranOffset)
  {
    if xiosBase <= pc < xiosBase + 0x100 then
      var offset := pc - xiosBase;
      offset <= IdleOffset && offset % 3 == 0
    else if ldrbiosBase <= pc < ldrbiosBase + 0x100 then
      var offset := pc - ldrbiosBase;
      offset <= SecTranOffset && offset % 3 == 0
    else
      false
  }

  /** `handle_call`'s choice of handler: None when it declines. The offset is
      taken from `xiosBase` whenever `pc >= xiosBase`, and the LDRBIOS SELDSK
      entry is left to the guest's own code. */
  function Target(xiosBase: u16, ldrbiosBase: u16, pc: u16): (r: Option<Entry>)
    ensures r.Some? ==> IsXiosCall(xiosBase, ldrbiosBase, pc)
    ensures InWindow(xiosBase, pc) ==> (r.Some? <==> IsXiosCall(xiosBase, ldrbiosBase, pc))
    ensures r.Some? && pc >= xiosBase ==> pc == xiosBase + Offset(r.value)
    ensures r.Some? && pc < xiosBase ==>
      pc == ldrbiosBase + Offset(r.value) && Offset(r.value) <= SecTranOffset && r.value != SelDsk
    ensures pc < xiosBase ==>
      (r.Some? <==> IsXiosCall(xiosBase, ldrbiosBase, pc) && pc != ldrbiosBase + SelDskOffset)
    ensures pc >= xiosBase + 0x100 ==> r.None?
  {
    if !IsXiosCall(xiosBase, ldrbiosBase, pc) then None
    else
      var isLdrbios := pc < xiosBase;
      var offset := if pc >= xiosBase then pc - xiosBase else Wrap16(pc - ldrbiosBase);
      if isLdrbios && offset == SelDskOffset then None
      else EntryAt(offset)
  }

  // ---------------------------------------------------------------------
  // Machine state.

  /** The CPU registers the dispatcher reads or writes (A and F of AF apart). */
  datatype Regs = Regs(pc: u16, sp: u16, a: u8, f: u8, bc: u16, de: u16, hl: u16, iff1: bool, iff2: bool)

  /** One call into the disk engine. */
  datatype DiskCall =
    | Select(disk: u8)
    | SetTrack(track: u16)
    | SetSector(sector: u16)
    | SetDmaAddress(dma: u16)
    | ReadSector
    | WriteSector

  /** The answers of the collaborators for one dispatch. */
  datatype Env = Env(
    conStatus: u8,                 // const_status() of the console asked
    conChar: u8,                   // read_char() of the console asked
    selectOk: bool,                // DiskSystem::select(disk)
    diskResult: int,               // DiskSystem::read/write return code
    memAfter: Mem64,               // guest memory after a disk read or a bank switch
    registry: map<int, seq<u8>>)   // the consoles as ConsoleManager::init() leaves them

  /** Everything a dispatch can read or change. `consoles` maps each present
      console to the bytes written to it; an absent index has no console. */
  datatype Machine = Machine(
    xiosBase: u16, ldrbiosBase: u16, maxConsoles: u8,
    regs: Regs, mem: Mem64, bank: u8,
    disk: u8, track: u16, sector: u16, dma: u16,
    tickEnabled: bool, preempted: bool,
    consoles: map<int, seq<u8>>, conReads: seq<int>, diskLog: seq<DiskCall>)

  const Eof: u8 := 0x1A
  const Ready: u8 := 0xFF

  function SetA(m: Machine, v: u8): Machine
  {
    m.(regs := m.regs.(a := v))
  }

  /** `write_char` of each byte to console `i`, if there is one. */
  function WriteConsole(m: Machine, i: int, bytes: seq<u8>): Machine
  {
    if i in m.consoles then m.(consoles := m.consoles[i := m.consoles[i] + bytes]) else m
  }

  /** `read_char` of console `i` into A. */
  function ReadConsole(m: Machine, i: int, env: Env): Machine
  {
    m.(regs := m.regs.(a := env.conChar), conReads := m.conReads + [i])
  }

  /** Disk parameter header of `disk`: at the table base + 0x100, 16 bytes each, in 16 bits. */
  function DphAddress(xiosBase: u16, disk: u8): (a: u16)
    ensures a % 16 == xiosBase % 16
  {
    Wrap16(xiosBase + 0x100 + disk * 16)
  }

  /** Disk calls of READ/WRITE: the three latches, then the transfer. */
  function Transfer(m: Machine, op: DiskCall): seq<DiskCall>
  {
    [SetTrack(m.track), SetSector(m.sector), SetDmaAddress(m.dma), op]
  }

  /** POLLDEVICE: printer 0 and console outputs 1-4 are always ready;
      device 5-8 is console 0-3's input, ready when it has a character. */
  function PollStatus(m: Machine, device: u8, env: Env): (s: u8)
    ensures s == Ready || s == 0x00
    ensures device > 8 ==> s == 0x00
    ensures 5 <= device <= 8 && device - 5 !in m.consoles ==> s == 0x00
  {
    if device == 0 then Ready
    else if 1 <= device <= 4 then Ready
    else if 5 <= device <= 8 then
      (if device - 5 in m.consoles && env.conStatus != 0 then Ready else 0x00)
    else 0x00
  }

  /** The work of entry `e` before its return. No entry moves PC or SP
      itself, none changes BC, DE or F, and each other part of the state
      is changed only by the entries named here. */
  function Effect(m: Machine, e: Entry, env: Env): (r: Machine)
    ensures r.xiosBase == m.xiosBase && r.ldrbiosBase == m.ldrbiosBase && r.maxConsoles == m.maxConsoles
    ensures r.regs.pc == m.regs.pc && r.regs.sp == m.regs.sp
    ensures r.regs.f == m.regs.f && r.regs.bc == m.regs.bc && r.regs.de == m.regs.de
    ensures r.regs.a != m.regs.a ==> e in {ConSt, ConIn, Reader, ListSt, Read, Write, PollDevice, MaxConsole}
    ensures r.regs.hl != m.regs.hl ==> e == SelDsk || e == SecTran
    ensures r.regs.iff1 != m.regs.iff1 || r.regs.iff2 != m.regs.iff2 ==> e == ExitRegion
    ensures r.mem != m.mem ==> e == Read || e == SelMemory
    ensures r.bank != m.bank ==> e == SelMemory
    ensures r.disk != m.disk ==> e == SelDsk
    ensures r.track != m.track ==> e == Home || e == SetTrk
    ensures r.sector != m.sector ==> e == SetSec
    ensures r.dma != m.dma ==> e == SetDma
    ensures r.tickEnabled != m.tickEnabled ==> e == StartClock || e == StopClock
    ensures r.preempted == m.preempted
    ensures r.consoles != m.consoles ==> e == ConOut || e == SystemInit
    ensures r.conReads != m.conReads ==> e == ConIn
    ensures r.diskLog != m.diskLog ==> e in {SelDsk, Read, Write}
  {
    match e
    case Boot => m
    case WBoot => m
    case ConSt =>
      var console := Hi(m.regs.de);
      SetA(m, if console in m.consoles then env.conStatus else 0x00)
    case ConIn =>
      var console := Hi(m.regs.de);
      if console in m.consoles then ReadConsole(m, console, env) else SetA(m, Eof)
    case ConOut =>
      var console := if m.regs.pc >= m.xiosBase then Hi(m.regs.de) else 0;
      WriteConsole(m, console, [Lo(m.regs.bc)])
    case List => m
    case Punch => m
    case Reader => SetA(m, Eof)
    case Home => m.(track := 0)
    case SelDsk =>
      var disk := Lo(m.regs.bc);
      var asked := m.(diskLog := m.diskLog + [Select(disk)]);
      if !env.selectOk then asked.(regs := m.regs.(hl := 0x0000))
      else asked.(disk := disk, regs := m.regs.(hl := DphAddress(m.xiosBase, disk)))
    case SetTrk => m.(track := m.regs.bc)
    case SetSec => m.(sector := m.regs.bc)
    case SetDma => m.(dma := m.regs.bc)
    case Read =>
      m.(diskLog := m.diskLog + Transfer(m, ReadSector), mem := env.memAfter,
         regs := m.regs.(a := env.diskResult % 0x100))
    case Write =>
      m.(diskLog := m.diskLog + Transfer(m, WriteSector),
         regs := m.regs.(a := env.diskResult % 0x100))
    case ListSt => SetA(m, Ready)
    case SecTran => m.(regs := m.regs.(hl := m.regs.bc))
    case SelMemory =>
      m.(bank := m.mem[Wrap16(m.regs.bc + 3)], mem := env.memAfter)
    case PollDevice => SetA(m, PollStatus(m, Lo(m.regs.bc), env))
    case StartClock => m.(tickEnabled := true)
    case StopClock => m.(tickEnabled := false)
    case ExitRegion =>
      if !m.preempted then m.(regs := m.regs.(iff1 := true, iff2 := true)) else m
    case MaxConsole => SetA(m, m.maxConsoles)
    case SystemInit => m.(consoles := env.registry)
    case Idle => m
  }

  // ---------------------------------------------------------------------
  // The synthetic return.

  /** The little-endian word on top of the stack. */
  function PoppedAddress(mem: Mem64, sp: u16): u16
  {
    Word(mem[Wrap16(sp + 1)], mem[sp])
  }

  /** `do_ret`: pop the return address into PC; nothing else changes. */
  function Return(m: Machine): (r: Machine)
    ensures r == m.(regs := m.regs.(pc := r.regs.pc, sp := r.regs.sp))
  {
    m.(regs := m.regs.(pc := PoppedAddress(m.mem, m.regs.sp), sp := Wrap16(m.regs.sp + 2)))
  }

  /** What the guest's `CALL target` did before the trap: push the return
      address (high byte first, so it lands little-endian) and jump. */
  function PushCall(m: Machine, target: u16, ret: u16): Machine
  {
    var sp := Wrap16(m.regs.sp - 2);
    m.(mem := m.mem[sp := Lo(ret)][Wrap16(sp + 1) := Hi(ret)],
       regs := m.regs.(pc := target, sp := sp))
  }

  /** `handle_call`: decline (nothing changes) or run the entry and return. */
  function Step(m: Machine, pc: u16, env: Env): (r: (bool, Machine))
    ensures r.0 <==> Target(m.xiosBase, m.ldrbiosBase, pc).Some?
    ensures !r.0 ==> r.1 == m
    ensures r.0 ==> r.1.regs.sp == Wrap16(m.regs.sp + 2) && r.1.regs.pc == PoppedAddress(r.1.mem, m.regs.sp)
    ensures r.0 ==> r.1.regs.bc == m.regs.bc && r.1.regs.de == m.regs.de && r.1.regs.f == m.regs.f
  {
    match Target(m.xiosBase, m.ldrbiosBase, pc)
    case None => (false, m)
    case Some(e) => (true, Return(Effect(m, e, env)))
  }

  // ---------------------------------------------------------------------
  // The loader's BDOS (`do_bdos`), keyed on the function number in C.

  const Dollar: u8 := 0x24
  const PrintLimit: nat := 1000

  /** Function 9's output: bytes from `addr` on (wrapping at 64 KiB), up to
      the first '$', and never more than `budget` of them. */
  function PrintedString(mem: Mem64, addr: u16, budget: nat): (s: seq<u8>)
    decreases budget
    ensures |s| <= budget
    ensures Dollar !in s
  {
    if budget == 0 || mem[addr] == Dollar then []
    else [mem[addr]] + PrintedString(mem, Wrap16(addr + 1), budget - 1)
  }

  /** The effect of `do_bdos` before its return. */
  function BdosEffect(m: Machine, env: Env): (r: Machine)
    ensures r.xiosBase == m.xiosBase && r.ldrbiosBase == m.ldrbiosBase && r.maxConsoles == m.maxConsoles
    ensures r.regs.pc == m.regs.pc && r.regs.sp == m.regs.sp
    ensures r.regs.f == m.regs.f && r.regs.bc == m.regs.bc && r.regs.de == m.regs.de
    ensures r.regs.iff1 == m.regs.iff1 && r.regs.iff2 == m.regs.iff2
    ensures r.mem == m.mem && r.bank == m.bank && r.track == m.track && r.sector == m.sector
    ensures r.tickEnabled == m.tickEnabled && r.preempted == m.preempted
    ensures r.regs.hl != m.regs.hl ==> Lo(m.regs.bc) == 12
    ensures r.dma != m.dma ==> Lo(m.regs.bc) == 26
    ensures r.disk != m.disk ==> Lo(m.regs.bc) == 13 || Lo(m.regs.bc) == 14
    ensures r.consoles != m.consoles ==> Lo(m.regs.bc) in {1, 2, 6, 9}
    ensures Lo(m.regs.bc) !in {1, 2, 6, 9, 11, 12, 13, 14, 15, 20, 26} ==> r == m
  {
    var de := m.regs.de;
    var con0 := 0 in m.consoles;
    match Lo(m.regs.bc)
    case 0 => m
    case 1 =>
      if con0 then WriteConsole(ReadConsole(m, 0, env), 0, [env.conChar]) else SetA(m, Eof)
    case 2 => WriteConsole(m, 0, [Lo(de)])
    case 6 =>
      if Lo(de) == 0xFF then
        (if con0 && env.conStatus != 0 then ReadConsole(m, 0, env) else SetA(m, 0))
      else WriteConsole(m, 0, [Lo(de)])
    case 9 => WriteConsole(m, 0, PrintedString(m.mem, de, PrintLimit))
    case 11 => SetA(m, if con0 && env.conStatus != 0 then Ready else 0x00)
    case 12 => m.(regs := m.regs.(hl := 0x0021, a := 0x21))
    case 13 => m.(diskLog := m.diskLog + [Select(0)], disk := 0)
    case 14 =>
      var disk := de % 0x10;
      m.(disk := disk, diskLog := m.diskLog + [Select(disk)], regs := m.regs.(a := 0))
    case 15 => SetA(m, 0xFF)
    case 20 => SetA(m, 1)
    case 26 => m.(dma := de)
    case _ => m
  }
}
