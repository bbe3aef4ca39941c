/** The XIOS object as the emulator holds it: latched disk state and clock
    flags of its own, and the CPU and banked memory it is handed. Every
    handler rewrites these in place and finishes with `DoRet`; each method
    is proved to do exactly what `Xios.Effect`, `Xios.Return` and `Xios.Step`
    say. */
module XiosDispatcher {
  import opened Bits
  import opened Xios

  /** The register file of the CPU emulator. */
  class Cpu {
    var pc: u16
    var sp: u16
    var a: u8
    var f: u8
    var bc: u16
    var de: u16
    var hl: u16
    var iff1: bool
    var iff2: bool

    ghost function Registers(): Regs
      reads this
    {
      Regs(pc, sp, a, f, bc, de, hl, iff1, iff2)
    }
  }

  /** The banked memory: the 64 KiB visible now and the bank last selected. */
  class Memory {
    var bytes: Mem64
    ghost var bank: u8

    /** `fetch_mem`. */
    function Fetch(addr: u16): u8
      reads this
    {
      bytes[addr]
    }
  }

  class Dispatcher {
    const cpu: Cpu
    const mem: Memory
    var xiosBase: u16
    var ldrbiosBase: u16
    /** MPMLDR's internal BDOS entry: served by `DoBdos`, never by `HandleCall`. */
    const bdosStub: u16
    /** MAX_CONSOLES, as configured. */
    const maxConsoles: u8
    var currentDisk: u8
    var currentTrack: u16
    var currentSector: u16
    var dmaAddr: u16
    var tickEnabled: bool
    var preempted: bool
    /** The console registry: present consoles and what was written to each. */
    var consoles: map<int, seq<u8>>
    /** Consoles read from, in order. */
    ghost var conReads: seq<int>
    /** Calls made into the disk engine, in order. */
    ghost var diskLog: seq<DiskCall>

    ghost function Snapshot(): Machine
      reads this, cpu, mem
    {
      Machine(xiosBase, ldrbiosBase, maxConsoles, cpu.Registers(), mem.bytes, mem.bank,
              currentDisk, currentTrack, currentSector, dmaAddr, tickEnabled, preempted,
              consoles, conReads, diskLog)
    }

    /** The defaults set before system generation fixes the XIOS base. */
    constructor (cpu: Cpu, mem: Memory, maxConsoles: u8, consoles: map<int, seq<u8>>)
      ensures this.cpu == cpu && this.mem == mem && this.maxConsoles == maxConsoles
      ensures this.consoles == consoles && conReads == [] && diskLog == []
      ensures xiosBase == 0xFC00 && ldrbiosBase == 0x1700 && bdosStub == 0x0D06
      ensures currentDisk == 0 && currentTrack == 0 && currentSector == 0 && dmaAddr == 0x0080
      ensures !tickEnabled && !preempted
    {
      this.cpu := cpu;
      this.mem := mem;
      this.maxConsoles := maxConsoles;
      xiosBase := 0xFC00;
      ldrbiosBase := 0x1700;
      bdosStub := 0x0D06;
      currentDisk := 0;
      currentTrack := 0;
      currentSector := 0;
      dmaAddr := 0x0080;
      tickEnabled := false;
      preempted := false;
      this.consoles := consoles;
      conReads := [];
      diskLog := [];
    }

    /** `handle_call(pc)`. */
    method HandleCall(pc: u16, env: Env) returns (handled: bool)
      modifies this, cpu, mem
      ensures (handled, Snapshot()) == Step(old(Snapshot()), pc, env)
    {
      if !IsXiosCall(xiosBase, ldrbiosBase, pc) {
        return false;
      }
      var isLdrbios := pc < xiosBase;
      var offset := if pc >= xiosBase then pc - xiosBase else Wrap16(pc - ldrbiosBase);
      if isLdrbios && offset == SelDskOffset {
        return false;
      }
      var entry := EntryAt(offset);
      if entry.None? {
        return false;
      }
      ghost var m0 := Snapshot();
      assert Target(xiosBase, ldrbiosBase, pc) == entry;
      match entry.value {
      case Boot => DoRet();
      case WBoot => DoRet();
      case ConSt => DoConSt(env);
      case ConIn => DoConIn(env);
      case ConOut => DoConOut(env);
      case List => DoRet();
      case Punch => DoRet();
      case Reader => DoReader(env);
      case Home => DoHome(env);
      case SelDsk => DoSelDsk(env);
      case SetTrk => DoSetTrk(env);
      case SetSec => DoSetSec(env);
      case SetDma => DoSetDma(env);
      case Read => DoRead(env);
      case Write => DoWrite(env);
      case ListSt => DoListSt(env);
      case SecTran => DoSecTran(env);
      case SelMemory => DoSelMemory(env);
      case PollDevice => DoPollDevice(env);
      case StartClock => DoStartClock(env);
      case StopClock => DoStopClock(env);
      case ExitRegion => DoExitRegion(env);
      case MaxConsole => DoMaxConsole(env);
      case SystemInit => DoSystemInit(env);
      case Idle => DoRet();
      }
      assert Snapshot() == Return(Effect(m0, entry.value, env));
      handled := true;
    }

    /** `do_ret`: pop the little-endian return address into PC. BOOT, WBOOT,
        LIST, PUNCH and IDLE do only this. */
    method DoRet()
      modifies cpu
      ensures Snapshot() == Return(old(Snapshot()))
    {
      var sp := cpu.sp;
      var lo := mem.Fetch(sp);
      var hi := mem.Fetch(Wrap16(sp as int + 1));
      cpu.sp := Wrap16(sp as int + 2);
      cpu.pc := Word(hi, lo);
    }

    method DoConSt(env: Env)
      modifies cpu
      ensures Snapshot() == Return(Effect(old(Snapshot()), ConSt, env))
    {
      var console := Hi(cpu.de);
      if console in consoles {
        cpu.a := env.conStatus;
      } else {
        cpu.a := 0x00;
      }
      DoRet();
    }

    method DoConIn(env: Env)
      modifies this, cpu
      ensures Snapshot() == Return(Effect(old(Snapshot()), ConIn, env))
    {
      var console := Hi(cpu.de);
      if console in consoles {
        conReads := conReads + [console];
        cpu.a := env.conChar;
      } else {
        cpu.a := Eof;
      }
      DoRet();
    }

    /** Console 0 when the trapped PC lies below the XIOS (LDRBIOS phase), else console D. */
    method DoConOut(env: Env)
      modifies this, cpu
      ensures Snapshot() == Return(Effect(old(Snapshot()), ConOut, env))
    {
      var console := 0;
      if cpu.pc >= xiosBase {
        console := Hi(cpu.de);
      }
      var ch := Lo(cpu.bc);
      if console in consoles {
        consoles := consoles[console := consoles[console] + [ch]];
      }
      DoRet();
    }

    method DoReader(env: Env)
      modifies cpu
      ensures Snapshot() == Return(Effect(old(Snapshot()), Reader, env))
    {
      cpu.a := Eof;
      DoRet();
    }

    method DoListSt(env: Env)
      modifies cpu
      ensures Snapshot() == Return(Effect(old(Snapshot()), ListSt, env))
    {
      cpu.a := Ready;
      DoRet();
    }

    method DoHome(env: Env)
      modifies this, cpu
      ensures Snapshot() == Return(Effect(old(Snapshot()), Home, env))
    {
      currentTrack := 0;
      DoRet();
    }

    method DoSelDsk(env: Env)
      modifies this, cpu
      ensures Snapshot() == Return(Effect(old(Snapshot()), SelDsk, env))
    {
      var disk := Lo(cpu.bc);
      diskLog := diskLog + [Select(disk)];
      if !env.selectOk {
        cpu.hl := 0x0000;
        DoRet();
        return;
      }
      currentDisk := disk;
      cpu.hl := DphAddress(xiosBase, disk);
      DoRet();
    }

    method DoSetTrk(env: Env)
      modifies this, cpu
      ensures Snapshot() == Return(Effect(old(Snapshot()), SetTrk, env))
    {
      currentTrack := cpu.bc;
      DoRet();
    }

    method DoSetSec(env: Env)
      modifies this, cpu
      ensures Snapshot() == Return(Effect(old(Snapshot()), SetSec, env))
    {
      currentSector := cpu.bc;
      DoRet();
    }

    method DoSetDma(env: Env)
      modifies this, cpu
      ensures Snapshot() == Return(Effect(old(Snapshot()), SetDma, env))
    {
      dmaAddr := cpu.bc;
      DoRet();
    }

    /** Hands the latched track, sector and DMA address to the disk engine,
        which transfers into guest memory; its status goes to A. */
    method DoRead(env: Env)
      modifies this, cpu, mem
      ensures Snapshot() == Return(Effect(old(Snapshot()), Read, env))
    {
      diskLog := diskLog + [SetTrack(currentTrack), SetSector(currentSector), SetDmaAddress(dmaAddr)];
      diskLog := diskLog + [ReadSector];
      mem.bytes := env.memAfter;
      cpu.a := env.diskResult % 0x100;
      DoRet();
    }

    method DoWrite(env: Env)
      modifies this, cpu
      ensures Snapshot() == Return(Effect(old(Snapshot()), Write, env))
    {
      diskLog := diskLog + [SetTrack(currentTrack), SetSector(currentSector), SetDmaAddress(dmaAddr)];
      diskLog := diskLog + [WriteSector];
      cpu.a := env.diskResult % 0x100;
      DoRet();
    }

    method DoSecTran(env: Env)
      modifies cpu
      ensures Snapshot() == Return(Effect(old(Snapshot()), SecTran, env))
    {
      cpu.hl := cpu.bc;
      DoRet();
    }

    /** BC points at a memory descriptor whose byte 3 is the bank to select. */
    method DoSelMemory(env: Env)
      modifies cpu, mem
      ensures Snapshot() == Return(Effect(old(Snapshot()), SelMemory, env))
    {
      var descAddr := cpu.bc;
      var bank := mem.Fetch(Wrap16(descAddr as int + 3));
      mem.bank := bank;
      mem.bytes := env.memAfter;
      DoRet();
    }

    method DoPollDevice(env: Env)
      modifies cpu
      ensures Snapshot() == Return(Effect(old(Snapshot()), PollDevice, env))
    {
      var device := Lo(cpu.bc);
      var result: u8 := 0x00;
      if device == 0 {
        result := Ready;
      } else if 1 <= device <= 4 {
        result := Ready;
      } else if 5 <= device <= 8 {
        var console := device - 5;
        if console in consoles && env.conStatus != 0 {
          result := Ready;
        }
      }
      ghost var m0 := Snapshot();
      assert result == PollStatus(m0, device, env);
      cpu.a := result;
      assert Snapshot() == Effect(m0, PollDevice, env);
      DoRet();
    }

    method DoStartClock(env: Env)
      modifies this, cpu
      ensures Snapshot() == Return(Effect(old(Snapshot()), StartClock, env))
    {
      tickEnabled := true;
      DoRet();
    }

    method DoStopClock(env: Env)
      modifies this, cpu
      ensures Snapshot() == Return(Effect(old(Snapshot()), StopClock, env))
    {
      tickEnabled := false;
      DoRet();
    }

    method DoExitRegion(env: Env)
      modifies cpu
      ensures Snapshot() == Return(Effect(old(Snapshot()), ExitRegion, env))
    {
      if !preempted {
        cpu.iff1 := true;
        cpu.iff2 := true;
      }
      DoRet();
    }

    method DoMaxConsole(env: Env)
      modifies cpu
      ensures Snapshot() == Return(Effect(old(Snapshot()), MaxConsole, env))
    {
      cpu.a := maxConsoles;
      DoRet();
    }

    /** Re-initialises the console registry; the interrupt vectors are not yet set up. */
    method DoSystemInit(env: Env)
      modifies this, cpu
      ensures Snapshot() == Return(Effect(old(Snapshot()), SystemInit, env))
    {
      consoles := env.registry;
      DoRet();
    }

    /** Function 9's loop: at most 1000 bytes, stopping before a '$'. */
    method PrintString(addr: u16)
      requires 0 in consoles
      modifies this`consoles
      ensures consoles == old(consoles)[0 := old(consoles)[0] + PrintedString(mem.bytes, addr, PrintLimit)]
    {
      var at := addr;
      var i := 0;
      while i < PrintLimit
        invariant 0 <= i <= PrintLimit
        invariant 0 in consoles && consoles == old(consoles)[0 := consoles[0]]
        invariant old(consoles)[0] + PrintedString(mem.bytes, addr, PrintLimit)
               == consoles[0] + PrintedString(mem.bytes, at, PrintLimit - i)
      {
        var ch := mem.Fetch(at);
        if ch == Dollar {
          assert PrintedString(mem.bytes, at, PrintLimit - i) == [];
          break;
        }
        var next := Wrap16(at as int + 1);
        assert PrintedString(mem.bytes, at, PrintLimit - i)
            == [ch] + PrintedString(mem.bytes, next, PrintLimit - i - 1);
        consoles := consoles[0 := consoles[0] + [ch]];
        at := next;
        i := i + 1;
      }
      assert PrintedString(mem.bytes, at, PrintLimit - i) == [];
      assert consoles[0] == old(consoles)[0] + PrintedString(mem.bytes, addr, PrintLimit);
    }

    /** `do_bdos`, the loader's system call, served at `bdosStub`. */
    method DoBdos(env: Env)
      modifies this, cpu
      ensures Snapshot() == Return(BdosEffect(old(Snapshot()), env))
    {
      ghost var m0 := Snapshot();
      var func := Lo(cpu.bc);
      var de := cpu.de;
      match func {
      case 0 =>
      case 1 =>
        if 0 in consoles {
          var ch := env.conChar;
          conReads := conReads + [0];
          cpu.a := ch;
          consoles := consoles[0 := consoles[0] + [ch]];
        } else {
          cpu.a := Eof;
        }
      case 2 =>
        if 0 in consoles {
          consoles := consoles[0 := consoles[0] + [Lo(de)]];
        }
      case 6 =>
        if Lo(de) == 0xFF {
          if 0 in consoles && env.conStatus != 0 {
            conReads := conReads + [0];
            cpu.a := env.conChar;
          } else {
            cpu.a := 0;
          }
        } else if 0 in consoles {
          consoles := consoles[0 := consoles[0] + [Lo(de)]];
        }
      case 9 =>
        if 0 in consoles {
          PrintString(de);
        }
      case 11 =>
        cpu.a := if 0 in consoles && env.conStatus != 0 then Ready else 0x00;
      case 12 =>
        cpu.hl := 0x0021;
        cpu.a := 0x21;
      case 13 =>
        diskLog := diskLog + [Select(0)];
        currentDisk := 0;
      case 14 =>
        currentDisk := de % 0x10;
        diskLog := diskLog + [Select(currentDisk)];
        cpu.a := 0;
      case 15 =>
        cpu.a := 0xFF;
      case 20 =>
        cpu.a := 1;
      case 26 =>
        dmaAddr := de;
      case _ =>
      }
      assert Snapshot() == BdosEffect(m0, env);
      DoRet();
    }
  }
}
