/** What the XIOS promises its guest, proved about `Xios.Step`, `Xios.Effect`
    and `Xios.BdosEffect` (and so, through their contracts, about the
    `XiosDispatcher.Dispatcher` methods). */
module XiosProperties {
  import opened Bits
  import opened Xios

  // ---------------------------------------------------------------------
  // Trap recognition.

  /** With the two tables in separate windows (as the defaults 0xFC00 and
      0x1700 are), a PC is a trap exactly when it is an XIOS entry, or an
      LDRBIOS entry no later than SECTRAN. */
  lemma IsXiosCallExactlyEntries(xiosBase: u16, ldrbiosBase: u16, pc: u16)
    requires xiosBase + 0x100 <= ldrbiosBase || ldrbiosBase + 0x100 <= xiosBase
    ensures IsXiosCall(xiosBase, ldrbiosBase, pc) <==>
      exists e :: pc == xiosBase + Offset(e) || (Offset(e) <= SecTranOffset && pc == ldrbiosBase + Offset(e))
  {
    if IsXiosCall(xiosBase, ldrbiosBase, pc) {
      if InWindow(xiosBase, pc) {
        var e := EntryAt(pc - xiosBase).value;
        assert pc == xiosBase + Offset(e);
      } else {
        var e := EntryAt(pc - ldrbiosBase).value;
        assert pc == ldrbiosBase + Offset(e);
      }
    } else if e :| pc == xiosBase + Offset(e) || (Offset(e) <= SecTranOffset && pc == ldrbiosBase + Offset(e)) {
      EntryAtOffset(e);
      assert false;
    }
  }

  /** The LDRBIOS SELDSK entry is never intercepted: the guest's own code
      returns its own disk parameter header. */
  lemma LdrbiosSelDskDeclined(m: Machine, env: Env)
    requires m.ldrbiosBase + SelDskOffset < m.xiosBase
    ensures Step(m, m.ldrbiosBase + SelDskOffset, env) == (false, m)
  {
  }

  // ---------------------------------------------------------------------
  // The synthetic return.

  /** Popping what a CALL pushed gives back its return address and stack
      pointer and touches no other register. */
  lemma {:induction false} CallThenReturn(m: Machine, target: u16, ret: u16)
    ensures Return(PushCall(m, target, ret)).regs == m.regs.(pc := ret)
  {
    var sp := Wrap16(m.regs.sp - 2);
    var hiAt := Wrap16(sp as int + 1);
    assert hiAt != sp;
    var mem := m.mem[sp := Lo(ret)][hiAt := Hi(ret)];
    assert mem[sp] == Lo(ret) && mem[hiAt] == Hi(ret);
    assert Wrap16(sp as int + 2) == m.regs.sp;
    assert Word(Hi(ret), Lo(ret)) == ret;
  }

  /** A trap reached by a guest CALL comes back to the instruction after
      that CALL with the caller's stack pointer, whatever the entry did,
      unless the entry itself replaced memory (READ, SELMEMORY). */
  lemma TrapReturnsToCaller(m0: Machine, pc: u16, ret: u16, env: Env)
    requires Target(m0.xiosBase, m0.ldrbiosBase, pc).Some?
    requires Target(m0.xiosBase, m0.ldrbiosBase, pc).value !in {Read, SelMemory}
    ensures Step(PushCall(m0, pc, ret), pc, env).0
    ensures Step(PushCall(m0, pc, ret), pc, env).1.regs.pc == ret
    ensures Step(PushCall(m0, pc, ret), pc, env).1.regs.sp == m0.regs.sp
  {
    var m := PushCall(m0, pc, ret);
    var e := Target(m.xiosBase, m.ldrbiosBase, pc).value;
    var r := Effect(m, e, env);
    CallThenReturn(m0, pc, ret);
    assert r.mem == m.mem && r.regs.sp == m.regs.sp;
  }

  // ---------------------------------------------------------------------
  // Disk entries.

  /** SELDSK asks the engine to select disk C. On refusal HL is 0 and the
      current disk stays; on success the disk is latched and HL points at
      its 16-byte header above the table. */
  lemma SelDskOutcome(m: Machine, pc: u16, env: Env)
    requires Target(m.xiosBase, m.ldrbiosBase, pc) == Some(SelDsk)
    ensures var (handled, r) := Step(m, pc, env);
      && handled
      && r.diskLog == m.diskLog + [Select(Lo(m.regs.bc))]
      && (!env.selectOk ==> r.regs.hl == 0x0000 && r.disk == m.disk)
      && (env.selectOk ==> r.disk == Lo(m.regs.bc) && r.regs.hl == DphAddress(m.xiosBase, Lo(m.regs.bc)))
  {
  }

  /** The header address names its disk: the disk number is recovered from
      it, so no two disks share a header. */
  lemma {:induction false} DphRecoversDisk(xiosBase: u16, disk: u8)
    ensures Wrap16(DphAddress(xiosBase, disk) - xiosBase - 0x100) / 16 == disk
  {
    var x := xiosBase + 0x100 + disk * 16;
    assert DphAddress(xiosBase, disk) == x % 0x1_0000;
    assert (x % 0x1_0000 - xiosBase - 0x100) % 0x1_0000 == (disk * 16) % 0x1_0000 by {
      assert x % 0x1_0000 - xiosBase - 0x100 == disk * 16 - (x / 0x1_0000) * 0x1_0000;
    }
  }

  /** The three latches that READ and WRITE consume. */
  datatype Latch = TrackLatch | SectorLatch | DmaLatch

  function Latched(m: Machine, l: Latch): u16
  {
    match l
    case TrackLatch => m.track
    case SectorLatch => m.sector
    case DmaLatch => m.dma
  }

  /** Whether entry `e` stores into latch `l` (HOME stores track 0). */
  predicate Stores(e: Entry, l: Latch)
  {
    match l
    case TrackLatch => e == Home || e == SetTrk
    case SectorLatch => e == SetSec
    case DmaLatch => e == SetDma
  }

  /** A latch call as the guest makes it: the entry with BC loaded. */
  datatype LatchCall = LatchCall(entry: Entry, bc: u16)

  predicate IsLatchEntry(e: Entry)
  {
    e in {Home, SetTrk, SetSec, SetDma}
  }

  /** What a latch call stores. */
  function Stored(c: LatchCall): u16
  {
    if c.entry == Home then 0 else c.bc
  }

  /** Dispatching the calls in order, each with its BC. */
  function RunLatches(m: Machine, calls: seq<LatchCall>, env: Env): Machine
    decreases |calls|
  {
    if calls == [] then m
    else
      var prev := RunLatches(m, calls[..|calls| - 1], env);
      var c := calls[|calls| - 1];
      Return(Effect(prev.(regs := prev.regs.(bc := c.bc)), c.entry, env))
  }

  /** A latch no call stores into keeps its value. */
  lemma {:induction false} LatchUntouched(m: Machine, calls: seq<LatchCall>, env: Env, l: Latch)
    requires forall i :: 0 <= i < |calls| ==> IsLatchEntry(calls[i].entry) && !Stores(calls[i].entry, l)
    ensures Latched(RunLatches(m, calls, env), l) == Latched(m, l)
  {
    if calls != [] {
      LatchUntouched(m, calls[..|calls| - 1], env, l);
    }
  }

  /** Last write wins: a latch holds what the last call storing into it
      stored, whatever the other latch calls after it. */
  lemma {:induction false} LatchLastWriteWins(m: Machine, calls: seq<LatchCall>, env: Env, l: Latch, k: nat)
    requires forall i :: 0 <= i < |calls| ==> IsLatchEntry(calls[i].entry)
    requires k < |calls| && Stores(calls[k].entry, l)
    requires forall j :: k < j < |calls| ==> !Stores(calls[j].entry, l)
    ensures Latched(RunLatches(m, calls, env), l) == Stored(calls[k])
  {
    if k < |calls| - 1 {
      LatchLastWriteWins(m, calls[..|calls| - 1], env, l, k);
    }
  }

  /** READ hands the engine exactly the latched track, sector and DMA
      address, then the transfer, and returns the engine's status in A. */
  lemma ReadPresentsLatches(m: Machine, pc: u16, env: Env)
    requires Target(m.xiosBase, m.ldrbiosBase, pc) == Some(Read)
    ensures var (handled, r) := Step(m, pc, env);
      && handled
      && r.diskLog == m.diskLog + [SetTrack(m.track), SetSector(m.sector), SetDmaAddress(m.dma), ReadSector]
      && r.regs.a == env.diskResult % 0x100
      && r.track == m.track && r.sector == m.sector && r.dma == m.dma
  {
  }

  /** WRITE hands the engine exactly the latched track, sector and DMA
      address, then the transfer, returns the engine's status in A, and
      leaves guest memory as it was. */
  lemma WritePresentsLatches(m: Machine, pc: u16, env: Env)
    requires Target(m.xiosBase, m.ldrbiosBase, pc) == Some(Write)
    ensures var (handled, r) := Step(m, pc, env);
      && handled
      && r.diskLog == m.diskLog + [SetTrack(m.track), SetSector(m.sector), SetDmaAddress(m.dma), WriteSector]
      && r.regs.a == env.diskResult % 0x100
      && r.mem == m.mem
      && r.track == m.track && r.sector == m.sector && r.dma == m.dma
  {
  }

  /** READ's request, in terms of the latches it reads. */
  lemma ReadRequest(m: Machine, env: Env)
    ensures var r := Effect(m, Read, env);
      r.diskLog[|r.diskLog| - 4..] == [SetTrack(m.track), SetSector(m.sector), SetDmaAddress(m.dma), ReadSector]
  {
    var r := Effect(m, Read, env);
    assert r.diskLog == m.diskLog + [SetTrack(m.track), SetSector(m.sector), SetDmaAddress(m.dma), ReadSector];
  }

  /** SETTRK T, SETSEC S and SETDMA D in any order, then READ: the engine
      is given exactly T, S and D. */
  lemma SetThenReadInAnyOrder(m: Machine, calls: seq<LatchCall>, env: Env, t: u16, s: u16, d: u16)
    requires multiset(calls) == multiset{LatchCall(SetTrk, t), LatchCall(SetSec, s), LatchCall(SetDma, d)}
    ensures var r := Effect(RunLatches(m, calls, env), Read, env);
      r.diskLog[|r.diskLog| - 4..] == [SetTrack(t), SetSector(s), SetDmaAddress(d), ReadSector]
  {
    var kt := SetterOf(calls, TrackLatch, LatchCall(SetTrk, t), t, s, d);
    var ks := SetterOf(calls, SectorLatch, LatchCall(SetSec, s), t, s, d);
    var kd := SetterOf(calls, DmaLatch, LatchCall(SetDma, d), t, s, d);
    LatchLastWriteWins(m, calls, env, TrackLatch, kt);
    LatchLastWriteWins(m, calls, env, SectorLatch, ks);
    LatchLastWriteWins(m, calls, env, DmaLatch, kd);
    var before := RunLatches(m, calls, env);
    assert Latched(before, TrackLatch) == t && Latched(before, SectorLatch) == s && Latched(before, DmaLatch) == d;
    ReadRequest(before, env);
  }

  /** In a permutation of the three setters, the setter `c` of latch `l`
      sits at some index `k`, and it is the only call storing into `l`. */
  lemma SetterOf(calls: seq<LatchCall>, l: Latch, c: LatchCall, t: u16, s: u16, d: u16) returns (k: nat)
    requires multiset(calls) == multiset{LatchCall(SetTrk, t), LatchCall(SetSec, s), LatchCall(SetDma, d)}
    requires c in multiset{LatchCall(SetTrk, t), LatchCall(SetSec, s), LatchCall(SetDma, d)} && Stores(c.entry, l)
    ensures k < |calls| && calls[k] == c && Stored(c) == c.bc
    ensures forall i :: 0 <= i < |calls| ==> IsLatchEntry(calls[i].entry)
    ensures forall j :: k < j < |calls| ==> !Stores(calls[j].entry, l)
  {
    assert c in multiset(calls);
    k :| 0 <= k < |calls| && calls[k] == c;
    forall i | 0 <= i < |calls|
      ensures IsLatchEntry(calls[i].entry)
      ensures i != k ==> !Stores(calls[i].entry, l)
    {
      assert calls[i] in multiset(calls);
    }
  }

  // ---------------------------------------------------------------------
  // Console, device, clock and interrupt entries.

  /** POLLDEVICE answers 0xFF or 0x00: ready for the printer (0) and the
      console outputs (1-4) always, for a console input (5-8) exactly when
      that console exists and has a character, and never for any other device. */
  lemma PollDeviceReady(m: Machine, pc: u16, env: Env)
    requires Target(m.xiosBase, m.ldrbiosBase, pc) == Some(PollDevice)
    ensures var (handled, r) := Step(m, pc, env);
      var device := Lo(m.regs.bc);
      && handled
      && (r.regs.a == 0xFF || r.regs.a == 0x00)
      && (r.regs.a == 0xFF <==>
            device <= 4 || (5 <= device <= 8 && device - 5 in m.consoles && env.conStatus != 0))
  {
  }

  /** CONST and CONIN on an absent console: not ready, and end-of-file. */
  lemma AbsentConsole(m: Machine, pc: u16, env: Env)
    requires Target(m.xiosBase, m.ldrbiosBase, pc) in {Some(ConSt), Some(ConIn)}
    requires Hi(m.regs.de) !in m.consoles
    ensures var (handled, r) := Step(m, pc, env);
      && handled
      && r.regs.a == (if Target(m.xiosBase, m.ldrbiosBase, pc) == Some(ConSt) then 0x00 else Eof)
      && r.conReads == m.conReads
  {
  }

  /** CONOUT writes C to console D from the XIOS table, to console 0 when
      trapped below the XIOS (LDRBIOS phase), and nowhere if that console
      is absent. */
  lemma ConOutConsole(m: Machine, env: Env)
    requires Target(m.xiosBase, m.ldrbiosBase, m.regs.pc) == Some(ConOut)
    ensures var (handled, r) := Step(m, m.regs.pc, env);
      var console := if m.regs.pc < m.xiosBase then 0 else Hi(m.regs.de);
      && handled
      && (console in m.consoles ==> r.consoles == m.consoles[console := m.consoles[console] + [Lo(m.regs.bc)]])
      && (console !in m.consoles ==> r.consoles == m.consoles)
  {
  }

  /** EXITREGION sets both interrupt flip-flops exactly when not preempted;
      when preempted they are left as they were. */
  lemma ExitRegionEnables(m: Machine, pc: u16, env: Env)
    requires Target(m.xiosBase, m.ldrbiosBase, pc) == Some(ExitRegion)
    ensures var (handled, r) := Step(m, pc, env);
      && handled
      && (!m.preempted ==> r.regs.iff1 && r.regs.iff2)
      && (m.preempted ==> r.regs.iff1 == m.regs.iff1 && r.regs.iff2 == m.regs.iff2)
  {
  }

  /** STARTCLOCK then STOPCLOCK leaves the tick disabled, and each sets the
      flag whatever it was. */
  lemma ClockStartStop(m: Machine, env: Env)
    ensures Effect(m, StartClock, env).tickEnabled
    ensures !Effect(m, StopClock, env).tickEnabled
    ensures !Return(Effect(Return(Effect(m, StartClock, env)), StopClock, env)).tickEnabled
  {
  }

  /** SECTRAN translates nothing: HL gets BC. */
  lemma SecTranIdentity(m: Machine, pc: u16, env: Env)
    requires Target(m.xiosBase, m.ldrbiosBase, pc) == Some(SecTran)
    ensures Step(m, pc, env).1.regs.hl == m.regs.bc
  {
  }

  // ---------------------------------------------------------------------
  // The loader's BDOS.

  /** Stepping one byte on, then `i` more, is stepping `1 + i` bytes, modulo 64 KiB. */
  lemma WrapShift(addr: u16, i: nat)
    ensures Wrap16(Wrap16(addr + 1) + i) == Wrap16(addr + 1 + i)
  {
    if addr + 1 == 0x1_0000 {
      assert Wrap16(addr + 1) == 0;
      assert (0x1_0000 + i) % 0x1_0000 == i % 0x1_0000;
    }
  }

  /** What function 9 prints: the bytes at DE, DE+1, ... (wrapping), none of
      them '$', at most 1000, and short of 1000 only because a '$' follows. */
  lemma {:induction false} PrintedStringSpec(mem: Mem64, addr: u16, budget: nat)
    decreases budget
    ensures var s := PrintedString(mem, addr, budget);
      && |s| <= budget
      && (forall i :: 0 <= i < |s| ==> s[i] == mem[Wrap16(addr + i)] && s[i] != Dollar)
      && (|s| < budget ==> mem[Wrap16(addr + |s|)] == Dollar)
  {
    var s := PrintedString(mem, addr, budget);
    if budget == 0 || mem[addr] == Dollar {
      assert s == [];
      assert Wrap16(addr + 0) == addr;
    } else {
      var next := Wrap16(addr + 1);
      var rest := PrintedString(mem, next, budget - 1);
      assert s == [mem[addr]] + rest;
      PrintedStringSpec(mem, next, budget - 1);
      forall i | 0 <= i < |s|
        ensures s[i] == mem[Wrap16(addr + i)] && s[i] != Dollar
      {
        if i == 0 {
          assert Wrap16(addr + 0) == addr;
        } else {
          assert s[i] == rest[i - 1];
          WrapShift(addr, i - 1);
        }
      }
      WrapShift(addr, |rest|);
    }
  }

  /** Function 9 with console 0 present appends to it exactly the string
      that `PrintedStringSpec` describes, and touches no other console. */
  lemma BdosPrintString(m: Machine, env: Env)
    requires Lo(m.regs.bc) == 9 && 0 in m.consoles
    ensures BdosEffect(m, env).consoles == m.consoles[0 := m.consoles[0] + PrintedString(m.mem, m.regs.de, PrintLimit)]
  {
  }

  /** Function 1 reads a character from console 0 into A and echoes it
      there; with no console 0 it answers end-of-file and reads nothing. */
  lemma BdosConsoleInputEcho(m: Machine, env: Env)
    requires Lo(m.regs.bc) == 1
    ensures var r := BdosEffect(m, env);
      && (0 in m.consoles ==>
            && r.regs.a == env.conChar && r.conReads == m.conReads + [0]
            && r.consoles == m.consoles[0 := m.consoles[0] + [env.conChar]])
      && (0 !in m.consoles ==> r.regs.a == Eof && r.conReads == m.conReads && r.consoles == m.consoles)
  {
  }

  /** Function 6 reads console 0 only when E is 0xFF (A is the character
      if one is ready, else 0) and otherwise writes E to console 0. */
  lemma BdosDirectConsoleIO(m: Machine, env: Env)
    requires Lo(m.regs.bc) == 6
    ensures var r := BdosEffect(m, env);
      && (r.conReads != m.conReads ==> Lo(m.regs.de) == 0xFF)
      && (Lo(m.regs.de) == 0xFF ==>
            && r.consoles == m.consoles
            && r.regs.a == (if 0 in m.consoles && env.conStatus != 0 then env.conChar else 0))
      && (Lo(m.regs.de) != 0xFF ==>
            && r.conReads == m.conReads && r.regs.a == m.regs.a
            && r.consoles == (if 0 in m.consoles then m.consoles[0 := m.consoles[0] + [Lo(m.regs.de)]] else m.consoles))
  {
  }

  /** The loader's stand-ins: function 11 reports console 0's status, 13
      selects drive 0, 15 (open) answers not found and 20 (read) end of file. */
  lemma BdosLoaderAnswers(m: Machine, env: Env)
    ensures Lo(m.regs.bc) == 11 ==>
      BdosEffect(m, env).regs.a == (if 0 in m.consoles && env.conStatus != 0 then Ready else 0x00)
    ensures Lo(m.regs.bc) == 13 ==>
      BdosEffect(m, env).disk == 0 && BdosEffect(m, env).diskLog == m.diskLog + [Select(0)]
    ensures Lo(m.regs.bc) == 15 ==> BdosEffect(m, env).regs.a == 0xFF
    ensures Lo(m.regs.bc) == 20 ==> BdosEffect(m, env).regs.a == 1
  {
  }

  /** Function 12 reports version 2.1 in HL and A. */
  lemma BdosVersion(m: Machine, env: Env)
    requires Lo(m.regs.bc) == 12
    ensures Return(BdosEffect(m, env)).regs.hl == 0x0021
    ensures Return(BdosEffect(m, env)).regs.a == 0x21
  {
  }

  /** Function 14 selects drive E & 0x0F and reports success. */
  lemma BdosSelectDisk(m: Machine, env: Env)
    requires Lo(m.regs.bc) == 14
    ensures var r := BdosEffect(m, env);
      r.disk == m.regs.de % 16 && r.regs.a == 0 && r.diskLog == m.diskLog + [Select(m.regs.de % 16)]
  {
  }

  /** Function 26 sets the DMA address that the next XIOS READ hands to
      the disk engine. */
  lemma BdosDmaFeedsRead(m: Machine, pc: u16, env: Env)
    requires Lo(m.regs.bc) == 26
    requires Target(m.xiosBase, m.ldrbiosBase, pc) == Some(Read)
    ensures var r := Step(Return(BdosEffect(m, env)), pc, env).1;
      r.diskLog[|r.diskLog| - 2] == SetDmaAddress(m.regs.de)
  {
  }

  /** Any function number outside 0/1/2/6/9/11/12/13/14/15/20/26 only returns. */
  lemma BdosUnknownOnlyReturns(m: Machine, env: Env)
    requires Lo(m.regs.bc) !in {0, 1, 2, 6, 9, 11, 12, 13, 14, 15, 20, 26}
    ensures Return(BdosEffect(m, env)) == Return(m)
  {
  }
}
