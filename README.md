# MP/M II emulator: XIOS dispatcher, console FIFO and SPR builder

This project models three parts of an MP/M II emulator for a Z80 guest and proves properties of each.

- **The XIOS trap dispatcher** (`src/xios.cpp`). When the guest's PC lands on an entry of one of two jump tables, the emulator handles the call itself. The two tables are the full MP/M II XIOS at `xios_base_` (default 0xFC00) and the boot-phase LDRBIOS at `ldrbios_base_` (default 0x1700).
  - Each handler rewrites guest registers or the latched disk state.
  - Each handler then performs a synthetic `RET`: it pops a little-endian word from the stack into PC and adds 2 to SP.
  - `do_bdos` is the minimal BDOS that the loader MPMLDR calls during boot.
- **The console FIFO** (`include/console_queue.h`). This is the bounded byte queue that carries one direction of a virtual console.
- **The SPR image layout** (`tools/mkspr.cpp`, lines 69-95). The image is:
  - a 128-byte header with psize and dsize stored little-endian;
  - a zero relocation bitmap;
  - the code from offset 256;
  - zero padding up to a whole 128-byte record.

## How the model is built

- `bits.dfy` (module `Bits`): bytes, 16-bit words, the 64 KiB address space, and `Wrap16`, the truncation that a store into a `uint16_t` performs.
- `xios.dfy` (module `Xios`): the value-level specification of the dispatcher.
  - The guest state is a `Machine`: registers, memory, bank, disk latches, clock and preemption flags, and the console registry.
  - The answers of the collaborators are an `Env`. These are console status and character, the disk engine's `select` verdict and transfer result, memory after a disk read or bank switch, and the registry after `ConsoleManager::init()`.
  - The consoles read from and the calls made into the disk engine are logged in the state.
  - `Effect` is the work of one entry, `Return` is `do_ret`, `Step` is `handle_call`, and `BdosEffect` is `do_bdos` before its return.
- `xios_dispatcher.dfy` (module `XiosDispatcher`): the `XIOS` object as classes. `Cpu` is the register file, `Memory` is the banked memory, and `Dispatcher` holds the XIOS's own fields. Each handler is a method that updates the fields in place. Each method is proved to leave `Snapshot()` equal to the specification function applied to the old snapshot.
- `xios_properties.dfy` (module `XiosProperties`): what the dispatcher promises, as lemmas over the specification functions. Through the method contracts, these hold for the class as well.
- `console_queue.dfy` (module `Queue`): `ConsoleQueue` as a class whose queue is a `seq<u8>` field, together with a FIFO round-trip method.
- `mkspr.dfy` (module `Mkspr`): `BuildSpr` follows the tool's layout steps. The lemmas say the image is unique and that a loader reading psize, dsize and the code back recovers them.

Entry offsets are three times the slot index, in the order of the `switch` in `handle_call`. Two comments confirm this: IDLE is at 0x48 and SECTRAN at 0x30.

## Model

| member | source | states |
|---|---|---|
| Xios.Offset | src/xios.cpp:66-91 | every entry sits at a multiple of 3 no later than IDLE (0x48) |
| Xios.EntryAt | src/xios.cpp:66-93 | an offset names an entry exactly when it is a multiple of 3 in 0..0x48, and that entry's offset is the offset given; anything else is the `default` case |
| Xios.IsXiosCall | src/xios.cpp:27-46 | a PC is a trap iff it is an entry inside the XIOS window, or it lies outside that window and is an LDRBIOS entry no later than SECTRAN; the XIOS window decides alone when the PC is in it |
| Xios.Target | src/xios.cpp:48-66 | the handler chosen: only for traps; an XIOS-window PC is handled iff it is a trap; below the XIOS base every trap but LDRBIOS SELDSK is handled; the entry's offset gives back the PC; a PC at or above the XIOS window's end is never handled |
| Xios.Effect | src/xios.cpp:108-337 | frame of every handler: no handler moves PC or SP or changes BC, DE, F or the preemption flag, and each other field (A, HL, IFF1/2, memory, bank, disk, track, sector, DMA, tick flag, consoles, console reads, disk calls) is changed only by the entries that own it |
| Xios.Step | src/xios.cpp:48-97 | handled iff the PC has a target; when declined nothing at all changes; when handled SP is the old SP + 2 (mod 2^16), PC is the popped little-endian word, and BC, DE and F are kept |
| Xios.Return | src/xios.cpp:99-106 | `do_ret` changes PC and SP and nothing else in the machine |
| Xios.DphAddress | src/xios.cpp:189-193 | a disk parameter header address lies 16-byte aligned relative to the XIOS base (base + 0x100 + 16·disk, in 16 bits) |
| Xios.PollStatus | src/xios.cpp:263-278 | the answer is 0xFF or 0x00; 0x00 for any device above 8 and for an input device 5-8 whose console is absent |
| Xios.PrintedString | src/xios.cpp:416-421 | the bytes printed by function 9's loop number at most the budget (1000) and none of them is '$' |
| Xios.BdosEffect | src/xios.cpp:352-467 | frame of `do_bdos`: PC, SP, BC, DE, F, memory, bank, track and sector never change; HL only for function 12, DMA only for 26, disk only for 13/14, consoles only for 1/2/6/9; any other function changes nothing |
| XiosDispatcher.Dispatcher.constructor | src/xios.cpp:12-25 | the defaults: XIOS at 0xFC00, LDRBIOS at 0x1700, BDOS stub at 0x0D06, disk/track/sector 0, DMA 0x0080, clock off, not preempted |
| XiosDispatcher.Dispatcher.HandleCall | src/xios.cpp:48-97 | the new state and the verdict are exactly `Step` of the old state |
| XiosDispatcher.Dispatcher.DoRet | src/xios.cpp:99-106 | pops the return address into PC and adds 2 to SP, exactly as `Return` |
| XiosDispatcher.Dispatcher.DoConSt | src/xios.cpp:109-119 | new state is `Return(Effect(old, ConSt))`: A is the console's status, or 0 when absent |
| XiosDispatcher.Dispatcher.DoConIn | src/xios.cpp:121-131 | new state is `Return(Effect(old, ConIn))`: A is a character read from console D, or 0x1A when absent |
| XiosDispatcher.Dispatcher.DoConOut | src/xios.cpp:133-147 | new state is `Return(Effect(old, ConOut))`: C goes to console D, or to console 0 below the XIOS base |
| XiosDispatcher.Dispatcher.DoReader | src/xios.cpp:159-163 | new state is `Return(Effect(old, Reader))`: A is 0x1A |
| XiosDispatcher.Dispatcher.DoListSt | src/xios.cpp:165-169 | new state is `Return(Effect(old, ListSt))`: A is 0xFF |
| XiosDispatcher.Dispatcher.DoHome | src/xios.cpp:172-175 | new state is `Return(Effect(old, Home))`: track 0 |
| XiosDispatcher.Dispatcher.DoSelDsk | src/xios.cpp:177-195 | new state is `Return(Effect(old, SelDsk))` |
| XiosDispatcher.Dispatcher.DoSetTrk | src/xios.cpp:197-200 | new state is `Return(Effect(old, SetTrk))`: track is BC |
| XiosDispatcher.Dispatcher.DoSetSec | src/xios.cpp:202-205 | new state is `Return(Effect(old, SetSec))`: sector is BC |
| XiosDispatcher.Dispatcher.DoSetDma | src/xios.cpp:207-210 | new state is `Return(Effect(old, SetDma))`: DMA is BC |
| XiosDispatcher.Dispatcher.DoRead | src/xios.cpp:212-222 | new state is `Return(Effect(old, Read))` |
| XiosDispatcher.Dispatcher.DoWrite | src/xios.cpp:224-234 | new state is `Return(Effect(old, Write))` |
| XiosDispatcher.Dispatcher.DoSecTran | src/xios.cpp:236-240 | new state is `Return(Effect(old, SecTran))` |
| XiosDispatcher.Dispatcher.DoSelMemory | src/xios.cpp:244-252 | new state is `Return(Effect(old, SelMemory))`: the bank is the descriptor's fourth byte |
| XiosDispatcher.Dispatcher.DoPollDevice | src/xios.cpp:254-282 | new state is `Return(Effect(old, PollDevice))` |
| XiosDispatcher.Dispatcher.DoStartClock | src/xios.cpp:284-287 | new state is `Return(Effect(old, StartClock))` |
| XiosDispatcher.Dispatcher.DoStopClock | src/xios.cpp:289-292 | new state is `Return(Effect(old, StopClock))` |
| XiosDispatcher.Dispatcher.DoExitRegion | src/xios.cpp:294-301 | new state is `Return(Effect(old, ExitRegion))` |
| XiosDispatcher.Dispatcher.DoMaxConsole | src/xios.cpp:303-306 | new state is `Return(Effect(old, MaxConsole))`: A is MAX_CONSOLES |
| XiosDispatcher.Dispatcher.DoSystemInit | src/xios.cpp:308-318 | new state is `Return(Effect(old, SystemInit))`: the registry is re-initialised |
| XiosDispatcher.Dispatcher.PrintString | src/xios.cpp:412-424 | the print loop appends exactly `PrintedString(memory, DE, 1000)` to console 0 and changes nothing else |
| XiosDispatcher.Dispatcher.DoBdos | src/xios.cpp:352-470 | new state is `Return(BdosEffect(old))` |
| XiosProperties.IsXiosCallExactlyEntries | src/xios.cpp:27-46 | with the two windows disjoint, a PC is a trap iff it is XIOS base + some entry's offset, or LDRBIOS base + the offset of an entry no later than SECTRAN |
| XiosProperties.LdrbiosSelDskDeclined | src/xios.cpp:60-64 | the LDRBIOS SELDSK slot is declined and the whole state is left unchanged |
| XiosProperties.CallThenReturn | src/xios.cpp:99-106 | the return pops what a guest CALL pushed: PC is the return address, SP is restored, no other register differs |
| XiosProperties.TrapReturnsToCaller | src/xios.cpp:96-106 | a trap reached by a CALL is handled and resumes after that CALL with the caller's SP (for every entry that does not replace memory) |
| XiosProperties.SelDskOutcome | src/xios.cpp:177-195 | SELDSK asks the engine to select C; refused: HL = 0 and the current disk is kept; accepted: the disk is C and HL = (base + 0x100 + 16·C) mod 2^16 |
| XiosProperties.DphRecoversDisk | src/xios.cpp:189-193 | the header address determines the disk number, so distinct disks get distinct headers |
| XiosProperties.LatchUntouched | src/xios.cpp:172-210 | a latch that none of a sequence of HOME/SETTRK/SETSEC/SETDMA calls stores into keeps its value |
| XiosProperties.LatchLastWriteWins | src/xios.cpp:172-210 | after a sequence of latch calls, a latch holds what the last call storing into it stored (BC, or 0 for HOME) |
| XiosProperties.ReadPresentsLatches | src/xios.cpp:212-222 | READ gives the engine the latched track, sector and DMA, then the transfer; A is the engine's result truncated to 8 bits; the latches are kept |
| XiosProperties.WritePresentsLatches | src/xios.cpp:224-234 | WRITE gives the engine the latched track, sector and DMA, then the transfer; A is the engine's result truncated to 8 bits; memory and the latches are kept |
| XiosProperties.ReadRequest | src/xios.cpp:214-219 | the last four disk calls of READ are the three latches and the read |
| XiosProperties.SetThenReadInAnyOrder | src/xios.cpp:197-222 | SETTRK T, SETSEC S and SETDMA D in any order, then READ, hand the engine exactly T, S and D |
| XiosProperties.PollDeviceReady | src/xios.cpp:254-282 | A is 0xFF or 0x00, and 0xFF iff the device is 0-4, or 5-8 with console (device − 5) present and holding a character |
| XiosProperties.AbsentConsole | src/xios.cpp:109-131 | on an absent console CONST gives A = 0x00 and CONIN gives A = 0x1A, and nothing is read |
| XiosProperties.ConOutConsole | src/xios.cpp:133-147 | C is appended to console D (console 0 below the XIOS base) when present, and no console changes otherwise |
| XiosProperties.ExitRegionEnables | src/xios.cpp:294-301 | IFF1 and IFF2 are set iff not preempted; when preempted they keep their values |
| XiosProperties.ClockStartStop | src/xios.cpp:284-292 | STARTCLOCK enables and STOPCLOCK disables the tick whatever its state; start then stop leaves it off |
| XiosProperties.SecTranIdentity | src/xios.cpp:236-240 | SECTRAN returns HL = BC |
| XiosProperties.PrintedStringSpec | src/xios.cpp:416-421 | the printed bytes are mem[DE], mem[DE+1], … (wrapping at 64 KiB), none is '$', at most 1000 of them, and fewer than 1000 only when a '$' follows |
| XiosProperties.BdosPrintString | src/xios.cpp:412-424 | function 9 appends exactly that string to console 0 and changes no other console |
| XiosProperties.BdosConsoleInputEcho | src/xios.cpp:370-382 | function 1 with console 0 present reads a character into A and echoes it to console 0; without it A is 0x1A and nothing is read or written |
| XiosProperties.BdosDirectConsoleIO | src/xios.cpp:394-410 | function 6 reads console 0 only when E is 0xFF (A is the character if one is ready, else 0, and nothing is written); otherwise it writes E to console 0, if present, and leaves A and the reads alone |
| XiosProperties.BdosLoaderAnswers | src/xios.cpp:426-458 | function 11 gives 0xFF iff console 0 is present with a character ready, else 0; 13 selects drive 0 and asks the engine for it; 15 answers 0xFF; 20 answers 1 |
| XiosProperties.BdosVersion | src/xios.cpp:433-437 | function 12 returns HL = 0x0021 and A = 0x21 |
| XiosProperties.BdosSelectDisk | src/xios.cpp:444-448 | function 14 selects drive E & 0x0F, asks the engine to select it and returns A = 0 |
| XiosProperties.BdosDmaFeedsRead | src/xios.cpp:460-462 | after function 26 the next XIOS READ hands the engine DE as the DMA address |
| XiosProperties.BdosUnknownOnlyReturns | src/xios.cpp:464-469 | any other function number only returns |
| Queue.ConsoleQueue.constructor | include/console_queue.h:14-17 | a new queue is empty with the given capacity |
| Queue.ConsoleQueue.Available | include/console_queue.h:23-27 | the number of waiting bytes never exceeds CAPACITY |
| Queue.ConsoleQueue.Space | include/console_queue.h:29-33 | `available() + space() == CAPACITY` |
| Queue.ConsoleQueue.Empty | include/console_queue.h:35-38 | empty iff `available() == 0` iff `space() == CAPACITY` |
| Queue.ConsoleQueue.Full | include/console_queue.h:40-43 | full iff `available() >= CAPACITY` iff `space() == 0` |
| Queue.ConsoleQueue.TryRead | include/console_queue.h:45-53 | −1 and no change when empty; otherwise the front byte, and exactly that byte is removed |
| Queue.ConsoleQueue.Read | include/console_queue.h:55-76 | as `try_read` once the wait is over; with no timeout the caller sees a byte |
| Queue.ConsoleQueue.TryWrite | include/console_queue.h:78-85 | true iff there was room, and then the byte joins the back; otherwise the contents are kept |
| Queue.ConsoleQueue.Write | include/console_queue.h:87-108 | as `try_write` once the wait is over; with no timeout the caller sees room |
| Queue.ConsoleQueue.WriteSome | include/console_queue.h:110-119 | appends exactly the first min(len, space) bytes of the data, in order, and returns that count |
| Queue.ConsoleQueue.ReadSome | include/console_queue.h:121-131 | removes the first min(max_len, available) bytes, in order, into data[0..count); the rest of data is kept |
| Queue.ConsoleQueue.Clear | include/console_queue.h:133-138 | the queue is empty: available 0 and space CAPACITY |
| Queue.FifoRoundTrip | include/console_queue.h:46-85 | bytes written one by one into an empty queue with room for them come out of `try_read` in the same order |
| Mkspr.ZeroFillTo | tools/mkspr.cpp:84-87 | zeros are appended up to the target length, and nothing is appended when already there |
| Mkspr.RoundUpRecordLeast | tools/mkspr.cpp:92-95 | the padded length is the least multiple of 128 not below 256 + n |
| Mkspr.BuildSpr | tools/mkspr.cpp:69-95 | the image: length 256 + n rounded up to 128; bytes 1-2 are n & 0xFF and (n >> 8) & 0xFF; bytes 4-5 are bufsize little-endian; bytes 0, 3, 6-255 zero; the code at 256..256+n; zero padding of fewer than 128 bytes |
| Mkspr.SizeBytes | tools/mkspr.cpp:73-74 | the two psize bytes give back any size below 64 KiB |
| Mkspr.ParseSpr | tools/mkspr.cpp:6-14 | a loader's reading of the header succeeds iff the image holds the 256-byte prefix and psize bytes of code, and then returns psize bytes |
| Mkspr.SprRoundTrip | tools/mkspr.cpp:6-14 | reading an image back recovers dsize and the code when the code is shorter than 64 KiB |
| Mkspr.SprRoundTripOnlyIfShort | tools/mkspr.cpp:73-74 | code of 64 KiB or more is not recovered: psize keeps only the low 16 bits of its length, so together with `SprRoundTrip` the round trip holds exactly for code shorter than 64 KiB |
| Mkspr.SprImageUnique | tools/mkspr.cpp:69-95 | two images of the same code and buffer size are the same bytes |

## Left out

- Console, disk engine and bank switching (`console.h`, `disk.h`, `banked_mem.h`) are not part of this model. Their answers are inputs (`Env`): console status and character, `select` verdict, transfer result, memory after a disk read or a bank switch, and the registry after `ConsoleManager::init()`. The consoles read from and the disk calls made are logged in the state.
- `xios.h` is not part of this model. The entry offsets are three times the slot index in `handle_call`'s `switch`. `MAX_CONSOLES` is a constructor parameter.
- `tick()` and `one_second_tick()` have no effect (the flag-setting in `tick()` is still to do, and its branch is empty), so they have no member.
- The atomics `tick_enabled_` and `preempted_` are plain booleans. Nothing in xios.cpp sets `preempted_`, so it is an input that never changes.
- The debug output and the `call_count` counter of `do_bdos` are left out.
- `do_bdos` is modelled as reached with the BDOS stub's call already on the stack. The code that routes the stub address to it is not part of this model.
- Xios.Effect: CONOUT reads the CPU's PC while `handle_call` is given a `pc` argument; the model uses the CPU's PC for CONOUT, as the source does, and assumes nothing about their agreement.
- Xios.Effect: the effect of a disk read or of `select_bank` on memory is taken as given (`Env.memAfter`), and the model does not say which bytes the transfer writes. A disk write is taken not to change guest memory, although `DiskSystem::write` receives a non-const memory pointer.
- XiosDispatcher.Dispatcher.HandleCall: no separate handler methods for BOOT, WBOOT, LIST, PUNCH and IDLE, whose source bodies only call `do_ret`; the dispatcher calls `DoRet` for them.
- XiosProperties.TrapReturnsToCaller: stated only for entries other than READ and SELMEMORY, which replace memory (and so perhaps the pushed return address) before the return.
- Queue.ConsoleQueue.Read: the wait on a condition variable is single-threaded here. With no timeout the caller must see a byte already, because no other thread can supply one. With a timeout, an empty queue times out and gives −1.
- Queue.ConsoleQueue.Write: likewise, with no timeout the caller must see room. With a timeout, a full queue gives false.
- The mutex and the notifications of `ConsoleQueue` are left out: each operation is one atomic step.
- `mkspr`'s argument parsing, file reading and writing, and messages are left out. `std::stoi` truncated into `uint16_t` is the `bufsize: u16` parameter.
