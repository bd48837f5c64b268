# CH32V203 drivers: verified models

This project models the interrupt-driven drivers of a Zephyr module for WCH CH32V203 parts and proves
what every interleaving of interrupts, DMA callbacks, worker threads and re-entrant application
callbacks preserves. `dafny verify dfyconfig.toml` checks all of it.

| component | value machine and its runs | driver as written (classes) |
|---|---|---|
| general DMA driver (`drivers/dma/dma_wch.c`) | `dma_channel`, `dma_lifecycle`, `dma_flags`, `dma_laws` | `dma_driver` |
| UART asynchronous reception (`drivers/serial/uart_wch_rx_impl.h`) | `rx_protocol`, `rx_safety`, `rx_theorems`, over the DMA driver in `rx_stack`, `rx_bytes`, `rx_laws` | `rx_driver`, `rx_dispatch`, `uart_regs` |
| UART asynchronous transmission (`drivers/serial/uart_wch_tx_impl.h`) | `tx_machine`, `tx_safety`, `tx_progress`, `tx_laws` | `tx_driver`, `uart_regs` |
| both directions of one port | `port` | `uart_driver` |
| USBFS bulk endpoints (`drivers/usb/udc_wch.c`) | `usb_endpoint`, `usb_invariant`, `usb_bus`, `usb_delivery`, `usb_out`, `usb_in`, `usb_exact`, `usb_progress`, `usb_completion`, `usb_caution`, `usb_laws` | `usb_driver`, `usb_regs` |

Each component has two layers. The first is a state machine over values: one function per section the
source runs under its lock, one action per thing that can happen next, and theorems over every finite
sequence of actions from reset. The second is imperative: classes with the source's own fields, arrays
and register words, whose methods are proved to do to those fields exactly what the functions do to
values. `RxProtocol` takes the DMA provider's answers as parameters, so its theorems hold for any
provider; `RxStack` then fixes the provider to the DMA driver of this repository and proves more. The
`*_laws` modules say what each operation owes its caller, without naming the function that models it:
which calls are accepted and with what answer, which event a step must produce, and when. The
port machine keeps the two directions apart by construction; that the drivers really do so although
they share CTLR1, CTLR3, STATR and the DMA flag words is what `UartDriver.UartDevice` proves.

## Environment

These are assumptions about the hardware and the kernel, written into the machines.

- A DMA channel moves an element only while EN is set and its count is not zero; DMA flags rise only
  while EN is set; in normal mode TC rises with the last element. A clear write with the global flag
  clears all four flags of its slot (`tests/unit/dma_native/src/main.c:92-103`).
- A DMA interrupt, together with the locked section of the UART callback it runs, is one step: the
  handler holds the IRQ lock. The channel machine also reads and acknowledges the flags in one step, so
  a flag that rises between the two, or between the reading and EN going down, counts as risen before
  or not at all; only the lemmas over the flag words (`DmaDriver.ClearSnapshotIsLocal`) tell them apart.
- A UART byte reaches memory only with DMAR set, and leaves it only with DMAT set and an empty data
  register. TC rises only when data register and shifter are empty; a data register write clears it.
- Buffers lie at 32-bit addresses in the composed machines, as on the target.
- A USB transaction starts only on an endpoint that answers ACK and while no completion is latched.
  TOG_OK holds exactly when the packet's toggle is the expected one. The bounded wait of a cancel ends
  successfully only with no transaction in progress. The host repeats an OUT packet until it hears an
  acknowledgement and sends nothing new meanwhile; it acknowledges every IN packet it receives and keeps
  those with the toggle it expects; it restarts at DATA0 after clear-halt or enable (sections 8.6 and
  9.4.5 of the USB 2.0 specification).
- The deadline worker is a timer, one queue slot and any number of invocations waiting for the lock.

## Findings

- **An OUT packet can be lost with the next one.** Cancelling (`drivers/usb/udc_wch.c:139-173`) drops a
  latched completion without flipping the toggle. If the host has already heard that packet's
  acknowledgement, it goes on with the other toggle, and the device then acknowledges and ignores the
  next packet as a duplicate. `UsbOut.LossIsReachable` gives the five steps and `CancelLosesTwoPackets`
  the consequence.
- **An IN request can complete without its data reaching the host.** The same cancel drops a latched IN
  completion without flipping the toggle, so the next request's first packet carries a toggle the host
  has already seen: the host acknowledges and discards it, and the driver reports success
  (`UsbIn.LossIsReachable`, `CancelLosesNextRequest`).
- **Clear-halt on a busy endpoint does harm, always and only there.** It loses a packet if a completion
  is latched or a packet with a misleading toggle is on the bus. Otherwise it leaves the endpoint
  answering NAK with busy set (`drivers/usb/udc_wch.c:418-427`), and since `wch_kick` returns at busy
  (lines 115-118) neither the worker nor a new request ever makes it answer again: no request completes
  until a successful cancel, halt or disable, a device disable, a bus reset or an overflow
  (`UsbProgress.SilenceLasts`, four steps from reset in `SilenceIsReachable`). A cancel, halt or disable
  that times out on a busy endpoint leaves it in the same state unless the transaction it waited for
  completes. `UsbCaution.ClearHaltHarmsExactlyTheBusy` is the exact test: clear-halt after a successful
  halt is safe.
- **These are the only ways, and each is one.** `UsbExact.DeliveryIsExact` proves for both directions that
  at no point of a run delivery is broken, nor can be without another cancel or clear-halt, if and only
  if no step of the run is a losing one; `UsbProgress.AnsweringIsExact` proves the like of answering and
  silencing steps. While no acknowledgement is lost, `UsbCaution.CautionIsExact` gives one condition for
  both that a caller can check: no clear-halt on a busy endpoint, no cancel that drops a latched
  completion, no timeout on a busy endpoint without one. With lost acknowledgements the
  latched-completion test is still enough for an OUT cancel; for an IN cancel the driver cannot decide
  it at all, because a packet lost on its way and one whose acknowledgement was lost leave the same
  device (`UsbExact.LostAcknowledgementIsInvisible`).
- **A halted endpoint need not answer STALL.** A cancel writes NAK and leaves the halted mark set
  (`drivers/usb/udc_wch.c:146`, 354-363), as do a timed-out halt, a disable and an overflow: the host then
  sees NAK until clear-halt, a bus reset or a new enable. `UsbLaws.StallIsExact` lists the steps that raise
  and end a STALL, `HaltedWithoutStall` gives the exact condition and `HaltedWithoutStallIsReachable` four
  steps from reset.
- **An abort with unknown progress can wedge a port.** If the provider cannot report progress when a
  transfer is aborted before its first byte, the port waits for a TC that nothing will raise; only a
  polled byte frees it. `TxProgress.WaitingIsExact` proves that this is the only way. The DMA driver of
  this repository always reports.
- **The generation check in the receive drain never decides anything.** While reception is active a
  queued request always carries the current generation, so wrap-around of the counter is harmless.
- **The 12-slot event ring never holds more than 7 notes,** and a run reaches 7. The queue assertion
  cannot fire.
- **Over this DMA driver no UART setup fails:** for a checked buffer at a 32-bit address, configuring and
  starting an idle direction's channel always succeeds, so the error paths exist for other providers.
- **Code and documents disagree** on clear-halt: `docs/usb-udc.md:71-72` says that it restarts pending
  work, which the code does not do on a busy endpoint. The model follows the code. The comment at
  `drivers/serial/uart_wch_rx_state.h:24-26` claims a bound on pending events without naming it.

## Model

| member | source | states |
|---|---|---|
| `Common.BufferCheck` | drivers/serial/uart_wch_contract.h:28-34 | accepted exactly for a non-null buffer of 1 to 65535 bytes, "too long" exactly for a non-null longer one |
| `Common.OverlapsIsExact` | drivers/serial/uart_wch_rx_impl.h:302-305 | the subtraction-only overlap test holds if and only if the two buffers share a memory cell |
| `DmaChannel.ConfigureMeaning` | drivers/dma/dma_wch.c:142-279 | an accepted configuration makes the hardware read and write, element by element, the addresses the request names and covers exactly its bytes; cyclic mode, priority, interrupts and callback are those asked for; the channel is disabled with no flag |
| `DmaFlags.ClearSlot` | drivers/dma/dma_wch.c:88-98 | clearing a slot of a flag word with all four bits empties it and leaves every other slot as it was |
| `DmaFlags.ClearSnapshot` | drivers/dma/dma_wch.c:539-550 | clearing what an earlier reading of the word showed, without its global bit, clears exactly those bits in that slot: a flag that rose in between stays, as does every other slot |
| `DmaDriver.ClearAllIsLocal` | drivers/dma/dma_wch.c:88-98 | over both flag words, a channel's flags are cleared and no other channel's are |
| `DmaDriver.ClearSnapshotIsLocal` | drivers/dma/dma_wch.c:539-550 | over both words, with any flags rising between reading and acknowledging: the channel keeps exactly the flags that were not read, every other channel keeps all of its own |
| `DmaDriver.SnapshotReads` | drivers/dma/dma_wch.c:64-78 | the ISR's snapshot decodes to the channel's flags |
| `DmaDriver.DmaController.ClearFlags` | drivers/dma/dma_wch.c:88-98 | on the register words: the bank of channels differs in one channel's flags only |
| `DmaDriver.DmaController.ClearSnapshotFlags` | drivers/dma/dma_wch.c:539-550 | returns the channel's flags and clears exactly them |
| `DmaDriver.DmaController.Config` | drivers/dma/dma_wch.c:142-279 | same answer and same bank as the configuration function, with every check, register bit and record field written out here; `DmaLaws.AcceptanceIsExact` and `RefusalsAreExact` say which requests get which answer, `ConfigureMeaning` what an accepted one does; an index out of range changes nothing |
| `DmaDriver.DmaController.CheckRequest` | drivers/dma/dma_wch.c:157-214 | the checks in the driver's order give the answer the request deserves, for every request |
| `DmaDriver.DmaController.Assemble` | drivers/dma/dma_wch.c:196-252 | the register words built up bit by bit are those a fresh configuration has |
| `DmaDriver.DmaController.Reload` | drivers/dma/dma_wch.c:282-336 | same answer and same bank as the reload function, which `ReloadIsConfigure` reduces to configuration |
| `DmaDriver.DmaController.Start` | drivers/dma/dma_wch.c:338-364 | same answer and same bank as starting on values; other channels untouched |
| `DmaDriver.DmaController.Stop` | drivers/dma/dma_wch.c:366-386 | never fails for a valid index; same bank as stopping on values |
| `DmaDriver.DmaController.Resume` | drivers/dma/dma_wch.c:388-415 | same answer and same bank as resuming on values |
| `DmaDriver.DmaController.Suspend` | drivers/dma/dma_wch.c:417-444 | same answer and same bank as suspending on values |
| `DmaDriver.DmaController.GetStatus` | drivers/dma/dma_wch.c:446-486 | reports busy, direction, pending bytes and both positions of the channel's value |
| `DmaDriver.DmaController.Release` | drivers/dma/dma_wch.c:517-531 | the channel is unconfigured, disabled and without flags |
| `DmaDriver.DmaController.Isr` | drivers/dma/dma_wch.c:533-580 | for any sequence of driver calls made by the callback: the callback hears what servicing says, and the final bank is exactly what those calls make of the serviced bank, so nothing they did is undone |
| `DmaLifecycle.ReloadIsConfigure` | drivers/dma/dma_wch.c:282-336 | reload answers and acts exactly like configuration with the block replaced, in every reachable configured state |
| `DmaLifecycle.ServiceFrame` | drivers/dma/dma_wch.c:533-580 | servicing clears the flags and may end the run; record and registers otherwise stay |
| `DmaLifecycle.StepKeepsInv` | drivers/dma/dma_wch.c:142-580 | every driver call and hardware event keeps: EN iff running, flags only while busy, registers and count agree with the configuration and the elements moved, terminal callbacks name each start at most once |
| `DmaLifecycle.RunKeepsInv` | drivers/dma/dma_wch.c:142-580 | the same over every run |
| `DmaLifecycle.LifecycleSafety` | drivers/dma/dma_wch.c:338-580 | in every run from power-on: EN iff running, width 1, 2 or 4 and pending at most the length once configured, at most one terminal callback per start and none yet for the start in progress |
| `DmaLifecycle.CompletionIsNeverLost` | drivers/dma/dma_wch.c:533-580 | in every run a busy channel that has moved its whole normal-mode block has TC up, and servicing it ends the run |
| `DmaLifecycle.CyclicPosition` | drivers/dma/dma_wch.c:471-483 | in cyclic mode the reported positions are the bytes moved modulo the block length, over any suspends, resumes, stops and restarts |
| `DmaLifecycle.CallbackRestartSurvives` | drivers/dma/dma_wch.c:551-580 | after the ISR, whatever its callback did before, a configure and start made there leaves the channel running exactly as configured, with no stale event pending |
| `DmaLaws.AcceptanceIsExact` | drivers/dma/dma_wch.c:157-214 | a request is taken if and only if the channel is idle and the request is one plain block, equal widths of 1, 2 or 4 with bursts of one element or none, 1 to 65535 whole elements at aligned 32-bit addresses, fixed or incrementing sides, priority at most 3, a known direction, and not cyclic memory to memory; EBUSY exactly when only the channel stands in the way |
| `DmaLaws.RefusalsAreExact` | drivers/dma/dma_wch.c:157-214 | EINVAL exactly for a missing block or one that does not fit, ENOTSUP exactly for what is unsupported; a refusal leaves the channel as it was |
| `DmaLaws.ReloadIsExact` | drivers/dma/dma_wch.c:282-336 | reload answers Ok, EBUSY or EINVAL by the block fitting the configured width and by the state, and covers exactly the bytes asked for |
| `DmaLaws.LifecycleAnswers` | drivers/dma/dma_wch.c:338-444 | in every run start succeeds exactly on a running channel or a configured one with elements left, suspend and resume exactly on a busy one; otherwise EINVAL and nothing changes |
| `DmaLaws.LifecycleMoves` | drivers/dma/dma_wch.c:338-444 | start and resume lead to running, suspend to suspended; after stop or release nothing moves, and stop keeps the count |
| `DmaLaws.MovementIsExact` | drivers/dma/dma_wch.c:388-444 | in every run the hardware moves an element if and only if the channel runs and, in normal mode, elements are left |
| `DmaLaws.PauseIsInvisible` | drivers/dma/dma_wch.c:388-444 | a suspended channel is unchanged by any hardware activity and keeps count, flags and status; resuming gives back the very state suspend found |
| `DmaLaws.ElementsMoveInOrder` | drivers/dma/dma_wch.c:142-279 | in every run the next move reads and writes the addresses the request gives the element after those moved, modulo the block |
| `DmaLaws.ServiceIsExact` | drivers/dma/dma_wch.c:533-580 | in every run an error dominates a simultaneous completion and ends the run; a completion ends a normal run, with the whole block moved, and not a cyclic one; half completion is told only where asked for; each callback exactly under its condition; an idle channel is left alone |
| `DmaLaws.StatusIsTrue` | drivers/dma/dma_wch.c:446-486 | in every run the status names the direction configured, and pending bytes and bytes moved make up the block |
| `RxDriver.UartRx.constructor` | drivers/serial/uart_wch_rx_state.h:16-33 | the record matches the protocol's reset state |
| `RxDriver.UartRx.Queue` | drivers/serial/uart_wch_rx_impl.h:8-14 | appends one note to the ring seen as a sequence, overwriting none |
| `RxDriver.UartRx.Gate` | drivers/serial/uart_wch_rx_impl.h:76-83 | gate and error interrupts off, channel stopped, transmit bits and other channels untouched |
| `RxDriver.UartRx.CountBytes` | drivers/serial/uart_wch_rx_impl.h:85-100 | the committed count, or zero and an overrun if the pending count cannot be right |
| `RxDriver.UartRx.Ready` | drivers/serial/uart_wch_rx_impl.h:102-111 | queues a report exactly for a non-zero count |
| `RxDriver.UartRx.Finish` | drivers/serial/uart_wch_rx_impl.h:122-149 | the record becomes what ending the session makes of it, owed events in order, DISABLED last, buffers forgotten; line errors cleared, DMAT, TCIE, TC and TXE left alone; when STOPPED is among the events, and why, is `RxLaws.StopsAreExact` |
| `RxDriver.UartRx.ArmChannel` | drivers/serial/uart_wch_rx_impl.h:161-184 | answer and channel of configuring and starting for the current buffer; on failure the gate is closed and the channel stopped |
| `RxDriver.UartRx.Start` | drivers/serial/uart_wch_rx_impl.h:154-192 | the gate opens and a request is queued if and only if the channel was armed; otherwise the record is unchanged |
| `RxDriver.UartRx.OnDmaCallback` | drivers/serial/uart_wch_rx_impl.h:194-235 | record, channel, gate and line errors are those of the protocol's callback for every status, error, successor and rearm outcome; DMAT, TCIE, TC and TXE are left alone |
| `RxDriver.UartRx.IsrLocked` | drivers/serial/uart_wch_rx_impl.h:237-249 | ends the session exactly if it is active with a line error, channel stopped, gate closed, errors cleared; DMAT, TCIE, TC and TXE, which the transmit part reads next, are left alone |
| `RxDriver.UartRx.Enable` | drivers/serial/uart_wch_rx_impl.h:251-285 | answer, record, channel, gate and line errors of enabling, for every input; a failed arm leaves no buffer behind; DMAT, TCIE, TC and TXE are left alone |
| `RxDriver.UartRx.BufRsp` | drivers/serial/uart_wch_rx_impl.h:287-313 | answer and record of offering a successor, for every input |
| `RxDriver.UartRx.Disable` | drivers/serial/uart_wch_rx_impl.h:315-333 | answer, record, channel, gate and line errors of disabling, for every state; DMAT, TCIE, TC and TXE are left alone |
| `RxDriver.UartRx.TakeNext` | drivers/serial/uart_wch_rx_impl.h:27-48 | the drain loop's locked stretch takes exactly the event, and leaves exactly the record, that draining prescribes |
| `RxDriver.UartRx.EnterDispatch` | drivers/serial/uart_wch_rx_impl.h:22-26 | a context that finds another one draining changes nothing; otherwise it raises the flag and takes the first event |
| `RxDispatch.Dispatch` | drivers/serial/uart_wch_rx_impl.h:16-51 | the whole loop: for anything that happens while each callback runs (the application's own calls, line errors, UART and DMA interrupts), the application hears exactly the events, and record, channel and line errors end exactly, as draining and those happenings in turn prescribe; a second context changes nothing |
| `RxDispatch.NothingIsLeft` | drivers/serial/uart_wch_rx_impl.h:27-50 | whatever happens during the callbacks, the loop ends with an empty ring and the flag down |
| `RxDriver.ArmingMatches` | drivers/serial/uart_wch_rx_impl.h:154-192 | the class's arming and the composed machine's give the same answer and channel |
| `RxSafety.DrainTakesNext` | drivers/serial/uart_wch_rx_impl.h:27-48 | a locked stretch ends the drain on an empty ring, or takes exactly the next due event; a request only as the ring's last note |
| `RxSafety.FinishShape` | drivers/serial/uart_wch_rx_impl.h:122-149 | ending a session leaves a ring of at most 7 notes with its only DISABLED last |
| `RxTheorems.StepKeepsInv` | drivers/serial/uart_wch_rx_impl.h:16-333 | every locked section, interrupt and callback return, with any provider answers, keeps ring shape, loans, session language and serial delivery |
| `RxTheorems.LoansNeverOverlap` | drivers/serial/uart_wch_rx_impl.h:287-313 | in every run at most two buffers are on loan, and they share no memory cell |
| `RxTheorems.LoansAreConserved` | drivers/serial/uart_wch_rx_impl.h:122-149 | accepted buffers are the releases heard, then those due, then current, then next: each released once and in order; all heard when idle |
| `RxTheorems.RingIsBounded` | drivers/serial/uart_wch_rx_state.h:24-32 | the ring never holds more than 7 notes |
| `RxTheorems.SevenNotesAreReached` | drivers/serial/uart_wch_rx_state.h:24-32 | a run in which the ring holds 7 notes, so the bound is attained |
| `RxTheorems.DeliveriesFollowTheSessionLanguage` | drivers/serial/uart_wch_rx_impl.h:122-149 | what the application hears is always a prefix of well-formed sessions, and complete sessions when idle |
| `RxTheorems.RequestsAreNeverStale` | drivers/serial/uart_wch_rx_impl.h:34-38 | a queued request of an active session carries the current generation and is last; a request is delivered only from a ring that holds nothing else |
| `RxTheorems.DeliveryIsSerialAndComplete` | drivers/serial/uart_wch_rx_impl.h:16-51 | at most one context drains; with all calls returned the ring is empty; every event went to the non-null callback registered at its session's enable |
| `RxStack.ArmSucceeds` | drivers/serial/uart_wch_rx_impl.h:154-192 | over this DMA driver, arming a checked buffer on a stopped channel succeeds and starts exactly that buffer |
| `RxStack.CallbackIsCurrent` | drivers/serial/uart_wch_rx_impl.h:203-231 | whenever the ISR calls reception back, reception is active on the buffer the channel serves, and completion means it is full |
| `RxStack.StackRefinesProtocol` | drivers/serial/uart_wch_rx_impl.h:154-333 | every step of the receiver over the DMA driver is a step of the protocol or none |
| `RxStack.StackStepKeepsLayered` | drivers/serial/uart_wch_rx_impl.h:76-333 | every step keeps the protocol invariant, the DMA invariant and registers and channel in step with the phase |
| `RxBytes.StepAccounts` | drivers/serial/uart_wch_rx_impl.h:85-149 | every step keeps the byte account: reports are what the committed counts call for |
| `RxBytes.NoStaleDmaCallback` | drivers/dma/dma_wch.c:539-580 | in every run, a DMA callback comes from the start made for the current buffer, with that buffer's address and length, and completion finds it full |
| `RxBytes.FullBufferIsReported` | drivers/serial/uart_wch_rx_impl.h:203-231 | in every run, while reception is active TC is up exactly when the current buffer is full, and then servicing calls reception back: no completion is lost |
| `RxBytes.BytesAreConserved` | drivers/serial/uart_wch_rx_impl.h:85-111 | in every run, reports name in order and once each exactly the finished buffers that received something, with the committed counts; these and the running progress sum to all bytes moved; when idle all of it was heard |
| `RxBytes.HardwareMirrorsReception` | drivers/serial/uart_wch_rx_impl.h:76-83 | in every run, DMAR, EIE, PEIE and the channel's EN are on exactly while active, and arming never fails |
| `RxLaws.StepIsLawful` | drivers/serial/uart_wch_rx_impl.h:194-249 | each step reports STOPPED exactly if it ends an active session on a line error or DMA error, with that reason, the current buffer and the bytes moved; and ends the session exactly if it must |
| `RxLaws.StopsAreExact` | drivers/serial/uart_wch_rx_impl.h:122-149 | in every run the STOPPED events are exactly the faults of the run, each once, in order, with reason (plus overrun on a DMA error), buffer and committed count |
| `RxLaws.SessionsEndExactly` | drivers/serial/uart_wch_rx_impl.h:194-249 | in every run a session ends exactly on disabling, a line error, a DMA error or a full buffer without successor; otherwise a full buffer makes way for its successor |
| `RxLaws.UnknownCountIsOverrun` | drivers/serial/uart_wch_rx_impl.h:85-100 | over any provider, a count that is missing or too large ends the session with overrun added, zero bytes and no RDY |
| `RxLaws.FailedRearmIsOverrun` | drivers/serial/uart_wch_rx_impl.h:213-231 | over any provider, a successor that cannot be armed is reported as an overrun of zero bytes, after the full buffer is reported |
| `RxLaws.OnlySessionsHearDma` | drivers/serial/uart_wch_rx_impl.h:203-206 | a DMA callback changes nothing if and only if no session is active or the status is half-complete |
| `RxLaws.DisableIsExact` | drivers/serial/uart_wch_rx_impl.h:315-333 | in every run disabling succeeds if and only if an accepted buffer is neither released nor due to be, and then all are; otherwise EFAULT and nothing changes |
| `RxLaws.SuccessorIsAcceptedExactly` | drivers/serial/uart_wch_rx_impl.h:287-313 | in every run an offered buffer is accepted if and only if it is usable, shares no cell with the current one, and the active session has delivered everything and has no successor; every other answer has its exact condition |
| `RxLaws.SessionStartsExactly` | drivers/serial/uart_wch_rx_impl.h:251-285 | in every run, over this DMA driver, a session starts if and only if the buffer is usable, no timeout is asked for, reception is idle, the channels are reserved and a callback is set; every other answer has its exact condition |
| `TxMachine.Ticks` | drivers/serial/uart_wch_tx_impl.h:235-239 | the timeout rounded up to ticks: never early, never a full tick late, at least one |
| `TxDriver.UartTx.CountBytes` | drivers/serial/uart_wch_tx_impl.h:22-38 | the count an abort reports and whether nothing was handed over |
| `TxDriver.UartTx.FinishLocked` | drivers/serial/uart_wch_tx_impl.h:15-54 | simulates ending a transfer: record, registers, channel and the event snapshot match the machine; receiver and other channels untouched |
| `TxDriver.UartTx.OnDmaCallback` | drivers/serial/uart_wch_tx_impl.h:56-86 | simulates the DMA callback for every status and TC level |
| `TxDriver.UartTx.IsrLocked` | drivers/serial/uart_wch_tx_impl.h:98-101 | simulates the transmit part of the interrupt, which `TxLaws.EventsAreExact` makes report DONE exactly for a transfer that waits for TC and finds it up |
| `TxDriver.UartTx.Timeout` | drivers/serial/uart_wch_tx_impl.h:109-133 | simulates the deadline worker, rescheduling included |
| `TxDriver.UartTx.CallbackSet` | drivers/serial/uart_wch_tx_impl.h:163-181 | replaces the callback exactly when both directions are idle |
| `TxDriver.UartTx.ArmChannel` | drivers/serial/uart_wch_tx_impl.h:221-233 | answer and channel of setup, for every provider fault |
| `TxDriver.UartTx.Send` | drivers/serial/uart_wch_tx_impl.h:183-259 | simulates accepting or refusing a transfer, for every input and fault; `TxLaws.TransferIsAcceptedExactly` says which answer, `TimeoutsAreHonoured` which deadline |
| `TxDriver.UartTx.Withdraw` | drivers/serial/uart_wch_tx_impl.h:241-249 | a refused wakeup stops the channel and keeps nothing of the transfer |
| `TxDriver.UartTx.Abort` | drivers/serial/uart_wch_tx_impl.h:261-275 | simulates an abort; idle is refused |
| `TxDriver.UartTx.PollPass` | drivers/serial/uart_wch_tx_impl.h:285-296 | one pass of polling output: the byte is written exactly when the port is idle with an empty data register |
| `TxSafety.StepKeepsInv` | drivers/serial/uart_wch_tx_impl.h:15-296 | every section, worker step and hardware event keeps: TC implies empty, registers and channel mirror the phase, armed deadlines have a wakeup, the books of transfers and events balance |
| `TxSafety.OneTerminalEventPerTransfer` | drivers/serial/uart_wch_tx_impl.h:15-54 | in every run each accepted transfer has exactly one terminal event, in order, with its own buffer, to its own callback, delivered once: DONE only with everything handed over and the transmitter empty, ABORTED with exactly the bytes handed over |
| `TxSafety.RejectedTransferIsSilent` | drivers/serial/uart_wch_tx_impl.h:183-259 | a refused transfer changes neither record nor books |
| `TxSafety.AcceptedOnlyWhenDrained` | drivers/serial/uart_wch_tx_impl.h:196-199 | in every run, idle without a pending drain means an empty transmitter, and a transfer is accepted only on one |
| `TxProgress.StrandingIsExact` | drivers/serial/uart_wch_tx_impl.h:31-47 | a step leaves someone waiting for a TC that no byte will raise if and only if it aborts, with unknown progress, a transfer that has handed nothing over |
| `TxProgress.WaitingIsExact` | drivers/serial/uart_wch_tx_impl.h:22-51 | in every state of a run whoever waits for TC waits for a byte, if and only if no step of the run strands a transfer |
| `TxProgress.AwaitedTcHasAByte` | drivers/serial/uart_wch_tx_impl.h:22-51 | in every run in which no step strands a transfer, whoever waits for TC waits for a byte still in the transmitter |
| `TxProgress.IdlePortIsNeverStuck` | drivers/serial/uart_wch_tx_impl.h:196-199 | in every such run three steps of the transmitter hardware free an idle port: it refuses no transfer for want of TC |
| `TxProgress.ReportingNeverStrands` | drivers/serial/uart_wch_tx_impl.h:31-38 | a provider that always reports progress strands nothing |
| `TxProgress.UnknownAbortIsStuck` | drivers/serial/uart_wch_tx_impl.h:31-47 | an abort before the first byte whose progress is unknown leaves an idle port waiting for a TC that no byte will raise |
| `TxProgress.OnlyPollingFreesTheStuck` | drivers/serial/uart_wch_tx_impl.h:285-296 | from such a state every step except a polled byte leads to such a state, and every transfer is refused |
| `TxSafety.DeadlineIsSound` | drivers/serial/uart_wch_tx_impl.h:118-130 | in every run the worker ends a transfer if and only if that transfer's own deadline has passed, changes nothing else otherwise, and an armed deadline has a wakeup pending no later than it |
| `TxSafety.DeadlineIsKept` | drivers/serial/uart_wch_tx_impl.h:118-130 | in every run, once the deadline has passed, the wakeup on its way ends that transfer, whichever stage of the work queue it has reached |
| `TxSafety.HardwareMirrorsTransmission` | drivers/serial/uart_wch_tx_impl.h:28-30 | in every run DMAT iff DMA, TCIE iff waiting for TC, EN iff DMA; setup on an idle port never fails over this driver |
| `TxSafety.NoStaleDmaCallback` | drivers/serial/uart_wch_tx_impl.h:65-82 | in every run a DMA callback belongs to the transfer in progress, and completion finds all of its bytes handed over |
| `TxSafety.HandedOverIsReported` | drivers/serial/uart_wch_tx_impl.h:65-82 | in every run, in the DMA phase TC is up exactly when all bytes are handed over, and then servicing calls transmission back: no completion is lost |
| `TxLaws.StepIsLawful` | drivers/serial/uart_wch_tx_impl.h:56-133 | each step adds exactly the terminal event it must, with the transfer's own buffer, callback and count, and then leaves the port idle; every other step adds none |
| `TxLaws.EventsAreExact` | drivers/serial/uart_wch_tx_impl.h:56-133 | in every run ABORTED comes if and only if the application aborts, the worker finds the transfer's own deadline passed or the channel had an error; DONE if and only if a complete transfer finds the transmitter drained |
| `TxLaws.CompleteTransferIsDone` | drivers/serial/uart_wch_tx_impl.h:69-101 | in every run a complete transfer is reported DONE by the DMA interrupt if TC is up, otherwise waits with the TC interrupt on, and is then reported DONE by the UART interrupt |
| `TxLaws.OnlyTransfersHearDma` | drivers/serial/uart_wch_tx_impl.h:65-83 | a DMA callback changes nothing if and only if no transfer is in its DMA phase or the status is half-complete |
| `TxLaws.AbortIsExact` | drivers/serial/uart_wch_tx_impl.h:261-275 | in every run aborting succeeds if and only if an accepted transfer has no terminal event yet, and then every one has; otherwise EFAULT and nothing changes |
| `TxLaws.TransferIsAcceptedExactly` | drivers/serial/uart_wch_tx_impl.h:183-259 | in every run a transfer is accepted if and only if buffer and timeout are usable, the port is free and owes no TC, channels and callback are set and no provider fails; every other answer has its exact condition; an accepted one is recorded with its buffer, callback, timeout and time |
| `TxLaws.TimeoutsAreHonoured` | drivers/serial/uart_wch_tx_impl.h:235-249 | in every run each accepted transfer has the first tick deadline not before its timeout, at least one tick away, and none if it has no timeout; the worker ends no transfer before its timeout has elapsed |
| `UartPort.StepKeepsCallback` | drivers/serial/uart_wch_tx_impl.h:163-181 | both directions always use the same callback, replaced only by the request to do so and only while both are idle |
| `UartPort.PortIsSound` | drivers/serial/uart_wch_tx_impl.h:88-107 | in every run of the port both invariants hold, and a session and a transfer that overlap belong to the same non-null callback |
| `UartDriver.UartDevice.constructor` | drivers/serial/uart_wch_tx_impl.h:135-161 | one set of register words, one DMA controller and two different channels: the reset state of the port machine |
| `UartPort.RxAlone` | drivers/serial/uart_wch_rx_impl.h:251-333 | a receiver's step of the port machine is that step of the receiver and none of the transmitter |
| `UartPort.TxAlone` | drivers/serial/uart_wch_tx_impl.h:183-296 | a transmitter's step is that step of the transmitter and none of the receiver |
| `UartPort.Together` | drivers/serial/uart_wch_tx_impl.h:88-107 | the interrupt and the callback registration are steps of both |
| `UartDriver.UartDevice.RxEnable` | drivers/serial/uart_wch_rx_impl.h:251-285 | on the shared words and controller, the answer is that of enabling, and the device matches the port machine's step: the receiver moves, the transmitter stays where it was |
| `UartDriver.UartDevice.RxRespond` | drivers/serial/uart_wch_rx_impl.h:287-313 | the same for offering a successor |
| `UartDriver.UartDevice.RxDisable` | drivers/serial/uart_wch_rx_impl.h:315-333 | the same for disabling |
| `UartDriver.UartDevice.RxDmaInterrupt` | drivers/dma/dma_wch.c:533-580 | the same for the receive channel's interrupt, the DMA handler and the callback's section together |
| `UartDriver.UartDevice.DispatchEnter` | drivers/serial/uart_wch_rx_impl.h:16-51 | the same for entering the drain, with the event delivered first |
| `UartDriver.UartDevice.DispatchReturn` | drivers/serial/uart_wch_rx_impl.h:44-48 | the same for returning to the drain from a callback, with the next event |
| `UartDriver.UartDevice.TxSend` | drivers/serial/uart_wch_tx_impl.h:183-259 | on the shared words and controller, the answer is that of sending, and the device matches the port machine's step: the transmitter moves, the receiver (record, channel, gate, error interrupts, line errors) stays where it was |
| `UartDriver.UartDevice.TxAbort` | drivers/serial/uart_wch_tx_impl.h:261-275 | the same for an abort |
| `UartDriver.UartDevice.TxTimeout` | drivers/serial/uart_wch_tx_impl.h:109-133 | the same for the deadline worker |
| `UartDriver.UartDevice.TxPoll` | drivers/serial/uart_wch_tx_impl.h:285-296 | the same for a polled byte |
| `UartDriver.UartDevice.TxDmaInterrupt` | drivers/dma/dma_wch.c:533-580 | the same for the transmit channel's interrupt |
| `UartDriver.UartDevice.Interrupt` | drivers/serial/uart_wch_tx_impl.h:88-107 | the UART interrupt does the receive part and then, on what that left of the shared words, the transmit part: the port machine's interrupt step |
| `UartDriver.UartDevice.CallbackSet` | drivers/serial/uart_wch_tx_impl.h:163-181 | the port machine's step: the callback is replaced for both directions exactly when both are idle |
| `UsbEndpoint.PacketsCoverTheData` | drivers/usb/udc_wch.c:220-239 | the reference packetisation loses and invents nothing, only its last packet is short, and that one is full exactly on a non-empty multiple without a requested zero-length packet |
| `UsbInvariant.PullKeepsGood` | drivers/usb/udc_wch.c:220-239 | taking a packet off a request takes the next one off its packetisation, zero-length packet included |
| `UsbInvariant.TransferInKeeps` | drivers/usb/udc_wch.c:220-239 | an IN completion keeps the endpoint in order |
| `UsbInvariant.TransferOutKeeps` | drivers/usb/udc_wch.c:240-252 | an OUT completion keeps the endpoint in order, oversize packets included |
| `UsbInvariant.CancelKeeps` | drivers/usb/udc_wch.c:354-363 | cancelling returns every request in order and settled |
| `UsbRegs.WithResponse` | drivers/usb/udc_wch.c:94-100 | the control byte gets the new handshake and keeps its toggle |
| `UsbDriver.BulkEndpoint.Stage` | drivers/usb/udc_wch.c:122-128 | the staging array holds exactly the head's next packet |
| `UsbDriver.BulkEndpoint.Kick` | drivers/usb/udc_wch.c:108-132 | simulates staging and answering, or nothing |
| `UsbDriver.BulkEndpoint.Complete` | drivers/usb/udc_wch.c:175-183 | simulates giving the head back with its verdict |
| `UsbDriver.BulkEndpoint.TransferIn` | drivers/usb/udc_wch.c:217-239 | simulates an IN completion |
| `UsbDriver.BulkEndpoint.TransferOut` | drivers/usb/udc_wch.c:240-252 | simulates an OUT completion from the staging array |
| `UsbDriver.BulkEndpoint.Transfer` | drivers/usb/udc_wch.c:205-219 | simulates a token, ignored ones included |
| `UsbDriver.BulkEndpoint.AwaitFree` | drivers/usb/udc_wch.c:151-159 | the bounded wait succeeds if and only if the controller is stopped or one of readings 0 to 100 is free |
| `UsbDriver.BulkEndpoint.Quiesce` | drivers/usb/udc_wch.c:139-173 | fails exactly if all 101 readings are busy, and then only the answer changes; otherwise the latched completion is dropped or processed and acknowledged |
| `UsbDriver.BulkEndpoint.Enqueue` | drivers/usb/udc_wch.c:342-352 | simulates accepting a request; refused exactly when stopped |
| `UsbDriver.BulkEndpoint.Dequeue` | drivers/usb/udc_wch.c:354-363 | simulates cancelling; a timeout keeps every request |
| `UsbDriver.BulkEndpoint.Enable` | drivers/usb/udc_wch.c:365-384 | simulates enabling: DATA0, not halted, not busy |
| `UsbDriver.BulkEndpoint.Halt` | drivers/usb/udc_wch.c:401-416 | simulates halting, progress of a latched packet preserved; that it answers STALL is `UsbLaws.StallIsExact` |
| `UsbDriver.BulkEndpoint.ClearHalt` | drivers/usb/udc_wch.c:418-427 | simulates clear-halt: DATA0 whether or not anything is queued |
| `UsbDriver.BulkEndpoint.Reset` | drivers/usb/udc_wch.c:264-273 | simulates an endpoint's part of a bus reset |
| `UsbDriver.Controller.Work` | drivers/usb/udc_wch.c:286-329 | simulates the worker over both endpoints: reset beats overflow, overflow beats a completion |
| `UsbDriver.Controller.Disable` | drivers/usb/udc_wch.c:500-518 | simulates disabling: it cannot time out, and both queues end empty |
| `UsbBus.StepKeepsInv` | drivers/usb/udc_wch.c:108-518 | every driver operation, worker run and host transaction keeps both endpoints in order and every completion with its request |
| `UsbBus.RequestsAreConserved` | drivers/usb/udc_wch.c:175-183 | in every run accepted requests are those returned, then those queued, in order, each once |
| `UsbBus.InRequestsArePacketised` | drivers/usb/udc_wch.c:217-239 | in every run a completed IN request had exactly its packetisation acknowledged, over any halts and clear-halts; an unfinished one a prefix, strict unless its last packet is latched; that completion follows is `UsbCompletion.CompletionFollows` |
| `UsbBus.OutRequestsAreAssembled` | drivers/usb/udc_wch.c:240-252 | in every run OUT requests hold exactly their packets' bytes within capacity, complete on a short packet or a full buffer, and an oversize packet changes none of their data |
| `UsbBus.TokensBelongToTheHead` | drivers/usb/udc_wch.c:108-132 | in every run ACK implies busy, and a latched completion or a transaction in progress belongs to the request at the head |
| `UsbBus.CancelReturnsOrKeeps` | drivers/usb/udc_wch.c:354-363 | in every run a cancel either times out and keeps every request, or returns all and leaves no completion behind; disabling returns everything |
| `UsbOut.TransferOutConsumes` | drivers/usb/udc_wch.c:217-252 | a packet with the expected toggle is taken exactly once and flips the toggle, whatever becomes of its request |
| `UsbOut.DequeueSync` | drivers/usb/udc_wch.c:354-363 | a successful cancel keeps the agreement if and only if it drops no latched packet whose acknowledgement was heard |
| `UsbOut.ClearHaltSync` | drivers/usb/udc_wch.c:418-427 | clear-halt keeps the agreement if and only if no packet is latched with the right toggle and no DATA0 packet is on the bus |
| `UsbOut.StepKeepsSync` | drivers/usb/udc_wch.c:108-518 | every step that is not a losing one keeps host and device in step, under any lost packets and acknowledgements |
| `UsbOut.CancelLosesTwoPackets` | drivers/usb/udc_wch.c:139-173 | after the losing cancel the host hears two packets acknowledged and the device takes neither |
| `UsbOut.LossIsReachable` | drivers/usb/udc_wch.c:139-173 | five steps from reset reach a state in which host and device agree and cancelling loses a packet |
| `UsbIn.TransferInConfirms` | drivers/usb/udc_wch.c:217-239 | processing an IN completion confirms nothing new and flips the toggle, on every path |
| `UsbIn.EndAgrees` | drivers/usb/udc_wch.c:217-239 | a repeated packet is discarded and a new one kept by the host, whether or not packet and acknowledgement get through |
| `UsbIn.DequeueAgrees` | drivers/usb/udc_wch.c:354-363 | a successful cancel keeps the agreement if and only if no completion is latched and no acknowledgement is outstanding |
| `UsbIn.ClearHaltAgrees` | drivers/usb/udc_wch.c:418-427 | clear-halt keeps the agreement if and only if no completion is latched and no DATA1 packet is on the bus |
| `UsbIn.StepAgrees` | drivers/usb/udc_wch.c:108-518 | every step that is not a losing one keeps host and device in step, and without lost acknowledgements the host has kept exactly what it acknowledged |
| `UsbIn.CancelLosesNextRequest` | drivers/usb/udc_wch.c:139-173 | after the losing cancel the next short request completes and the host keeps none of its data |
| `UsbIn.LossIsReachable` | drivers/usb/udc_wch.c:139-173 | five steps from reset reach a state in which host and device agree and cancelling loses a packet |
| `UsbExact.CarefulRunsDeliver` | drivers/usb/udc_wch.c:108-518 | for either direction, every run without a losing step delivers exactly once and in order between toggle resets, under any lost packets and acknowledgements |
| `UsbExact.OutLossCosts` | drivers/usb/udc_wch.c:139-173 | every losing OUT step, cancel and clear-halt alike, is followed by a run without further cancel or clear-halt that ends undelivered |
| `UsbExact.InLossCosts` | drivers/usb/udc_wch.c:139-173 | the same for every losing IN step |
| `UsbExact.AgreementBreaksExactlyOnLoss` | drivers/usb/udc_wch.c:139-173 | for either direction, a step breaks the agreement between the two ends if and only if it is a losing one |
| `UsbExact.LossIsExact` | drivers/usb/udc_wch.c:139-173 | from any state in which both ends agree, a step can cost delivery if and only if it is a losing one |
| `UsbExact.DeliveryIsExact` | drivers/usb/udc_wch.c:108-518 | for either direction, a run has no losing step if and only if at no point of it delivery is broken, nor can be by any continuation without cancel and clear-halt |
| `UsbExact.LatchDecides` | drivers/usb/udc_wch.c:160-168 | over all runs without lost acknowledgements, delivery is and stays unbroken if and only if no cancel drops a latched completion and no clear-halt resets the toggle under one or under a packet on the bus |
| `UsbExact.CancelCostsExactlyWhatIsLatched` | drivers/usb/udc_wch.c:160-168 | after such a run a successful cancel breaks delivery if and only if a completion is latched (OUT: one with TOG_OK) |
| `UsbExact.OutPrudenceSuffices` | drivers/usb/udc_wch.c:160-168 | for OUT, dropping no such completion suffices whatever is lost |
| `UsbExact.LostAcknowledgementIsInvisible` | drivers/usb/udc_wch.c:139-173 | for IN, a lost packet and a lost acknowledgement leave the same device, and a cancel loses a packet in one case only: no test in the driver can tell |
| `UsbProgress.SilencingIsExact` | drivers/usb/udc_wch.c:108-132 | for either direction, a step makes an endpoint with work fall silent if and only if it is a clear-halt, or a timed-out cancel, halt or disable, of a busy endpoint with no completion to process |
| `UsbProgress.AnsweringIsExact` | drivers/usb/udc_wch.c:108-518 | queued work is answered in every state of a run if and only if no step of the run is such a one |
| `UsbProgress.SilenceLasts` | drivers/usb/udc_wch.c:418-427 | a busy endpoint at NAK with nothing latched or on the bus stays so, its head and its returned requests unchanged, under every step except a successful cancel, halt or disable of it, a device disable, a bus reset or an overflow, and each of those ends it |
| `UsbProgress.SilenceLastsForever` | drivers/usb/udc_wch.c:418-427 | the same over every run without such a step |
| `UsbProgress.BusyClearHaltSilences` | drivers/usb/udc_wch.c:418-427 | clear-halt on any busy endpoint with nothing latched or on the bus reaches that state |
| `UsbProgress.SilenceIsReachable` | drivers/usb/udc_wch.c:418-427 | four steps from reset reach it, in either direction |
| `UsbCompletion.UnfinishedHead` | drivers/usb/udc_wch.c:217-239 | an unfinished head has packets left, and its acknowledged packets are fewer than all unless the last of them is latched |
| `UsbCompletion.PollsComplete` | drivers/usb/udc_wch.c:217-239 | an answering head completes after exactly as many polls of the host as its packetisation has packets left, with all of them acknowledged, and is the next request returned |
| `UsbCompletion.CompletionFollows` | drivers/usb/udc_wch.c:217-239 | after every run without a silencing step, whatever halts and clear-halts lie between packets, the head of an open, unhalted endpoint is completed once the host polls often enough |
| `UsbCompletion.ShortPacketCompletes` | drivers/usb/udc_wch.c:240-252 | an answering OUT endpoint in step with the host returns its head, complete and with the data it had, on one short packet |
| `UsbCompletion.NoCompletionInSilence` | drivers/usb/udc_wch.c:418-427 | after a silencing clear-halt it never is until the endpoint is freed |
| `UsbCaution.IdleClearHaltIsSafe` | drivers/usb/udc_wch.c:418-427 | clear-halt on an endpoint that is not busy neither loses a packet nor silences it |
| `UsbCaution.HaltIsIdle` | drivers/usb/udc_wch.c:401-416 | a successful halt leaves the endpoint not busy |
| `UsbCaution.ClearHaltHarmsExactlyTheBusy` | drivers/usb/udc_wch.c:418-427 | clear-halt loses a packet or silences the endpoint if and only if it is busy |
| `UsbCaution.CautionIsExact` | drivers/usb/udc_wch.c:108-518 | over all runs without lost acknowledgements, nothing is lost and nothing falls silent if and only if no clear-halt hits a busy endpoint, no cancel drops a latched completion and no cancel, halt or disable times out on a busy endpoint without one |
| `UsbLaws.HaltStalls` | drivers/usb/udc_wch.c:401-416 | a successful halt leaves the endpoint halted, answering STALL and not busy |
| `UsbLaws.StallIsExact` | drivers/usb/udc_wch.c:139-173 | in every run STALL implies halted and enabled; an endpoint answers STALL after a step if and only if the step is a successful halt, or it did before and the step is no clear-halt, cancel, disable, timed-out halt, device disable, reset or overflow |
| `UsbLaws.HaltStaysExactly` | drivers/usb/udc_wch.c:256-427 | an endpoint is halted after a step if and only if the step is a successful halt, or it was before and the step is no clear-halt, new enable or bus reset |
| `UsbLaws.HaltedWithoutStall` | drivers/usb/udc_wch.c:354-363 | in every run, the exact condition under which a step leaves an endpoint halted and not answering STALL |
| `UsbLaws.HaltedWithoutStallIsReachable` | drivers/usb/udc_wch.c:354-363 | four steps from reset to a halted endpoint answering NAK, in both directions |
| `UsbLaws.ClearHaltResumes` | drivers/usb/udc_wch.c:418-427 | clear-halt on an endpoint that is not busy restarts at DATA0 and answers if and only if it has work |
| `UsbLaws.EnableOpens` | drivers/usb/udc_wch.c:365-384 | enabling gives NAK, DATA0, not halted, not busy; the host may use it exactly while the controller runs |
| `UsbLaws.RequestIsQueued` | drivers/usb/udc_wch.c:342-352 | a request is queued last and as given exactly while the controller runs and the endpoint is enabled; nothing else in the queue changes |
| `UsbLaws.CancelReturnsCancelled` | drivers/usb/udc_wch.c:354-363 | cancelling returns the queued requests, all of them, in order, as cancelled |
| `UsbLaws.ResetCancelsEverything` | drivers/usb/udc_wch.c:256-273 | a bus reset wins over overflow and completion: both endpoints disabled, not halted, NAK, everything returned as cancelled, the controller running |
| `UsbLaws.OverflowCancelsEverything` | drivers/usb/udc_wch.c:500-518 | an overflow wins over a completion: the controller stops and everything is returned as cancelled |
| `UsbLaws.DequeueCancelsEverything` | drivers/usb/udc_wch.c:139-173 | a successful cancel returns everything as cancelled, even a head whose last packet is latched |
| `UsbLaws.OutPacketDecides` | drivers/usb/udc_wch.c:237-252 | in every run an OUT packet returns the head if and only if it does not fit (too long, data unchanged), is short or fills the request (completed, data extended); a repeated packet does nothing |
| `UsbLaws.InPacketDecides` | drivers/usb/udc_wch.c:219-236 | in every run an acknowledged IN packet returns the head, as completed, if and only if it is the last of the packetisation |

## Left out

- UsbExact.CarefulRunsDeliver: stated for runs without a losing step and for the time between two toggle resets; it is false of the code otherwise, and `UsbExact.DeliveryIsExact` gives the exact condition.
- UsbCompletion.ShortPacketCompletes: the OUT counterpart of `CompletionFollows` is stated for a quiet bus and a host that waits for no acknowledgement; when a host ends a transfer is its own decision.
- RxDispatch.Dispatch: the bytes DMA moves while a callback runs are in the run machine, not in this method.
- TxDriver.UartTx.PollPass: one pass of the polling loop; that the loop ends is up to the hardware.
- TxSafety.OneTerminalEventPerTransfer: an abort whose provider cannot report progress may report zero bytes, as the code does.
- UsbDriver.BulkEndpoint.Enable: takes packet sizes 1 to 64, the size of the staging buffer; larger ones are excluded by the endpoint capabilities.
- Initialisation, clocks, pin control, devicetree, IRQ wiring and shutdown: configuration plumbing.
- Endpoint 0 and SETUP handling: they rest on Zephyr's control-transfer code; a control token is only an opaque latched completion here.
- Suspend and resume events of the bus: the worker only acknowledges their flag.
- Zephyr's channel allocator, spinlocks, mutex and work queue: atomic steps and a pending wakeup.
- The interrupt-driven UART API, the baud-rate divisor and the unused receive-delta helper: one-branch facts.
- The IRQ trace recorder, host scripts and hardware fixtures.
- Real-time behaviour: the rearm gap, bytes lost on the wire, clock accuracy and serial-engine timing.
- The user-data pointer is part of the callback's identity; buffer contents of UART transfers are not modelled, only addresses, lengths and counts.
