# AVR USART low-level serial driver, modelled in Dafny

This project models the ChibiOS/RT low-level serial driver for the ATmega
USART units (`os/io/platforms/AVR/serial_lld.c`) and proves properties of that model.
The driver binds two USART register blocks (USART0, USART1) to two generic
SerialDriver objects (SD1, SD2). Each SerialDriver has an input byte queue,
an output byte queue and a flag word.

- The init routines program the baud divisor, clear the status register,
  enable the receiver, the transmitter and the receive interrupt, and write
  the frame format.
- The deinit routines zero the three control/status registers.
- The notify callbacks set UDRIE, which arms the transmit interrupt.
- The receive interrupt reads the status register once and reports any
  overrun, parity or framing error as flags. It then always appends the
  received byte to the input queue.
- The data-register-empty interrupt sends the next queued byte. When the
  queue is empty, it clears UDRIE instead.
- `sd_lld_init` binds each unit's notify callback to its SerialDriver.
  `sd_lld_start` and `sd_lld_stop` program or de-initialise both units.

Files and modules:

- `avr_usart.dfy` (module `AvrUsart`): register bit positions and masks from
  the ATmega datasheet (FE=4, DOR=3, UPE=2; RXCIE=7, UDRIE=5, RXEN=4,
  TXEN=3; UCSZ1=2, UCSZ0=1).
- `serial_channel.dfy` (module `SerialChannel`): the generic serial layer
  that the driver calls. A `Channel` value holds the two queues and the flag
  word, and the three ISR-side operations become functions:
  - `sdIncomingDataI` appends to the input queue.
  - `sdRequestDataI` pops the head of the output queue, or returns `None`
    when it is empty. `None` stands for the source's "below `Q_OK`" result.
  - `sdAddFlagsI` ORs bits into the flag word.
- `serial_lld_spec.dfy` (module `SerialLldSpec`): one function per driver
  routine. Each maps the state before the routine to the state after it.
- `serial_lld.dfy` (module `SerialLld`): the driver's objects and the
  routines that update them:
  - class `SerialDriver` models SD1 and SD2.
  - class `Usart` holds one register block: UBRRnL, UBRRnH, UCSRnA, UCSRnB,
    UCSRnC, UDRn.
  - class `SerialLldDriver` holds the file's globals.
  - Each method is proved to take its object to the value that its
    `SerialLldSpec` function gives.
- `serial_lld_lemmas.dfy` (module `SerialLldLemmas`): properties that relate
  several calls. These include runs of receive and transmit interrupts and
  the two-byte transmit scenario.

The four interrupt handlers of the source (RX and UDRE for each unit) are
written twice there. They are modelled once, as the methods `RxIsr` and
`UdreIsr` of class `Usart`. Each `Usart` object serves its own SerialDriver:
SD1 for USART0 and SD2 for USART1.

Points where the model follows the code closely:

- `sd_lld_start` and `sd_lld_stop` ignore their `sdp` argument. They program
  or de-initialise every enabled unit (`serial_lld.c:226-254`), not only the
  unit that belongs to `sdp`. `SerialLldDriver.LldStart` and `LldStop` do
  the same.
- The USART0 data-register-empty handler dequeues from `SER1`
  (`serial_lld.c:157`). That name is defined nowhere in the file. Every other
  USART0 reference uses `SD1`, and the USART1 handler uses `SD2`. The model
  gives the intended behaviour: each unit's handler dequeues from its own
  SerialDriver, so USART0 uses SD1. A comment on `Usart.UdreIsr` records the
  difference.
- The file keeps no started/stopped state, so none is modelled.

## Model

| member | source | states |
|---|---|---|
| `SerialLldSpec.ErrorFlags` | os/io/platforms/AVR/serial_lld.c:57-65 | The decoded flag word has OVERRUN iff DOR is set, PARITY iff UPE is set and FRAMING iff FE is set, and no other bit. It is empty exactly when none of the three status bits is set. |
| `SerialLldSpec.ReportErrors` | os/io/platforms/AVR/serial_lld.c:57-69 | Reporting keeps every bit already in the flag word. The only bits it adds are the decoded error flags. Both queues are unchanged. |
| `SerialLld.SetError` | os/io/platforms/AVR/serial_lld.c:57-69 | The flag word is built by three conditional ORs and then ORed into the driver's flags. The driver ends as `ReportErrors` says, and its queues and notify binding are untouched. |
| `SerialLldSpec.BaudRegisters` | os/io/platforms/AVR/serial_lld.c:83-84 | The byte pair written to UBRRnL (truncating assignment) and UBRRnH (`brr >> 8`) joins back to the 16-bit divisor: shifting UBRRnH left by 8 and ORing in UBRRnL gives brr. |
| `SerialLldSpec.UsartInit` | os/io/platforms/AVR/serial_lld.c:81-88 | After init, whatever the prior registers held: (1) the baud registers hold the configured divisor; (2) UCSRnA is 0; (3) UCSRnB is exactly the OR of RXEN, TXEN and RXCIE, so UDRIE is clear; (4) UCSRnC is the configured frame format; (5) UDRn is unchanged. The same holds for usart1_init at lines 111-118. |
| `SerialLldSpec.UsartDeinit` | os/io/platforms/AVR/serial_lld.c:93-98 | UCSRnA, UCSRnB and UCSRnC are 0, so every enable and interrupt bit is off. The baud registers and UDRn keep their values. The same holds for usart1_deinit at lines 123-128. |
| `SerialLldSpec.NotifyRegs` | os/io/platforms/AVR/serial_lld.c:72-75 | UDRIE is set. Every other UCSRnB bit and every other register is unchanged. |
| `SerialLldSpec.RxHandler` | os/io/platforms/AVR/serial_lld.c:136-149 | The input queue gains exactly the UDRn byte, at its end. The flag word becomes the old flags ORed with the errors decoded from the one status read, and is unchanged when no error bit is set. The output queue and all registers are untouched. |
| `SerialLldSpec.TxHandler` | os/io/platforms/AVR/serial_lld.c:151-165 | Empty output queue: nothing is written, the channel is unchanged, and UDRIE (and only UDRIE) is cleared. Non-empty queue: the head is removed and written to UDRn, and UCSRnB and every other register stay unchanged. |
| `SerialLld.SerialDriver.constructor` | os/io/platforms/AVR/serial_lld.c:36-44 | A statically allocated driver object: empty queues, no flags, no notify callback bound. |
| `SerialLld.Usart.constructor` | os/io/platforms/AVR/serial_lld.c:135-145 | A USART register block in any given state, bound to the SerialDriver its handlers serve (USART0 uses SD1, as at lines 143 and 145). |
| `SerialLld.SerialDriver.ObjectInit` | os/io/platforms/AVR/serial_lld.c:211 | The sdObjectInit call: the queues are emptied, the flags are cleared and the given unit's notify callback is bound. |
| `SerialLld.SerialDriver.IncomingDataI` | os/io/platforms/AVR/serial_lld.c:145 | The byte joins the end of the input queue. Nothing else changes. |
| `SerialLld.SerialDriver.RequestDataI` | os/io/platforms/AVR/serial_lld.c:157 | Returns and removes the head of the output queue, or returns `None` on an empty queue. Nothing else changes. |
| `SerialLld.SerialDriver.AddFlagsI` | os/io/platforms/AVR/serial_lld.c:67 | The mask is ORed into the flag word. Nothing else changes. |
| `SerialLld.Usart.Init` | os/io/platforms/AVR/serial_lld.c:111-118 | The five register writes take the register block to `UsartInit` of its old value, as in usart0_init at lines 81-88. |
| `SerialLld.Usart.Deinit` | os/io/platforms/AVR/serial_lld.c:123-128 | The three writes take the register block to `UsartDeinit` of its old value, as in usart0_deinit at lines 93-98. |
| `SerialLld.Usart.Notify` | os/io/platforms/AVR/serial_lld.c:72-75 | ORing UDRIE into UCSRnB takes the register block to `NotifyRegs` of its old value. Only UCSRnB may change. |
| `SerialLld.Usart.RxIsr` | os/io/platforms/AVR/serial_lld.c:169-182 | The receive interrupt takes the unit (registers and driver) to `RxHandler` of its old state. Only the input queue and flags may change. The same holds for the USART0 handler at lines 136-149. |
| `SerialLld.Usart.UdreIsr` | os/io/platforms/AVR/serial_lld.c:151-165 | The data-register-empty interrupt takes the unit to `TxHandler` of its old state. Only UCSRnB, UDRn and the output queue may change. It serves the unit's own driver (SD1 for USART0), as in lines 184-198. |
| `SerialLld.SerialLldDriver.constructor` | os/io/platforms/AVR/serial_lld.c:30-45 | The globals: SD1 and SD2 are distinct, USART0 serves SD1 and USART1 serves SD2. |
| `SerialLld.SerialLldDriver.LldInit` | os/io/platforms/AVR/serial_lld.c:208-216 | SD1 is initialised with USART0's notify callback and SD2 with USART1's. No register changes. |
| `SerialLld.SerialLldDriver.LldStart` | os/io/platforms/AVR/serial_lld.c:226-237 | Whatever `sdp` is (even null), both units end as `UsartInit` of their old registers. The configuration used is `ConfigOrDefault(config)`: the given one, or `default_config` when the argument is `None` (NULL, lines 228-229). Both queues are untouched. |
| `SerialLld.SerialLldDriver.LldStop` | os/io/platforms/AVR/serial_lld.c:246-254 | Whatever `sdp` is, both units end as `UsartDeinit` of their old registers. The channels are untouched. |
| `SerialLldLemmas.BaudRegistersRoundTrip` | os/io/platforms/AVR/serial_lld.c:83-84 | The other direction of the divisor round trip: splitting the divisor held by any register pair gives back that pair. |
| `SerialLldLemmas.RxGuardIsNoOp` | os/io/platforms/AVR/serial_lld.c:141-143 | The `if` around `set_error` only skips a call that would change nothing. Reporting unconditionally gives the same state. |
| `SerialLldLemmas.InitIgnoresHistory` | os/io/platforms/AVR/serial_lld.c:81-88 | Two register blocks initialised with the same configuration agree on everything except UDRn, which init does not write. |
| `SerialLldLemmas.DeinitIdempotent` | os/io/platforms/AVR/serial_lld.c:93-98 | Deinit applied twice equals deinit applied once. |
| `SerialLldLemmas.NotifyIdempotent` | os/io/platforms/AVR/serial_lld.c:102-105 | Notify applied twice equals notify applied once. |
| `SerialLldLemmas.StopThenStart` | os/io/platforms/AVR/serial_lld.c:246-254 | Deinit followed by init with a configuration (or NULL) gives the same registers as init alone. |
| `SerialLldLemmas.StartNullIsDefault` | os/io/platforms/AVR/serial_lld.c:226-229 | Starting with NULL programs the same registers as starting with `default_config`. The default frame format is UCSZ1 and UCSZ0 set (0x06, lines 48-51), with the default divisor. |
| `SerialLldLemmas.RxDeliversInOrder` | os/io/platforms/AVR/serial_lld.c:174-179 | Run over any sequence of latched frames, the receive handlers append the data bytes to the input queue unchanged and in arrival order, errored frames included. The flag word becomes the old flags ORed with the union of the frames' decoded errors. The output queue, UCSRnB, UCSRnC and the divisor are unchanged. |
| `SerialLldLemmas.CleanFramesRaiseNoFlags` | os/io/platforms/AVR/serial_lld.c:175-176 | Frames with none of DOR, UPE or FE set contribute no flags. |
| `SerialLldLemmas.TxDrainsInOrder` | os/io/platforms/AVR/serial_lld.c:184-198 | For any output queue q of length n, take n+1 transmit interrupts. UDRn is written with exactly q, in FIFO order. The queue ends empty, and the input queue and flags are unchanged. |
| `SerialLldLemmas.TxDisarmsWhenDrained` | os/io/platforms/AVR/serial_lld.c:192-195 | Over the same n+1 interrupts, UDRIE keeps its prior value after each of the first n and is clear after the last. UCSRnB ends with only UDRIE changed. |
| `SerialLldLemmas.SpuriousTxIsHarmless` | os/io/platforms/AVR/serial_lld.c:192-193 | A transmit interrupt on an empty queue with UDRIE already clear writes nothing and changes nothing. |
| `SerialLldLemmas.TxScenario` | os/io/platforms/AVR/serial_lld.c:151-165 | Output queue [0x41, 0x42], notify, then three transmit interrupts. UDRn receives 0x41 then 0x42, UDRIE is set after the first two interrupts and clear after the third, and the queue ends empty. |
| `SerialLldLemmas.TxScenarioOnObjects` | os/io/platforms/AVR/serial_lld.c:72-75 | The same scenario on the driver objects, from any register state. After each of the three interrupts UDRn reads 0x41, 0x42, 0x42 and UDRIE reads set, set, clear. That the third interrupt writes nothing is shown by `TxScenario`. |
| `SerialLldLemmas.RestartOnObjects` | os/io/platforms/AVR/serial_lld.c:246-254 | On the driver objects, after sd_lld_init, sd_lld_stop clears UCSRnA/B/C of both units. A following sd_lld_start leaves both units exactly as start alone would, whether SD1 or SD2 is passed as `sdp`. Both channels stay as sd_lld_init left them. |

## Left out

- The kernel critical sections (`chSysLockFromIsr`/`chSysUnlockFromIsr`) and the interrupt prologue and epilogue are not modelled. Each handler is one atomic method, so interleavings between interrupt and thread context are not represented.
- The internals of `sdObjectInit`, `sdIncomingDataI`, `sdRequestDataI` and `sdAddFlagsI` (serial.h and the queue code) are not part of this model. They are abstracted as emptying the queues, appending, popping the head or returning `None`, and ORing flags. Full input queues and the wake-up of waiting threads are not modelled.
- The numeric values of `SD_PARITY_ERROR`, `SD_FRAMING_ERROR` and `SD_OVERRUN_ERROR` come from a header that is not part of this model. They are taken as the distinct single bits 4, 8 and 16 in an 8-bit flag word. The proofs rely only on their being distinct single bits.
- The `UBRR(...)` macro and `DEFAULT_USART_BITRATE` (clock and bit-rate arithmetic) are not part of this model. The default divisor `DEFAULT_BRR` is left unspecified.
- Hardware behaviour is not modelled: UCSRnA clearing when it is read, the separate receive and transmit buffers behind the one UDRn address, bits being shifted onto the wire, and interrupts being raised (level triggering, interrupt storms). A received frame is represented by `Latch`, which sets UCSRnA and UDRn before each receive interrupt. A bitwise register write is a single step.
- The eventual draining of the output queue (liveness) depends on the hardware raising interrupts. It is stated only as a run of a given number of interrupts (`TxDrainsInOrder`, `TxScenario`).
- The call of the notify callback by the serial layer when a producer queues output belongs to that layer. It is not modelled; the notify method is called directly.
- The `#if USE_AVR_USARTx` build-time selection is not modelled. Both units are taken as enabled.
- Usart.Init: the five register writes happen in one step. The momentary intermediate register states, which the hardware could act on between writes, are not modelled.
