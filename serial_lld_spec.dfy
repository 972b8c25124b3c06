/**
 * The AVR USART low-level serial driver as functions over values: one
 * function per driver routine, from the register block (and, for the
 * interrupt handlers, the channel) before the routine to the state after it.
 * The classes in module SerialLld are proved to follow these functions, and
 * the lemmas in module SerialLldLemmas are stated over them.
 */
module SerialLldSpec {
  import opened AvrUsart
  import opened SerialChannel

  /** SerialDriverConfig: the 16-bit baud divisor and the UCSRnC frame format. */
  datatype Config = Config(brr: bv16, csrc: bv8)

  /**
   * UBRR(DEFAULT_USART_BITRATE). The clock and bit-rate arithmetic behind it
   * is not part of this model, so the value is left unspecified.
   */
  const DEFAULT_BRR: bv16

  /** default_config: the default divisor and an 8-bit character size. */
  const DEFAULT_CONFIG: Config := Config(DEFAULT_BRR, UCSZ1_MASK | UCSZ0_MASK)

  /** The configuration sd_lld_start uses: its argument, or default_config for NULL. */
  function ConfigOrDefault(config: Option<Config>): Config {
    match config
    case None => DEFAULT_CONFIG
    case Some(c) => c
  }

  /** The register block of one USART unit. */
  datatype UsartRegs = UsartRegs(ubrrl: bv8, ubrrh: bv8, ucsra: bv8, ucsrb: bv8, ucsrc: bv8, udr: bv8)

  /** One unit as its interrupt handlers see it: its registers and its SerialDriver. */
  datatype UsartState = UsartState(regs: UsartRegs, sd: Channel)

  /** The divisor held by the two baud-rate registers. */
  function Divisor(ubrrh: bv8, ubrrl: bv8): bv16 {
    ((ubrrh as bv16) << 8) | (ubrrl as bv16)
  }

  /**
   * The (UBRRnL, UBRRnH) pair the init routines write for divisor `brr`:
   * the low byte by truncating assignment, the high byte as `brr >> 8`.
   */
  function BaudRegisters(brr: bv16): (lh: (bv8, bv8))
    ensures Divisor(lh.1, lh.0) == brr
  {
    ((brr & 0xFF) as bv8, (brr >> 8) as bv8)
  }

  /**
   * The flags set_error reports for status byte `sra`: OVERRUN exactly when
   * DOR is set, PARITY exactly when UPE is set, FRAMING exactly when FE is
   * set, and nothing else.
   */
  function ErrorFlags(sra: bv8): (sts: SdFlags)
    ensures (sts & SD_OVERRUN_ERROR != 0) <==> (sra & DOR_MASK != 0)
    ensures (sts & SD_PARITY_ERROR != 0) <==> (sra & UPE_MASK != 0)
    ensures (sts & SD_FRAMING_ERROR != 0) <==> (sra & FE_MASK != 0)
    ensures sts & !SD_ERRORS == 0
    ensures sts == SD_NO_ERROR <==> sra & ERROR_MASK == 0
  {
    (if sra & DOR_MASK != 0 then SD_OVERRUN_ERROR else SD_NO_ERROR) |
    (if sra & UPE_MASK != 0 then SD_PARITY_ERROR else SD_NO_ERROR) |
    (if sra & FE_MASK != 0 then SD_FRAMING_ERROR else SD_NO_ERROR)
  }

  /**
   * usartN_init: every register but UDRn is rebuilt from the configuration
   * alone. The baud registers hold the divisor, the status register is
   * cleared, receiver, transmitter and receive interrupt are enabled with the
   * transmit interrupt off, and UCSRnC takes the frame format.
   */
  function UsartInit(r: UsartRegs, config: Config): (r': UsartRegs)
    ensures Divisor(r'.ubrrh, r'.ubrrl) == config.brr
    ensures r'.ucsra == 0
    ensures r'.ucsrb & RXEN_MASK != 0 && r'.ucsrb & TXEN_MASK != 0 && r'.ucsrb & RXCIE_MASK != 0
    ensures !TxArmed(r'.ucsrb)
    ensures r'.ucsrb == RX_TX_ENABLE
    ensures r'.ucsrc == config.csrc
    ensures r'.udr == r.udr
  {
    var (lo, hi) := BaudRegisters(config.brr);
    UsartRegs(lo, hi, 0, RX_TX_ENABLE, config.csrc, r.udr)
  }

  /**
   * usartN_deinit: the three control/status registers are zero, so the unit,
   * its receiver, transmitter and all its interrupts are off; the baud
   * registers and UDRn keep their values.
   */
  function UsartDeinit(r: UsartRegs): (r': UsartRegs)
    ensures r'.ucsra == 0 && r'.ucsrb == 0 && r'.ucsrc == 0
    ensures r'.ucsrb & (RX_TX_ENABLE | UDRIE_MASK) == 0
    ensures r'.ubrrl == r.ubrrl && r'.ubrrh == r.ubrrh && r'.udr == r.udr
  {
    r.(ucsra := 0, ucsrb := 0, ucsrc := 0)
  }

  /**
   * notifyN: the transmit path is armed (UDRIE set); every other bit of
   * UCSRnB and every other register is left as it was.
   */
  function NotifyRegs(r: UsartRegs): (r': UsartRegs)
    ensures TxArmed(r'.ucsrb)
    ensures r'.ucsrb & !UDRIE_MASK == r.ucsrb & !UDRIE_MASK
    ensures r' == r.(ucsrb := r'.ucsrb)
  {
    r.(ucsrb := r.ucsrb | UDRIE_MASK)
  }

  /** set_error on a channel: the decoded flags ORed into the flag word. */
  function ReportErrors(sra: bv8, ch: Channel): (ch': Channel)
    ensures ch'.iqueue == ch.iqueue && ch'.oqueue == ch.oqueue
    ensures ch'.flags & ch.flags == ch.flags
    ensures ch'.flags & !ch.flags == ErrorFlags(sra) & !ch.flags
  {
    AddFlags(ch, ErrorFlags(sra))
  }

  /**
   * The receive-complete handler. The status byte is read once; the error
   * flags it carries are ORed into the flag word (only when an error bit is
   * set, which changes nothing otherwise); the byte in UDRn is then appended,
   * unchanged, to the input queue, errored or not. The output queue and the
   * registers are untouched.
   */
  function RxHandler(u: UsartState): (u': UsartState)
    ensures u'.sd.iqueue == u.sd.iqueue + [u.regs.udr]
    ensures u'.sd.oqueue == u.sd.oqueue
    ensures u'.sd.flags == u.sd.flags | ErrorFlags(u.regs.ucsra)
    ensures u.regs.ucsra & ERROR_MASK == 0 ==> u'.sd.flags == u.sd.flags
    ensures u'.regs == u.regs
  {
    var sra := u.regs.ucsra;
    var sd := if sra & ERROR_MASK != 0 then ReportErrors(sra, u.sd) else u.sd;
    u.(sd := IncomingData(sd, u.regs.udr))
  }

  /** The outcome of one transmit interrupt: the new state and the byte written to UDRn, if any. */
  datatype TxStep = TxStep(state: UsartState, wrote: Option<bv8>)

  /**
   * The data-register-empty handler. With an empty output queue it clears
   * UDRIE, and only UDRIE, and writes nothing. Otherwise it removes the
   * head of the output queue, writes it to UDRn and leaves UCSRnB, with
   * UDRIE, as it was.
   */
  function TxHandler(u: UsartState): (t: TxStep)
    ensures u.sd.oqueue == [] ==>
      && t.wrote == None
      && t.state.sd == u.sd
      && !TxArmed(t.state.regs.ucsrb)
      && t.state.regs.ucsrb & !UDRIE_MASK == u.regs.ucsrb & !UDRIE_MASK
      && t.state.regs == u.regs.(ucsrb := t.state.regs.ucsrb)
    ensures u.sd.oqueue != [] ==>
      && t.wrote == Some(u.sd.oqueue[0])
      && t.state.sd == u.sd.(oqueue := u.sd.oqueue[1..])
      && t.state.regs == u.regs.(udr := u.sd.oqueue[0])
  {
    var (b, sd) := RequestData(u.sd);
    match b
    case None => TxStep(UsartState(u.regs.(ucsrb := u.regs.ucsrb & !UDRIE_MASK), sd), None)
    case Some(x) => TxStep(UsartState(u.regs.(udr := x), sd), Some(x))
  }
}
