/**
 * The AVR USART low-level serial driver as it runs: the two SerialDriver
 * objects and the two USART register blocks are objects whose fields the
 * driver routines update in place. Each routine is proved to take the state
 * to the value given by its counterpart in module SerialLldSpec.
 *
 * Each interrupt handler is one atomic method: the kernel's critical
 * sections and the interrupt prologue/epilogue are not modelled.
 */
module SerialLld {
  import opened AvrUsart
  import opened SerialChannel
  import opened SerialLldSpec

  /**
   * A SerialDriver object (SD1 or SD2): its queues and flag word and the
   * notify callback bound to it, which is the USART unit it re-arms.
   */
  class SerialDriver {
    var iqueue: seq<bv8>
    var oqueue: seq<bv8>
    var flags: SdFlags
    var onotify: Usart?

    function State(): Channel
      reads this
    {
      Channel(iqueue, oqueue, flags)
    }

    /** A statically allocated, not yet initialised driver object. */
    constructor ()
      ensures State() == EMPTY_CHANNEL && onotify == null
    {
      iqueue, oqueue, flags, onotify := [], [], SD_NO_ERROR, null;
    }

    /** sdObjectInit(sdp, NULL, notify): the queues are reset and the callback bound. */
    method ObjectInit(notify: Usart)
      modifies this
      ensures State() == EMPTY_CHANNEL && onotify == notify
    {
      iqueue, oqueue, flags := [], [], SD_NO_ERROR;
      onotify := notify;
    }

    /** sdIncomingDataI. */
    method IncomingDataI(b: bv8)
      modifies this`iqueue
      ensures State() == IncomingData(old(State()), b)
    {
      iqueue := iqueue + [b];
    }

    /** sdRequestDataI, with None for the "queue empty" result. */
    method RequestDataI() returns (b: Option<bv8>)
      modifies this`oqueue
      ensures (b, State()) == RequestData(old(State()))
    {
      if oqueue == [] {
        b := None;
      } else {
        b := Some(oqueue[0]);
        oqueue := oqueue[1..];
      }
    }

    /** sdAddFlagsI. */
    method AddFlagsI(mask: SdFlags)
      modifies this`flags
      ensures State() == AddFlags(old(State()), mask)
    {
      flags := flags | mask;
    }
  }

  /**
   * set_error: builds the flag word from the status byte bit by bit and ORs
   * it into the driver's flags.
   */
  method SetError(sra: bv8, sdp: SerialDriver)
    modifies sdp`flags
    ensures sdp.State() == ReportErrors(sra, old(sdp.State()))
  {
    var sts: SdFlags := SD_NO_ERROR;
    if sra & DOR_MASK != 0 {
      sts := sts | SD_OVERRUN_ERROR;
    }
    if sra & UPE_MASK != 0 {
      sts := sts | SD_PARITY_ERROR;
    }
    if sra & FE_MASK != 0 {
      sts := sts | SD_FRAMING_ERROR;
    }
    sdp.AddFlagsI(sts);
  }

  /** One USART unit: its register block and the SerialDriver its handlers serve. */
  class Usart {
    var ubrrl: bv8
    var ubrrh: bv8
    var ucsra: bv8
    var ucsrb: bv8
    var ucsrc: bv8
    var udr: bv8
    const sd: SerialDriver

    function Regs(): UsartRegs
      reads this
    {
      UsartRegs(ubrrl, ubrrh, ucsra, ucsrb, ucsrc, udr)
    }

    function State(): UsartState
      reads this, sd
    {
      UsartState(Regs(), sd.State())
    }

    /** A unit whose registers hold `regs` and whose handlers serve `sd`. */
    constructor (sd: SerialDriver, regs: UsartRegs)
      ensures this.sd == sd && Regs() == regs
    {
      this.sd := sd;
      ubrrl, ubrrh, ucsra, ucsrb, ucsrc, udr := regs.ubrrl, regs.ubrrh, regs.ucsra, regs.ucsrb, regs.ucsrc, regs.udr;
    }

    /** usartN_init. */
    method Init(config: Config)
      modifies this
      ensures Regs() == UsartInit(old(Regs()), config)
    {
      ubrrl := (config.brr & 0xFF) as bv8;
      ubrrh := (config.brr >> 8) as bv8;
      ucsra := 0;
      ucsrb := RXEN_MASK | TXEN_MASK | RXCIE_MASK;
      ucsrc := config.csrc;
    }

    /** usartN_deinit. */
    method Deinit()
      modifies this`ucsra, this`ucsrb, this`ucsrc
      ensures Regs() == UsartDeinit(old(Regs()))
    {
      ucsra := 0;
      ucsrb := 0;
      ucsrc := 0;
    }

    /** notifyN: the callback the channel calls when output is queued. */
    method Notify()
      modifies this`ucsrb
      ensures Regs() == NotifyRegs(old(Regs()))
    {
      ucsrb := ucsrb | UDRIE_MASK;
    }

    /** The receive-complete interrupt (USARTn_RX_vect). */
    method RxIsr()
      modifies sd`iqueue, sd`flags
      ensures State() == RxHandler(old(State()))
    {
      var sra := ucsra;
      if sra & ERROR_MASK != 0 {
        SetError(sra, sd);
      }
      sd.IncomingDataI(udr);
    }

    /**
     * The data-register-empty interrupt (USARTn_UDRE_vect). The source's
     * USART0 handler dequeues from `SER1`, a name defined nowhere in the
     * file, while every other USART0 reference uses SD1 and the USART1
     * handler uses SD2; this method dequeues from the unit's own driver,
     * which is SD1 for USART0.
     */
    method UdreIsr()
      modifies this`ucsrb, this`udr, sd`oqueue
      ensures State() == TxHandler(old(State())).state
    {
      var b := sd.RequestDataI();
      match b
      case None =>
        ucsrb := ucsrb & !UDRIE_MASK;
      case Some(x) =>
        udr := x;
    }
  }

  /**
   * The file's global state: SD1 and SD2 and the register blocks of USART0
   * and USART1, both units enabled. SD1 belongs to USART0 and SD2 to USART1.
   */
  class SerialLldDriver {
    const sd1: SerialDriver
    const sd2: SerialDriver
    const usart0: Usart
    const usart1: Usart

    ghost predicate Valid() {
      sd1 != sd2 && usart0 != usart1 && usart0.sd == sd1 && usart1.sd == sd2
    }

    /** The globals at reset, with the registers in the given states. */
    constructor (regs0: UsartRegs, regs1: UsartRegs)
      ensures Valid() && fresh(sd1) && fresh(sd2) && fresh(usart0) && fresh(usart1)
      ensures usart0.Regs() == regs0 && usart1.Regs() == regs1
      ensures sd1.onotify == null && sd2.onotify == null
    {
      var d1 := new SerialDriver();
      var d2 := new SerialDriver();
      sd1, sd2 := d1, d2;
      usart0 := new Usart(d1, regs0);
      usart1 := new Usart(d2, regs1);
    }

    /** sd_lld_init: each driver object initialised with its own unit's notify callback. */
    method LldInit()
      requires Valid()
      modifies sd1, sd2
      ensures sd1.State() == EMPTY_CHANNEL && sd1.onotify == usart0
      ensures sd2.State() == EMPTY_CHANNEL && sd2.onotify == usart1
      ensures unchanged(usart0, usart1)
    {
      sd1.ObjectInit(usart0);
      sd2.ObjectInit(usart1);
    }

    /**
     * sd_lld_start: NULL (None) selects default_config; both units are then
     * programmed, whichever driver `sdp` names. The channels are untouched.
     */
    method LldStart(sdp: SerialDriver?, config: Option<Config>)
      requires Valid()
      modifies usart0, usart1
      ensures usart0.Regs() == UsartInit(old(usart0.Regs()), ConfigOrDefault(config))
      ensures usart1.Regs() == UsartInit(old(usart1.Regs()), ConfigOrDefault(config))
      ensures unchanged(sd1, sd2)
    {
      var cfg := config;
      if cfg == None {
        cfg := Some(DEFAULT_CONFIG);
      }
      usart0.Init(cfg.value);
      usart1.Init(cfg.value);
    }

    /** sd_lld_stop: both units are de-initialised, whichever driver `sdp` names. */
    method LldStop(sdp: SerialDriver?)
      requires Valid()
      modifies usart0, usart1
      ensures usart0.Regs() == UsartDeinit(old(usart0.Regs()))
      ensures usart1.Regs() == UsartDeinit(old(usart1.Regs()))
      ensures unchanged(sd1, sd2)
    {
      usart0.Deinit();
      usart1.Deinit();
    }
  }
}
