/**
 * Properties of the AVR USART driver stated over the step functions of
 * module SerialLldSpec: the baud-register round trip, idempotence of
 * deinit and notify, restart, the default configuration, the order in which
 * received bytes reach the input queue, and the order in which queued
 * bytes reach UDRn before the transmit interrupt disarms itself.
 */
module SerialLldLemmas {
  import opened AvrUsart
  import opened SerialChannel
  import opened SerialLldSpec
  import opened SerialLld

  /** The baud registers determine the divisor they were written from, and back. */
  lemma BaudRegistersRoundTrip(lo: bv8, hi: bv8)
    ensures BaudRegisters(Divisor(hi, lo)) == (lo, hi)
  {
  }

  /**
   * The guard of the receive handlers only skips a call that would change
   * nothing: reporting unconditionally gives the same state.
   */
  lemma RxGuardIsNoOp(u: UsartState)
    ensures RxHandler(u) == u.(sd := IncomingData(ReportErrors(u.regs.ucsra, u.sd), u.regs.udr))
  {
  }

  /** usartN_init rebuilds all of UBRRnL/H and UCSRnA/B/C from the configuration alone. */
  lemma InitIgnoresHistory(r1: UsartRegs, r2: UsartRegs, config: Config)
    ensures UsartInit(r1, config) == UsartInit(r2, config).(udr := r1.udr)
  {
  }

  /** usartN_deinit twice is usartN_deinit once. */
  lemma DeinitIdempotent(r: UsartRegs)
    ensures UsartDeinit(UsartDeinit(r)) == UsartDeinit(r)
  {
  }

  /** notifyN twice is notifyN once. */
  lemma NotifyIdempotent(r: UsartRegs)
    ensures NotifyRegs(NotifyRegs(r)) == NotifyRegs(r)
  {
  }

  /** Stopping before starting changes nothing about the started registers. */
  lemma StopThenStart(r: UsartRegs, config: Option<Config>)
    ensures UsartInit(UsartDeinit(r), ConfigOrDefault(config)) == UsartInit(r, ConfigOrDefault(config))
  {
  }

  /**
   * sd_lld_start with NULL programs the same registers as with
   * &default_config, whose frame format is an 8-bit character (UCSZ1, UCSZ0).
   */
  lemma StartNullIsDefault(r: UsartRegs)
    ensures UsartInit(r, ConfigOrDefault(None)) == UsartInit(r, ConfigOrDefault(Some(DEFAULT_CONFIG)))
    ensures DEFAULT_CONFIG.csrc == 0x06 && DEFAULT_CONFIG.brr == DEFAULT_BRR
  {
  }

  // ---------------------------------------------------------------------
  // Receive path over a sequence of received frames
  // ---------------------------------------------------------------------

  /** A frame as the hardware latches it: the status bits and the data byte. */
  datatype Arrival = Arrival(status: bv8, data: bv8)

  /**
   * The hardware latching a received frame into UCSRnA and UDRn. This is the
   * peripheral's doing, not the driver's; it precedes each receive interrupt.
   */
  function Latch(u: UsartState, a: Arrival): UsartState {
    u.(regs := u.regs.(ucsra := a.status, udr := a.data))
  }

  /** Each frame latched and its receive interrupt handled, in order. */
  function RxRun(u: UsartState, arrivals: seq<Arrival>): UsartState
    decreases |arrivals|
  {
    if arrivals == [] then u
    else RxRun(RxHandler(Latch(u, arrivals[0])), arrivals[1..])
  }

  /** The data bytes of a sequence of frames. */
  function Data(arrivals: seq<Arrival>): seq<bv8>
    decreases |arrivals|
  {
    if arrivals == [] then [] else [arrivals[0].data] + Data(arrivals[1..])
  }

  /** The union of the error flags of a sequence of frames. */
  function Errors(arrivals: seq<Arrival>): SdFlags
    decreases |arrivals|
  {
    if arrivals == [] then SD_NO_ERROR else ErrorFlags(arrivals[0].status) | Errors(arrivals[1..])
  }

  /**
   * Every received byte reaches the end of the input queue, unchanged and in
   * arrival order, errored or not; the flag word gains exactly the errors of
   * the frames and loses nothing; the output queue and the control and baud
   * registers are untouched.
   */
  lemma {:induction false} RxDeliversInOrder(u: UsartState, arrivals: seq<Arrival>)
    ensures RxRun(u, arrivals).sd.iqueue == u.sd.iqueue + Data(arrivals)
    ensures RxRun(u, arrivals).sd.flags == u.sd.flags | Errors(arrivals)
    ensures RxRun(u, arrivals).sd.oqueue == u.sd.oqueue
    ensures RxRun(u, arrivals).regs.ucsrb == u.regs.ucsrb
    ensures RxRun(u, arrivals).regs.ucsrc == u.regs.ucsrc
    ensures Divisor(RxRun(u, arrivals).regs.ubrrh, RxRun(u, arrivals).regs.ubrrl) == Divisor(u.regs.ubrrh, u.regs.ubrrl)
    decreases |arrivals|
  {
    if arrivals != [] {
      var u1 := RxHandler(Latch(u, arrivals[0]));
      RxDeliversInOrder(u1, arrivals[1..]);
      assert u.sd.iqueue + Data(arrivals) == (u.sd.iqueue + [arrivals[0].data]) + Data(arrivals[1..]);
    }
  }

  /** Frames without error bits leave no flags behind. */
  lemma {:induction false} CleanFramesRaiseNoFlags(arrivals: seq<Arrival>)
    requires forall i :: 0 <= i < |arrivals| ==> arrivals[i].status & ERROR_MASK == 0
    ensures Errors(arrivals) == SD_NO_ERROR
    decreases |arrivals|
  {
    if arrivals != [] {
      CleanFramesRaiseNoFlags(arrivals[1..]);
    }
  }

  // ---------------------------------------------------------------------
  // Transmit path over a sequence of data-register-empty interrupts
  // ---------------------------------------------------------------------

  /**
   * The outcome of a run of transmit interrupts: the final state, the bytes
   * written to UDRn in order, and whether UDRIE was set after each interrupt.
   */
  datatype TxTrace = TxTrace(state: UsartState, wire: seq<bv8>, armed: seq<bool>)

  function Written(b: Option<bv8>): seq<bv8> {
    match b
    case None => []
    case Some(x) => [x]
  }

  /** `n` copies of `b`. */
  function Repeat(b: bool, n: nat): seq<bool>
    decreases n
  {
    if n == 0 then [] else [b] + Repeat(b, n - 1)
  }

  /** `n` transmit interrupts handled one after another. */
  function TxRun(u: UsartState, n: nat): TxTrace
    decreases n
  {
    if n == 0 then TxTrace(u, [], [])
    else
      var t := TxHandler(u);
      var rest := TxRun(t.state, n - 1);
      TxTrace(rest.state, Written(t.wrote) + rest.wire, [TxArmed(t.state.regs.ucsrb)] + rest.armed)
  }

  /**
   * Draining, the bytes: after one interrupt per queued byte and one more,
   * UDRn has been written with exactly the queued bytes in FIFO order, the
   * output queue is empty, and the input queue and flags are untouched.
   */
  lemma {:induction false} TxDrainsInOrder(u: UsartState)
    ensures TxRun(u, |u.sd.oqueue| + 1).wire == u.sd.oqueue
    ensures TxRun(u, |u.sd.oqueue| + 1).state.sd == u.sd.(oqueue := [])
    decreases |u.sd.oqueue|
  {
    var q := u.sd.oqueue;
    var t := TxHandler(u);
    if q == [] {
      assert TxRun(u, 1).wire == [] && TxRun(u, 1).state == t.state;
    } else {
      var u1 := t.state;
      assert u1.sd == u.sd.(oqueue := q[1..]);
      TxDrainsInOrder(u1);
      var rest := TxRun(u1, |q|);
      assert TxRun(u, |q| + 1).wire == [q[0]] + rest.wire;
      assert [q[0]] + q[1..] == q;
    }
  }

  /**
   * Draining, the interrupt enable: during those interrupts UDRIE keeps the
   * value it had until the queue runs empty, is clear after the last one,
   * and it is the only bit of UCSRnB that changed.
   */
  lemma {:induction false} TxDisarmsWhenDrained(u: UsartState)
    ensures TxRun(u, |u.sd.oqueue| + 1).armed == Repeat(TxArmed(u.regs.ucsrb), |u.sd.oqueue|) + [false]
    ensures TxRun(u, |u.sd.oqueue| + 1).state.regs.ucsrb == u.regs.ucsrb & !UDRIE_MASK
    decreases |u.sd.oqueue|
  {
    var q := u.sd.oqueue;
    var t := TxHandler(u);
    if q == [] {
      assert TxRun(u, 1).armed == [TxArmed(t.state.regs.ucsrb)] && TxRun(u, 1).state == t.state;
    } else {
      var u1 := t.state;
      assert |u1.sd.oqueue| == |q| - 1 && u1.regs.ucsrb == u.regs.ucsrb;
      TxDisarmsWhenDrained(u1);
      var rest := TxRun(u1, |q|);
      assert TxRun(u, |q| + 1).armed == [TxArmed(u.regs.ucsrb)] + rest.armed;
      assert TxRun(u, |q| + 1).state == rest.state;
    }
  }

  /**
   * A spurious transmit interrupt on an empty queue writes nothing, leaves
   * UDRn and the channel alone and keeps the transmit path disarmed.
   */
  lemma SpuriousTxIsHarmless(u: UsartState)
    requires u.sd.oqueue == [] && !TxArmed(u.regs.ucsrb)
    ensures TxHandler(u).wrote == None
    ensures TxHandler(u).state == u
  {
  }

  /**
   * The scenario: output queue [0x41, 0x42], notify, then three transmit
   * interrupts. UDRn receives 0x41 then 0x42, UDRIE is set after the first
   * two interrupts and clear after the third, and the queue ends empty.
   */
  lemma TxScenario(u: UsartState)
    requires u.sd.oqueue == [0x41, 0x42]
    ensures TxRun(u.(regs := NotifyRegs(u.regs)), 3).wire == [0x41, 0x42]
    ensures TxRun(u.(regs := NotifyRegs(u.regs)), 3).armed == [true, true, false]
    ensures TxRun(u.(regs := NotifyRegs(u.regs)), 3).state.sd.oqueue == []
  {
    TxDrainsInOrder(u.(regs := NotifyRegs(u.regs)));
    TxDisarmsWhenDrained(u.(regs := NotifyRegs(u.regs)));
    assert Repeat(true, 2) == [true, true];
  }

  /**
   * The same scenario run on the driver's objects: a unit in any register
   * state, two bytes queued by a producer, the notify callback, then three
   * data-register-empty interrupts. Returns UDRn and whether UDRIE is set
   * after each interrupt.
   */
  method TxScenarioOnObjects(regs: UsartRegs) returns (udrs: seq<bv8>, armed: seq<bool>)
    ensures udrs == [0x41, 0x42, 0x42]
    ensures armed == [true, true, false]
  {
    var sd := new SerialDriver();
    var unit := new Usart(sd, regs);
    sd.oqueue := [0x41, 0x42];
    unit.Notify();
    assert TxArmed(unit.ucsrb) && sd.oqueue == [0x41, 0x42];
    unit.UdreIsr();
    assert unit.udr == 0x41 && TxArmed(unit.ucsrb) && sd.oqueue == [0x42];
    udrs, armed := [unit.udr], [TxArmed(unit.ucsrb)];
    unit.UdreIsr();
    assert unit.udr == 0x42 && TxArmed(unit.ucsrb) && sd.oqueue == [];
    udrs, armed := udrs + [unit.udr], armed + [TxArmed(unit.ucsrb)];
    unit.UdreIsr();
    assert unit.udr == 0x42 && !TxArmed(unit.ucsrb);
    udrs, armed := udrs + [unit.udr], armed + [TxArmed(unit.ucsrb)];
  }

  /**
   * Restart on the driver's objects: after sd_lld_init, sd_lld_stop clears
   * the control/status registers of both units, and a following
   * sd_lld_start leaves both units with exactly the registers of
   * sd_lld_start alone, whether SD1 or SD2 is passed as `sdp`. Both
   * channels keep the contents sd_lld_init gave them.
   */
  method RestartOnObjects(regs0: UsartRegs, regs1: UsartRegs, config: Option<Config>, useSd2: bool)
    returns (stopped0: UsartRegs, stopped1: UsartRegs, restarted0: UsartRegs, restarted1: UsartRegs,
             channel1: Channel, channel2: Channel)
    ensures stopped0.ucsra == 0 && stopped0.ucsrb == 0 && stopped0.ucsrc == 0
    ensures stopped1.ucsra == 0 && stopped1.ucsrb == 0 && stopped1.ucsrc == 0
    ensures restarted0 == UsartInit(regs0, ConfigOrDefault(config))
    ensures restarted1 == UsartInit(regs1, ConfigOrDefault(config))
    ensures channel1 == EMPTY_CHANNEL && channel2 == EMPTY_CHANNEL
  {
    var drv := new SerialLldDriver(regs0, regs1);
    var sdp := if useSd2 then drv.sd2 else drv.sd1;
    drv.LldInit();
    drv.LldStop(sdp);
    stopped0, stopped1 := drv.usart0.Regs(), drv.usart1.Regs();
    drv.LldStart(sdp, config);
    restarted0, restarted1 := drv.usart0.Regs(), drv.usart1.Regs();
    channel1, channel2 := drv.sd1.State(), drv.sd2.State();
    StopThenStart(regs0, config);
    StopThenStart(regs1, config);
  }
}
