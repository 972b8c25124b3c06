/**
 * Register bit layout of one ATmega USART unit, as given by the ATmega
 * datasheet (the AVR headers that define these names are not part of this
 * model). Positions are bit numbers; the *_MASK constants are `1 << position`.
 */
module AvrUsart {

  // UCSRnA: status bits of the byte currently held in UDRn
  const FE: nat := 4     // frame error
  const DOR: nat := 3    // data overrun
  const UPE: nat := 2    // parity error

  // UCSRnB: control bits
  const RXCIE: nat := 7  // receive-complete interrupt enable
  const UDRIE: nat := 5  // data-register-empty interrupt enable
  const RXEN: nat := 4   // receiver enable
  const TXEN: nat := 3   // transmitter enable

  // UCSRnC: frame format (character size)
  const UCSZ1: nat := 2
  const UCSZ0: nat := 1

  const FE_MASK: bv8 := 1 << FE
  const DOR_MASK: bv8 := 1 << DOR
  const UPE_MASK: bv8 := 1 << UPE

  const RXCIE_MASK: bv8 := 1 << RXCIE
  const UDRIE_MASK: bv8 := 1 << UDRIE
  const RXEN_MASK: bv8 := 1 << RXEN
  const TXEN_MASK: bv8 := 1 << TXEN

  const UCSZ1_MASK: bv8 := 1 << UCSZ1
  const UCSZ0_MASK: bv8 := 1 << UCSZ0

  /** The three receive-error bits that the receive handlers test together. */
  const ERROR_MASK: bv8 := DOR_MASK | UPE_MASK | FE_MASK

  /** The UCSRnB value written by the init routines: receiver, transmitter and RX interrupt on. */
  const RX_TX_ENABLE: bv8 := RXEN_MASK | TXEN_MASK | RXCIE_MASK

  /** Whether the transmit path is armed, i.e. UDRIE is set in a UCSRnB value. */
  predicate TxArmed(ucsrb: bv8) {
    ucsrb & UDRIE_MASK != 0
  }
}
