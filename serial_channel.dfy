/**
 * The generic serial channel that the low-level driver talks to: an input
 * byte queue, an output byte queue and a flag word. Its implementation
 * (serial.h and the queue code) is not part of this model; the three
 * ISR-side operations the driver uses are abstracted here as append to the
 * input queue, pop the head of the output queue (or report it empty), and OR
 * bits into the flag word.
 */
module SerialChannel {

  datatype Option<T> = None | Some(value: T)

  /** The channel's status-flag word. */
  type SdFlags = bv8

  // The flag bits the AVR driver reports. Their numeric values live in a
  // header that is not part of this model; what matters is that they are
  // three distinct single bits.
  const SD_NO_ERROR: SdFlags := 0
  const SD_PARITY_ERROR: SdFlags := 4
  const SD_FRAMING_ERROR: SdFlags := 8
  const SD_OVERRUN_ERROR: SdFlags := 16

  /** All error flags the driver can raise. */
  const SD_ERRORS: SdFlags := SD_OVERRUN_ERROR | SD_PARITY_ERROR | SD_FRAMING_ERROR

  /** The state of one SerialDriver object, as the low-level driver sees it. */
  datatype Channel = Channel(iqueue: seq<bv8>, oqueue: seq<bv8>, flags: SdFlags)

  /** What sdObjectInit leaves behind: empty queues, no flags. */
  const EMPTY_CHANNEL: Channel := Channel([], [], SD_NO_ERROR)

  /** sdIncomingDataI: the received byte joins the end of the input queue. */
  function IncomingData(ch: Channel, b: bv8): Channel {
    ch.(iqueue := ch.iqueue + [b])
  }

  /**
   * sdRequestDataI: the next byte to send, removed from the output queue,
   * or None (a result below Q_OK in the source) when the queue is empty.
   */
  function RequestData(ch: Channel): (Option<bv8>, Channel) {
    if ch.oqueue == [] then (None, ch)
    else (Some(ch.oqueue[0]), ch.(oqueue := ch.oqueue[1..]))
  }

  /** sdAddFlagsI: the given bits are ORed into the flag word. */
  function AddFlags(ch: Channel, mask: SdFlags): Channel {
    ch.(flags := ch.flags | mask)
  }
}
