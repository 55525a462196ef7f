/**
 * The unit of work of the pipeline: one captured radio burst, and the
 * diagnostic record the worker synthesises when no decoder recognises it.
 */
module Signals {

  /** Identity of one heap-allocated pulse buffer (the firmware's C pointer to it). */
  type BufferId = nat

  /** The sample rate the worker stamps on every buffer (1.0e6, an integral value). */
  const SampleRateHz: nat := 1_000_000

  /** One captured burst (`pulse_data_t`): mark/space durations and summary figures. */
  datatype PulseTrain = PulseTrain(
    id: BufferId,
    sampleRate: nat,
    signalDuration: nat,
    signalRssi: int,
    numPulses: nat,
    pulse: seq<nat>,
    gap: seq<nat>)

  /** The structured record handed to the output path: named string and integer fields. */
  datatype Record = Record(model: string, protocol: string, duration: int, rssi: int, pulses: int)

  /**
   * The "undecoded signal" diagnostic built from a buffer nobody decoded: it
   * names the failure and carries the buffer's duration, RSSI and pulse
   * count, and nothing else of the buffer.
   */
  function UndecodedRecord(p: PulseTrain): (r: Record)
    ensures r.model == "undecoded signal" && r.protocol == "signal parsing failed"
    ensures r.duration == p.signalDuration && r.rssi == p.signalRssi && r.pulses == p.numPulses
  {
    Record("undecoded signal", "signal parsing failed", p.signalDuration, p.signalRssi, p.numPulses)
  }

  /** Opaque identities of the caller-supplied callback and output buffer; 0 stands for null. */
  type CallbackRef = nat
  type MessageBufferRef = nat
  const Null: nat := 0

  /** One invocation of the output callback: where the record was serialised and what it held. */
  datatype Delivery = Delivery(callback: CallbackRef, messageBuffer: MessageBufferRef, bufferSize: int, record: Record)
}
