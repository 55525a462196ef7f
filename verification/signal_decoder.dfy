/**
 * The decoding pipeline as the firmware runs it: a process-wide configuration
 * object that setup fills once, the bounded queue the capture context sends
 * pulse buffers into, one iteration of the decoder worker, and the output
 * setters.
 */
module SignalDecoder {
  import opened Wrappers
  import opened Signals
  import opened DecoderTable
  import opened SignalQueue

  /**
   * The demodulators of the selected family, run over the dispatch list
   * against one buffer; the result is the number of events they emitted.
   */
  type Dispatcher = (Family, seq<Registration>, PulseTrain) -> nat

  /** The family's compiled-in table copied into freshly allocated slots. */
  method CopyCandidates(table: array<Device>, c: seq<Device>)
    requires table.Length == |c|
    modifies table
    ensures table[..] == c
  {
    for k := 0 to table.Length
      invariant forall j :: 0 <= j < k ==> table[j] == c[j]
    {
      table[k] := c[k];
    }
  }

  /**
   * The registration loop of `rtlSetup`: every slot is stamped with its own
   * index as protocol number, and every slot not disabled is registered in
   * slot order, the verbose slot with the "vvv" argument.
   */
  method RegisterAll(table: array<Device>, v: int) returns (regs: seq<Registration>)
    modifies table
    ensures table[..] == Stamp(old(table[..]))
    ensures regs == Registered(table[..], v)
  {
    ghost var c := table[..];
    var i := 0;
    regs := [];
    while i < table.Length
      invariant 0 <= i <= table.Length
      invariant forall k :: 0 <= k < i ==> table[k] == Stamp(c)[k]
      invariant forall k :: i <= k < table.Length ==> table[k] == c[k]
      invariant regs == RegisteredUpTo(Stamp(c), v, i)
    {
      table[i] := table[i].(protocolNum := i);
      var arg := if v != 0 && i == v then Vvv else NoArg;
      if table[i].disabled <= 0 {
        regs := regs + [Registration(i, table[i], arg)];
      }
      i := i + 1;
    }
    assert table[..] == Stamp(c);
  }

  /**
   * The table part of `rtlSetup`: a fresh table of the family's size is
   * filled with the candidates in declared order, then stamped and registered.
   */
  method NewTable(build: Build) returns (table: array<Device>, regs: seq<Registration>)
    requires build.WellFormed()
    ensures fresh(table) && table.Length == build.DeviceCount()
    ensures table[..] == Stamp(build.Candidates())
    ensures regs == Registered(Stamp(build.Candidates()), build.verboseIndex)
  {
    var c := build.Candidates();
    table := new Device[build.DeviceCount()];
    CopyCandidates(table, c);
    regs := RegisterAll(table, build.verboseIndex);
  }

  /**
   * The global configuration `g_cfg` together with the other globals of the
   * pipeline: the verbosity set by the debug setter, the queue handle and its
   * contents, the worker task, and the count of unparsed signals.
   */
  class Pipeline {
    const build: Build

    var initialized: bool                 // cfg->demod has been created
    var halted: bool                      // the table allocation failed, which is fatal
    var conversionMode: ConversionMode
    var numDevices: nat
    var devices: array<Device>
    var verbosity: int
    var registered: seq<Registration>     // the dispatch list built by register_protocol
    var pulseData: Option<PulseTrain>     // the demodulator's copy of the current buffer
    var callback: CallbackRef
    var messageBuffer: MessageBufferRef
    var bufferSize: int

    var rtlVerbose: int
    var queueCreated: bool
    var taskStarted: bool
    var queue: seq<PulseTrain>
    var unparsedSignals: nat
    var deliveries: seq<Delivery>         // the worker's "undecoded signal" deliveries to the callback, in order

    ghost var ledger: Ledger              // ownership of every buffer ever sent

    ghost predicate Valid()
      reads this`ledger, this`queue, this`initialized, this`halted, this`queueCreated, this`taskStarted
      reads this`numDevices, this`devices, devices, this`registered
    {
      QueueValid() && ConfigValid()
    }

    /** The table is set up, and the queue and the worker exist only after a successful setup. */
    ghost predicate ConfigValid()
      reads this`initialized, this`halted, this`queueCreated, this`taskStarted
      reads this`numDevices, this`devices, devices, this`registered
    {
      && build.WellFormed()
      && TableValid()
      && (queueCreated ==> initialized && !halted)
      && (taskStarted <==> queueCreated)
    }

    /**
     * The ledger is sound, the ledger's queue is the queue, and until the
     * queue is created it is empty and the worker holds nothing.
     */
    ghost predicate QueueValid()
      reads this`ledger, this`queue, this`queueCreated
    {
      && Sound(ledger) && ledger.queued == queue
      && (!queueCreated ==> queue == [] && ledger.inFlight.None?)
    }

    /**
     * Once set up, the table has the family's size, slot i holds candidate i
     * stamped with index i, and the dispatch list is what registration makes of it.
     */
    ghost predicate TableValid()
      reads this`initialized, this`halted, this`queueCreated, this`numDevices, this`devices, devices, this`registered
    {
      initialized && !halted ==>
        && queueCreated
        && numDevices == devices.Length == build.DeviceCount()
        && build.WellFormed()
        && devices[..] == Stamp(build.Candidates())
        && registered == Registered(devices[..], build.verboseIndex)
    }

    /** The zero-initialised globals before anything has run. */
    constructor (build: Build)
      requires build.WellFormed()
      ensures Valid() && this.build == build
      ensures !initialized && !halted && !queueCreated && !taskStarted
      ensures queue == [] && registered == [] && pulseData == None && deliveries == []
      ensures unparsedSignals == 0 && rtlVerbose == 0 && verbosity == 0
      ensures callback == Null && messageBuffer == Null && bufferSize == 0
      ensures conversionMode == Native && numDevices == 0 && devices.Length == 0
      ensures ledger == EmptyLedger
    {
      this.build := build;
      initialized, halted := false, false;
      conversionMode := Native;
      numDevices := 0;
      devices := new Device[0];
      verbosity := 0;
      registered := [];
      pulseData := None;
      callback, messageBuffer, bufferSize := Null, Null, 0;
      rtlVerbose := 0;
      queueCreated, taskStarted := false, false;
      queue := [];
      unparsedSignals := 0;
      deliveries := [];
      ledger := EmptyLedger;
      EmptyLedgerSound();
    }

    /**
     * `rtlSetup`: does nothing once the configuration exists; otherwise
     * creates it, sizes the table to the family's candidate count, halts if
     * that allocation fails, copies the candidates in declared order, stamps
     * every slot with its index, registers the enabled slots in index order
     * (the verbose slot with "vvv"), creates the queue and starts the worker.
     */
    method Setup(allocationSucceeds: bool)
      requires Valid() && !halted
      modifies this`initialized, this`halted, this`conversionMode, this`numDevices, this`devices
      modifies this`verbosity, this`registered, this`pulseData, this`queueCreated, this`taskStarted
      ensures Valid()
      ensures old(initialized) ==> unchanged(this)
      ensures !old(initialized) ==>
        && initialized && conversionMode == SI && numDevices == build.DeviceCount()
        && queue == [] && pulseData == None
      ensures !old(initialized) && !allocationSucceeds ==>
        halted && registered == [] && !queueCreated && !taskStarted && devices == old(devices)
        && verbosity == old(verbosity)
      ensures !old(initialized) && allocationSucceeds ==>
        && !halted && fresh(devices) && queueCreated && taskStarted
        && devices[..] == Stamp(build.Candidates())
        && registered == Registered(Stamp(build.Candidates()), build.verboseIndex)
        && verbosity == build.Verbosity(old(rtlVerbose))
    {
      if !initialized {
        if allocationSucceeds {
          Configure();
        } else {
          FailAllocation();
        }
      }
    }

    /**
     * The body of `rtlSetup` behind its guard when the table is allocated:
     * the configuration is created, the table filled, stamped and
     * registered, the verbosity chosen, the queue created and the worker started.
     */
    method Configure()
      requires ConfigValid() && !initialized && !halted
      modifies this`initialized, this`conversionMode, this`numDevices, this`devices
      modifies this`verbosity, this`registered, this`pulseData, this`queueCreated, this`taskStarted
      ensures ConfigValid()
      ensures initialized && conversionMode == SI && numDevices == build.DeviceCount() && pulseData == None
      ensures fresh(devices) && queueCreated && taskStarted
      ensures verbosity == build.Verbosity(rtlVerbose)
    {
      var table, regs := NewTable(build);
      var v := build.Verbosity(rtlVerbose);
      // the queue, empty until now, comes into use and the worker starts
      initialized, conversionMode, numDevices, devices, verbosity, registered, pulseData, queueCreated, taskStarted :=
        true, SI, table.Length, table, v, regs, None, true, true;
    }

    /**
     * The body of `rtlSetup` behind its guard when the table allocation
     * fails: the configuration exists but the failure is fatal, so nothing
     * is registered and neither the queue nor the worker comes into being.
     */
    method FailAllocation()
      requires ConfigValid() && !initialized && !halted
      modifies this`initialized, this`halted, this`conversionMode, this`numDevices, this`registered, this`pulseData
      ensures ConfigValid()
      ensures initialized && halted && conversionMode == SI && numDevices == build.DeviceCount()
      ensures registered == [] && pulseData == None
    {
      initialized, halted, conversionMode, numDevices, registered, pulseData :=
        true, true, SI, build.DeviceCount(), [], None;
    }

    /**
     * `processSignal`: a send that never waits. With room in the queue the
     * buffer joins its tail and the queue owns it; with the queue full the
     * send fails, the queue is unchanged and the buffer is freed here.
     */
    method ProcessSignal(p: PulseTrain) returns (sent: bool)
      requires Valid() && queueCreated
      requires Fresh(ledger, p)
      modifies this`queue, this`ledger
      ensures Valid()
      ensures sent <==> |old(queue)| < QueueCapacity
      ensures queue == if sent then old(queue) + [p] else old(queue)
      ensures ledger == Submit(old(ledger), p)
      ensures !sent ==> ledger.freed == old(ledger.freed) + multiset{p}
    {
      SubmitSound(ledger, p);
      sent := |queue| < QueueCapacity;
      if sent {
        queue := queue + [p];
      }
      ledger := Submit(ledger, p);
    }

    /**
     * One iteration of the decoder task, from an idle worker: receive the
     * oldest buffer, stamp its sample rate, install it in the demodulator,
     * run the family's demodulators over the dispatch list; when nothing
     * decoded, count an unparsed signal and, if unparsed signals are
     * published, deliver one "undecoded signal" record to the callback; then
     * free the buffer.
     */
    method DecoderTaskStep(dispatch: Dispatcher) returns (events: nat)
      requires Valid() && taskStarted && queue != [] && ledger.inFlight.None?
      requires build.publishUnparsed ==> callback != Null
      modifies this`queue, this`pulseData, this`unparsedSignals, this`deliveries, this`ledger
      ensures Valid()
      ensures var p := old(queue)[0].(sampleRate := SampleRateHz);
        && queue == old(queue)[1..]
        && pulseData == Some(p)
        && events == dispatch(build.Family(), Registered(Stamp(build.Candidates()), build.verboseIndex), p)
        && unparsedSignals == old(unparsedSignals) + (if events == 0 then 1 else 0)
        && deliveries == old(deliveries) +
             (if events == 0 && build.publishUnparsed
              then [Delivery(callback, messageBuffer, bufferSize, UndecodedRecord(old(queue)[0]))]
              else [])
      ensures ledger == Release(Take(old(ledger))) && ledger.inFlight.None?
      ensures ledger.taken == old(ledger.taken) + [old(queue)[0]]
      ensures ledger.freed == old(ledger.freed) + multiset{old(queue)[0]}
    {
      var p := Receive();
      events := Demodulate(p, dispatch);
      FreeBuffer(p);
    }

    /**
     * The body of an iteration between receive and free: the buffer gets the
     * fixed sample rate and becomes the demodulator's pulse data, the
     * dispatch list is run over it, and a buffer nothing decoded is counted
     * and, when unparsed signals are published, reported to the callback.
     */
    method Demodulate(p: PulseTrain, dispatch: Dispatcher) returns (events: nat)
      requires Valid() && ledger.inFlight == Some(p)
      modifies this`pulseData, this`unparsedSignals, this`deliveries
      ensures Valid()
      ensures pulseData == Some(p.(sampleRate := SampleRateHz))
      ensures events == dispatch(build.Family(), registered, p.(sampleRate := SampleRateHz))
      ensures unparsedSignals == old(unparsedSignals) + (if events == 0 then 1 else 0)
      ensures deliveries == old(deliveries) +
        (if events == 0 && build.publishUnparsed
         then [Delivery(callback, messageBuffer, bufferSize, UndecodedRecord(p))]
         else [])
    {
      var rtlPulses := p.(sampleRate := SampleRateHz);
      pulseData := Some(rtlPulses);
      events := dispatch(build.Family(), registered, rtlPulses);
      if events == 0 {
        unparsedSignals := unparsedSignals + 1;
        if build.publishUnparsed {
          deliveries := deliveries + [Delivery(callback, messageBuffer, bufferSize, UndecodedRecord(rtlPulses))];
        }
      }
    }

    /**
     * `xQueueReceive`: the oldest buffer leaves the queue and the idle worker
     * now holds it; it is neither queued nor freed while the iteration runs.
     */
    method Receive() returns (p: PulseTrain)
      requires Valid() && queue != [] && ledger.inFlight.None?
      modifies this`queue, this`ledger
      ensures Valid()
      ensures p == old(queue)[0] && queue == old(queue)[1..]
      ensures ledger == Take(old(ledger)) && ledger.inFlight == Some(p)
      ensures p !in queue && p !in ledger.freed && ledger.freed == old(ledger.freed)
    {
      TakeSound(ledger);
      p, queue, ledger := queue[0], queue[1..], Take(ledger);
    }

    /** `free(rtl_pulses)` at the end of an iteration: the held buffer is freed, once. */
    method FreeBuffer(p: PulseTrain)
      requires Valid() && ledger.inFlight == Some(p)
      modifies this`ledger
      ensures Valid()
      ensures ledger == Release(old(ledger)) && ledger.inFlight.None?
      ensures ledger.freed == old(ledger.freed) + multiset{p} && ledger.freed[p] == 1
    {
      ReleaseSound(ledger);
      ledger := Release(ledger);
    }

    /** `_setCallback`: where records are written and how they are handed on. */
    method SetCallback(cb: CallbackRef, buffer: MessageBufferRef, size: int)
      requires Valid()
      modifies this`callback, this`messageBuffer, this`bufferSize
      ensures Valid()
      ensures callback == cb && messageBuffer == buffer && bufferSize == size
    {
      callback := cb;
      messageBuffer := buffer;
      bufferSize := size;
    }

    /**
     * `_setDebug`: sets the verbosity the next setup copies; a configuration
     * that already exists keeps its verbosity.
     */
    method SetDebug(debug: int)
      requires Valid()
      modifies this`rtlVerbose
      ensures Valid()
      ensures rtlVerbose == debug
      ensures verbosity == old(verbosity)
    {
      rtlVerbose := debug;
    }
  }
}
