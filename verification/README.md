# rtl_433_ESP signal decoder pipeline, modelled in Dafny

This project models the bookkeeping at the heart of `src/signalDecoder.cpp` of
rtl_433_ESP, the ESP32 port of the rtl_433 radio-protocol decoder. The file
connects the radio capture code to the rtl_433 demodulators. It does four things:

- **Setup** (`rtlSetup`) runs once. It creates the global configuration
  `g_cfg` and allocates a device table sized to the modulation family
  compiled in (170 OOK protocols or 102 FSK protocols). It copies the
  family's candidate descriptors into the table in declared order and stamps
  every slot with its own index. It registers each slot that is not disabled,
  in slot order; the one slot whose index is `RTL_VERBOSE` gets the "vvv"
  argument. Finally it creates the hand-off queue of capacity 5 and starts
  the decoder task.
- **Submit** (`processSignal`) is called by the capture context with a
  heap-allocated pulse buffer. It sends the buffer to the queue without
  waiting. When the queue is full, the send fails and the submitter frees
  the buffer.
- **One iteration of the decoder task** (`rtl_433_DecoderTask`):
  1. Receive the oldest buffer and stamp it with the 1 MHz sample rate.
  2. Copy it into the demodulator state.
  3. Run the family's demodulators over the dispatch list. They return a count
     of decoded events.
  4. If the count is 0, increment the unparsed-signal counter. If unparsed
     signals are published (`PUBLISH_UNPARSED`), build an "undecoded signal"
     record from the buffer's duration, RSSI and pulse count, print it into
     the caller's message buffer and pass it to the callback.
  5. Free the buffer.
- **Output setters** (`_setCallback`, `_setDebug`).

The files:

- `wrappers.dfy`: `Option`.
- `signals.dfy`: a pulse buffer (`PulseTrain`), the diagnostic record and one
  delivery to the callback.
- `decoder_table.dfy`: the device descriptor and the build configuration
  (family, both candidate lists, verbose index, `RTL_DEBUG`,
  `PUBLISH_UNPARSED`). It also holds two specification functions and the
  lemmas about them:
  - `Stamp`: the table after the index loop.
  - `Registered`: the dispatch list the loop builds.
- `signal_queue.dfy`: a ghost ownership ledger for the queue.
  - It records which buffers were accepted, dropped, received by the worker
    and freed.
  - Its steps are send, receive and free.
  - Its invariant `Sound` is proved preserved by every step and along any run
    of steps.
  - The burst and drain lemmas exercise the drop policy and FIFO order.
- `signal_decoder.dfy`: the class `Pipeline`, which holds the globals.
  - Its methods are setup, submit, one worker iteration and the setters.
    An iteration is receive, demodulate and free; between receive and free
    the worker holds the buffer, which is then neither queued nor freed.
  - The table is an `array` filled by a loop proved against `Stamp` and
    `Registered`.
  - The queue is a `seq` kept equal to the ledger's queue by the class
    invariant.

The header defining `NUMOF_OOK_DEVICES` and `NUMOF_FSK_DEVICES` is not part
of this model. The counts 170 and 102 are those of the generated fill of the
table (`src/signalDecoder.cpp:89-258` and `src/signalDecoder.cpp:260-361`).

The "vvv" argument is decided at `src/signalDecoder.cpp:432`, which tests
`RTL_VERBOSE && i == RTL_VERBOSE`. An index of 0 therefore selects no slot,
and an undefined `RTL_VERBOSE` becomes -1 (`src/signalDecoder.cpp:429-431`),
which selects none either (`DecoderTable.ArgFor`,
`DecoderTable.VerboseOnlyAtIndex`).

## Model

| member | source | states |
|---|---|---|
| SignalDecoder.Pipeline.constructor | src/signalDecoder.cpp:48-54 | The globals start zeroed: no configuration, no queue, no task, no registrations, a null callback, zero unparsed signals and an empty ownership ledger, and the class invariant holds. |
| SignalDecoder.Pipeline.Setup | src/signalDecoder.cpp:63-469 | Construct-once: when the configuration already exists nothing changes. Otherwise the conversion mode becomes SI and the device count is the family's count. A failed allocation halts with nothing registered, no queue or task, and no new table (the table is the one it was before), and the verbosity unchanged. A successful one leaves a fresh table equal to `Stamp` of the family's candidates, the dispatch list equal to `Registered` of that table, the verbosity from `RTL_DEBUG` or `rtlVerbose`, and the queue created and the task started (both creations assumed to succeed). |
| SignalDecoder.Pipeline.Configure | src/signalDecoder.cpp:70-468 | Setup with the table allocated: initialised, SI, count equal to the family's, a fresh table, the queue and worker started, the verbosity chosen, and the table invariant (table equal to the stamped candidates, dispatch list equal to their registration) established. |
| SignalDecoder.Pipeline.FailAllocation | src/signalDecoder.cpp:76-78 | A failed table allocation is fatal: halted, nothing registered, and neither queue nor task created; the table is left as it was. |
| SignalDecoder.NewTable | src/signalDecoder.cpp:71-437 | The table is freshly allocated with the family's count. Its contents are `Stamp` of the family's candidates and the registrations are `Registered` of them. |
| SignalDecoder.CopyCandidates | src/signalDecoder.cpp:88-361 | After the fill, slot i holds the family's i-th candidate, for every i. |
| SignalDecoder.RegisterAll | src/signalDecoder.cpp:415-437 | The loop leaves the table equal to `Stamp` of its old contents and returns exactly `Registered` of the stamped table. |
| DecoderTable.Build.Candidates | src/signalDecoder.cpp:71-75 | The candidate list setup copies is the selected family's and is exactly as long as the count it allocates. |
| DecoderTable.Build.DeviceCount | src/signalDecoder.cpp:71-75 | The device count is 170 for the OOK family and 102 for the FSK family. |
| DecoderTable.Build.Verbosity | src/signalDecoder.cpp:399-405 | With `RTL_DEBUG` defined the verbosity is that level plus 5; otherwise it is the runtime `rtlVerbose`. |
| DecoderTable.ArgFor | src/signalDecoder.cpp:426-434 | A slot gets "vvv" if and only if the verbose index is non-zero and equals the slot. |
| DecoderTable.RegisteredUpTo | src/signalDecoder.cpp:415-437 | What the loop has registered after its first n slots: at most one registration per slot visited. |
| DecoderTable.Registered | src/signalDecoder.cpp:415-437 | The dispatch list of the whole loop: at most one registration per table slot. The lemmas below state which slots, in which order and with which argument. |
| DecoderTable.Stamp | src/signalDecoder.cpp:415-417 | After the index loop, slot i has protocol number i and differs from candidate i in nothing else. |
| DecoderTable.RegisteredEntries | src/signalDecoder.cpp:427-437 | Every registration names a slot below the loop bound, carries that slot's descriptor, the slot is enabled (`disabled <= 0`), and its argument is the one the verbose index decides. |
| DecoderTable.RegisteredExactlyEnabled | src/signalDecoder.cpp:435-437 | A slot is registered if and only if it is below the bound and not disabled. |
| DecoderTable.RegisteredInSlotOrder | src/signalDecoder.cpp:415-437 | Registrations appear in strictly increasing slot order, so dispatch order is table order and no slot is registered twice. |
| DecoderTable.VerboseOnlyAtIndex | src/signalDecoder.cpp:427-434 | A registration gets "vvv" if and only if the verbose index is non-zero and equals its slot. An index of 0, a negative one or one past the table gives no slot the argument. |
| DecoderTable.SetupTable | src/signalDecoder.cpp:88-437 | For the table setup builds: exactly the enabled candidates are registered, each as its candidate stamped with its slot, in increasing slot order. |
| SignalDecoder.Pipeline.ProcessSignal | src/signalDecoder.cpp:606-615 | The send succeeds if and only if the queue holds fewer than 5 buffers. On success the buffer is appended at the tail. On failure the queue is unchanged and the buffer is freed by the submitter. The ledger records the step and stays sound. |
| SignalDecoder.Pipeline.DecoderTaskStep | src/signalDecoder.cpp:489-603 | The oldest buffer leaves the queue, the rest keep their order, and the stamped buffer becomes the demodulator's pulse data. The event count is the dispatch over the family and the registered list built at setup. The counter rises by one if and only if the count is 0. Exactly then, when publishing, one "undecoded signal" record with the buffer's duration, RSSI and pulse count goes to the configured callback and message buffer. The buffer is received once and freed once. |
| SignalDecoder.Pipeline.Receive | src/signalDecoder.cpp:493 | The idle worker gets the head of the queue and now holds it. The queue keeps its tail in order, and the held buffer is neither queued nor freed while the iteration runs. |
| SignalDecoder.Pipeline.FreeBuffer | src/signalDecoder.cpp:596 | The buffer the worker holds is freed, now exactly once in all, and the worker is idle again. |
| SignalDecoder.Pipeline.Demodulate | src/signalDecoder.cpp:513-568 | While the worker holds the buffer, the pulse data is the buffer with the 1 MHz rate, and the event count is the dispatch over the registered list. The unparsed counter rises by one if and only if the count is 0. One delivery of the "undecoded signal" record is appended exactly when the count is 0 and unparsed signals are published. |
| SignalDecoder.Pipeline.SetCallback | src/signalDecoder.cpp:472-480 | The callback, message buffer and size become the given ones; nothing else changes. |
| SignalDecoder.Pipeline.SetDebug | src/signalDecoder.cpp:482-485 | `rtlVerbose` becomes the given level. The verbosity of an existing configuration is unchanged, since setup copies it only once. |
| Signals.UndecodedRecord | src/signalDecoder.cpp:551-563 | The diagnostic has model "undecoded signal" and protocol "signal parsing failed", and carries the buffer's duration, RSSI and pulse count. |
| SignalQueue.Submit | src/signalDecoder.cpp:606-615 | With fewer than 5 buffers queued the buffer is appended and nothing is freed. Otherwise the queue is unchanged and the submitter frees the buffer. Either way the worker's side is untouched. |
| SignalQueue.Take | src/signalDecoder.cpp:493 | The worker holds the oldest queued buffer, appended to what it has received. The rest of the queue keeps its order, and nothing is accepted, dropped or freed. |
| SignalQueue.Release | src/signalDecoder.cpp:596 | The held buffer is freed once more and the worker is idle; the queue, what was received and what was handed over stay the same. |
| SignalQueue.Step | src/signalDecoder.cpp:489-615 | One send or one worker iteration. A send hands over exactly its buffer. An iteration on an empty queue changes nothing (the worker stays blocked); on a non-empty one it removes the head and leaves the worker idle. |
| SignalQueue.Replay | src/signalDecoder.cpp:489-615 | An interleaving of sends and iterations, run in order. Along it what was accepted, dropped and received is only ever extended. |
| SignalQueue.EmptyLedgerSound | src/signalDecoder.cpp:451 | A freshly created queue with nothing sent satisfies the ownership invariant. |
| SignalQueue.Exclusive | src/signalDecoder.cpp:489-615 | Under the invariant, ownership is exclusive. No buffer is freed twice. A queued buffer is neither in flight nor freed. The in-flight buffer is not freed. Every accepted buffer is still queued, in flight or freed. |
| SignalQueue.AcceptSound | src/signalDecoder.cpp:609-614 | A send of a new buffer into a queue with room keeps the invariant, and the buffer counts as handed over once. |
| SignalQueue.DropSound | src/signalDecoder.cpp:609-611 | A send of a new buffer into a full queue keeps the invariant: the buffer is recorded as dropped and freed once. |
| SignalQueue.SubmitSound | src/signalDecoder.cpp:606-615 | Either way, a send of a new buffer keeps the invariant and adds exactly that buffer to what has been handed over. |
| SignalQueue.TakeSound | src/signalDecoder.cpp:493 | The idle worker receiving the oldest buffer keeps the invariant, and the buffer it now holds has not been freed. |
| SignalQueue.ReleaseSound | src/signalDecoder.cpp:596 | The worker freeing the buffer it holds keeps the invariant, and that buffer has then been freed exactly once. |
| SignalQueue.WorkSound | src/signalDecoder.cpp:489-603 | A whole worker iteration keeps the invariant, leaves the worker idle, removes exactly the head of the queue, appends it to what was received and frees it exactly once. |
| SignalQueue.StepSound | src/signalDecoder.cpp:489-615 | Any single send (of a new buffer) or worker iteration keeps the invariant. What has been accepted, received and dropped is only extended. |
| SignalQueue.ReplaySound | src/signalDecoder.cpp:489-615 | Along any run of sends and worker iterations whose sent buffers are all new, the invariant holds and every sent buffer ends up accepted or dropped, exactly once. Acceptance and reception are only ever extended, so the worker receives buffers in acceptance order. |
| SignalQueue.BurstWhileBlocked | src/signalDecoder.cpp:606-615 | While the worker is blocked, a burst of sends fills the free places in order and every further buffer is dropped and freed by its submitter. The queue never exceeds 5, and nothing reaches the worker. |
| SignalQueue.SendsFillQueue | src/signalDecoder.cpp:609-614 | Of a burst, exactly the first buffers that fit join the queue, in submission order. |
| SignalQueue.SendsOverflow | src/signalDecoder.cpp:609-611 | Of a burst, every buffer after those that fit is dropped and freed. |
| SignalQueue.SendsIntoFullQueue | src/signalDecoder.cpp:609-611 | Into a full queue, every send is refused: the queue and the accepted buffers stay the same, and each sent buffer is dropped and freed. |
| SignalQueue.SendsLeaveWorker | src/signalDecoder.cpp:606-615 | Sends never change what the worker has received or holds. |
| SignalQueue.SixthSendDropped | src/signalDecoder.cpp:451 | Six sends into an empty queue with the worker blocked: the first five are queued in order, and the sixth is dropped and freed. |
| SignalQueue.WorkersTakeInOrder | src/signalDecoder.cpp:493 | FIFO: n worker iterations receive the n oldest queued buffers in queue order, leave the rest queued and do not touch what was accepted or dropped. |
| SignalQueue.WorkersFreeWhatTheyTake | src/signalDecoder.cpp:596 | Those n iterations free exactly the n buffers they received, once each. |
| SignalQueue.BurstThenDrain | src/signalDecoder.cpp:489-615 | No leak: a burst into an empty queue followed by as many worker iterations as buffers were accepted. The worker receives the accepted buffers in submission order, the queue ends empty, and every buffer of the burst, accepted or dropped, is freed exactly once. |
| SignalQueue.ReplayAppend | src/signalDecoder.cpp:489-615 | Running two sequences of steps one after the other is running their concatenation. |
| SignalQueue.SendsReplay | src/signalDecoder.cpp:606-615 | A run made only of sends is the same as sending each buffer in turn. |
| SignalQueue.WorksReplay | src/signalDecoder.cpp:489-603 | A run made only of worker iterations is the same as running each iteration in turn. |

## Left out

- The FreeRTOS machinery is not modelled: task creation, priority, core
  pinning and the stack-size table. Starting the task is the `taskStarted`
  flag.
- The blocking receive with `portMAX_DELAY` and real concurrency are not
  modelled. An iteration is a step that needs a non-empty queue, and
  interleavings are runs of steps (`SignalQueue.Replay`).
- The infinite `for(;;)` is not modelled; one iteration is.
- The vendored rtl_433 code is not modelled:
  - `r_init_cfg`, `add_log_output`, `register_protocol`, `run_ook_demods`,
    `run_fsk_demods` and `pulse_analyzer`.
  - Registration is appending to the dispatch list.
  - Dispatch is a function parameter that returns an event count.
- Records that decoders emit through the callback during dispatch are not
  logged. Dispatch is a function parameter, so `deliveries` holds only the
  worker's own "undecoded signal" deliveries.
- `data_make`, `data_print_jsons` and `data_free` are not modelled. The
  record is a value of named fields, and a delivery records the callback,
  message buffer and size it was printed into.
- The floating-point `sample_rate` is not modelled; it is written as the
  exact integer 1000000.
- Device names and decoder parameters are not modelled. The candidate lists
  are abstract sequences of the build, with only the `disabled` flag and
  `protocol_num` given meaning.
- The paths under `MEMORY_DEBUG`, `RESOURCE_DEBUG`, `RAW_SIGNAL_DEBUG`,
  `DEMOD_DEBUG` and `RTL_ANALYZER` are not modelled.
- The non-functional `RTL_FLEX` branch and the `MY_DEVICES` one-device
  table are not modelled.
- Logging is not modelled.
- The candidate lists, `RTL_VERBOSE`, `RTL_DEBUG` and `PUBLISH_UNPARSED` are
  compile-time constants, held in one `Build` value.
- The modulation family is the run-time flag `rtl_433_ESP::ookModulation`
  (`src/signalDecoder.cpp:71`, `:88` and `:518`). The model takes it as fixed
  for the whole process from setup on, as part of `Build`. A change of the
  flag after setup is not modelled. Under this assumption the dispatch at line
  518 always uses the family that setup sized the table for.
- The queue creation `xQueueCreate(5, ...)` (`src/signalDecoder.cpp:451`) is
  assumed to succeed. The source never checks for a NULL result. A failed
  creation would leave a null handle for the sends at line 609 and the
  receives at line 493, and the model does not represent that state.
- The task creation `xTaskCreatePinnedToCore` (`src/signalDecoder.cpp:461-468`)
  is assumed to succeed, and its result is not checked either. Without the
  task, up to 5 queued buffers would never be received or freed. The model
  does not represent that state.
- `unparsedSignals` is an unbounded counter; the wrap-around of a C `int` is
  not modelled.
- Buffer identity in the ledger is the buffer's value, which includes its
  identifier. Reuse of a freed address by a later allocation is not
  modelled.
- SignalDecoder.Pipeline.ProcessSignal: requires that the buffer was never handed over
  before. The capture context allocates a new buffer per burst; the model
  states that as a precondition rather than modelling the allocator. It
  also requires the queue to exist, since a send on the null queue handle
  before setup is undefined.
- SignalDecoder.Pipeline.DecoderTaskStep: requires a non-null callback when unparsed
  signals are published. The code calls the callback without a check, so a
  null one would crash. It also requires that the worker holds no buffer,
  which is how every iteration starts, since the one before freed its buffer.
- SignalDecoder.Pipeline.Setup: requires that no earlier setup halted, since a failed
  allocation stops the firmware.
