/**
 * The active decoder table: the compiled-in candidate lists, the copy made at
 * setup, the index stamping and the registration of enabled slots.
 */
module DecoderTable {
  import opened Wrappers

  /** Candidate counts of the two compiled-in lists (`NUMOF_OOK_DEVICES`, `NUMOF_FSK_DEVICES`). */
  const OokDeviceCount: nat := 170
  const FskDeviceCount: nat := 102

  datatype Family = Ook | Fsk

  /**
   * One protocol descriptor (`r_device`). The decoder routine and its timing
   * parameters are carried by the name only; `disabled > 0` keeps a slot out
   * of dispatch and `protocolNum` is the index setup assigns.
   */
  datatype Device = Device(name: string, disabled: int, protocolNum: int)

  /** The per-slot debug argument of `register_protocol`: none, or the string "vvv". */
  datatype DebugArg = NoArg | Vvv

  /** One entry of the dispatch list: the table slot, the descriptor copied from it, its argument. */
  datatype Registration = Registration(slot: nat, device: Device, arg: DebugArg)

  /** Output unit conversion (`conversion_mode`); a zeroed configuration holds `Native`. */
  datatype ConversionMode = Native | SI | Customary

  /**
   * Everything fixed for the whole process from setup on: the modulation
   * family (the run-time flag `rtl_433_ESP::ookModulation`, taken as set
   * before setup and never changed afterwards), and the compile-time
   * settings: both candidate lists in declared order, the verbose index
   * (`RTL_VERBOSE`, -1 when undefined), the `RTL_DEBUG` level if defined,
   * and whether unparsed signals are published (`PUBLISH_UNPARSED`).
   */
  datatype Build = Build(
    ookModulation: bool,
    ookCandidates: seq<Device>,
    fskCandidates: seq<Device>,
    verboseIndex: int,
    rtlDebug: Option<int>,
    publishUnparsed: bool)
  {
    /** The generated candidate lists have exactly the advertised counts. */
    predicate WellFormed() {
      |ookCandidates| == OokDeviceCount && |fskCandidates| == FskDeviceCount
    }

    function Family(): Family {
      if ookModulation then Ook else Fsk
    }

    /** `num_r_devices` as setup sets it from the family. */
    function DeviceCount(): (n: nat)
      ensures Family() == Ook ==> n == OokDeviceCount
      ensures Family() == Fsk ==> n == FskDeviceCount
    {
      if ookModulation then OokDeviceCount else FskDeviceCount
    }

    /** The selected family's candidate list; it is exactly as long as the count setup allocates. */
    function Candidates(): (c: seq<Device>)
      requires WellFormed()
      ensures |c| == DeviceCount()
      ensures c == (if Family() == Ook then ookCandidates else fskCandidates)
    {
      if ookModulation then ookCandidates else fskCandidates
    }

    /**
     * The verbosity setup gives the configuration: a debug level built in
     * raises it to that level plus five, otherwise the runtime setting is used.
     */
    function Verbosity(rtlVerbose: int): (v: int)
      ensures rtlDebug.Some? ==> v == rtlDebug.value + 5
      ensures rtlDebug.None? ==> v == rtlVerbose
    {
      match rtlDebug
      case Some(d) => d + 5
      case None => rtlVerbose
    }
  }

  /**
   * The table after setup's index loop: slot i holds the i-th candidate
   * with its index set to i, and nothing else about it changed.
   */
  function Stamp(c: seq<Device>): (t: seq<Device>)
    ensures |t| == |c|
    ensures forall i :: 0 <= i < |c| ==> t[i].protocolNum == i && t[i].(protocolNum := c[i].protocolNum) == c[i]
  {
    seq(|c|, i requires 0 <= i < |c| => c[i].(protocolNum := i))
  }

  /** The argument slot `i` is registered with: "vvv" when it is the verbose index. */
  function ArgFor(i: int, verboseIndex: int): (a: DebugArg)
    ensures a == Vvv <==> verboseIndex != 0 && i == verboseIndex
  {
    if verboseIndex != 0 && i == verboseIndex then Vvv else NoArg
  }

  /** What the registration loop has appended after visiting slots 0 .. n-1 of `table`. */
  function RegisteredUpTo(table: seq<Device>, verboseIndex: int, n: nat): (r: seq<Registration>)
    requires n <= |table|
    ensures |r| <= n
  {
    if n == 0 then []
    else
      RegisteredUpTo(table, verboseIndex, n - 1) +
      (if table[n - 1].disabled <= 0 then [Registration(n - 1, table[n - 1], ArgFor(n - 1, verboseIndex))] else [])
  }

  /** The dispatch list the whole loop produces. */
  function Registered(table: seq<Device>, verboseIndex: int): (r: seq<Registration>)
    ensures |r| <= |table|
  {
    RegisteredUpTo(table, verboseIndex, |table|)
  }

  /** The slots of a dispatch list, in dispatch order. */
  function Slots(r: seq<Registration>): (s: seq<nat>)
    ensures |s| == |r|
    ensures forall j :: 0 <= j < |r| ==> s[j] == r[j].slot
  {
    if r == [] then [] else [r[0].slot] + Slots(r[1..])
  }

  /**
   * Every registration copies the slot it names, that slot is enabled, and
   * its argument is the one the verbose index decides.
   */
  lemma {:induction false} RegisteredEntries(table: seq<Device>, v: int, n: nat)
    requires n <= |table|
    ensures forall j :: 0 <= j < |RegisteredUpTo(table, v, n)| ==>
      var r := RegisteredUpTo(table, v, n)[j];
      r.slot < n && r.device == table[r.slot] && table[r.slot].disabled <= 0 && r.arg == ArgFor(r.slot, v)
  {
    if n > 0 {
      RegisteredEntries(table, v, n - 1);
    }
  }

  /** A slot below n is registered if and only if it is not disabled. */
  lemma {:induction false} RegisteredExactlyEnabled(table: seq<Device>, v: int, n: nat)
    requires n <= |table|
    ensures forall k :: k in Slots(RegisteredUpTo(table, v, n)) <==> 0 <= k < n && table[k].disabled <= 0
  {
    if n > 0 {
      RegisteredExactlyEnabled(table, v, n - 1);
      var prev := RegisteredUpTo(table, v, n - 1);
      var r := RegisteredUpTo(table, v, n);
      if table[n - 1].disabled <= 0 {
        assert Slots(r) == Slots(prev) + [n - 1];
      } else {
        assert r == prev;
      }
    }
  }

  /** Registration order is increasing slot order, so no slot is registered twice. */
  lemma {:induction false} RegisteredInSlotOrder(table: seq<Device>, v: int, n: nat)
    requires n <= |table|
    ensures forall i, j :: 0 <= i < j < |RegisteredUpTo(table, v, n)| ==>
      RegisteredUpTo(table, v, n)[i].slot < RegisteredUpTo(table, v, n)[j].slot
  {
    if n > 0 {
      RegisteredInSlotOrder(table, v, n - 1);
      RegisteredEntries(table, v, n - 1);
    }
  }

  /**
   * The "vvv" argument goes to the registration of the verbose slot and to no
   * other; an index of 0 or outside the table selects nothing.
   */
  lemma VerboseOnlyAtIndex(table: seq<Device>, v: int)
    ensures forall j :: 0 <= j < |Registered(table, v)| ==>
      (Registered(table, v)[j].arg == Vvv <==> v != 0 && Registered(table, v)[j].slot == v)
    ensures (v == 0 || v < 0 || v >= |table|) ==> forall j :: 0 <= j < |Registered(table, v)| ==> Registered(table, v)[j].arg == NoArg
  {
    RegisteredEntries(table, v, |table|);
  }

  /**
   * Setup's table, as a whole: the registered descriptors are the family's
   * enabled candidates in declared order, each carrying its table index, and
   * a disabled candidate keeps its slot and index without being registered.
   */
  lemma SetupTable(c: seq<Device>, v: int)
    ensures forall k :: k in Slots(Registered(Stamp(c), v)) <==> 0 <= k < |c| && c[k].disabled <= 0
    ensures forall j :: 0 <= j < |Registered(Stamp(c), v)| ==>
      var r := Registered(Stamp(c), v)[j];
      r.slot < |c| && r.device == c[r.slot].(protocolNum := r.slot)
    ensures forall i, j :: 0 <= i < j < |Registered(Stamp(c), v)| ==>
      Registered(Stamp(c), v)[i].slot < Registered(Stamp(c), v)[j].slot
  {
    RegisteredExactlyEnabled(Stamp(c), v, |c|);
    RegisteredEntries(Stamp(c), v, |c|);
    RegisteredInSlotOrder(Stamp(c), v, |c|);
  }
}
