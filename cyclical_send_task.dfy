/** The cyclic-send engine of jni/cyclical_send_task.cpp.

    The engine keeps two fixed tables of 90 slots: the frames to resend
    (`canStorage`, filled up to the high-water index `storageIdx`) and the
    auto-increment counters (`canAutoIncrement`, filled up to
    `autoIncrementIdx`). A background worker sends every non-empty frame slot
    once per pass, overlays live counter bytes on the copy it sends, and then
    sleeps for what is left of the one cycle period latched by the first Add.

    `State` mirrors the engine's globals, and one function per operation gives
    the state and return code that operation produces; the lemmas state what
    the engine promises in terms of those functions. `Engine` is the same
    engine as a class over two arrays, and its methods are proved to produce
    exactly the state the functions describe. */
module CyclicalSendTask {
  import opened CanBytes

  /** MAX_CAN_FRAMES_TO_STORE: the capacity of both tables. */
  const MaxCanFramesToStore: nat := 90
  /** MAX_CAN_FRAMES_SIZE: payload bytes per frame slot. */
  const MaxCanFramesSize: nat := 8
  /** HARDCODED_100MS: the cycle period, in microseconds, before any Add. */
  const Hardcoded100ms: int := 100000
  /** TIME_BETWEEN_FRAMES: microseconds one transmission is assumed to take. */
  const TimeBetweenFrames: nat := 1100
  /** sizeof(struct can_frame): the byte count of a complete `sendto`. */
  const CanFrameBytes: int := 16

  /** The eight data bytes of a slot. */
  type Payload = s: seq<Byte> | |s| == 8 witness [0, 0, 0, 0, 0, 0, 0, 0]

  const ZeroPayload: Payload := [0, 0, 0, 0, 0, 0, 0, 0]

  /** `CanFrameStorage`: one slot of the frame table. */
  datatype Slot = Slot(fd: int, ifIdx: int, canId: int, len: int, data: Payload, cycleTime: int)

  /** A slot as `memset(.., 0, ..)` leaves it; identifier 0 marks it empty. */
  const EmptySlot := Slot(0, 0, 0, 0, ZeroPayload, 0)

  /** `CanAutoincrement`: a counter overlaid on byte `bytePos` of the frames
      whose identifier is `canId`. */
  datatype Counter = Counter(canId: int, bytePos: int, value: Byte)

  const EmptyCounter := Counter(0, 0, 0)

  /** The engine's globals. `period` is `theOneCycleTime` in microseconds,
      `errorCount` is `statsErrorCntrCyclicalSend`, `framesPerCycle` is
      `statsFramesSendPerCycle`, and `running` says whether `initThread`
      has spawned the worker. */
  datatype State = State(
    storage: seq<Slot>,
    storageIdx: int,
    autoIncrement: seq<Counter>,
    autoIncrementIdx: int,
    period: int,
    errorCount: int,
    framesPerCycle: int,
    running: bool)

  /** The globals as the program starts: both tables zeroed, both indices -1. */
  const Initial := State(seq(90, _ => EmptySlot), -1, seq(90, _ => EmptyCounter), -1,
                         Hardcoded100ms, 0, 0, false)

  /** How many frame slots the scanning loops visit: `[0, storageIdx)`. */
  function StorageLen(st: State): nat
  {
    if st.storageIdx < 0 then 0 else st.storageIdx
  }

  /** How many counters the overlay loops visit: `[0, autoIncrementIdx)`. */
  function CounterLen(st: State): nat
  {
    if st.autoIncrementIdx < 0 then 0 else st.autoIncrementIdx
  }

  /** The frame slots the engine scans, in slot order. */
  function Frames(st: State): seq<Slot>
    requires StorageLen(st) <= |st.storage|
  {
    st.storage[..StorageLen(st)]
  }

  /** The registered counters, in registration order. */
  function Counters(st: State): seq<Counter>
    requires CounterLen(st) <= |st.autoIncrement|
  {
    st.autoIncrement[..CounterLen(st)]
  }

  /** No two scanned slots carry the same non-zero identifier. */
  predicate UniqueIds(slots: seq<Slot>)
  {
    forall i, j :: 0 <= i < j < |slots| && slots[i].canId != 0 ==> slots[i].canId != slots[j].canId
  }

  /** What holds of the globals between any two operations. */
  predicate Inv(st: State)
  {
    && |st.storage| == MaxCanFramesToStore
    && |st.autoIncrement| == MaxCanFramesToStore
    && -1 <= st.storageIdx <= MaxCanFramesToStore
    && -1 <= st.autoIncrementIdx <= MaxCanFramesToStore
    && (st.running <==> st.autoIncrementIdx >= 0)
    && (st.running ==> st.storageIdx >= 0)
    && (forall i :: StorageLen(st) <= i < MaxCanFramesToStore ==> st.storage[i] == EmptySlot)
    && (forall i :: CounterLen(st) <= i < MaxCanFramesToStore ==> st.autoIncrement[i] == EmptyCounter)
    && UniqueIds(Frames(st))
    && st.errorCount >= 0
    && 0 <= st.framesPerCycle <= MaxCanFramesToStore
  }

  /** The index of the first slot carrying `canId`, as the loops of Add,
      Remove and Adopt find it. */
  function FirstIndexOf(slots: seq<Slot>, canId: int): (r: Option<nat>)
    ensures r.None? <==> forall k :: 0 <= k < |slots| ==> slots[k].canId != canId
    ensures r.Some? ==> r.value < |slots| && slots[r.value].canId == canId
    ensures r.Some? ==> forall k :: 0 <= k < r.value ==> slots[k].canId != canId
  {
    if slots == [] then None
    else if slots[0].canId == canId then Some(0)
    else match FirstIndexOf(slots[1..], canId)
      case None => None
      case Some(i) => Some(i + 1)
  }

  /** The slot a scan stops at is the first match. */
  lemma FirstIndexAt(slots: seq<Slot>, canId: int, i: nat)
    requires i < |slots| && slots[i].canId == canId
    requires forall k :: 0 <= k < i ==> slots[k].canId != canId
    ensures FirstIndexOf(slots, canId) == Some(i)
  {
  }

  // ---------------------------------------------------------------------
  // Auto-increment overlay

  /** Counter `c` takes part in the overlay for frame `canId`: same id and a
      byte position inside the payload. Counters outside 0-7 are kept but
      never applied. */
  predicate Applies(c: Counter, canId: int)
  {
    c.canId == canId && 0 <= c.bytePos < MaxCanFramesSize
  }

  /** Counter `c` is applied at byte `p` of frame `canId`. */
  predicate Hits(c: Counter, canId: int, p: int)
  {
    Applies(c, canId) && c.bytePos == p
  }

  /** One step of the overlay loops: write counter `c` into `data`. */
  function Put(data: Payload, c: Counter, canId: int): Payload
  {
    if Applies(c, canId) then data[c.bytePos := c.value] else data
  }

  /** `ignoreAutoIncrementPos` as a value: every applicable counter, in
      table order, writes its value into the payload. */
  function Overlay(cs: seq<Counter>, canId: int, data: Payload): (r: Payload)
    ensures (forall k :: 0 <= k < |cs| ==> !Applies(cs[k], canId)) ==> r == data
    decreases |cs|
  {
    if cs == [] then data
    else Put(Overlay(cs[..|cs| - 1], canId, data), cs[|cs| - 1], canId)
  }

  /** Byte `p` of an overlaid payload is the original byte when no counter
      hits `p`. */
  lemma {:induction false} OverlayUntouched(cs: seq<Counter>, canId: int, data: Payload, p: int)
    requires 0 <= p < MaxCanFramesSize
    requires forall k :: 0 <= k < |cs| ==> !Hits(cs[k], canId, p)
    ensures Overlay(cs, canId, data)[p] == data[p]
    decreases |cs|
  {
    if cs != [] {
      var prefix := cs[..|cs| - 1];
      assert forall k :: 0 <= k < |prefix| ==> prefix[k] == cs[k];
      OverlayUntouched(prefix, canId, data, p);
    }
  }

  /** Byte `p` of an overlaid payload is the value of the LAST counter that
      hits `p`. */
  lemma {:induction false} OverlayLastHit(cs: seq<Counter>, canId: int, data: Payload, p: int, k: int)
    requires 0 <= p < MaxCanFramesSize
    requires 0 <= k < |cs| && Hits(cs[k], canId, p)
    requires forall k' :: k < k' < |cs| ==> !Hits(cs[k'], canId, p)
    ensures Overlay(cs, canId, data)[p] == cs[k].value
    decreases |cs|
  {
    var n := |cs| - 1;
    if k < n {
      var prefix := cs[..n];
      assert !Hits(cs[n], canId, p);
      assert forall k' :: 0 <= k' < |prefix| ==> prefix[k'] == cs[k'];
      OverlayLastHit(prefix, canId, data, p, k);
    }
  }

  /** Overlay reads only the counters that apply to `canId`: two tables that
      agree on which counters apply, and on those counters, overlay the same
      bytes. */
  lemma {:induction false} OverlayCongruent(a: seq<Counter>, b: seq<Counter>, canId: int, data: Payload)
    requires |a| == |b|
    requires forall j :: 0 <= j < |a| ==> (Applies(a[j], canId) <==> Applies(b[j], canId))
    requires forall j :: 0 <= j < |a| && Applies(a[j], canId) ==> a[j] == b[j]
    ensures Overlay(a, canId, data) == Overlay(b, canId, data)
    decreases |a|
  {
    if a != [] {
      var n := |a| - 1;
      OverlayCongruent(a[..n], b[..n], canId, data);
    }
  }

  /** `modifyAutocounters`, per counter: an applicable counter goes up by one. */
  function Bumped(c: Counter, canId: int): (r: Counter)
    ensures r.canId == c.canId && r.bytePos == c.bytePos
    ensures !Applies(c, canId) ==> r == c
    ensures Applies(c, canId) ==> r.value == Inc(c.value)
  {
    if Applies(c, canId) then c.(value := Inc(c.value)) else c
  }

  /** The counter table after `modifyAutocounters` for frame `canId`. */
  function Incremented(cs: seq<Counter>, canId: int): (r: seq<Counter>)
    ensures |r| == |cs|
    ensures forall j :: 0 <= j < |cs| ==> r[j].canId == cs[j].canId && r[j].bytePos == cs[j].bytePos
    ensures forall j :: 0 <= j < |cs| && cs[j].canId != canId ==> r[j] == cs[j]
  {
    seq(|cs|, j requires 0 <= j < |cs| => Bumped(cs[j], canId))
  }

  // ---------------------------------------------------------------------
  // One pass of the worker

  /** The slots a pass transmits: the non-empty ones, in slot order. */
  function ActiveSlots(slots: seq<Slot>): seq<Slot>
    decreases |slots|
  {
    if slots == [] then []
    else
      var prev := ActiveSlots(slots[..|slots| - 1]);
      if slots[|slots| - 1].canId != 0 then prev + [slots[|slots| - 1]] else prev
  }

  /** A slot is transmitted exactly when it is scanned and non-empty. */
  lemma {:induction false} ActiveSlotsMembers(slots: seq<Slot>, s: Slot)
    ensures s in ActiveSlots(slots) <==> s in slots && s.canId != 0
    decreases |slots|
  {
    if slots != [] {
      var n := |slots| - 1;
      ActiveSlotsMembers(slots[..n], s);
      assert slots == slots[..n] + [slots[n]];
    }
  }

  /** How many non-empty scanned slots carry `canId`. */
  function Occurrences(slots: seq<Slot>, canId: int): nat
    decreases |slots|
  {
    if slots == [] then 0
    else
      var n := |slots| - 1;
      Occurrences(slots[..n], canId) + (if canId != 0 && slots[n].canId == canId then 1 else 0)
  }

  /** The worker's loop over `[0, storageIdx)`: the counters after the pass
      and the frames handed to `sendFrame`, in order. */
  function PassResult(slots: seq<Slot>, cs: seq<Counter>): (r: (seq<Counter>, seq<Slot>))
    ensures |r.0| == |cs|
    ensures |r.1| <= |slots|
    ensures forall k :: 0 <= k < |r.1| ==> r.1[k].canId != 0
    decreases |slots|
  {
    if slots == [] then (cs, [])
    else
      var prev := PassResult(slots[..|slots| - 1], cs);
      var s := slots[|slots| - 1];
      if s.canId == 0 then prev
      else
        var cs' := Incremented(prev.0, s.canId);
        (cs', prev.1 + [s.(data := Overlay(cs', s.canId, s.data))])
  }

  /** A pass hands over exactly the non-empty slots, in slot order; each
      copy differs from its slot at most in its payload. */
  lemma {:induction false} PassSendsActiveSlots(slots: seq<Slot>, cs: seq<Counter>)
    ensures |PassResult(slots, cs).1| == |ActiveSlots(slots)|
    ensures forall k :: 0 <= k < |ActiveSlots(slots)| ==>
              PassResult(slots, cs).1[k] == ActiveSlots(slots)[k].(data := PassResult(slots, cs).1[k].data)
    decreases |slots|
  {
    if slots != [] {
      PassSendsActiveSlots(slots[..|slots| - 1], cs);
    }
  }

  lemma IncByStep(v: Byte, n: nat)
    ensures Inc(IncBy(v, n)) == IncBy(v, n + 1)
  {
  }

  /** After a pass every applicable counter has gone up once per
      transmitted slot of its identifier (modulo 256); identifiers and byte
      positions never change, and a counter outside bytes 0-7 never moves. */
  lemma {:induction false} PassCounters(slots: seq<Slot>, cs: seq<Counter>)
    ensures forall j :: 0 <= j < |cs| ==>
              PassResult(slots, cs).0[j] ==
                if 0 <= cs[j].bytePos < MaxCanFramesSize
                then cs[j].(value := IncBy(cs[j].value, Occurrences(slots, cs[j].canId)))
                else cs[j]
    decreases |slots|
  {
    if slots != [] {
      var n := |slots| - 1;
      var prefix := slots[..n];
      PassCounters(prefix, cs);
      var s := slots[n];
      if s.canId != 0 {
        var prev := PassResult(prefix, cs).0;
        forall j | 0 <= j < |cs| && 0 <= cs[j].bytePos < MaxCanFramesSize && cs[j].canId == s.canId
          ensures Inc(IncBy(cs[j].value, Occurrences(prefix, cs[j].canId)))
                  == IncBy(cs[j].value, Occurrences(slots, cs[j].canId))
        {
          IncByStep(cs[j].value, Occurrences(prefix, cs[j].canId));
        }
      }
    }
  }

  /** With unique identifiers a slot's identifier occurs once among the
      transmitted slots, and an identifier not transmitted occurs never. */
  lemma {:induction false} UniqueOccurrences(slots: seq<Slot>, canId: int)
    requires UniqueIds(slots)
    ensures Occurrences(slots, canId) == if canId != 0 && exists k :: 0 <= k < |slots| && slots[k].canId == canId then 1 else 0
    decreases |slots|
  {
    if slots != [] {
      var n := |slots| - 1;
      var prefix := slots[..n];
      assert UniqueIds(prefix);
      UniqueOccurrences(prefix, canId);
      if canId != 0 && slots[n].canId == canId {
        assert forall k :: 0 <= k < n ==> prefix[k].canId != canId;
      }
      if exists k :: 0 <= k < |slots| && slots[k].canId == canId {
        var k :| 0 <= k < |slots| && slots[k].canId == canId;
        if k < n {
          assert prefix[k].canId == canId;
        }
      }
    }
  }

  /** With unique identifiers the payload sent for the `k`-th transmitted slot
      is the slot's stored payload overlaid with its counters, each counter
      advanced by one for this pass. */
  lemma {:induction false} PassPayloads(slots: seq<Slot>, cs: seq<Counter>)
    requires UniqueIds(slots)
    ensures |PassResult(slots, cs).1| == |ActiveSlots(slots)|
    ensures forall k :: 0 <= k < |ActiveSlots(slots)| ==>
              var s := ActiveSlots(slots)[k];
              PassResult(slots, cs).1[k].data == Overlay(Incremented(cs, s.canId), s.canId, s.data)
    decreases |slots|
  {
    if slots != [] {
      var n := |slots| - 1;
      var prefix := slots[..n];
      var s := slots[n];
      assert UniqueIds(prefix);
      PassPayloads(prefix, cs);
      if s.canId == 0 {
        assert ActiveSlots(slots) == ActiveSlots(prefix);
        assert PassResult(slots, cs).1 == PassResult(prefix, cs).1;
      } else {
        assert forall k :: 0 <= k < |prefix| ==> prefix[k].canId != s.canId;
        ActivePayloadStep(slots, cs);
      }
    }
  }

  /** The inductive step of `PassPayloads` for a non-empty last slot whose
      identifier is fresh: the payloads sent before it keep their form, and
      its own copy is overlaid with counters advanced once. */
  lemma ActivePayloadStep(slots: seq<Slot>, cs: seq<Counter>)
    requires slots != [] && slots[|slots| - 1].canId != 0
    requires forall k :: 0 <= k < |slots| - 1 ==> slots[k].canId != slots[|slots| - 1].canId
    requires var prefix := slots[..|slots| - 1];
             && |PassResult(prefix, cs).1| == |ActiveSlots(prefix)|
             && forall k :: 0 <= k < |ActiveSlots(prefix)| ==>
                  var a := ActiveSlots(prefix)[k];
                  PassResult(prefix, cs).1[k].data == Overlay(Incremented(cs, a.canId), a.canId, a.data)
    ensures |PassResult(slots, cs).1| == |ActiveSlots(slots)|
    ensures forall k :: 0 <= k < |ActiveSlots(slots)| ==>
              var a := ActiveSlots(slots)[k];
              PassResult(slots, cs).1[k].data == Overlay(Incremented(cs, a.canId), a.canId, a.data)
  {
    var prefix, s := slots[..|slots| - 1], slots[|slots| - 1];
    var act, act0 := ActiveSlots(slots), ActiveSlots(prefix);
    var sent, sent0 := PassResult(slots, cs).1, PassResult(prefix, cs).1;
    assert forall k :: 0 <= k < |prefix| ==> prefix[k].canId != s.canId;
    FreshIdPayload(prefix, cs, s);
    assert act == act0 + [s];
    assert sent == sent0 + [s.(data := Overlay(Incremented(PassResult(prefix, cs).0, s.canId), s.canId, s.data))];
    forall k | 0 <= k < |act|
      ensures sent[k].data == Overlay(Incremented(cs, act[k].canId), act[k].canId, act[k].data)
    {
      if k < |act0| {
        assert act[k] == act0[k] && sent[k] == sent0[k];
      }
    }
  }

  /** A slot whose identifier no earlier slot carries finds its counters
      untouched by the earlier part of the pass, so its payload is overlaid
      with counters advanced exactly once. */
  lemma FreshIdPayload(prefix: seq<Slot>, cs: seq<Counter>, s: Slot)
    requires s.canId != 0
    requires forall k :: 0 <= k < |prefix| ==> prefix[k].canId != s.canId
    ensures Overlay(Incremented(PassResult(prefix, cs).0, s.canId), s.canId, s.data)
            == Overlay(Incremented(cs, s.canId), s.canId, s.data)
  {
    var prev := PassResult(prefix, cs).0;
    PassCounters(prefix, cs);
    assert Occurrences(prefix, s.canId) == 0 by {
      NoOccurrences(prefix, s.canId);
    }
    forall j | 0 <= j < |cs| && Applies(cs[j], s.canId)
      ensures prev[j] == cs[j]
    {
    }
    OverlayCongruent(Incremented(prev, s.canId), Incremented(cs, s.canId), s.canId, s.data);
  }

  /** An identifier no slot carries occurs never. */
  lemma {:induction false} NoOccurrences(slots: seq<Slot>, canId: int)
    requires forall k :: 0 <= k < |slots| ==> slots[k].canId != canId
    ensures Occurrences(slots, canId) == 0
    decreases |slots|
  {
    if slots != [] {
      NoOccurrences(slots[..|slots| - 1], canId);
    }
  }

  /** The `struct can_frame` and destination `sendFrame` hand to `sendto`. */
  datatype WireFrame = WireFrame(fd: int, ifIndex: int, canId: int, dlc: Byte, data: Payload)

  /** `sendFrame`'s packing of a slot: `can_dlc` is the length cast to an
      unsigned byte, so it keeps only the low eight bits. */
  function ToWire(s: Slot): (w: WireFrame)
    ensures 0 <= s.len < 256 ==> w.dlc == s.len
  {
    WireFrame(s.fd, s.ifIdx, s.canId, s.len % 256, s.data)
  }

  /** `framesCnt`, counted by failure: transmissions whose `sendto` did not
      report a whole frame. */
  function CountFailed(sent: seq<Slot>, sendto: WireFrame -> int): (r: nat)
    ensures r <= |sent|
    decreases |sent|
  {
    if sent == [] then 0
    else CountFailed(sent[..|sent| - 1], sendto) + (if SendFailed(sendto(ToWire(sent[|sent| - 1]))) then 1 else 0)
  }

  /** One more scanned slot, as the worker's loop takes it. */
  lemma PassResultStep(slots: seq<Slot>, i: nat, cs: seq<Counter>)
    requires i < |slots|
    ensures PassResult(slots[..i + 1], cs) ==
            if slots[i].canId == 0 then PassResult(slots[..i], cs)
            else
              var cs' := Incremented(PassResult(slots[..i], cs).0, slots[i].canId);
              (cs', PassResult(slots[..i], cs).1 + [slots[i].(data := Overlay(cs', slots[i].canId, slots[i].data))])
  {
    assert slots[..i + 1][..i] == slots[..i];
  }

  /** The scan's loop, on a non-empty slot: the counters advanced for its
      identifier and the overlaid copy appended are the next step of the
      pass. */
  lemma ScanStep(slots: seq<Slot>, i: nat, cs0: seq<Counter>, pre: seq<Counter>, sent: seq<Slot>, f: Slot)
    requires i < |slots| && slots[i].canId != 0
    requires (pre, sent) == PassResult(slots[..i], cs0)
    requires f == slots[i].(data := Overlay(Incremented(pre, slots[i].canId), slots[i].canId, slots[i].data))
    ensures (Incremented(pre, slots[i].canId), sent + [f]) == PassResult(slots[..i + 1], cs0)
  {
    PassResultStep(slots, i, cs0);
  }

  /** The scan's loop, on an empty slot: nothing happens. */
  lemma ScanSkip(slots: seq<Slot>, i: nat, cs0: seq<Counter>)
    requires i < |slots| && slots[i].canId == 0
    ensures PassResult(slots[..i + 1], cs0) == PassResult(slots[..i], cs0)
  {
    PassResultStep(slots, i, cs0);
  }

  /** The globals after the worker's scan, assembled from the scan's
      counters, transmitted frames and error count. */
  lemma PassAssembled(st: State, sendto: WireFrame -> int, cs: seq<Counter>, sent: seq<Slot>, errs: int, all: seq<Counter>)
    requires Inv(st) && st.running
    requires (cs, sent) == PassResult(Frames(st), Counters(st))
    requires errs == st.errorCount + CountFailed(sent, sendto)
    requires all == cs + st.autoIncrement[CounterLen(st)..]
    ensures PassOutcome(st, sendto) ==
            (st.(autoIncrement := all, errorCount := errs, framesPerCycle := |sent|), sent, Pacing(|sent|, st.period))
  {
    var pass := PassResult(Frames(st), Counters(st));
    assert pass.0 == cs && pass.1 == sent;
    var r := PassOutcome(st, sendto);
    assert r.1 == sent && r.2 == Pacing(|sent|, st.period);
    assert r.0 == st.(autoIncrement := all, errorCount := errs, framesPerCycle := |sent|);
  }

  /** One more transmitted frame, as `sendFrame` counts it. */
  lemma CountFailedStep(sent: seq<Slot>, f: Slot, sendto: WireFrame -> int)
    ensures CountFailed(sent + [f], sendto) == CountFailed(sent, sendto) + if SendFailed(sendto(ToWire(f))) then 1 else 0
  {
    assert (sent + [f])[..|sent|] == sent;
  }

  /** `sendFrame`'s error test on the byte count `sendto` returns: a hard
      failure (-1) or a partial write. The first test is subsumed by the
      second: any count but a whole frame is an error. */
  predicate SendFailed(nbytes: int)
    ensures SendFailed(nbytes) <==> nbytes != CanFrameBytes
  {
    nbytes == -1 || nbytes != CanFrameBytes
  }

  /** The pause after a pass of `framesCnt` transmissions: none when the
      pass used up the period, otherwise the rest of the period. */
  function Pacing(framesCnt: nat, period: int): (sleep: nat)
    ensures framesCnt * TimeBetweenFrames >= period <==> sleep == 0
    ensures framesCnt * TimeBetweenFrames < period ==> framesCnt * TimeBetweenFrames + sleep == period
    ensures framesCnt == 0 && period > 0 ==> sleep == period
  {
    if framesCnt * TimeBetweenFrames >= period then 0
    else if framesCnt == 0 then period
    else period - framesCnt * TimeBetweenFrames
  }

  /** A pass followed by its pause lasts exactly the period whenever the
      transmissions fit in it, and just the transmissions otherwise. */
  lemma PassDuration(framesCnt: nat, period: int)
    ensures framesCnt * TimeBetweenFrames + Pacing(framesCnt, period) ==
            if framesCnt * TimeBetweenFrames >= period then framesCnt * TimeBetweenFrames else period
  {
  }

  // ---------------------------------------------------------------------
  // The operations, as functions of the globals

  /** `initThread`: zero both tables, reset both indices, start the worker. */
  function Started(st: State): (r: State)
    requires Inv(st)
    ensures Inv(r)
  {
    st.(storage := seq(MaxCanFramesToStore, _ => EmptySlot), storageIdx := 0,
        autoIncrement := seq(MaxCanFramesToStore, _ => EmptyCounter), autoIncrementIdx := 0,
        running := true)
  }

  /** `cyclicalTaskAddCanFrame`: 1 for an identifier already scanned, 2 for a
      full table, 0 after appending the frame. The very first call starts the
      worker and latches the period. */
  function AddOutcome(st: State, fd: int, ifIdx: int, canId: int, len: int, buffer: Payload, cycleTime: int)
    : (r: (State, int))
    requires Inv(st)
    ensures Inv(r.0)
  {
    var st1 := if st.storageIdx == -1 then Started(st).(period := cycleTime * 1000) else st;
    if FirstIndexOf(Frames(st1), canId).Some? then (st1, 1)
    else if st1.storageIdx >= MaxCanFramesToStore then (st1, 2)
    else
      var slot := Slot(fd, ifIdx, canId, len, buffer, cycleTime);
      (st1.(storage := st1.storage[st1.storageIdx := slot], storageIdx := st1.storageIdx + 1), 0)
  }

  /** `cyclicalTaskRemoveCanFrame`: zero the first matching slot in place. */
  function RemoveOutcome(st: State, canId: int): (r: (State, int))
    requires Inv(st)
    ensures Inv(r.0)
  {
    match FirstIndexOf(Frames(st), canId)
    case Some(i) => (st.(storage := st.storage[i := EmptySlot]), 0)
    case None => (st, 1)
  }

  /** `cyclicalTaskRemoveAll`: zero the whole frame table. */
  function RemoveAllOutcome(st: State): (r: (State, int))
    requires Inv(st)
    ensures Inv(r.0)
  {
    (st.(storage := seq(MaxCanFramesToStore, _ => EmptySlot), storageIdx := 0), 0)
  }

  /** `cyclicalTaskAdoptCanFrame`: replace the payload of the first matching
      slot with `buffer`, the counter bytes put back first. `len` is unused. */
  function AdoptOutcome(st: State, canId: int, len: int, buffer: Payload): (r: (State, int))
    requires Inv(st)
    ensures Inv(r.0)
  {
    match FirstIndexOf(Frames(st), canId)
    case Some(i) =>
      var tmpData := Overlay(Counters(st), canId, buffer);
      (st.(storage := st.storage[i := st.storage[i].(data := tmpData)]), 0)
    case None => (st, 1)
  }

  /** `cyclicalAutoIncrementAddFunctionality`: append a counter starting at 0,
      or -1 when the table is full. The source writes index -1 when called
      before the first Add; that call is excluded. */
  function AutoIncrementOutcome(st: State, canId: int, bytePos: int): (r: (State, int))
    requires Inv(st) && st.autoIncrementIdx >= 0
    ensures Inv(r.0)
  {
    if st.autoIncrementIdx >= MaxCanFramesToStore then (st, -1)
    else
      var c := Counter(canId, bytePos, 0);
      (st.(autoIncrement := st.autoIncrement[st.autoIncrementIdx := c],
           autoIncrementIdx := st.autoIncrementIdx + 1), 0)
  }

  /** One iteration of `worker`: the new globals, the frames transmitted in
      order, and the pause before the next pass. `sendto` gives the byte
      count the socket reports for each transmitted frame. */
  function PassOutcome(st: State, sendto: WireFrame -> int): (r: (State, seq<Slot>, nat))
    requires Inv(st) && st.running
    ensures Inv(r.0)
  {
    var pass := PassResult(Frames(st), Counters(st));
    var framesCnt := |pass.1|;
    (st.(autoIncrement := pass.0 + st.autoIncrement[CounterLen(st)..],
         errorCount := st.errorCount + CountFailed(pass.1, sendto),
         framesPerCycle := framesCnt),
     pass.1,
     Pacing(framesCnt, st.period))
  }

  // ---------------------------------------------------------------------
  // What the operations promise

  /** Add with an identifier already present in `[0, storageIdx)` returns 1
      and changes nothing. */
  lemma AddRejectsDuplicate(st: State, fd: int, ifIdx: int, canId: int, len: int, buffer: Payload, cycleTime: int, i: int)
    requires Inv(st) && st.storageIdx >= 0
    requires 0 <= i < st.storageIdx && st.storage[i].canId == canId
    ensures AddOutcome(st, fd, ifIdx, canId, len, buffer, cycleTime) == (st, 1)
  {
    assert Frames(st)[i].canId == canId;
  }

  /** Add with a fresh identifier on a full table returns 2 and changes
      nothing; on a table with room it writes the whole frame into slot
      `storageIdx`, moves `storageIdx` up by one and touches no other slot. */
  lemma AddAppends(st: State, fd: int, ifIdx: int, canId: int, len: int, buffer: Payload, cycleTime: int)
    requires Inv(st) && st.storageIdx >= 0
    requires forall k :: 0 <= k < st.storageIdx ==> st.storage[k].canId != canId
    ensures var (st', rc) := AddOutcome(st, fd, ifIdx, canId, len, buffer, cycleTime);
            if st.storageIdx >= MaxCanFramesToStore then rc == 2 && st' == st
            else
              && rc == 0
              && st'.storageIdx == st.storageIdx + 1
              && st'.storage[st.storageIdx] == Slot(fd, ifIdx, canId, len, buffer, cycleTime)
              && (forall k :: 0 <= k < MaxCanFramesToStore && k != st.storageIdx ==> st'.storage[k] == st.storage[k])
              && st' == st.(storage := st'.storage, storageIdx := st'.storageIdx)
  {
    assert forall k :: 0 <= k < |Frames(st)| ==> Frames(st)[k].canId != canId;
  }

  /** The period is latched by the call that finds `storageIdx == -1`, and no
      other Add ever changes it. */
  lemma AddLatchesPeriod(st: State, fd: int, ifIdx: int, canId: int, len: int, buffer: Payload, cycleTime: int)
    requires Inv(st)
    ensures AddOutcome(st, fd, ifIdx, canId, len, buffer, cycleTime).0.period ==
            if st.storageIdx == -1 then cycleTime * 1000 else st.period
  {
  }

  /** Two Adds on a fresh engine: the first one's cycle time governs the
      pacing, whatever the second one asks for. */
  lemma {:induction false} FirstCycleTimeWins(a: int, b: int, fd: int, ifIdx: int, buffer: Payload, cycleA: int, cycleB: int)
    requires a != b
    ensures var (st1, rc1) := AddOutcome(Initial, fd, ifIdx, a, 8, buffer, cycleA);
            var (st2, rc2) := AddOutcome(st1, fd, ifIdx, b, 8, buffer, cycleB);
            rc1 == 0 && rc2 == 0 && st2.period == cycleA * 1000 && Frames(st2) == [
              Slot(fd, ifIdx, a, 8, buffer, cycleA), Slot(fd, ifIdx, b, 8, buffer, cycleB)]
  {
    assert Inv(Initial);
    var (st1, rc1) := AddOutcome(Initial, fd, ifIdx, a, 8, buffer, cycleA);
    assert Frames(st1) == [Slot(fd, ifIdx, a, 8, buffer, cycleA)];
    AddLatchesPeriod(st1, fd, ifIdx, b, 8, buffer, cycleB);
  }

  /** RemoveAll leaves `storageIdx` at 0 rather than -1, so no later Add
      re-latches the period; and RemoveAll before any Add means that no Add
      ever starts the worker. */
  lemma RemoveAllKeepsLatch(st: State, fd: int, ifIdx: int, canId: int, len: int, buffer: Payload, cycleTime: int)
    requires Inv(st)
    ensures var st' := AddOutcome(RemoveAllOutcome(st).0, fd, ifIdx, canId, len, buffer, cycleTime).0;
            st'.period == st.period && st'.running == st.running
  {
  }

  /** Remove zeroes the first slot carrying the identifier and returns 0;
      `storageIdx` and all other slots stay. Without a match it returns 1 and
      changes nothing. */
  lemma RemoveClearsSlot(st: State, canId: int)
    requires Inv(st)
    ensures var (st', rc) := RemoveOutcome(st, canId);
            match FirstIndexOf(Frames(st), canId)
            case Some(i) =>
              rc == 0 && i < st.storageIdx && st' == st.(storage := st.storage[i := EmptySlot])
            case None => rc == 1 && st' == st
  {
  }

  /** A removed slot keeps its place below `storageIdx`, so removing does not
      give Add any room back, and the cleared slot, whose identifier is 0,
      makes a later Add of identifier 0 fail as a duplicate. */
  lemma {:induction false} RemovedSlotNotReused(st: State, canId: int, fd: int, ifIdx: int, newId: int, len: int, buffer: Payload, cycleTime: int)
    requires Inv(st) && st.storageIdx == MaxCanFramesToStore && canId != 0
    requires RemoveOutcome(st, canId).1 == 0
    ensures var st1 := RemoveOutcome(st, canId).0;
            AddOutcome(st1, fd, ifIdx, newId, len, buffer, cycleTime).1 != 0
    ensures var st1 := RemoveOutcome(st, canId).0;
            AddOutcome(st1, fd, ifIdx, 0, len, buffer, cycleTime) == (st1, 1)
  {
    var i := FirstIndexOf(Frames(st), canId).value;
    var st1 := RemoveOutcome(st, canId).0;
    assert Frames(st1)[i].canId == 0;
  }

  /** RemoveAll empties every frame slot and sets `storageIdx` to 0; the
      counters, the period, the statistics and the worker state stay. */
  lemma RemoveAllClears(st: State)
    requires Inv(st)
    ensures var (st', rc) := RemoveAllOutcome(st);
            && rc == 0 && st'.storageIdx == 0 && Frames(st') == []
            && (forall k :: 0 <= k < MaxCanFramesToStore ==> st'.storage[k] == EmptySlot)
            && st' == st.(storage := st'.storage, storageIdx := 0)
            && st'.autoIncrement == st.autoIncrement && st'.autoIncrementIdx == st.autoIncrementIdx
            && st'.period == st.period && st'.running == st.running
  {
  }

  /** Adopt on a matching slot replaces only its payload: byte `p` becomes the
      value of the last counter of that identifier registered at `p`, or the
      caller's byte when there is none; fd, interface, length and cycle time
      stay. Without a match it returns 1 and changes nothing. */
  lemma AdoptedPayload(st: State, canId: int, len: int, buffer: Payload, p: int)
    requires Inv(st) && 0 <= p < MaxCanFramesSize
    ensures var (st', rc) := AdoptOutcome(st, canId, len, buffer);
            match FirstIndexOf(Frames(st), canId)
            case None => rc == 1 && st' == st
            case Some(i) =>
              var cs := Counters(st);
              && rc == 0
              && st' == st.(storage := st'.storage)
              && (forall k :: 0 <= k < MaxCanFramesToStore && k != i ==> st'.storage[k] == st.storage[k])
              && st'.storage[i] == st.storage[i].(data := st'.storage[i].data)
              && ((forall k :: 0 <= k < |cs| ==> !Hits(cs[k], canId, p)) ==> st'.storage[i].data[p] == buffer[p])
              && (forall k :: 0 <= k < |cs| && Hits(cs[k], canId, p) && (forall k' :: k < k' < |cs| ==> !Hits(cs[k'], canId, p))
                    ==> st'.storage[i].data[p] == cs[k].value)
  {
    var cs := Counters(st);
    if forall k :: 0 <= k < |cs| ==> !Hits(cs[k], canId, p) {
      OverlayUntouched(cs, canId, buffer, p);
    }
    forall k | 0 <= k < |cs| && Hits(cs[k], canId, p) && (forall k' :: k < k' < |cs| ==> !Hits(cs[k'], canId, p))
      ensures Overlay(cs, canId, buffer)[p] == cs[k].value
    {
      OverlayLastHit(cs, canId, buffer, p, k);
    }
  }

  /** Enable returns -1 on a full table and otherwise appends the counter
      `(canId, bytePos, 0)`, whatever `bytePos` is. */
  lemma AutoIncrementAppends(st: State, canId: int, bytePos: int)
    requires Inv(st) && st.autoIncrementIdx >= 0
    ensures var (st', rc) := AutoIncrementOutcome(st, canId, bytePos);
            if st.autoIncrementIdx >= MaxCanFramesToStore then rc == -1 && st' == st
            else rc == 0 && st'.autoIncrementIdx == st.autoIncrementIdx + 1
                 && Counters(st') == Counters(st) + [Counter(canId, bytePos, 0)]
                 && st'.storage == st.storage && st'.storageIdx == st.storageIdx
  {
    var (st', rc) := AutoIncrementOutcome(st, canId, bytePos);
    if st.autoIncrementIdx < MaxCanFramesToStore {
      assert Counters(st') == Counters(st) + [Counter(canId, bytePos, 0)];
    }
  }

  /** A pass transmits exactly the non-empty slots below `storageIdx`, in
      slot order, each with its stored fd, interface, identifier and length;
      the frame table is not modified; `statsFramesSendPerCycle` becomes the
      number transmitted and the error counter grows by the failed ones. */
  lemma PassTransmits(st: State, sendto: WireFrame -> int)
    requires Inv(st) && st.running
    ensures var (st', sent, _) := PassOutcome(st, sendto);
            var active := ActiveSlots(Frames(st));
            && |sent| == |active|
            && (forall k :: 0 <= k < |sent| ==> sent[k] == active[k].(data := sent[k].data))
            && st'.storage == st.storage && st'.storageIdx == st.storageIdx
            && st'.framesPerCycle == |active|
            && st'.errorCount == st.errorCount + CountFailed(sent, sendto)
            && st'.period == st.period
            && st' == st.(autoIncrement := st'.autoIncrement, errorCount := st'.errorCount,
                          framesPerCycle := st'.framesPerCycle)
  {
    PassSendsActiveSlots(Frames(st), Counters(st));
  }

  /** Each transmitted copy carries the slot's payload with its counters
      overlaid, every counter advanced by one for this pass. */
  lemma PassOverlaysCounters(st: State, sendto: WireFrame -> int)
    requires Inv(st) && st.running
    ensures var sent := PassOutcome(st, sendto).1;
            var active := ActiveSlots(Frames(st));
            && |sent| == |active|
            && forall k :: 0 <= k < |active| ==>
              sent[k].data == Overlay(Incremented(Counters(st), active[k].canId), active[k].canId, active[k].data)
  {
    PassPayloads(Frames(st), Counters(st));
  }

  /** With unique identifiers, counter `j` advances by exactly one over the
      scan when its byte position is in 0-7 and a slot carries its
      identifier, and stays otherwise. */
  lemma CounterGrowth(slots: seq<Slot>, cs: seq<Counter>, j: int)
    requires UniqueIds(slots) && 0 <= j < |cs|
    ensures var c := cs[j];
            var active := c.canId != 0 && exists k :: 0 <= k < |slots| && slots[k].canId == c.canId;
            PassResult(slots, cs).0[j] ==
              if 0 <= c.bytePos < MaxCanFramesSize && active then c.(value := Inc(c.value)) else c
  {
    PassCounters(slots, cs);
    UniqueOccurrences(slots, cs[j].canId);
  }

  /** Over one pass a counter with a byte position in 0-7 advances by
      exactly one (mod 256) when a non-empty slot carries its identifier, and
      otherwise stays, as does every counter outside 0-7. */
  lemma PassCounterGrowth(st: State, sendto: WireFrame -> int, j: int)
    requires Inv(st) && st.running && 0 <= j < st.autoIncrementIdx
    ensures var st' := PassOutcome(st, sendto).0;
            var c := st.autoIncrement[j];
            var active := c.canId != 0 && exists k :: 0 <= k < st.storageIdx && st.storage[k].canId == c.canId;
            st'.autoIncrement[j] ==
              if 0 <= c.bytePos < MaxCanFramesSize && active then c.(value := Inc(c.value)) else c
  {
    var slots := Frames(st);
    var c := st.autoIncrement[j];
    CounterGrowth(slots, Counters(st), j);
    assert Counters(st)[j] == c;
    assert forall k :: 0 <= k < st.storageIdx ==> slots[k] == st.storage[k];
  }

  /** Replacing element `j` of a table whose first `j` entries are already
      updated extends the updated prefix by one. */
  lemma Splice(inc: seq<Counter>, before: seq<Counter>, j: int)
    requires 0 <= j < |inc| <= |before|
    ensures (inc[..j] + before[j..])[j := inc[j]] == inc[..j + 1] + before[j + 1..]
  {
  }

  // ---------------------------------------------------------------------
  // The engine as the source keeps it: two arrays and the scalar globals

  class Engine {
    var canStorage: array<Slot>
    var storageIdx: int
    var canAutoIncrement: array<Counter>
    var autoIncrementIdx: int
    var theOneCycleTime: int
    var statsErrorCntrCyclicalSend: int
    var statsFramesSendPerCycle: int
    var running: bool

    /** The globals as a value. */
    ghost function Abs(): State
      reads this, canStorage, canAutoIncrement
    {
      State(canStorage[..], storageIdx, canAutoIncrement[..], autoIncrementIdx,
            theOneCycleTime, statsErrorCntrCyclicalSend, statsFramesSendPerCycle, running)
    }

    ghost predicate Valid()
      reads this, canStorage, canAutoIncrement
    {
      Inv(Abs())
    }

    /** The static initialisation of the globals. */
    constructor ()
      ensures Valid() && Abs() == Initial
      ensures fresh(canStorage) && fresh(canAutoIncrement)
    {
      canStorage := new Slot[MaxCanFramesToStore](_ => EmptySlot);
      canAutoIncrement := new Counter[MaxCanFramesToStore](_ => EmptyCounter);
      storageIdx, autoIncrementIdx := -1, -1;
      theOneCycleTime := Hardcoded100ms;
      statsErrorCntrCyclicalSend, statsFramesSendPerCycle := 0, 0;
      running := false;
      new;
      assert canStorage[..] == seq(MaxCanFramesToStore, _ => EmptySlot);
      assert canAutoIncrement[..] == seq(MaxCanFramesToStore, _ => EmptyCounter);
    }

    /** `statsGetCanFrameErrorCntrCyclicalSend`. */
    function ErrorCounter(): (r: int)
      reads this, canStorage, canAutoIncrement
      ensures Valid() ==> r == Abs().errorCount && r >= 0
    {
      statsErrorCntrCyclicalSend
    }

    /** `statsGetCanFrameFramesSendPerCycle`. */
    function FramesSentPerCycle(): (r: int)
      reads this, canStorage, canAutoIncrement
      ensures Valid() ==> r == Abs().framesPerCycle && 0 <= r <= MaxCanFramesToStore
    {
      statsFramesSendPerCycle
    }

    /** `memset(canStorage, 0, ...)`. */
    method ClearStorage()
      requires canStorage.Length == MaxCanFramesToStore
      modifies canStorage
      ensures canStorage[..] == seq(MaxCanFramesToStore, _ => EmptySlot)
    {
      for i := 0 to MaxCanFramesToStore
        invariant forall k :: 0 <= k < i ==> canStorage[k] == EmptySlot
      {
        canStorage[i] := EmptySlot;
      }
      assert canStorage[..] == seq(MaxCanFramesToStore, _ => EmptySlot);
    }

    /** `memset(canAutoIncrement, 0, ...)`. */
    method ClearCounters()
      requires canAutoIncrement.Length == MaxCanFramesToStore
      modifies canAutoIncrement
      ensures canAutoIncrement[..] == seq(MaxCanFramesToStore, _ => EmptyCounter)
    {
      for i := 0 to MaxCanFramesToStore
        invariant forall k :: 0 <= k < i ==> canAutoIncrement[k] == EmptyCounter
      {
        canAutoIncrement[i] := EmptyCounter;
      }
      assert canAutoIncrement[..] == seq(MaxCanFramesToStore, _ => EmptyCounter);
    }

    /** `initThread`; the pthread itself is the `running` flag. */
    method InitThread()
      requires Valid()
      modifies this, canStorage, canAutoIncrement
      ensures canStorage == old(canStorage) && canAutoIncrement == old(canAutoIncrement)
      ensures Valid() && Abs() == Started(old(Abs()))
    {
      ClearStorage();
      storageIdx := 0;
      ClearCounters();
      autoIncrementIdx := 0;
      running := true;
    }

    /** `cyclicalTaskAddCanFrame`. */
    method AddCanFrame(fd: int, ifIdx: int, canId: int, len: int, buffer: Payload, cycleTime: int)
      returns (rc: int)
      requires Valid()
      modifies this, canStorage, canAutoIncrement
      ensures canStorage == old(canStorage) && canAutoIncrement == old(canAutoIncrement)
      ensures (Abs(), rc) == AddOutcome(old(Abs()), fd, ifIdx, canId, len, buffer, cycleTime)
      ensures Valid()
    {
      ghost var st0 := Abs();
      if storageIdx == -1 {
        InitThread();
        theOneCycleTime := cycleTime * 1000;
      }
      ghost var st1 := Abs();
      assert st1 == if st0.storageIdx == -1 then Started(st0).(period := cycleTime * 1000) else st0;
      for i := 0 to storageIdx
        invariant forall k :: 0 <= k < i ==> canStorage[k].canId != canId
      {
        if canStorage[i].canId == canId {
          assert Frames(st1)[i].canId == canId;
          return 1;
        }
      }
      assert forall k :: 0 <= k < |Frames(st1)| ==> Frames(st1)[k].canId != canId;
      if storageIdx >= MaxCanFramesToStore {
        return 2;
      }
      var slot := Slot(fd, ifIdx, canId, len, buffer, cycleTime);
      ghost var st2 := st1.(storage := st1.storage[storageIdx := slot], storageIdx := storageIdx + 1);
      canStorage[storageIdx] := slot;
      storageIdx := storageIdx + 1;
      assert Abs() == st2;
      assert AddOutcome(st0, fd, ifIdx, canId, len, buffer, cycleTime) == (st2, 0);
      return 0;
    }

    /** `cyclicalTaskRemoveCanFrame`. */
    method RemoveCanFrame(canId: int) returns (rc: int)
      requires Valid()
      modifies canStorage
      ensures (Abs(), rc) == RemoveOutcome(old(Abs()), canId)
      ensures Valid()
    {
      ghost var frames := Frames(Abs());
      var i := 0;
      while i < storageIdx
        invariant 0 <= i <= |frames|
        invariant canStorage[..] == old(canStorage[..])
        invariant forall k :: 0 <= k < i ==> frames[k].canId != canId
      {
        assert frames[i] == canStorage[i];
        if canStorage[i].canId == canId {
          FirstIndexAt(frames, canId, i);
          canStorage[i] := EmptySlot;
          return 0;
        }
        i := i + 1;
      }
      return 1;
    }

    /** `cyclicalTaskRemoveAll`. */
    method RemoveAll() returns (rc: int)
      requires Valid()
      modifies this, canStorage
      ensures canStorage == old(canStorage)
      ensures (Abs(), rc) == RemoveAllOutcome(old(Abs()))
      ensures Valid()
    {
      ClearStorage();
      storageIdx := 0;
      return 0;
    }

    /** `ignoreAutoIncrementPos`: put the counters' current values back into
        the caller's payload. */
    method IgnoreAutoIncrementPos(canId: int, tmpData: Payload) returns (r: Payload)
      requires Valid()
      ensures r == Overlay(Counters(Abs()), canId, tmpData)
    {
      r := tmpData;
      var j := 0;
      while j < autoIncrementIdx
        invariant 0 <= j <= CounterLen(Abs())
        invariant r == Overlay(canAutoIncrement[..j], canId, tmpData)
      {
        assert canAutoIncrement[..j + 1][..j] == canAutoIncrement[..j];
        if canAutoIncrement[j].canId == canId {
          if 0 <= canAutoIncrement[j].bytePos < MaxCanFramesSize {
            r := r[canAutoIncrement[j].bytePos := canAutoIncrement[j].value];
          }
        }
        j := j + 1;
      }
    }

    /** `cyclicalTaskAdoptCanFrame`. */
    method AdoptCanFrame(canId: int, len: int, buffer: Payload) returns (rc: int)
      requires Valid()
      modifies canStorage
      ensures (Abs(), rc) == AdoptOutcome(old(Abs()), canId, len, buffer)
      ensures Valid()
    {
      ghost var frames := Frames(Abs());
      var i := 0;
      while i < storageIdx
        invariant 0 <= i <= |frames|
        invariant canStorage[..] == old(canStorage[..])
        invariant forall k :: 0 <= k < i ==> frames[k].canId != canId
      {
        assert frames[i] == canStorage[i];
        if canStorage[i].canId == canId {
          FirstIndexAt(frames, canId, i);
          var tmpData := IgnoreAutoIncrementPos(canId, buffer);
          canStorage[i] := canStorage[i].(data := tmpData);
          return 0;
        }
        i := i + 1;
      }
      return 1;
    }

    /** `cyclicalAutoIncrementAddFunctionality`. */
    method AutoIncrementAdd(canId: int, bytePos: int) returns (rc: int)
      requires Valid() && autoIncrementIdx >= 0
      modifies this, canAutoIncrement
      ensures canStorage == old(canStorage) && canAutoIncrement == old(canAutoIncrement)
      ensures (Abs(), rc) == AutoIncrementOutcome(old(Abs()), canId, bytePos)
      ensures Valid()
    {
      if autoIncrementIdx >= MaxCanFramesToStore {
        return -1;
      }
      canAutoIncrement[autoIncrementIdx] := Counter(canId, bytePos, 0);
      autoIncrementIdx := autoIncrementIdx + 1;
      return 0;
    }

    /** `modifyAutocounters`: advance the frame's counters in the table and
        write them into the copy about to be sent. */
    method ModifyAutocounters(frameToSend: Slot) returns (r: Slot)
      requires 0 <= autoIncrementIdx <= canAutoIncrement.Length
      modifies canAutoIncrement
      ensures canAutoIncrement[..autoIncrementIdx] ==
              Incremented(old(canAutoIncrement[..autoIncrementIdx]), frameToSend.canId)
      ensures canAutoIncrement[autoIncrementIdx..] == old(canAutoIncrement[autoIncrementIdx..])
      ensures r == frameToSend.(data := Overlay(canAutoIncrement[..autoIncrementIdx], frameToSend.canId, frameToSend.data))
    {
      ghost var id := frameToSend.canId;
      ghost var before := canAutoIncrement[..];
      ghost var inc := Incremented(canAutoIncrement[..autoIncrementIdx], id);
      r := frameToSend;
      var j := 0;
      while j < autoIncrementIdx
        invariant 0 <= j <= autoIncrementIdx
        invariant canAutoIncrement[..] == inc[..j] + before[j..]
        invariant r == frameToSend.(data := Overlay(inc[..j], id, frameToSend.data))
      {
        assert inc[j] == Bumped(before[j], id);
        r := BumpCounter(j, r);
        assert inc[..j + 1][..j] == inc[..j];
        Splice(inc, before, j);
        j := j + 1;
      }
      assert canAutoIncrement[..autoIncrementIdx] == inc;
      assert inc[..j] == inc;
    }

    /** One turn of `modifyAutocounters`' loop: counter `j` goes up when it
        applies to the frame, and its value is written into the frame. */
    method BumpCounter(j: int, frame: Slot) returns (r: Slot)
      requires 0 <= j < canAutoIncrement.Length
      modifies canAutoIncrement
      ensures canAutoIncrement[..] == old(canAutoIncrement[..])[j := Bumped(old(canAutoIncrement[j]), frame.canId)]
      ensures r == frame.(data := Put(frame.data, canAutoIncrement[j], frame.canId))
    {
      r := frame;
      if frame.canId == canAutoIncrement[j].canId {
        if 0 <= canAutoIncrement[j].bytePos < MaxCanFramesSize {
          canAutoIncrement[j] := canAutoIncrement[j].(value := Inc(canAutoIncrement[j].value));
          r := r.(data := r.data[canAutoIncrement[j].bytePos := canAutoIncrement[j].value]);
        }
      }
    }

    /** `sendFrame`: pack the frame, hand it to the socket, and count a
        failed or partial write as an error. */
    method SendFrame(frameToSend: Slot, sendto: WireFrame -> int)
      modifies this`statsErrorCntrCyclicalSend
      ensures statsErrorCntrCyclicalSend ==
              old(statsErrorCntrCyclicalSend) + if SendFailed(sendto(ToWire(frameToSend))) then 1 else 0
    {
      var nbytes := sendto(ToWire(frameToSend));
      if nbytes == -1 {
        statsErrorCntrCyclicalSend := statsErrorCntrCyclicalSend + 1;
      } else if nbytes != CanFrameBytes {
        statsErrorCntrCyclicalSend := statsErrorCntrCyclicalSend + 1;
      }
    }

    /** The body of `worker`'s scan for a non-empty slot `i`: the slot is
        copied, its counters advanced and overlaid, and the copy sent. */
    method TransmitSlot(i: int, sendto: WireFrame -> int) returns (frameToSend: Slot)
      requires 0 <= i < canStorage.Length && 0 <= autoIncrementIdx <= canAutoIncrement.Length
      requires canStorage[i].canId != 0
      modifies this`statsErrorCntrCyclicalSend, canAutoIncrement
      ensures var s := canStorage[i];
              var cs' := Incremented(old(canAutoIncrement[..autoIncrementIdx]), s.canId);
              && canAutoIncrement[..autoIncrementIdx] == cs'
              && frameToSend == s.(data := Overlay(cs', s.canId, s.data))
      ensures statsErrorCntrCyclicalSend ==
              old(statsErrorCntrCyclicalSend) + if SendFailed(sendto(ToWire(frameToSend))) then 1 else 0
      ensures canAutoIncrement[autoIncrementIdx..] == old(canAutoIncrement[autoIncrementIdx..])
    {
      frameToSend := canStorage[i];
      frameToSend := ModifyAutocounters(frameToSend);
      SendFrame(frameToSend, sendto);
    }

    /** One round of `worker`'s scan: slot `i` is sent when it is not
        empty, and the counters and the frames sent so far follow the pass. */
    method ScanOne(i: int, sendto: WireFrame -> int, ghost slots: seq<Slot>, ghost cs0: seq<Counter>,
                   ghost cs: seq<Counter>, sent: seq<Slot>)
      returns (sent': seq<Slot>, ghost cs': seq<Counter>)
      requires 0 <= i < |slots| && i < canStorage.Length && canStorage[i] == slots[i]
      requires 0 <= autoIncrementIdx <= canAutoIncrement.Length
      requires canAutoIncrement[..autoIncrementIdx] == cs && (cs, sent) == PassResult(slots[..i], cs0)
      modifies this`statsErrorCntrCyclicalSend, canAutoIncrement
      ensures canAutoIncrement[..autoIncrementIdx] == cs' && (cs', sent') == PassResult(slots[..i + 1], cs0)
      ensures canAutoIncrement[autoIncrementIdx..] == old(canAutoIncrement[autoIncrementIdx..])
      ensures statsErrorCntrCyclicalSend - old(statsErrorCntrCyclicalSend) ==
              CountFailed(sent', sendto) - CountFailed(sent, sendto)
    {
      if canStorage[i].canId != 0 {
        var frameToSend := TransmitSlot(i, sendto);
        ScanStep(slots, i, cs0, cs, sent, frameToSend);
        CountFailedStep(sent, frameToSend, sendto);
        sent' := sent + [frameToSend];
        cs' := Incremented(cs, slots[i].canId);
      } else {
        ScanSkip(slots, i, cs0);
        sent', cs' := sent, cs;
      }
    }

    /** `worker`'s scan over `[0, storageIdx)`: every non-empty slot sent
        once, in slot order. */
    method ScanSlots(sendto: WireFrame -> int) returns (sent: seq<Slot>)
      requires 0 <= storageIdx <= canStorage.Length && 0 <= autoIncrementIdx <= canAutoIncrement.Length
      modifies this`statsErrorCntrCyclicalSend, canAutoIncrement
      ensures (canAutoIncrement[..autoIncrementIdx], sent) ==
              PassResult(canStorage[..storageIdx], old(canAutoIncrement[..autoIncrementIdx]))
      ensures canAutoIncrement[autoIncrementIdx..] == old(canAutoIncrement[autoIncrementIdx..])
      ensures statsErrorCntrCyclicalSend == old(statsErrorCntrCyclicalSend) + CountFailed(sent, sendto)
    {
      ghost var slots := canStorage[..storageIdx];
      ghost var cs0 := canAutoIncrement[..autoIncrementIdx];
      var n := autoIncrementIdx;
      sent := [];
      ghost var cs := cs0;
      var i := 0;
      while i < storageIdx
        invariant 0 <= i <= storageIdx
        invariant canAutoIncrement[..n] == cs
        invariant (cs, sent) == PassResult(slots[..i], cs0)
        invariant canAutoIncrement[n..] == old(canAutoIncrement[n..])
        invariant statsErrorCntrCyclicalSend == old(statsErrorCntrCyclicalSend) + CountFailed(sent, sendto)
      {
        sent, cs := ScanOne(i, sendto, slots, cs0, cs, sent);
        i := i + 1;
      }
      assert slots[..i] == slots;
    }

    /** One iteration of `worker`'s endless loop: send every non-empty slot
        once, record the count, and give the time to sleep before the next
        pass. `sendto` stands for the socket: the byte count it reports for
        each frame handed to it. */
    method WorkerPass(sendto: WireFrame -> int) returns (sent: seq<Slot>, sleep: nat)
      requires Valid() && running
      modifies this, canAutoIncrement
      ensures canStorage == old(canStorage) && canAutoIncrement == old(canAutoIncrement)
      ensures (Abs(), sent, sleep) == PassOutcome(old(Abs()), sendto)
      ensures Valid()
    {
      ghost var st := Abs();
      sent := ScanSlots(sendto);
      var framesCnt := |sent|;
      assert canAutoIncrement[..] == canAutoIncrement[..autoIncrementIdx] + canAutoIncrement[autoIncrementIdx..];
      PassAssembled(st, sendto, canAutoIncrement[..autoIncrementIdx], sent, statsErrorCntrCyclicalSend, canAutoIncrement[..]);
      statsFramesSendPerCycle := framesCnt;
      sleep := Pacing(framesCnt, theOneCycleTime);
    }
  }
}
