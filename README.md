# SocketCAN JNI driver: cyclic-send engine, CAN identifiers and Java helpers

This project is a Dafny model of the core of a SocketCAN driver. The driver has a native JNI
library and a Java class, `CanSocket`, over it. The model has three parts:

- **The cyclic-send engine** (`jni/cyclical_send_task.cpp`).
  - Two fixed tables of 90 entries: the frames to repeat and the auto-increment counters.
  - Add, Remove, RemoveAll and Adopt on the frame table, and Enable on the counter table, each
    with its return code.
  - The counter overlay (`ignoreAutoIncrementPos`) and counter increment (`modifyAutocounters`).
  - One pass of the worker thread, with its statistics and the pause that follows it.

  The engine is the class `CyclicalSendTask.Engine` over two arrays. Each method is proved
  against a function on the globals taken as a value (`CyclicalSendTask.State`). The promised
  properties are lemmas about those functions.
- **The JNI glue** (`jni/cansocket.cpp`):
  - the CAN-identifier mask, test, set and clear functions (`CanIdBits`);
  - `getCopySize`, and what `_recvFrame` makes of a received frame;
  - the wrappers that turn the engine's return codes into `IOException`s (`CanSocketJni`).
- **The Java helpers** (`src/io/openems/edge/socketcan/driver/CanSocket.java`, `CanSocketJava`):
  - `bytesToHex`, `reverseBytes` and `bitExtract`;
  - the `CanId` getters, `equals` and `hashCode`;
  - the `CanFilter` tests;
  - the filter string `setFilters` builds;
  - the length check of the `CanFrame(int, int, byte[])` constructor, which `_recvFrame` is
    written to call (see the `CanSocketJni.RecvFrame` line under "## Left out").

Representation choices:
- A C `jint` or Java `int` that is used bitwise is a `bv32`. One that is used as a number
  (file descriptors, identifiers as table keys, lengths, cycle times) is an `int`.
- A byte is its unsigned bit pattern, 0 to 255. Counter increments therefore wrap modulo 256.
- The socket call `sendto` is a parameter: a function from the packed frame to the byte
  count it reports.

How the code behaves where a reader might expect otherwise:
- **Removed slots are not reused.** A removed slot keeps identifier 0 below `storageIdx`, and
  Add always appends at `storageIdx`. A removed identifier can be added again only while the
  table still has room. Once 90 frames have been added, no Remove makes room, and Add of
  identifier 0 then fails as a duplicate (`RemovedSlotNotReused`).
- **RemoveAll before the first Add stops the worker from ever starting.** RemoveAll sets
  `storageIdx` to 0. The worker is started, and the period latched, only by an Add that finds
  `storageIdx == -1`. So a RemoveAll before any Add means the worker never starts and the
  period stays 100 ms (`RemoveAllKeepsLatch`).
- **`CanFilter.NONE` does not reject everything.** It is documented as accepting no CAN ID.
  It is an exact filter for identifier 0, so it accepts identifiers 0 and 0x20000000
  (`NoneFilterAccepts`). No mask can make `matchId` reject a filter's own identifier, so the
  documented behaviour cannot be expressed by this test at all.
- **`isInverted` is always false.** It tests bit 29 after `getCanId` has masked it away
  (`IsInverted`).
- **The clamp in `getCanId_SFF` never fires.** The SFF mask already bounds the value by 0x7FF
  (`GetCanIdSff`).

## Model

| member | source | states |
|---|---|---|
| CanBytes.Inc | jni/cyclical_send_task.cpp:123 | a counter byte's `+= 1` goes up by one and wraps from 255 to 0 |
| CyclicalSendTask.FirstIndexOf | jni/cyclical_send_task.cpp:137-141 | the slot a scan stops at: none exactly when no slot carries the identifier; otherwise a slot carrying it with no earlier one |
| CyclicalSendTask.Started | jni/cyclical_send_task.cpp:70-87 | `initThread` leaves the globals consistent: both tables zeroed, both indices 0, the worker running |
| CyclicalSendTask.AddOutcome | jni/cyclical_send_task.cpp:130-157 | Add keeps the table invariant: indices within 0..90, no slot past the high-water mark, identifiers unique among non-empty slots |
| CyclicalSendTask.RemoveOutcome | jni/cyclical_send_task.cpp:159-168 | Remove keeps the table invariant |
| CyclicalSendTask.RemoveAllOutcome | jni/cyclical_send_task.cpp:170-176 | RemoveAll keeps the table invariant |
| CyclicalSendTask.AdoptOutcome | jni/cyclical_send_task.cpp:178-192 | Adopt keeps the table invariant |
| CyclicalSendTask.AutoIncrementOutcome | jni/cyclical_send_task.cpp:89-99 | Enable keeps the table invariant |
| CyclicalSendTask.PassOutcome | jni/cyclical_send_task.cpp:199-221 | a worker pass keeps the table invariant |
| CyclicalSendTask.AddRejectsDuplicate | jni/cyclical_send_task.cpp:137-141 | Add of an identifier present below `storageIdx` returns 1 and changes nothing |
| CyclicalSendTask.AddAppends | jni/cyclical_send_task.cpp:144-156 | Add of a fresh identifier returns 2 on a full table; otherwise it writes the whole frame into slot `storageIdx`, moves `storageIdx` up by one, leaves every other slot and global alone, and returns 0 |
| CyclicalSendTask.AddLatchesPeriod | jni/cyclical_send_task.cpp:132-136 | the period becomes `cycleTime * 1000` only when `storageIdx` was -1, and is kept otherwise |
| CyclicalSendTask.FirstCycleTimeWins | jni/cyclical_send_task.cpp:132-156 | after two Adds of distinct identifiers on a fresh engine, both succeed, the table holds both frames in order, and the period is the first one's |
| CyclicalSendTask.RemoveAllKeepsLatch | jni/cyclical_send_task.cpp:132-136 | an Add after RemoveAll never changes the period or starts the worker |
| CyclicalSendTask.RemoveClearsSlot | jni/cyclical_send_task.cpp:159-168 | Remove zeroes exactly the first matching slot and returns 0, leaving `storageIdx` and the rest; without a match it returns 1 and changes nothing |
| CyclicalSendTask.RemovedSlotNotReused | jni/cyclical_send_task.cpp:142-146 | on a full table, a successful Remove does not let any Add succeed, and Add of identifier 0 is rejected as a duplicate |
| CyclicalSendTask.RemoveAllClears | jni/cyclical_send_task.cpp:170-176 | RemoveAll zeroes all 90 slots, sets `storageIdx` to 0, returns 0, and keeps the counter table, its index, the period and the worker state |
| CyclicalSendTask.AdoptedPayload | jni/cyclical_send_task.cpp:178-192 | Adopt on a match changes only that slot's payload. Each byte with a valid counter of the identifier holds the last such counter's value; every other byte holds the caller's byte. Without a match it returns 1 and changes nothing |
| CyclicalSendTask.OverlayUntouched | jni/cyclical_send_task.cpp:104-113 | a byte no valid counter of the identifier points at keeps the caller's value |
| CyclicalSendTask.OverlayLastHit | jni/cyclical_send_task.cpp:104-113 | a byte some valid counters point at holds the value of the last of them |
| CyclicalSendTask.AutoIncrementAppends | jni/cyclical_send_task.cpp:89-99 | Enable returns -1 on a full table and otherwise appends `(canId, bytePos, 0)` for any `bytePos`, leaving the frame table alone |
| CyclicalSendTask.ActiveSlotsMembers | jni/cyclical_send_task.cpp:201-202 | a slot is transmitted exactly when it is scanned and non-empty |
| CyclicalSendTask.PassSendsActiveSlots | jni/cyclical_send_task.cpp:201-212 | a scan hands over exactly the non-empty slots, in slot order, each changed at most in its payload |
| CyclicalSendTask.PassCounters | jni/cyclical_send_task.cpp:118-128 | after a scan each valid counter has gone up once per transmitted slot of its identifier (mod 256); a counter outside bytes 0-7 never moves |
| CyclicalSendTask.UniqueOccurrences | jni/cyclical_send_task.cpp:137-141 | with unique identifiers each identifier is transmitted at most once per pass |
| CyclicalSendTask.PassPayloads | jni/cyclical_send_task.cpp:118-128 | each transmitted copy carries the slot's payload with the identifier's counters, already advanced, written over it |
| CyclicalSendTask.CounterGrowth | jni/cyclical_send_task.cpp:118-128 | when no two slots share an identifier, over one scan a counter advances by exactly one when it is valid and a non-empty slot carries its identifier, and stays otherwise |
| CyclicalSendTask.PassTransmits | jni/cyclical_send_task.cpp:199-213 | a pass transmits exactly the non-empty slots below `storageIdx`, in order, with their stored fields. The frame table is unchanged, `statsFramesSendPerCycle` is the count sent, and the error counter grows by the failed sends |
| CyclicalSendTask.PassOverlaysCounters | jni/cyclical_send_task.cpp:206-209 | every transmitted copy's payload is the stored payload with the advanced counters overlaid |
| CyclicalSendTask.PassCounterGrowth | jni/cyclical_send_task.cpp:118-128 | after a pass each counter in the table has advanced by one exactly when it is valid and its identifier is being sent |
| CyclicalSendTask.Overlay | jni/cyclical_send_task.cpp:104-113 | when no counter of the identifier has a byte position in 0-7, the payload comes back unchanged |
| CyclicalSendTask.Bumped | jni/cyclical_send_task.cpp:120-125 | a counter keeps its identifier and byte position; a valid counter of the frame's identifier goes up by one (mod 256), any other is unchanged |
| CyclicalSendTask.Incremented | jni/cyclical_send_task.cpp:118-128 | the counter table keeps its length and every counter's identifier and position; counters of other identifiers are unchanged |
| CyclicalSendTask.PassResult | jni/cyclical_send_task.cpp:199-212 | a scan keeps the number of counters, sends at most one frame per scanned slot, and never sends identifier 0 |
| CyclicalSendTask.ActivePayloadStep | jni/cyclical_send_task.cpp:206-208 | appending a non-empty slot with a fresh identifier keeps every earlier payload and sends the new one overlaid with counters advanced once |
| CyclicalSendTask.ScanStep | jni/cyclical_send_task.cpp:202-210 | a non-empty slot advances the counters of its identifier and appends its overlaid copy, as the next step of the pass |
| CyclicalSendTask.ScanSkip | jni/cyclical_send_task.cpp:202 | an empty slot leaves the pass unchanged |
| CyclicalSendTask.FreshIdPayload | jni/cyclical_send_task.cpp:206-208 | a slot whose identifier no earlier slot carries is sent with its counters advanced exactly once |
| CyclicalSendTask.NoOccurrences | jni/cyclical_send_task.cpp:201-202 | an identifier no scanned slot carries is sent zero times |
| CyclicalSendTask.SendFailed | jni/cyclical_send_task.cpp:242-249 | a send counts as an error exactly when the byte count is not 16; the separate -1 test adds nothing |
| CyclicalSendTask.CountFailed | jni/cyclical_send_task.cpp:242-249 | no more errors are counted in a pass than frames are sent |
| CyclicalSendTask.ToWire | jni/cyclical_send_task.cpp:234-238 | `can_dlc` equals the slot's length whenever that fits in a byte |
| CyclicalSendTask.Pacing | jni/cyclical_send_task.cpp:214-221 | the pause is 0 exactly when `framesCnt * 1100` reaches the period. Otherwise the pass and the pause add up to the period, and with no frame sent the pause is the whole period |
| CyclicalSendTask.PassDuration | jni/cyclical_send_task.cpp:214-221 | a pass and its pause last the period when the frames fit in it, and only the transmit time otherwise |
| CyclicalSendTask.Engine.constructor | jni/cyclical_send_task.cpp:55-64 | the statically initialised globals: both indices -1, period 100 ms, counters 0, no worker |
| CyclicalSendTask.Engine.InitThread | jni/cyclical_send_task.cpp:70-87 | zeroes both arrays in place and resets both indices, as `Started` |
| CyclicalSendTask.Engine.AddCanFrame | jni/cyclical_send_task.cpp:130-157 | the new globals and return code are those of `AddOutcome`; the arrays stay the same objects |
| CyclicalSendTask.Engine.RemoveCanFrame | jni/cyclical_send_task.cpp:159-168 | the new globals and return code are those of `RemoveOutcome` |
| CyclicalSendTask.Engine.RemoveAll | jni/cyclical_send_task.cpp:170-176 | the new globals and return code are those of `RemoveAllOutcome` |
| CyclicalSendTask.Engine.IgnoreAutoIncrementPos | jni/cyclical_send_task.cpp:104-113 | the returned payload is the caller's with the identifier's counter values written over it, and the tables are untouched |
| CyclicalSendTask.Engine.AdoptCanFrame | jni/cyclical_send_task.cpp:178-192 | the new globals and return code are those of `AdoptOutcome` |
| CyclicalSendTask.Engine.AutoIncrementAdd | jni/cyclical_send_task.cpp:89-99 | the new globals and return code are those of `AutoIncrementOutcome` |
| CyclicalSendTask.Engine.ModifyAutocounters | jni/cyclical_send_task.cpp:118-128 | increments every valid counter of the frame's identifier in place and returns the frame with the new values written in |
| CyclicalSendTask.Engine.BumpCounter | jni/cyclical_send_task.cpp:120-125 | one turn of the loop changes only counter `j`, to its bumped value, and writes it into the frame exactly when it applies |
| CyclicalSendTask.Engine.SendFrame | jni/cyclical_send_task.cpp:226-250 | the error counter grows by one exactly when `sendto` reports -1 or any count other than 16 |
| CyclicalSendTask.Engine.ErrorCounter | jni/cyclical_send_task.cpp:252-254 | `statsGetCanFrameErrorCntrCyclicalSend` reports the error count, which is never negative |
| CyclicalSendTask.Engine.FramesSentPerCycle | jni/cyclical_send_task.cpp:256-258 | `statsGetCanFrameFramesSendPerCycle` reports the last pass's frame count, which is between 0 and 90 |
| CyclicalSendTask.Engine.ClearStorage | jni/cyclical_send_task.cpp:74 | the `memset` of the frame table leaves all 90 slots empty |
| CyclicalSendTask.Engine.ClearCounters | jni/cyclical_send_task.cpp:78 | the `memset` of the counter table leaves all 90 counters zero |
| CyclicalSendTask.Engine.TransmitSlot | jni/cyclical_send_task.cpp:206-210 | for a non-empty slot, the counters of its identifier advance in the table, the copy sent is the slot with them overlaid, and the error counter grows by one exactly when that send fails |
| CyclicalSendTask.Engine.ScanOne | jni/cyclical_send_task.cpp:202-211 | one round of the scan keeps the counter table equal to the pass's counters so far, appends the slot's copy exactly when it is non-empty, and adds that send's failure to the error counter |
| CyclicalSendTask.Engine.ScanSlots | jni/cyclical_send_task.cpp:200-212 | the counters after the scan and the frames handed to `sendFrame` are those of `PassResult`, and the error counter grows by the failed sends |
| CyclicalSendTask.Engine.WorkerPass | jni/cyclical_send_task.cpp:199-221 | the new globals, the frames sent and the pause are those of `PassOutcome` |
| CanIdBits.GetSff | jni/cansocket.cpp:322-325 | the 11-bit identifier never exceeds 0x7FF |
| CanIdBits.GetEff | jni/cansocket.cpp:327-330 | the 29-bit identifier never exceeds 0x1FFFFFFF |
| CanIdBits.GetErr | jni/cansocket.cpp:332-335 | the error class never exceeds 0x1FFFFFFF |
| CanIdBits.GetSffBits | jni/cansocket.cpp:322-325 | the 11-bit identifier agrees with the id under the mask 0x7FF and has no bit above it |
| CanIdBits.GetEffBits | jni/cansocket.cpp:327-330 | the 29-bit identifier agrees with the id under the mask 0x1FFFFFFF and has none of the EFF, RTR and ERR flags |
| CanIdBits.GetErrBits | jni/cansocket.cpp:332-335 | the error class agrees with the id under the mask 0x1FFFFFFF and has none of the EFF, RTR and ERR flags |
| CanIdBits.IsSetEffSff | jni/cansocket.cpp:337-340 | the EFF flag test holds exactly when bit 31 is raised, that is, when the id is negative as a `jint` |
| CanIdBits.IsSetRtr | jni/cansocket.cpp:342-345 | the RTR flag test holds exactly when bit 30 is raised |
| CanIdBits.IsSetErr | jni/cansocket.cpp:347-350 | the ERR flag test holds exactly when bit 29 is raised |
| CanIdBits.SetEffSff | jni/cansocket.cpp:352-355 | after setting, the EFF/SFF flag is raised and every other bit is kept |
| CanIdBits.ClearEffSff | jni/cansocket.cpp:367-370 | after clearing, the EFF/SFF flag is lowered and every other bit is kept |
| CanIdBits.SetRtr | jni/cansocket.cpp:357-360 | after setting, the RTR flag is raised and every other bit is kept |
| CanIdBits.ClearRtr | jni/cansocket.cpp:372-375 | after clearing, the RTR flag is lowered and every other bit is kept |
| CanIdBits.SetErr | jni/cansocket.cpp:362-365 | after setting, the ERR flag is raised and every other bit is kept |
| CanIdBits.ClearErr | jni/cansocket.cpp:377-380 | after clearing, the ERR flag is lowered and every other bit is kept |
| CanIdBits.SetEffSffIdempotent | jni/cansocket.cpp:352-355 | setting the EFF/SFF flag twice is setting it once |
| CanIdBits.SetRtrIdempotent | jni/cansocket.cpp:357-360 | setting the RTR flag twice is setting it once |
| CanIdBits.SetErrIdempotent | jni/cansocket.cpp:362-365 | setting the ERR flag twice is setting it once |
| CanIdBits.EffSffRoundTrip | jni/cansocket.cpp:352-370 | clearing after setting the EFF/SFF flag restores the id exactly when the flag was clear |
| CanIdBits.RtrRoundTrip | jni/cansocket.cpp:357-375 | clearing after setting the RTR flag restores the id exactly when the flag was clear |
| CanIdBits.ErrRoundTrip | jni/cansocket.cpp:362-380 | clearing after setting the ERR flag restores the id exactly when the flag was clear |
| CanIdBits.EffSffRtrCommute | jni/cansocket.cpp:352-375 | setting or clearing EFF/SFF commutes with setting or clearing RTR |
| CanIdBits.EffSffErrCommute | jni/cansocket.cpp:352-380 | setting or clearing EFF/SFF commutes with setting or clearing ERR |
| CanIdBits.RtrErrCommute | jni/cansocket.cpp:357-380 | setting or clearing RTR commutes with setting or clearing ERR |
| CanSocketJni.GetCopySize | jni/cansocket.cpp:382-384 | the result is the smaller of the two sizes |
| CanSocketJni.RecvFrame | jni/cansocket.cpp:176-218 | the three error cases in order, and success exactly without them. A received frame keeps the interface index and raw id, and carries the first `min(can_dlc, 8)` data bytes, never more than `can_dlc` |
| CanSocketJni.ThrowOnError | jni/cansocket.cpp:542-544 | a wrapper throws an `IOException` with its message exactly when the return code is non-zero |
| CanSocketJni.StackBuffer | jni/cansocket.cpp:537-538 | the 8-byte buffer starts with the Java array and keeps its old bytes after it |
| CanSocketJni.FullArrayOverwritesBuffer | jni/cansocket.cpp:537-538 | an 8-byte array leaves nothing of the old buffer |
| CanSocketJni.AddThrowsForKnownId | jni/cansocket.cpp:542-544 | adding an identifier already being sent throws the Add message and changes nothing |
| CanSocketJni.SendCyclicallyAdd | jni/cansocket.cpp:530-546 | the engine's Add with the array's length and the stack buffer, and an exception exactly on a non-zero code |
| CanSocketJni.SendCyclicallyRemove | jni/cansocket.cpp:549-555 | the engine's Remove, and an exception exactly on a non-zero code |
| CanSocketJni.RemoveCyclicalAll | jni/cansocket.cpp:558-564 | the engine's RemoveAll, and an exception exactly on a non-zero code |
| CanSocketJni.SendCyclicallyAdopt | jni/cansocket.cpp:570-587 | the engine's Adopt with the stack buffer, and Add's message exactly on a non-zero code |
| CanSocketJni.EnableCyclicallyAutoIncrement | jni/cansocket.cpp:590-596 | the engine's Enable, and an exception exactly on a non-zero code |
| CanSocketJava.HexDigit | src/io/openems/edge/socketcan/driver/CanSocket.java:69 | `hexArray[v]` is an uppercase hex digit worth `v` |
| CanSocketJava.HexRoundTrip | src/io/openems/edge/socketcan/driver/CanSocket.java:71-79 | a hex spelling of bytes is all hex digits and reads back as those bytes |
| CanSocketJava.BytesToHex | src/io/openems/edge/socketcan/driver/CanSocket.java:71-79 | `2n` characters; byte `j` is two uppercase digits at `2j` and `2j+1`, high nibble first; reading them back gives the bytes |
| CanSocketJava.Reversed | src/io/openems/edge/socketcan/driver/CanSocket.java:224-231 | the reversal keeps the length and puts element `n-1-i` at `i` |
| CanSocketJava.ReversedTwice | src/io/openems/edge/socketcan/driver/CanSocket.java:224-231 | reversing twice restores the original |
| CanSocketJava.ReverseBytes | src/io/openems/edge/socketcan/driver/CanSocket.java:224-231 | reverses the array in place and returns the same array |
| CanSocketJava.BitExtract | src/io/openems/edge/socketcan/driver/CanSocket.java:220-222 | the result never exceeds the mask `(1 << k) - 1` |
| CanSocketJava.BitExtractLow29 | src/io/openems/edge/socketcan/driver/CanSocket.java:260 | with `k = 29, p = 1` the result is the 29-bit identifier, the low 29 bits |
| CanSocketJava.GetCanIdSff | src/io/openems/edge/socketcan/driver/CanSocket.java:405-415 | never above 0x7FF, and equal to the masked identifier, so the clamp never fires |
| CanSocketJava.GetCanIdEff | src/io/openems/edge/socketcan/driver/CanSocket.java:371-373 | `getCanId` is at most 0x1FFFFFFF and agrees with the raw id under the mask 0x1FFFFFFF |
| CanSocketJava.Equals | src/io/openems/edge/socketcan/driver/CanSocket.java:455-467 | `equals` holds exactly for a `CanId` with the same raw int: never for null or another class |
| CanSocketJava.HashCode | src/io/openems/edge/socketcan/driver/CanSocket.java:447-453 | subtracting 31 from the hash gives back the raw id, so the hash is one-to-one |
| CanSocketJava.HashCodeMatchesEquals | src/io/openems/edge/socketcan/driver/CanSocket.java:447-467 | two identifiers are `equals` exactly when their hash codes `31 + _canId` agree |
| CanSocketJava.HexDigitsValue | src/io/openems/edge/socketcan/driver/CanSocket.java:393 | `%X` reads back as the value |
| CanSocketJava.FormatHex | src/io/openems/edge/socketcan/driver/CanSocket.java:393 | zero-padded `%0wX`: hex digits that read back as the value, exactly `w` of them when the value fits |
| CanSocketJava.Format0x08X | src/io/openems/edge/socketcan/driver/CanSocket.java:558-560 | `0x%08X` of an int: "0x" and eight digits reading back as its unsigned pattern |
| CanSocketJava.GetCanIdSffHex | src/io/openems/edge/socketcan/driver/CanSocket.java:382-394 | exactly three uppercase hex digits that read back as the 11-bit identifier |
| CanSocketJava.GetCanIdEffHex | src/io/openems/edge/socketcan/driver/CanSocket.java:399-403 | "0x" and eight uppercase digits that read back as the 29-bit identifier |
| CanSocketJava.ExactFilter | src/io/openems/edge/socketcan/driver/CanSocket.java:508-510 | a filter built from an id alone is exact |
| CanSocketJava.MatchId | src/io/openems/edge/socketcan/driver/CanSocket.java:591-594 | a filter accepts its own 29-bit identifier whatever its mask, and a filter with mask `ALL` accepts every id |
| CanSocketJava.IsExact | src/io/openems/edge/socketcan/driver/CanSocket.java:580-582 | an exact filter compares all 29 identifier bits and the EFF and RTR flags, but not the ERR flag |
| CanSocketJava.GetIdHex | src/io/openems/edge/socketcan/driver/CanSocket.java:549-551 | "0x" and eight uppercase hex digits that read back as the filter's 29-bit identifier |
| CanSocketJava.GetMaskHex | src/io/openems/edge/socketcan/driver/CanSocket.java:558-560 | "0x" and eight uppercase hex digits that read back as the mask's unsigned bit pattern |
| CanSocketJava.IsInverted | src/io/openems/edge/socketcan/driver/CanSocket.java:571-573 | never true |
| CanSocketJava.MatchIdDifference | src/io/openems/edge/socketcan/driver/CanSocket.java:591-594 | a filter matches an id exactly when the two differ in no bit of the mask |
| CanSocketJava.MatchAll | src/io/openems/edge/socketcan/driver/CanSocket.java:486 | with mask `ALL`, and so for `ANY`, every id matches |
| CanSocketJava.ExactMatch | src/io/openems/edge/socketcan/driver/CanSocket.java:580-594 | an exact filter matches an id exactly when the id without its ERR flag equals the filter's 29-bit identifier |
| CanSocketJava.NoneFilterAccepts | src/io/openems/edge/socketcan/driver/CanSocket.java:491 | `NONE` matches exactly the ids 0 and 0x20000000 |
| CanSocketJava.FilterItem | src/io/openems/edge/socketcan/driver/CanSocket.java:208 | an item is 21 characters with the colon in the middle and no comma |
| CanSocketJava.JoinCommas | src/io/openems/edge/socketcan/driver/CanSocket.java:207-212 | joining `n` comma-free items puts exactly `n - 1` commas in the string |
| CanSocketJava.SetFiltersString | src/io/openems/edge/socketcan/driver/CanSocket.java:194-214 | the string passed to the native side is the filters' items joined by commas |
| CanSocketJava.FilterStringCommas | src/io/openems/edge/socketcan/driver/CanSocket.java:194-214 | no filters give the empty string; `n` filters give exactly `n - 1` commas and no trailing comma |
| CanSocketJava.NewCanFrameFromNative | src/io/openems/edge/socketcan/driver/CanSocket.java:706-713 | throws `IllegalArgumentException` exactly when more than 8 data bytes arrive; otherwise the frame keeps the interface index, raw id and data |

## Left out

- Threads and time are not modelled. `pthread_create` and `exit` in `initThread` become the
  `running` flag. The endless `while (1)` is one pass, and `usleep` is the returned pause.
- The `syncAdjust` busy-wait is left out. Every operation is taken as atomic, so the worker
  and the JNI calls never interleave.
- `sendto` in `sendFrame` is a parameter of the pass: the byte count the socket reports for
  each frame. Every other socket, `ioctl`, `bind`, `recvfrom` and `setsockopt` wrapper is
  left out; `_recvFrame` takes what `recvfrom` filled in as its inputs.
- The native `_setFilters`/`_getFilters` are left out: string scanning into kernel filter
  structures. The Java `getFilters` only prints what it reads, so it is also left out;
  `reverseBytes` and `bitExtract`, which it calls, are modelled.
- Native memory hazards are preconditions, not behaviour:
  - the wrappers copy the Java array into an 8-byte stack buffer unchecked, so
    `|data| <= 8` is required;
  - Enable before the first Add would write index -1, so it requires `autoIncrementIdx >= 0`.
- The `ExceptionCheck` returns after `GetArrayLength` and `GetByteArrayRegion` are left out;
  they are taken only when the Java array is null.
- `CanSocketJni.RecvFrame`: the model assumes the class `_recvFrame` looks up has this
  package's `CanFrame(int, int, byte[])` constructor (`(II[B)V`) with its length check. The
  code looks up `org/clehne/revpi/canbus/CanSocket$CanFrame`, a class in another package than
  the one `CanSocket` is declared in. Unless a class of that name is on the class path,
  `FindClass` returns NULL on every received frame, and `recv` then returns null with
  `NoClassDefFoundError` pending. The model does not represent that result.
- In `_recvFrame`, the `GetMethodID` and `NewByteArray` failure paths are also left out. So are the receive-error counter `statsErrorCntrReceive`, the send counter of
  `_sendFrame`, and the message text of an `errno`.
- `CyclicalSendTask.AddLatchesPeriod`: the period `cycleTime * 1000` is an unbounded integer,
  so the 32-bit overflow of a cycle time above about 2.1 million ms is not modelled.
- `CyclicalSendTask.Engine.SendFrame`: `statsErrorCntrCyclicalSend` is an unbounded
  integer, so its 32-bit wrap after about 2^31 failures is not modelled.
- The stored frame length `len` is an unbounded integer, as the JNI layer passes it. The
  `(__u8)` cast of `can_dlc` keeps its low eight bits (`CyclicalSendTask.ToWire`).
- The `CanId` setters and flag getters in Java are left out. Each is a direct call of the
  native function modelled in `CanIdBits`.
- `CanId(String)` and `CanFilter(CanId, String)` are left out: they depend on Java's
  `Integer.parseInt`.
- `CanFilter.equals`, `CanFilter.hashCode`, the `CanInterface` members and all `toString`
  methods are left out. Only the members listed above are in scope.
- `cyclicalInitLowLevelThread` is not part of this model; it has no definition in the files
  modelled.
- jni/utils.cpp (syslog, throwing JNI exceptions), the JNI headers, and
  `StaticLibLoaderUtils`/`loadLibFromJar`/`copyStream` are left out: logging, declarations,
  and library loading from a JAR.
