/** The JNI glue of jni/cansocket.cpp that the Java side depends on:
    `getCopySize`, what `_recvFrame` makes of a received frame, and the
    wrappers that hand the cyclic-send requests to the engine of
    jni/cyclical_send_task.cpp and turn its return codes into Java
    exceptions. */
module CanSocketJni {
  import opened CanBytes
  import opened CanSocketJava
  import CyclicalSendTask

  /** `getCopySize`: the smaller of the two sizes. */
  function GetCopySize(sourceSize: nat, destSize: nat): (r: nat)
    ensures r <= sourceSize && r <= destSize
    ensures r == sourceSize || r == destSize
  {
    if destSize <= sourceSize then destSize else sourceSize
  }

  /** `sizeof(struct can_frame)`: the id, the length byte, three padding
      bytes and eight data bytes. */
  const CanFrameSize := 16
  /** `offsetof(struct can_frame, data)`. */
  const CanFrameDataOffset := 8

  /** The address-length test of `_recvFrame`: with `CAN_NPROTO` 8 the
      kernel reports 8 bytes, with 7 the full `sizeof(addr)`; any other
      protocol count accepts every length. */
  predicate AddressAccepted(canNproto: int, addrLen: int, addrSize: int)
  {
    !((canNproto == 8 && addrLen != 8) || (canNproto == 7 && addrLen != addrSize))
  }

  /** `_recvFrame` after `recvfrom` reported `nbytes` and filled in the
      address and the frame: an unexpected address length throws
      `IllegalArgumentException`, a failed call throws the `errno`, a short
      frame throws `IOException`; otherwise the Java frame carries the
      interface index, the raw identifier and the first `min(can_dlc, 8)`
      data bytes, so its constructor never rejects the data. */
  function RecvFrame(canNproto: int, addrLen: int, addrSize: int, nbytes: int, errno: int,
                     ifIndex: Int32, canId: bv32, canDlc: Byte, frameData: seq<Byte>)
    : (r: Result<CanFrame, JavaException>)
    requires |frameData| == 8
    ensures !AddressAccepted(canNproto, addrLen, addrSize) ==>
              r == Err(IllegalArgumentException("illegal AF_CAN address"))
    ensures AddressAccepted(canNproto, addrLen, addrSize) && nbytes == -1 ==>
              r == Err(IOExceptionErrno(errno))
    ensures AddressAccepted(canNproto, addrLen, addrSize) && nbytes != -1 && nbytes != CanFrameSize ==>
              r == Err(IOException("invalid length of received frame"))
    ensures r.Ok? <==> AddressAccepted(canNproto, addrLen, addrSize) && nbytes == CanFrameSize
    ensures r.Ok? ==> r.value.canIf.ifIndex == ifIndex && r.value.canId.raw == canId
    ensures r.Ok? ==> |r.value.data| <= 8 && |r.value.data| <= canDlc
    ensures r.Ok? ==> r.value.data == frameData[..if canDlc <= 8 then canDlc else 8]
  {
    if !AddressAccepted(canNproto, addrLen, addrSize) then
      Err(IllegalArgumentException("illegal AF_CAN address"))
    else if nbytes == -1 then
      Err(IOExceptionErrno(errno))
    else if nbytes != CanFrameSize then
      Err(IOException("invalid length of received frame"))
    else
      var available := nbytes - CanFrameDataOffset;
      var fsize := if available < canDlc then available else canDlc;
      NewCanFrameFromNative(ifIndex, canId, frameData[..fsize])
  }

  // ---------------------------------------------------------------------
  // The cyclic-send wrappers

  /** The messages the wrappers throw. */
  const AddFailed := "Frame can not be added to cyclial send task"
  const RemoveFailed := "Frame can not be removed from cyclial send task"
  const RemoveAllFailed := "cyclial send task can not be cleared"
  const AutoIncrementFailed := "CAN address can not be added as cyclical autoincrement mechanism"

  /** `if (rc) throwIOExceptionMsg(env, message)`: any non-zero return code
      of the engine, including -1, becomes an `IOException` with the
      wrapper's message; zero returns normally. */
  function ThrowOnError(rc: int, message: string): (r: Option<JavaException>)
    ensures r.Some? <==> rc != 0
    ensures r.Some? ==> r.value == IOException(message)
  {
    if rc != 0 then Some(IOException(message)) else None
  }

  /** The 8-byte stack buffer the Add and Adopt wrappers pass on: the Java
      array's bytes first, then whatever the buffer held before. */
  function StackBuffer(data: seq<Byte>, stale: CyclicalSendTask.Payload): (r: CyclicalSendTask.Payload)
    requires |data| <= 8
    ensures r[..|data|] == data && r[|data|..] == stale[|data|..]
  {
    data + stale[|data|..]
  }

  /** A full eight-byte array leaves nothing of the old buffer contents. */
  lemma FullArrayOverwritesBuffer(data: seq<Byte>, stale: CyclicalSendTask.Payload)
    requires |data| == 8
    ensures StackBuffer(data, stale) == data
  {
    assert StackBuffer(data, stale)[..8] == data;
  }

  /** Adding an identifier the task already sends throws the Add message,
      whatever the rest of the request. */
  lemma AddThrowsForKnownId(st: CyclicalSendTask.State, fd: int, ifIdx: int, canid: int,
                            data: seq<Byte>, cycleTime: int, stale: CyclicalSendTask.Payload, i: int)
    requires CyclicalSendTask.Inv(st) && st.storageIdx >= 0 && |data| <= 8
    requires 0 <= i < st.storageIdx && st.storage[i].canId == canid
    ensures var out := CyclicalSendTask.AddOutcome(st, fd, ifIdx, canid, |data|, StackBuffer(data, stale), cycleTime);
            out.0 == st && ThrowOnError(out.1, AddFailed) == Some(IOException(AddFailed))
  {
    CyclicalSendTask.AddRejectsDuplicate(st, fd, ifIdx, canid, |data|, StackBuffer(data, stale), cycleTime, i);
  }

  /** `_sendCyclicallyAdd`: copy the array into the stack buffer and add the
      frame with the array's length as its length. */
  method SendCyclicallyAdd(task: CyclicalSendTask.Engine, fd: int, ifIdx: int, canid: int,
                           data: seq<Byte>, cycleTime: int, stale: CyclicalSendTask.Payload)
    returns (ex: Option<JavaException>)
    requires task.Valid() && |data| <= 8
    modifies task, task.canStorage, task.canAutoIncrement
    ensures var out := CyclicalSendTask.AddOutcome(old(task.Abs()), fd, ifIdx, canid, |data|, StackBuffer(data, stale), cycleTime);
            task.Abs() == out.0 && ex == ThrowOnError(out.1, AddFailed)
    ensures task.Valid()
  {
    var buffer := StackBuffer(data, stale);
    var rc := task.AddCanFrame(fd, ifIdx, canid, |data|, buffer, cycleTime);
    ex := ThrowOnError(rc, AddFailed);
  }

  /** `_sendCyclicallyRemove`: only the identifier is used. */
  method SendCyclicallyRemove(task: CyclicalSendTask.Engine, canid: int) returns (ex: Option<JavaException>)
    requires task.Valid()
    modifies task.canStorage
    ensures var out := CyclicalSendTask.RemoveOutcome(old(task.Abs()), canid);
            task.Abs() == out.0 && ex == ThrowOnError(out.1, RemoveFailed)
    ensures task.Valid()
  {
    var rc := task.RemoveCanFrame(canid);
    ex := ThrowOnError(rc, RemoveFailed);
  }

  /** `_removeCyclicalAll`. */
  method RemoveCyclicalAll(task: CyclicalSendTask.Engine) returns (ex: Option<JavaException>)
    requires task.Valid()
    modifies task, task.canStorage
    ensures var out := CyclicalSendTask.RemoveAllOutcome(old(task.Abs()));
            task.Abs() == out.0 && ex == ThrowOnError(out.1, RemoveAllFailed)
    ensures task.Valid()
  {
    var rc := task.RemoveAll();
    ex := ThrowOnError(rc, RemoveAllFailed);
  }

  /** `_sendCyclicallyAdopt`: the same buffer as Add, and Add's message. */
  method SendCyclicallyAdopt(task: CyclicalSendTask.Engine, canid: int, data: seq<Byte>,
                             stale: CyclicalSendTask.Payload)
    returns (ex: Option<JavaException>)
    requires task.Valid() && |data| <= 8
    modifies task.canStorage
    ensures var out := CyclicalSendTask.AdoptOutcome(old(task.Abs()), canid, |data|, StackBuffer(data, stale));
            task.Abs() == out.0 && ex == ThrowOnError(out.1, AddFailed)
    ensures task.Valid()
  {
    var buffer := StackBuffer(data, stale);
    var rc := task.AdoptCanFrame(canid, |data|, buffer);
    ex := ThrowOnError(rc, AddFailed);
  }

  /** `_enableCyclicallyAutoIncrement`: a full counter table (-1) throws. */
  method EnableCyclicallyAutoIncrement(task: CyclicalSendTask.Engine, canAddress: int, bytePos: int)
    returns (ex: Option<JavaException>)
    requires task.Valid() && task.autoIncrementIdx >= 0
    modifies task, task.canAutoIncrement
    ensures var out := CyclicalSendTask.AutoIncrementOutcome(old(task.Abs()), canAddress, bytePos);
            task.Abs() == out.0 && ex == ThrowOnError(out.1, AutoIncrementFailed)
    ensures task.Valid()
  {
    var rc := task.AutoIncrementAdd(canAddress, bytePos);
    ex := ThrowOnError(rc, AutoIncrementFailed);
  }
}
