/** The `can_id` layout of Linux SocketCAN (linux/can.h) and the JNI
    functions of jni/cansocket.cpp that extract the identifier and test,
    set and clear its three flags. A `jint` is held as its 32-bit pattern. */
module CanIdBits {

  /** Bit `i` of `x`. */
  predicate Bit(x: bv32, i: bv32)
    requires i < 32
  {
    x & (1 << i) != 0
  }

  /** `_getCANID_SFF`: bits 0-10 of the id, every higher bit cleared. */
  function GetSff(canId: bv32): (r: bv32)
    ensures r <= 0x7FF
  {
    canId & 0x0000_07FF  // CAN_SFF_MASK
  }

  /** `_getCANID_EFF`: bits 0-28 of the id; the three flags are cleared. */
  function GetEff(canId: bv32): (r: bv32)
    ensures r <= 0x1FFF_FFFF
  {
    canId & 0x1FFF_FFFF  // CAN_EFF_MASK
  }

  /** `_getCANID_ERR`: the error class, bits 0-28 of the id. */
  function GetErr(canId: bv32): (r: bv32)
    ensures r <= 0x1FFF_FFFF
  {
    canId & 0x1FFF_FFFF  // CAN_ERR_MASK
  }

  /** The 11-bit identifier agrees with the id on bits 0-10 and has no
      higher bit. */
  lemma GetSffBits(canId: bv32)
    ensures GetSff(canId) & 0x0000_07FF == canId & 0x0000_07FF
    ensures GetSff(canId) & 0xFFFF_F800 == 0
  {
  }

  /** The 29-bit identifier agrees with the id on bits 0-28 and has none
      of the three flag bits. */
  lemma GetEffBits(canId: bv32)
    ensures GetEff(canId) & 0x1FFF_FFFF == canId & 0x1FFF_FFFF
    ensures !IsSetEffSff(GetEff(canId)) && !IsSetRtr(GetEff(canId)) && !IsSetErr(GetEff(canId))
  {
  }

  /** The error class agrees with the id on bits 0-28 and has none of the
      three flag bits. */
  lemma GetErrBits(canId: bv32)
    ensures GetErr(canId) & 0x1FFF_FFFF == canId & 0x1FFF_FFFF
    ensures !IsSetEffSff(GetErr(canId)) && !IsSetRtr(GetErr(canId)) && !IsSetErr(GetErr(canId))
  {
  }

  /** `_isSetEFFSFF`: bit 31, `CAN_EFF_FLAG`, is raised; that is, the id is
      negative as a `jint`. */
  predicate IsSetEffSff(canId: bv32)
    ensures IsSetEffSff(canId) <==> Bit(canId, 31)
    ensures IsSetEffSff(canId) <==> canId >= 0x8000_0000
  {
    canId & 0x8000_0000 != 0
  }

  /** `_setEFFSFF`: raises bit 31 and keeps every other bit of the id. */
  function SetEffSff(canId: bv32): (r: bv32)
    ensures IsSetEffSff(r)
    ensures r & 0x7FFF_FFFF == canId & 0x7FFF_FFFF
  {
    canId | 0x8000_0000
  }

  /** `_clearEFFSFF`: lowers bit 31 and keeps every other bit of the id. */
  function ClearEffSff(canId: bv32): (r: bv32)
    ensures !IsSetEffSff(r)
    ensures r & 0x7FFF_FFFF == canId & 0x7FFF_FFFF
  {
    canId & 0x7FFF_FFFF
  }

  /** `_isSetRTR`: bit 30, `CAN_RTR_FLAG`, is raised. */
  predicate IsSetRtr(canId: bv32)
    ensures IsSetRtr(canId) <==> Bit(canId, 30)
  {
    canId & 0x4000_0000 != 0
  }

  /** `_setRTR`: raises bit 30 and keeps every other bit of the id. */
  function SetRtr(canId: bv32): (r: bv32)
    ensures IsSetRtr(r)
    ensures r & 0xBFFF_FFFF == canId & 0xBFFF_FFFF
  {
    canId | 0x4000_0000
  }

  /** `_clearRTR`: lowers bit 30 and keeps every other bit of the id. */
  function ClearRtr(canId: bv32): (r: bv32)
    ensures !IsSetRtr(r)
    ensures r & 0xBFFF_FFFF == canId & 0xBFFF_FFFF
  {
    canId & 0xBFFF_FFFF
  }

  /** `_isSetERR`: bit 29, `CAN_ERR_FLAG`, is raised. */
  predicate IsSetErr(canId: bv32)
    ensures IsSetErr(canId) <==> Bit(canId, 29)
  {
    canId & 0x2000_0000 != 0
  }

  /** `_setERR`: raises bit 29 and keeps every other bit of the id. */
  function SetErr(canId: bv32): (r: bv32)
    ensures IsSetErr(r)
    ensures r & 0xDFFF_FFFF == canId & 0xDFFF_FFFF
  {
    canId | 0x2000_0000
  }

  /** `_clearERR`: lowers bit 29 and keeps every other bit of the id. */
  function ClearErr(canId: bv32): (r: bv32)
    ensures !IsSetErr(r)
    ensures r & 0xDFFF_FFFF == canId & 0xDFFF_FFFF
  {
    canId & 0xDFFF_FFFF
  }

  /** Raising the EFF/SFF flag twice is raising it once. */
  lemma SetEffSffIdempotent(canId: bv32)
    ensures SetEffSff(SetEffSff(canId)) == SetEffSff(canId)
  {
    assert SetEffSff(SetEffSff(canId)) == ((canId | 0x8000_0000) | 0x8000_0000);
  }

  /** Clearing the EFF/SFF flag right after raising it gives back the id
      exactly when the flag was clear to begin with. */
  lemma EffSffRoundTrip(canId: bv32)
    ensures ClearEffSff(SetEffSff(canId)) == canId <==> !IsSetEffSff(canId)
  {
    assert ClearEffSff(SetEffSff(canId)) == ((canId | 0x8000_0000) & 0x7FFF_FFFF);
  }

  /** Raising the RTR flag twice is raising it once. */
  lemma SetRtrIdempotent(canId: bv32)
    ensures SetRtr(SetRtr(canId)) == SetRtr(canId)
  {
    assert SetRtr(SetRtr(canId)) == ((canId | 0x4000_0000) | 0x4000_0000);
  }

  /** Clearing the RTR flag right after raising it gives back the id
      exactly when the flag was clear to begin with. */
  lemma RtrRoundTrip(canId: bv32)
    ensures ClearRtr(SetRtr(canId)) == canId <==> !IsSetRtr(canId)
  {
    assert ClearRtr(SetRtr(canId)) == ((canId | 0x4000_0000) & 0xBFFF_FFFF);
  }

  /** Raising the ERR flag twice is raising it once. */
  lemma SetErrIdempotent(canId: bv32)
    ensures SetErr(SetErr(canId)) == SetErr(canId)
  {
    assert SetErr(SetErr(canId)) == ((canId | 0x2000_0000) | 0x2000_0000);
  }

  /** Clearing the ERR flag right after raising it gives back the id
      exactly when the flag was clear to begin with. */
  lemma ErrRoundTrip(canId: bv32)
    ensures ClearErr(SetErr(canId)) == canId <==> !IsSetErr(canId)
  {
    assert ClearErr(SetErr(canId)) == ((canId | 0x2000_0000) & 0xDFFF_FFFF);
  }

  // One pair of operations per helper; `EffSffRtrCommute` collects the four.

  lemma SetEffSffSetRtrCommute(canId: bv32)
    ensures SetEffSff(SetRtr(canId)) == SetRtr(SetEffSff(canId))
  {
    assert SetEffSff(SetRtr(canId)) == ((canId | 0x4000_0000) | 0x8000_0000);
    assert SetRtr(SetEffSff(canId)) == ((canId | 0x8000_0000) | 0x4000_0000);
  }

  lemma SetEffSffClearRtrCommute(canId: bv32)
    ensures SetEffSff(ClearRtr(canId)) == ClearRtr(SetEffSff(canId))
  {
    assert SetEffSff(ClearRtr(canId)) == ((canId & 0xBFFF_FFFF) | 0x8000_0000);
    assert ClearRtr(SetEffSff(canId)) == ((canId | 0x8000_0000) & 0xBFFF_FFFF);
  }

  lemma ClearEffSffSetRtrCommute(canId: bv32)
    ensures ClearEffSff(SetRtr(canId)) == SetRtr(ClearEffSff(canId))
  {
    assert ClearEffSff(SetRtr(canId)) == ((canId | 0x4000_0000) & 0x7FFF_FFFF);
    assert SetRtr(ClearEffSff(canId)) == ((canId & 0x7FFF_FFFF) | 0x4000_0000);
  }

  lemma ClearEffSffClearRtrCommute(canId: bv32)
    ensures ClearEffSff(ClearRtr(canId)) == ClearRtr(ClearEffSff(canId))
  {
    assert ClearEffSff(ClearRtr(canId)) == ((canId & 0xBFFF_FFFF) & 0x7FFF_FFFF);
    assert ClearRtr(ClearEffSff(canId)) == ((canId & 0x7FFF_FFFF) & 0xBFFF_FFFF);
  }

  /** Setting or clearing the EFF/SFF flag commutes with setting or
      clearing the RTR flag. */
  lemma EffSffRtrCommute(canId: bv32)
    ensures SetEffSff(SetRtr(canId)) == SetRtr(SetEffSff(canId))
    ensures SetEffSff(ClearRtr(canId)) == ClearRtr(SetEffSff(canId))
    ensures ClearEffSff(SetRtr(canId)) == SetRtr(ClearEffSff(canId))
    ensures ClearEffSff(ClearRtr(canId)) == ClearRtr(ClearEffSff(canId))
  {
    SetEffSffSetRtrCommute(canId);
    SetEffSffClearRtrCommute(canId);
    ClearEffSffSetRtrCommute(canId);
    ClearEffSffClearRtrCommute(canId);
  }

  // One pair of operations per helper; `EffSffErrCommute` collects the four.

  lemma SetEffSffSetErrCommute(canId: bv32)
    ensures SetEffSff(SetErr(canId)) == SetErr(SetEffSff(canId))
  {
    assert SetEffSff(SetErr(canId)) == ((canId | 0x2000_0000) | 0x8000_0000);
    assert SetErr(SetEffSff(canId)) == ((canId | 0x8000_0000) | 0x2000_0000);
  }

  lemma SetEffSffClearErrCommute(canId: bv32)
    ensures SetEffSff(ClearErr(canId)) == ClearErr(SetEffSff(canId))
  {
    assert SetEffSff(ClearErr(canId)) == ((canId & 0xDFFF_FFFF) | 0x8000_0000);
    assert ClearErr(SetEffSff(canId)) == ((canId | 0x8000_0000) & 0xDFFF_FFFF);
  }

  lemma ClearEffSffSetErrCommute(canId: bv32)
    ensures ClearEffSff(SetErr(canId)) == SetErr(ClearEffSff(canId))
  {
    assert ClearEffSff(SetErr(canId)) == ((canId | 0x2000_0000) & 0x7FFF_FFFF);
    assert SetErr(ClearEffSff(canId)) == ((canId & 0x7FFF_FFFF) | 0x2000_0000);
  }

  lemma ClearEffSffClearErrCommute(canId: bv32)
    ensures ClearEffSff(ClearErr(canId)) == ClearErr(ClearEffSff(canId))
  {
    assert ClearEffSff(ClearErr(canId)) == ((canId & 0xDFFF_FFFF) & 0x7FFF_FFFF);
    assert ClearErr(ClearEffSff(canId)) == ((canId & 0x7FFF_FFFF) & 0xDFFF_FFFF);
  }

  /** Setting or clearing the EFF/SFF flag commutes with setting or
      clearing the ERR flag. */
  lemma EffSffErrCommute(canId: bv32)
    ensures SetEffSff(SetErr(canId)) == SetErr(SetEffSff(canId))
    ensures SetEffSff(ClearErr(canId)) == ClearErr(SetEffSff(canId))
    ensures ClearEffSff(SetErr(canId)) == SetErr(ClearEffSff(canId))
    ensures ClearEffSff(ClearErr(canId)) == ClearErr(ClearEffSff(canId))
  {
    SetEffSffSetErrCommute(canId);
    SetEffSffClearErrCommute(canId);
    ClearEffSffSetErrCommute(canId);
    ClearEffSffClearErrCommute(canId);
  }

  // One pair of operations per helper; `RtrErrCommute` collects the four.

  lemma SetRtrSetErrCommute(canId: bv32)
    ensures SetRtr(SetErr(canId)) == SetErr(SetRtr(canId))
  {
    assert SetRtr(SetErr(canId)) == ((canId | 0x2000_0000) | 0x4000_0000);
    assert SetErr(SetRtr(canId)) == ((canId | 0x4000_0000) | 0x2000_0000);
  }

  lemma SetRtrClearErrCommute(canId: bv32)
    ensures SetRtr(ClearErr(canId)) == ClearErr(SetRtr(canId))
  {
    assert SetRtr(ClearErr(canId)) == ((canId & 0xDFFF_FFFF) | 0x4000_0000);
    assert ClearErr(SetRtr(canId)) == ((canId | 0x4000_0000) & 0xDFFF_FFFF);
  }

  lemma ClearRtrSetErrCommute(canId: bv32)
    ensures ClearRtr(SetErr(canId)) == SetErr(ClearRtr(canId))
  {
    assert ClearRtr(SetErr(canId)) == ((canId | 0x2000_0000) & 0xBFFF_FFFF);
    assert SetErr(ClearRtr(canId)) == ((canId & 0xBFFF_FFFF) | 0x2000_0000);
  }

  lemma ClearRtrClearErrCommute(canId: bv32)
    ensures ClearRtr(ClearErr(canId)) == ClearErr(ClearRtr(canId))
  {
    assert ClearRtr(ClearErr(canId)) == ((canId & 0xDFFF_FFFF) & 0xBFFF_FFFF);
    assert ClearErr(ClearRtr(canId)) == ((canId & 0xBFFF_FFFF) & 0xDFFF_FFFF);
  }

  /** Setting or clearing the RTR flag commutes with setting or
      clearing the ERR flag. */
  lemma RtrErrCommute(canId: bv32)
    ensures SetRtr(SetErr(canId)) == SetErr(SetRtr(canId))
    ensures SetRtr(ClearErr(canId)) == ClearErr(SetRtr(canId))
    ensures ClearRtr(SetErr(canId)) == SetErr(ClearRtr(canId))
    ensures ClearRtr(ClearErr(canId)) == ClearErr(ClearRtr(canId))
  {
    SetRtrSetErrCommute(canId);
    SetRtrClearErrCommute(canId);
    ClearRtrSetErrCommute(canId);
    ClearRtrClearErrCommute(canId);
  }
}
