/**
 * BlobParameter: a parameter whose value is an opaque byte buffer and its
 * size. The constructor adopts the caller's buffer; `SetValue` replaces the
 * stored buffer with a private copy of the caller's bytes.
 *
 * The second half of the module is a trace model of the allocator calls in
 * setValue, with buffers named by addresses, which exposes the order in
 * which the old buffer is released and the new one filled.
 */
module Blob {
  import opened Events

  class BlobParameter {
    const name: string
    const minValue: real
    const maxValue: real
    const defaultValue: real
    var data: array?<byte>
    var dataSize: nat

    /** The given buffer and size are stored as is: no copy is made. */
    constructor (inName: string, inData: array?<byte> := null, inDataSize: nat := 0)
      ensures name == inName && data == inData && dataSize == inDataSize
      ensures minValue == 0.0 && maxValue == 1.0 && defaultValue == 0.0
    {
      name := inName;
      minValue := 0.0;
      maxValue := 1.0;
      defaultValue := 0.0;
      data := inData;
      dataSize := inDataSize;
    }

    /** "(Data)" exactly when a buffer is stored and its size is positive, "(Null)" otherwise. */
    function GetDisplayText(): (text: string)
      reads this
      ensures text == "(Data)" <==> data != null && dataSize > 0
      ensures text == "(Data)" || text == "(Null)"
    {
      if data != null && dataSize > 0 then "(Data)" else "(Null)"
    }

    /** A blob has no scale: its scaled value is always 0. */
    function GetScaledValue(): (v: real)
      ensures v == 0.0
    {
      0.0
    }

    /** The stored buffer itself, not a copy. */
    function GetData(): (d: array?<byte>)
      reads this
      ensures d == data
    {
      data
    }

    function GetDataSize(): (n: nat)
      reads this
      ensures n == dataSize
    {
      dataSize
    }

    /** Scaling a blob is ignored. */
    method SetScaledValue(value: real)
      ensures GetScaledValue() == 0.0
    {
    }

    /**
     * Store a copy of the first `inDataSize` bytes of `inData`. Null input or
     * a zero size is ignored. The copy is a new buffer, distinct from the
     * caller's, and its bytes equal the input's even when the input is the
     * currently stored buffer.
     */
    method SetValue(inData: array?<byte>, inDataSize: nat)
      requires inData != null ==> inDataSize <= inData.Length
      modifies this
      ensures inData == null || inDataSize == 0 ==> data == old(data) && dataSize == old(dataSize)
      ensures inData != null && inDataSize > 0 ==>
                && fresh(data) && data != inData
                && data.Length == inDataSize && dataSize == inDataSize
                && data[..] == inData[..inDataSize]
                && GetDisplayText() == "(Data)"
      ensures inData != null ==> inData[..] == old(inData[..])
    {
      if inData == null || inDataSize == 0 {
        return;
      }
      var copy := new byte[inDataSize];
      for i := 0 to inDataSize
        invariant copy[..i] == inData[..i]
      {
        copy[i] := inData[i];
      }
      data := copy;
      dataSize := inDataSize;
    }
  }

  /** The allocator calls of one setValue, on buffers named by their addresses. */
  datatype MemOp =
    | Free(buffer: nat)
    | Malloc(buffer: nat)
    | Memcpy(dst: nat, src: nat, size: nat)

  datatype Slot = Slot(data: Option<nat>, dataSize: nat)

  datatype Option<T> = None | Some(value: T)

  /** Some step copies from a buffer that an earlier step released. */
  ghost predicate UseAfterFree(ops: seq<MemOp>)
  {
    exists i, j :: 0 <= i < j < |ops| && ops[i].Free? && ops[j].Memcpy? && ops[j].src == ops[i].buffer
  }

  /**
   * setValue as written: release the stored buffer, allocate `newBuffer`, copy
   * the input into it. Null input or a zero size does nothing.
   */
  function SetValueAsWritten(slot: Slot, inData: Option<nat>, inDataSize: nat, newBuffer: nat): (ops: seq<MemOp>)
    ensures inData == None || inDataSize == 0 <==> ops == []
  {
    if inData == None || inDataSize == 0 then []
    else
      (if slot.data.Some? then [Free(slot.data.value)] else [])
      + [Malloc(newBuffer), Memcpy(newBuffer, inData.value, inDataSize)]
  }

  /** setValue with the copy made first and the old buffer released last. */
  function SetValueCopyFirst(slot: Slot, inData: Option<nat>, inDataSize: nat, newBuffer: nat): (ops: seq<MemOp>)
    ensures inData == None || inDataSize == 0 <==> ops == []
  {
    if inData == None || inDataSize == 0 then []
    else
      [Malloc(newBuffer), Memcpy(newBuffer, inData.value, inDataSize)]
      + (if slot.data.Some? then [Free(slot.data.value)] else [])
  }

  /**
   * The order as written reads freed memory exactly when a buffer is
   * stored and the input is that same buffer:
   * `setValue(getData(), getDataSize())` on a non-empty blob.
   */
  lemma AsWrittenUseAfterFreeIffSelfAssignment(slot: Slot, inData: Option<nat>, inDataSize: nat, newBuffer: nat)
    ensures UseAfterFree(SetValueAsWritten(slot, inData, inDataSize, newBuffer))
        <==> inData != None && inDataSize > 0 && slot.data.Some? && inData == slot.data
  {
    var ops := SetValueAsWritten(slot, inData, inDataSize, newBuffer);
    if inData != None && inDataSize > 0 && slot.data.Some? {
      assert ops == [Free(slot.data.value), Malloc(newBuffer), Memcpy(newBuffer, inData.value, inDataSize)];
      if inData == slot.data {
        assert ops[0].Free? && ops[2].Memcpy? && ops[2].src == ops[0].buffer;
      }
    } else if inData != None && inDataSize > 0 {
      assert ops == [Malloc(newBuffer), Memcpy(newBuffer, inData.value, inDataSize)];
    }
  }

  /** The corrected order never reads a released buffer, for every input. */
  lemma CopyFirstNeverUseAfterFree(slot: Slot, inData: Option<nat>, inDataSize: nat, newBuffer: nat)
    ensures !UseAfterFree(SetValueCopyFirst(slot, inData, inDataSize, newBuffer))
  {
    var ops := SetValueCopyFirst(slot, inData, inDataSize, newBuffer);
    if inData != None && inDataSize > 0 {
      if slot.data.Some? {
        assert ops == [Malloc(newBuffer), Memcpy(newBuffer, inData.value, inDataSize), Free(slot.data.value)];
      } else {
        assert ops == [Malloc(newBuffer), Memcpy(newBuffer, inData.value, inDataSize)];
      }
    }
  }

  /** A concrete instance: buffer 7 of 4 bytes assigned to itself. */
  lemma SelfAssignmentWitness()
    ensures UseAfterFree(SetValueAsWritten(Slot(Some(7), 4), Some(7), 4, 8))
    ensures !UseAfterFree(SetValueCopyFirst(Slot(Some(7), 4), Some(7), 4, 8))
  {
    AsWrittenUseAfterFreeIffSelfAssignment(Slot(Some(7), 4), Some(7), 4, 8);
    CopyFirstNeverUseAfterFree(Slot(Some(7), 4), Some(7), 4, 8);
  }
}
