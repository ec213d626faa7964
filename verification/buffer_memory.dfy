// The memory object the disassembler reads code bytes through: a byte
// buffer of a given length seen at addresses 0 up to that length.

module BufferMemory {
  import opened Common

  /** The byte at `addr` of a buffer, when the address is inside it. */
  function ByteAt(bytes: seq<byte>, addr: nat): (r: Option<byte>)
    ensures r.Some? <==> addr < |bytes|
    ensures r.Some? ==> r.value == bytes[addr]
  {
    if addr < |bytes| then Some(bytes[addr]) else None
  }

  /** `readByte` as written: it refuses only an address beyond the extent,
    * and otherwise reads at that index; the result is the index read. */
  function ReadIndexAsWritten(length: nat, addr: nat): (r: Option<nat>)
    ensures r.Some? <==> addr <= length
    ensures r.Some? ==> r.value == addr
  {
    if addr > length then None else Some(addr)
  }

  /** The address equal to the extent passes the check and reads the byte
    * one past the end of the buffer; at every other address the check
    * agrees with the buffer's bounds. */
  lemma ReadPastEndAccepted(bytes: seq<byte>, addr: nat)
    ensures ReadIndexAsWritten(|bytes|, |bytes|) == Some(|bytes|)
    ensures ByteAt(bytes, |bytes|).None?
    ensures addr != |bytes| ==>
      (ReadIndexAsWritten(|bytes|, addr).Some? <==> ByteAt(bytes, addr).Some?)
  {
  }

  class BufferMemoryObject {
    const bytes: seq<byte>

    constructor (bytes: seq<byte>)
      ensures this.bytes == bytes
    {
      this.bytes := bytes;
    }

    function Base(): nat
    {
      0
    }

    function Extent(): nat
    {
      |bytes|
    }

    /** `readByte` with the bound the buffer needs: 0 and the byte at an
      * address inside [base, base + extent), −1 and nothing written
      * otherwise. */
    method ReadByte(addr: nat, byteOut: array<byte>) returns (r: int)
      requires byteOut.Length >= 1
      modifies byteOut
      ensures r == 0 || r == -1
      ensures r == 0 <==> Base() <= addr < Base() + Extent()
      ensures r == 0 ==> ByteAt(bytes, addr) == Some(byteOut[0])
      ensures r == -1 ==> byteOut[0] == old(byteOut[0])
      ensures forall k :: 1 <= k < byteOut.Length ==> byteOut[k] == old(byteOut[k])
    {
      if addr >= Extent() {
        return -1;
      }
      byteOut[0] := bytes[addr];
      return 0;
    }
  }

  /** Every address the object reports, from its base up to its extent,
    * reads back the buffer's byte. */
  method ReadsWholeBuffer(bytes: seq<byte>, addr: nat) returns (r: int, b: byte)
    requires addr < |bytes|
    ensures r == 0 && b == bytes[addr]
  {
    var memory := new BufferMemoryObject(bytes);
    var out := new byte[1];
    r := memory.ReadByte(addr, out);
    b := out[0];
  }
}
