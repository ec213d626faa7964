// The C interface of libbcc's first script object (`BCCscript`): thin
// wrappers around its compiler that turn a failing result into a recorded
// error code.

module BccApi {
  import opened Common
  import opened CStrings
  import opened ErrorRegister
  import opened CompilerCache
  import opened BoundedCopy

  /** `bccLoadBinary`: loads the cache file; a non-zero result is handed back
    * and records INVALID_OPERATION. */
  method BccLoadBinary(reg: Register, cmp: Compiler, size: nat, h: CacheHeader,
                       context: seq<bv32>, host: Host, io: LoadIO) returns (result: int)
    requires reg.Valid() && host.pageSize >= 1
    modifies reg, cmp
    ensures reg.Valid()
    ensures result == 0 <==> LoadSucceeds(old(cmp.cacheFd), size, h, context, host, io)
    ensures result == 0 ==> reg.reported == old(reg.reported) && reg.bccError == old(reg.bccError)
    ensures result != 0 ==> reg.reported == old(reg.reported) + [InvalidOperation]
  {
    result := cmp.LoadCacheFile(size, h, context, host, io);
    if result != 0 {
      reg.SetError(InvalidOperation);
    }
  }

  /** `bccCompileBC`: the compiler's result (not part of this model) is handed
    * back, and a non-zero one records INVALID_OPERATION. */
  method BccCompileBC(reg: Register, compileResult: int) returns (result: int)
    requires reg.Valid()
    modifies reg
    ensures reg.Valid() && result == compileResult
    ensures result == 0 ==> reg.reported == old(reg.reported) && reg.bccError == old(reg.bccError)
    ensures result != 0 ==> reg.reported == old(reg.reported) + [InvalidOperation]
  {
    result := compileResult;
    if result != 0 {
      reg.SetError(InvalidOperation);
    }
  }

  /** `bccGetScriptLabel`: the address the compiler's `lookup` finds is stored
    * through the out-pointer; an unknown name leaves it alone and records
    * INVALID_VALUE. */
  method BccGetScriptLabel(reg: Register, cmp: Compiler, name: seq<char>,
                           emitted: Option<map<seq<char>, nat>>, address: nat)
    returns (newAddress: nat)
    requires reg.Valid()
    requires cmp.CacheHit() ==> cmp.cacheHdr.Some?
    modifies reg
    ensures reg.Valid()
    ensures cmp.Lookup(name, emitted) != 0 ==>
      newAddress == cmp.Lookup(name, emitted) &&
      reg.reported == old(reg.reported) && reg.bccError == old(reg.bccError)
    ensures cmp.Lookup(name, emitted) == 0 ==>
      newAddress == address && reg.reported == old(reg.reported) + [InvalidValue]
  {
    var value := cmp.Lookup(name, emitted);
    if value != 0 {
      newAddress := value;
    } else {
      newAddress := address;
      reg.SetError(InvalidValue);
    }
  }

  /** Characters `bccGetScriptInfoLog` copies: the message with its NUL, cut
    * to the caller's maximum. */
  function TrimmedLength(messageLength: nat, maxLength: int): (t: nat)
    requires maxLength > 0
    ensures t <= messageLength && t <= maxLength
    ensures t == messageLength || t == maxLength
  {
    CopyCount(messageLength, maxLength)
  }

  /** `bccGetScriptInfoLog` as written: reports the message length with its
    * NUL, and for a buffer with a positive maximum copies the trimmed length
    * and then stores a NUL at index `trimmedLength`, which is the maximum
    * itself whenever the message does not fit.  The caller's buffer holds
    * `maxLength` characters; a NUL index outside the array is the write
    * past it, which the method reports in `nulPastBuffer` instead of
    * performing. */
  method BccGetScriptInfoLog(message: seq<char>, maxLength: int, infoLog: array?<char>)
    returns (length: nat, nulPastBuffer: bool)
    requires CString(message)
    requires infoLog != null && maxLength > 0 ==> maxLength <= infoLog.Length
    modifies infoLog
    ensures length == |message| + 1
    ensures nulPastBuffer <==>
      infoLog != null && maxLength > 0 && TrimmedLength(|message| + 1, maxLength) >= infoLog.Length
    ensures infoLog != null && maxLength > 0 ==>
      var t := TrimmedLength(|message| + 1, maxLength);
      infoLog[..t] == (message + ['\0'])[..t] &&
      (t < infoLog.Length ==> infoLog[t] == '\0' && infoLog[t + 1..] == old(infoLog[t + 1..]))
    ensures infoLog != null && maxLength <= 0 ==> infoLog[..] == old(infoLog[..])
  {
    length := |message| + 1;
    nulPastBuffer := false;
    if infoLog != null && maxLength > 0 {
      var t := TrimmedLength(length, maxLength);
      CopyPrefix(message + ['\0'], t, infoLog);
      if t < infoLog.Length {
        ghost var copied := infoLog[..t];
        infoLog[t] := '\0';
        assert infoLog[..t] == copied;
      } else {
        nulPastBuffer := true;
      }
    }
  }

  /** Whenever the maximum is at most the message length with its NUL, the
    * NUL goes at index `maxLength`: for a message that does not fit, and
    * also for one that fits exactly. */
  lemma InfoLogNulPastMaximum(message: seq<char>, maxLength: int)
    requires 0 < maxLength <= |message| + 1
    ensures TrimmedLength(|message| + 1, maxLength) == maxLength
  {
  }

  /** Called as the interface intends, with a buffer of exactly `maxLength`
    * characters, the NUL is written past that buffer whenever the maximum
    * is at most the message length with its NUL. */
  method InfoLogOverrunsBuffer(message: seq<char>, maxLength: int) returns (nulPastBuffer: bool)
    requires CString(message) && 0 < maxLength <= |message| + 1
    ensures nulPastBuffer
  {
    var infoLog := new char[maxLength];
    var length;
    length, nulPastBuffer := BccGetScriptInfoLog(message, maxLength, infoLog);
  }

  /** The info-log copy with the terminator kept inside the maximum: at most
    * `maxLength - 1` characters of the message, then a NUL. */
  method BccGetScriptInfoLogWithin(message: seq<char>, maxLength: int, infoLog: array?<char>)
    returns (length: nat)
    requires CString(message)
    requires infoLog != null && maxLength > 0 ==> maxLength <= infoLog.Length
    modifies infoLog
    ensures length == |message| + 1
    ensures infoLog != null && maxLength > 0 ==>
      var t := CopyCount(|message|, maxLength - 1);
      UpToNul(infoLog[..maxLength]) == message[..t] &&
      infoLog[t + 1..] == old(infoLog[t + 1..])
    ensures infoLog != null && maxLength > 0 && |message| < maxLength ==>
      UpToNul(infoLog[..maxLength]) == message
    ensures infoLog != null && maxLength <= 0 ==> infoLog[..] == old(infoLog[..])
  {
    length := |message| + 1;
    if infoLog != null && maxLength > 0 {
      var t := CopyCount(|message|, maxLength - 1);
      CopyPrefix(message, t, infoLog);
      assert infoLog[t + 1..] == old(infoLog[t + 1..]) by {
        assert infoLog[t + 1..] == infoLog[t..][1..];
        assert old(infoLog[t + 1..]) == old(infoLog[t..])[1..];
      }
      ghost var tail := infoLog[t + 1..];
      infoLog[t] := '\0';
      assert infoLog[t + 1..] == tail;
      assert infoLog[..maxLength] == message[..t] + ['\0'] + infoLog[t + 1..maxLength];
      UpToNulTerminated(message[..t], infoLog[t + 1..maxLength]);
    }
  }
}
