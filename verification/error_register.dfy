// The sticky error register of the old JIT's `BCCscript` and of libbcc's
// first `Script` header: `setError` records a code only while none is
// recorded, and `getError` hands the recorded code out and clears it.

module ErrorRegister {

  // The error codes of the public header.
  const NoError: int := 0x0000
  const InvalidEnum: int := 0x0500
  const InvalidValue: int := 0x0501
  const InvalidOperation: int := 0x0502
  const OutOfMemory: int := 0x0505

  /** The register after `setError(e)` when it held `current`. */
  function Recorded(current: int, e: int): (r: int)
    ensures current != NoError ==> r == current
    ensures current == NoError ==> r == e
  {
    if current == NoError && e != NoError then e else current
  }

  /** The first code in `es` that is not NO_ERROR, NO_ERROR when there is
    * none. */
  function FirstError(es: seq<int>): (r: int)
    ensures r == NoError <==> forall i :: 0 <= i < |es| ==> es[i] == NoError
    ensures r != NoError ==>
      exists i :: 0 <= i < |es| && es[i] == r && forall j :: 0 <= j < i ==> es[j] == NoError
  {
    if |es| == 0 then NoError
    else if es[0] != NoError then es[0]
    else
      var r := FirstError(es[1..]);
      assert forall i :: 1 <= i < |es| ==> es[i] == es[1..][i - 1];
      r
  }

  /** Recording one more code keeps the first error of the longer history:
    * the register after a run of `setError` calls holds the first code of
    * the run that was not NO_ERROR. */
  lemma {:induction false} FirstErrorSnoc(es: seq<int>, e: int)
    ensures FirstError(es + [e]) == Recorded(FirstError(es), e)
  {
    if |es| > 0 {
      assert (es + [e])[1..] == es[1..] + [e];
      if es[0] == NoError {
        FirstErrorSnoc(es[1..], e);
      }
    }
  }

  /** The error part of `BCCscript` (and of the first libbcc `Script`). */
  class Register {
    var bccError: int
    /** The codes passed to `setError` since the last `getError`. */
    ghost var reported: seq<int>

    ghost predicate Valid()
      reads this
    {
      bccError == FirstError(reported)
    }

    constructor ()
      ensures Valid() && bccError == NoError && reported == []
    {
      bccError := NoError;
      reported := [];
    }

    /** `setError`: the new code is kept only while none is recorded. */
    method SetError(e: int)
      requires Valid()
      modifies this
      ensures Valid()
      ensures reported == old(reported) + [e]
      ensures bccError == Recorded(old(bccError), e)
    {
      if bccError == NoError && e != NoError {
        bccError := e;
      }
      reported := reported + [e];
      FirstErrorSnoc(old(reported), e);
    }

    /** `getError`: returns the first error reported since the last call and
      * clears the register. */
    method GetError() returns (result: int)
      requires Valid()
      modifies this
      ensures Valid()
      ensures result == FirstError(old(reported))
      ensures bccError == NoError && reported == []
    {
      result := bccError;
      bccError := NoError;
      reported := [];
    }
  }

  /** Two errors in a row: the register reports the first, then nothing. */
  method FirstErrorWins(a: int, b: int) returns (first: int, second: int)
    requires a != NoError
    ensures first == a && second == NoError
  {
    var r := new Register();
    r.SetError(a);
    r.SetError(b);
    first := r.GetError();
    second := r.GetError();
  }
}
