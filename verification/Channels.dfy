/** Basic values shared by all components: bytes, options and buffered Go channels. */
module Basics {
  newtype byte = x: int | 0 <= x < 256

  type Bytes = seq<byte>

  datatype Option<+T> = None | Some(value: T)

  const MAX_INT64: int := 0x7FFF_FFFF_FFFF_FFFF

  predicate IsInt64(x: int) {
    -MAX_INT64 - 1 <= x <= MAX_INT64
  }

  type int64 = x: int | -0x8000_0000_0000_0000 <= x <= 0x7FFF_FFFF_FFFF_FFFF

  /** Go's addition of 64-bit integers: the sum modulo two to the 64, as a signed number. */
  function Add64(a: int64, b: int64): (r: int64)
    ensures !IsInt64(a + b) ==> (r < 0 <==> a + b > 0)
  {
    var sum: int := a + b;
    if sum > MAX_INT64 then sum - 2 * MAX_INT64 - 2
    else if sum < -MAX_INT64 - 1 then sum + 2 * MAX_INT64 + 2
    else sum
  }
}

/** A buffered channel of Go. */
module Channels {

  /**
   * `buf` holds the values sent and not yet received, oldest first.  `closes` counts
   * the calls of `close`: a second one is a run-time panic in Go, so every component
   * proves that its own count never exceeds one.
   */
  datatype Chan<T> = Chan(cap: nat, buf: seq<T>, closes: nat) {

    predicate Closed() {
      closes > 0
    }

    /** A send can complete without blocking and without the send-on-closed panic. */
    predicate CanSend() {
      !Closed() && |buf| < cap
    }

    /** A receive can complete with a value; this holds of a closed channel too. */
    predicate CanRecv() {
      |buf| > 0
    }

    /** A receive completes with the "closed" indication. */
    predicate Drained() {
      Closed() && |buf| == 0
    }

    function Send(x: T): Chan<T>
      requires CanSend()
    {
      this.(buf := buf + [x])
    }

    function Recv(): Chan<T>
      requires CanRecv()
    {
      this.(buf := buf[1..])
    }

    function Close(): Chan<T> {
      this.(closes := closes + 1)
    }

    predicate Valid() {
      |buf| <= cap && closes <= 1
    }
  }

  function MakeChan<T>(cap: nat): Chan<T> {
    Chan(cap, [], 0)
  }
}
