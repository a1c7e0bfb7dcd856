/** A reliable FIFO byte stream: what was written and not yet read, and how many more bytes the
    writer gets through before the connection is lost. */
module ByteStream {
  import opened Wrappers
  import opened Bincode
  import opened Protocol

  /** The part of `data` that gets through when `left` bytes do. */
  function Through(left: nat, data: Bytes): Bytes {
    if |data| <= left then data else data[..left]
  }

  lemma ThroughConcat(left: nat, a: Bytes, b: Bytes)
    ensures Through(left, a + b) == if |a| <= left then a + Through(left - |a|, b) else Through(left, a)
  {
  }

  class Stream {
    var unread: Bytes
    var left: nat

    constructor (left: nat)
      ensures unread == [] && this.left == left
    {
      unread, this.left := [], left;
    }

    method WriteAll(data: Bytes) returns (r: Result<(), WireError>)
      modifies this
      ensures unread == old(unread) + Through(old(left), data)
      ensures left == old(left) - |Through(old(left), data)|
      ensures r == if |data| <= old(left) then Ok(()) else Err(ConnectionLost)
    {
      unread := unread + Through(left, data);
      r := if |data| <= left then Ok(()) else Err(ConnectionLost);
      left := left - |Through(left, data)|;
    }

    method WriteU8(b: byte) returns (r: Result<(), WireError>)
      modifies this
      ensures unread == old(unread) + Through(old(left), [b])
      ensures left == old(left) - |Through(old(left), [b])|
      ensures r == if 1 <= old(left) then Ok(()) else Err(ConnectionLost)
    {
      r := WriteAll([b]);
    }

    /** A short stream is drained before the error is reported. */
    method Take(n: nat) returns (r: Result<Bytes, WireError>)
      modifies this`unread
      ensures match ReadExact(old(unread), n)
              case Ok((data, rest)) => r == Ok(data) && unread == rest
              case Err(e) => r == Err(e) && unread == []
    {
      if n <= |unread| {
        r := Ok(unread[..n]);
        unread := unread[n..];
      } else {
        r := Err(UnexpectedEof);
        unread := [];
      }
    }
  }
}
