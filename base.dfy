/** Values shared by every part of the model: bytes, Go's optional and
    `(value, error)` results, and the errors the core produces or passes on. */
module Base {

  /** One octet, as Go's `byte`. */
  type byte = b: int | 0 <= b < 256

  /** A value that may be absent (a nil-able Go reference, or an `error` that may be nil). */
  datatype Option<+T> = None | Some(value: T)

  /** A Go `(value, error)` pair in which exactly one side is meaningful. */
  datatype Result<+T> = Success(value: T) | Failure(error: Error)

  /** The errors of the core. Errors made by collaborators outside the model
      (the file system, JSON, templates, the network) are `Failed`. */
  datatype Error =
    | EndOfFile                                     // io.EOF
    | NotExist(path: string)                        // an os.Stat error for which os.IsNotExist holds
    | ClosedConnection                              // using or closing a net.Conn that is already closed
    | StatusCode(code: int)                         // "Error: Status Code %d."
    | StatusCodeWithBody(code: int, body: seq<byte>) // "Error: Status Code %d, Response Body: %s."
    | Refused(refusal: string)                      // "Refused to respond %s."
    | Failed(reason: string)

  /** The concatenation of a sequence of byte chunks, first chunk first. */
  function Flatten(chunks: seq<seq<byte>>): seq<byte>
  {
    if chunks == [] then [] else chunks[0] + Flatten(chunks[1..])
  }

  /** Flattening distributes over concatenation of the chunk lists. */
  lemma {:induction false} FlattenAppend(a: seq<seq<byte>>, b: seq<seq<byte>>)
    ensures Flatten(a + b) == Flatten(a) + Flatten(b)
  {
    if a == [] {
      assert a + b == b;
    } else {
      assert (a + b)[1..] == a[1..] + b;
      FlattenAppend(a[1..], b);
    }
  }

  /** Concatenation is associative; stated once so that proofs with much else
      in scope need not rediscover it. */
  lemma AppendAssoc<T>(a: seq<T>, b: seq<T>, c: seq<T>)
    ensures (a + b) + c == a + (b + c)
  {
  }

  /** A sequence that starts with `head`, which is `pre + mid`, continues
      after `pre` with `mid` and then the rest. */
  lemma SplitAfter<T>(s: seq<T>, head: seq<T>, pre: seq<T>, mid: seq<T>)
    requires |head| <= |s| && s[..|head|] == head && head == pre + mid
    ensures s[|pre|..] == mid + s[|head|..]
  {
    assert s == s[..|head|] + s[|head|..];
  }
}
