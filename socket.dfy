/** The local-socket transport between the session and an external viewer
    (socket.go): record framing over one connection, the two sentinel
    records, and the viewer command line. The gob wire encoding itself is
    abstracted to a first-in first-out queue of byte records. */
module Socket {
  import opened Base

  /** The payload "__AFA_PROMPT__": the viewer should show an input prompt. */
  const PromptToken: seq<byte> := [95, 95, 65, 70, 65, 95, 80, 82, 79, 77, 80, 84, 95, 95]

  /** The payload "__AFA_ERROR__": an error happened, no more output follows. */
  const ErrorToken: seq<byte> := [95, 95, 65, 70, 65, 95, 69, 82, 82, 79, 82, 95, 95]

  function Min(a: int, b: int): int { if a < b then a else b }

  /** Go's built-in `copy(dst, src)`: copies as many leading bytes as fit and
      leaves the rest of `dst` alone. */
  method Copy(dst: array<byte>, src: seq<byte>) returns (n: int)
    modifies dst
    ensures n == Min(dst.Length, |src|)
    ensures dst[..n] == src[..n] && dst[n..] == old(dst[n..])
  {
    n := Min(dst.Length, |src|);
    for i := 0 to n
      invariant forall k :: 0 <= k < i ==> dst[k] == src[k]
      invariant forall k :: i <= k < dst.Length ==> dst[k] == old(dst[k])
    {
      dst[i] := src[i];
    }
  }

  /** One direction of the connection as gob's encoder and decoder see it:
      the records sent and not yet decoded, oldest first, and whether the
      sending side has closed the connection. */
  class Connection {
    var records: seq<seq<byte>>
    var closed: bool

    constructor ()
      ensures records == [] && !closed
    {
      records := [];
      closed := false;
    }

    /** Encoder.Encode: queues one record, unless the connection is closed. */
    method Encode(p: seq<byte>) returns (err: Option<Error>)
      modifies this
      ensures closed == old(closed)
      ensures err == (if old(closed) then Some(ClosedConnection) else None)
      ensures records == if old(closed) then old(records) else old(records) + [p]
    {
      if closed {
        err := Some(ClosedConnection);
      } else {
        records := records + [p];
        err := None;
      }
    }

    /** Decoder.Decode: takes the oldest record; with nothing left to decode
        (the peer has closed) it fails with io.EOF. */
    method Decode() returns (r: Result<seq<byte>>)
      modifies this
      ensures closed == old(closed)
      ensures old(records) == [] ==> r == Failure(EndOfFile) && records == []
      ensures old(records) != [] ==> r == Success(old(records)[0]) && records == old(records)[1..]
    {
      if records == [] {
        r := Failure(EndOfFile);
      } else {
        r := Success(records[0]);
        records := records[1..];
      }
    }

    /** net.Conn.Close: closing twice reports an error the second time. */
    method Close() returns (err: Option<Error>)
      modifies this
      ensures closed && records == old(records)
      ensures err == (if old(closed) then Some(ClosedConnection) else None)
    {
      err := if closed then Some(ClosedConnection) else None;
      closed := true;
    }
  }

  /** SocketMessageReader: an io.Reader that hands out one decoded record at a
      time, across as many calls as the caller's buffers need. */
  class SocketMessageReader {
    const conn: Connection
    var buffer: seq<byte>
    var offset: int

    ghost predicate Valid()
      reads this
    {
      0 <= offset <= |buffer|
    }

    /** The bytes still to be read: the rest of the current record, then every
        record not yet decoded. */
    ghost function Pending(): seq<byte>
      reads this, conn
      requires Valid()
    {
      buffer[offset..] + Flatten(conn.records)
    }

    /** A measure of the work left: undelivered bytes plus undecoded records. */
    ghost function Backlog(): nat
      reads this, conn
      requires Valid()
    {
      |buffer| - offset + |Flatten(conn.records)| + |conn.records|
    }

    /** NewSocketMessageReader: nothing buffered yet. */
    constructor (conn: Connection)
      ensures this.conn == conn && buffer == [] && offset == 0 && Valid()
    {
      this.conn := conn;
      buffer := [];
      offset := 0;
    }

    /** Read: decodes a new record only when the current one is used up, then
        copies as much of the rest of it as fits into `p`. It never reports an
        error: a failed decode reads zero bytes and changes nothing. (The
        source's `err == io.EOF` test after the copy can never succeed, since
        the only assignment to `err` returns early when it is not nil; it is not
        part of the model.) */
    method Read(p: array<byte>) returns (n: int, err: Option<Error>)
      requires Valid()
      modifies this, conn, p
      ensures Valid() && err == None && conn.closed == old(conn.closed)
      ensures old(offset) >= old(|buffer|) && old(conn.records) == [] ==>
                n == 0 && buffer == old(buffer) && offset == old(offset) && conn.records == []
      ensures old(offset) >= old(|buffer|) && old(conn.records) != [] ==>
                buffer == old(conn.records)[0] && conn.records == old(conn.records)[1..] &&
                n == Min(p.Length, |buffer|) && offset == n
      ensures old(offset) < old(|buffer|) ==>
                buffer == old(buffer) && conn.records == old(conn.records) &&
                n == Min(p.Length, |buffer| - old(offset)) && offset == old(offset) + n
      ensures 0 <= n <= p.Length && p[..n] == buffer[offset - n..offset] && p[n..] == old(p[n..])
      ensures old(Pending()) == p[..n] + Pending()
      ensures Backlog() <= old(Backlog())
      ensures p.Length > 0 && old(Backlog()) > 0 ==> Backlog() < old(Backlog())
    {
      if offset >= |buffer| {
        var decoded := conn.Decode();
        if decoded.Failure? {
          return 0, None;
        }
        buffer := decoded.value;
        offset := 0;
        assert old(Flatten(conn.records)) == buffer + Flatten(conn.records);
      }
      var rest := buffer[offset..];
      n := Copy(p, rest);
      offset := offset + n;
      assert rest == rest[..n] + buffer[offset..];
      err := None;
    }
  }

  /** SocketMessageWriter: an io.Writer that sends every write as one record. */
  class SocketMessageWriter {
    const conn: Connection

    constructor (conn: Connection)
      ensures this.conn == conn
    {
      this.conn := conn;
    }

    /** Write: one record equal to `p`, reporting all of `p` as written; when
        the encoder fails, nothing is written and its error is returned. */
    method Write(p: seq<byte>) returns (n: int, err: Option<Error>)
      modifies conn
      ensures conn.closed == old(conn.closed)
      ensures !old(conn.closed) ==> n == |p| && err == None && conn.records == old(conn.records) + [p]
      ensures old(conn.closed) ==> n == 0 && err == Some(ClosedConnection) && conn.records == old(conn.records)
    {
      var encodeErr := conn.Encode(p);
      if encodeErr.Some? {
        return 0, encodeErr;
      }
      return |p|, None;
    }

    /** Disconnect: closes the connection; nothing already sent is lost. */
    method Disconnect() returns (err: Option<Error>)
      modifies conn
      ensures conn.closed && conn.records == old(conn.records)
      ensures err == (if old(conn.closed) then Some(ClosedConnection) else None)
    {
      err := conn.Close();
    }

    /** Prompt: sends exactly the record "__AFA_PROMPT__". */
    method Prompt() returns (err: Option<Error>)
      modifies conn
      ensures conn.closed == old(conn.closed)
      ensures err == (if old(conn.closed) then Some(ClosedConnection) else None)
      ensures conn.records == if old(conn.closed) then old(conn.records) else old(conn.records) + [PromptToken]
    {
      var _, writeErr := Write(PromptToken);
      if writeErr.Some? {
        return writeErr;
      }
      return None;
    }

    /** Error: sends exactly the record "__AFA_ERROR__". */
    method Error() returns (err: Option<Error>)
      modifies conn
      ensures conn.closed == old(conn.closed)
      ensures err == (if old(conn.closed) then Some(ClosedConnection) else None)
      ensures conn.records == if old(conn.closed) then old(conn.records) else old(conn.records) + [ErrorToken]
    {
      var _, writeErr := Write(ErrorToken);
      if writeErr.Some? {
        return writeErr;
      }
      return None;
    }
  }

  /** How many of the read buffers are not empty. */
  function NonEmpty(sizes: seq<nat>): nat
  {
    if sizes == [] then 0
    else NonEmpty(sizes[..|sizes| - 1]) + (if sizes[|sizes| - 1] > 0 then 1 else 0)
  }

  /** Writes each chunk in turn, on a connection that is open. */
  method WriteAll(writer: SocketMessageWriter, chunks: seq<seq<byte>>)
    requires !writer.conn.closed
    modifies writer.conn
    ensures !writer.conn.closed && writer.conn.records == old(writer.conn.records) + chunks
  {
    for i := 0 to |chunks|
      invariant !writer.conn.closed && writer.conn.records == old(writer.conn.records) + chunks[..i]
    {
      var n, err := writer.Write(chunks[i]);
      assert chunks[..i + 1] == chunks[..i] + [chunks[i]];
    }
    assert chunks[..|chunks|] == chunks;
  }

  /** Reads once into a fresh buffer of each given size, collecting the
      bytes: they are taken off the front of what was pending, and every
      non-empty buffer lowers the backlog until it is gone. */
  method ReadAll(reader: SocketMessageReader, sizes: seq<nat>) returns (received: seq<byte>)
    requires reader.Valid()
    modifies reader, reader.conn
    ensures reader.Valid() && old(reader.Pending()) == received + reader.Pending()
    ensures reader.Backlog() == 0 || reader.Backlog() + NonEmpty(sizes) <= old(reader.Backlog())
  {
    received := [];
    for j := 0 to |sizes|
      invariant reader.Valid()
      invariant old(reader.Pending()) == received + reader.Pending()
      invariant reader.Backlog() == 0 || reader.Backlog() + NonEmpty(sizes[..j]) <= old(reader.Backlog())
    {
      var p := new byte[sizes[j]];
      var n, err := reader.Read(p);
      AppendAssoc(received, p[..n], reader.Pending());
      received := received + p[..n];
      assert sizes[..j + 1][..j] == sizes[..j];
    }
    assert sizes[..|sizes|] == sizes;
  }

  /** A writer and a reader on one connection: `chunks` are written, then read
      back with buffers of the given sizes. Whatever the sizes, the bytes read
      are a prefix of the bytes written, in order; and once enough of the
      buffers are non-empty (one per byte and one per record suffices), they
      are all of them. */
  method RoundTrip(chunks: seq<seq<byte>>, sizes: seq<nat>) returns (received: seq<byte>)
    ensures received <= Flatten(chunks)
    ensures NonEmpty(sizes) >= |Flatten(chunks)| + |chunks| ==> received == Flatten(chunks)
  {
    var conn := new Connection();
    var writer := new SocketMessageWriter(conn);
    var reader := new SocketMessageReader(conn);
    WriteAll(writer, chunks);
    assert conn.records == chunks;
    assert reader.Pending() == Flatten(chunks);
    received := ReadAll(reader, sizes);
  }

  /** A viewer launched through exec.Cmd, as far as waiting on it goes: what
      `cmd.Wait()` will report. */
  datatype Process = Process(exit: Option<Error>)

  /** Client: the viewer's command line, and the process once started. */
  datatype Client = Client(commands: seq<string>, cmd: Option<Process>)

  /** NewClient: fails when `stat` says the socket path does not exist or
      `absolute` cannot make it absolute; otherwise the command line is
      `commands` followed by the absolute socket path, and nothing is started. */
  function NewClient(path: string, commands: seq<string>,
                     stat: string -> Option<Error>, absolute: string -> Result<string>): (r: Result<Client>)
    ensures stat(path).Some? && stat(path).value.NotExist? ==> r == Failure(stat(path).value)
    ensures r.Success? <==> !(stat(path).Some? && stat(path).value.NotExist?) && absolute(path).Success?
    ensures r.Success? ==> r.value.commands == commands + [absolute(path).value] && r.value.cmd == None
  {
    var statErr := stat(path);
    if statErr.Some? && statErr.value.NotExist? then Failure(statErr.value)
    else
      match absolute(path)
      case Failure(e) => Failure(e)
      case Success(absolutePath) => Success(Client(commands + [absolutePath], None))
  }

  /** Wait: a viewer that was never started is not waited for. */
  function Wait(c: Client): (err: Option<Error>)
    ensures c.cmd == None ==> err == None
    ensures c.cmd.Some? ==> err == c.cmd.value.exit
  {
    if c.cmd == None then None else c.cmd.value.exit
  }
}
