/** One connection: the two fixed buffers with their positions, and the in-place
    operations on them, against the bytes that they stand for. */
module Connection {
  import opened Seqs
  import opened Framing

  /** What the fields of a connection stand for: the received bytes that do not
      make a line yet, the bytes accepted for writing since the write buffer
      was last empty, and how many of those have been written. */
  datatype Endpoint = Endpoint(inbox: string, outbox: string, written: nat) {
    predicate Ok() {
      && |inbox| < BUFF_SIZE
      && |outbox| < BUFF_SIZE
      && (written < |outbox| || (written == 0 && outbox == []))
    }

    function Unsent(): string
      requires written <= |outbox|
    {
      outbox[written..]
    }

    predicate Accepts(msg: string) { |outbox| + |msg| < BUFF_SIZE }

    function Enqueue(msg: string): Endpoint {
      if Accepts(msg) then this.(outbox := outbox + msg) else this
    }

    /** After the socket took n of the unsent bytes. */
    function Write(n: nat): Endpoint
      requires written + n <= |outbox|
    {
      if written + n == |outbox| then this.(outbox := [], written := 0) else this.(written := written + n)
    }

    /** After a read of c: the lines given to process_message are Delivered(inbox + c). */
    function Read(c: string): Endpoint { this.(inbox := Kept(inbox + c)) }
  }

  function Fresh(): (e: Endpoint) { Endpoint([], [], 0) }

  // ---------------------------------------------------------------- one line at a time

  lemma CutLine(r: string, m: nat)
    requires m < |r| && '\n' !in r[..m] && NUL !in r[..m] && r[m] == '\n'
    ensures Delivered(r) == [r[..m]] + Delivered(r[m+1..]) && Kept(r) == Kept(r[m+1..])
  {
    var s := r[..m] + ['\n'];
    assert r == s + r[m+1..];
    assert NUL !in s;
    NoNewline(r[..m]);
    Step(r[..m], '\n');
    assert [] + [r[..m]] == [r[..m]];
    FeedPlain(s, r[m+1..]);
    Parts("", r[m+1..]);
  }

  lemma NoLine(r: string, m: nat)
    requires m <= |r| && '\n' !in r[..m] && NUL !in r[..m] && (m < |r| ==> r[m] == NUL)
    ensures Delivered(r) == [] && Kept(r) == r
  {
    SeenIs(r, m);
    NoNewline(r[..m]);
    Halves(r, m);
  }

  lemma WriteConserves(e: Endpoint, n: nat)
    requires e.Ok() && e.written + n <= |e.outbox|
    ensures e.Write(n).Ok()
    ensures e.Unsent() == e.Unsent()[..n] + e.Write(n).Unsent()
  {}

  /** What read() and write() give: not ready yet, an error, or what was read - nothing
      at the end of the stream - or how much was taken. */
  datatype Io<T> = WouldBlock | Failed | Done(value: T)

  class Socket {
    const readBuf: array<char>
    var readPos: nat
    const writeBuf: array<char>
    var writePos: nat
    var writeLen: nat

    ghost predicate Valid()
      reads this
    {
      && readBuf.Length == BUFF_SIZE && writeBuf.Length == BUFF_SIZE && readBuf != writeBuf
      && readPos < BUFF_SIZE && writeLen < BUFF_SIZE
      && (writePos < writeLen || (writePos == 0 && writeLen == 0))
    }

    ghost function View(): Endpoint
      requires Valid()
      reads this, readBuf, writeBuf
    {
      Endpoint(readBuf[..readPos], writeBuf[..writeLen], writePos)
    }

    constructor ()
      ensures Valid() && View() == Fresh()
      ensures fresh(readBuf) && fresh(writeBuf)
    {
      readBuf := new char[BUFF_SIZE];
      writeBuf := new char[BUFF_SIZE];
      readPos, writePos, writeLen := 0, 0, 0;
    }

    /** enqueue_write, without the epoll call. */
    method EnqueueWrite(msg: string) returns (ok: bool)
      requires Valid()
      modifies this`writeLen, writeBuf
      ensures Valid() && View() == old(View()).Enqueue(msg) && ok == old(View()).Accepts(msg)
      ensures ok <==> old(writeLen) + |msg| < BUFF_SIZE
      ensures writeBuf[..writeLen] == old(writeBuf[..writeLen]) + if ok then msg else []
    {
      if writeLen + |msg| >= BUFF_SIZE { return false; }
      forall i | 0 <= i < |msg| { writeBuf[writeLen + i] := msg[i]; }
      writeLen := writeLen + |msg|;
      return true;
    }

    lemma SliceIs(from: nat, n: nat)
      requires Valid() && from + n <= writeLen
      ensures writeBuf[..writeLen][from..][..n] == writeBuf[from..from+n]
    {}

    /** The part of handle_tcp_write after a count that is not negative. */
    method Advance(n: nat) returns (sent: string)
      requires Valid() && n <= writeLen - writePos
      modifies this`writePos, this`writeLen
      ensures Valid() && View() == old(View()).Write(n)
      ensures if n == old(writeLen - writePos) then writePos == 0 == writeLen
              else writePos == old(writePos) + n && writeLen == old(writeLen)
      ensures sent == old(View()).Unsent()[..n] && old(View()).Unsent() == sent + View().Unsent()
    {
      ghost var e := View();
      WriteConserves(e, n);
      sent := writeBuf[writePos..writePos+n];
      SliceIs(writePos, n);
      writePos := writePos + n;
      if writePos == writeLen { writePos, writeLen := 0, 0; }
      assert View() == e.Write(n);
    }

    /** handle_tcp_write: with nothing to send nothing is tried; a socket that is not
        ready leaves everything as it is, an error closes the connection, and otherwise
        the bytes taken are the next ones. */
    method TcpWrite(took: Io<nat>) returns (closed: bool, sent: string)
      requires Valid() && (took.Done? ==> took.value <= writeLen - writePos)
      modifies this`writePos, this`writeLen
      ensures Valid() && (closed <==> took == Failed && old(View()).Unsent() != [])
      ensures if took.Done? then
                View() == old(View()).Write(took.value) && sent == old(View()).Unsent()[..took.value]
              else View() == old(View()) && sent == []
      ensures old(View()).Unsent() == sent + View().Unsent()
    {
      closed, sent := false, [];
      Nil(View().Unsent());
      if writeLen - writePos == 0 { return; }
      match took
      case WouldBlock =>
      case Failed => closed := true;
      case Done(n) => sent := Advance(n);
    }

    /** strchr(from, '\n'): the first newline, or the NUL that stops the search. */
    method Strchr(from: nat) returns (k: nat)
      requires Valid() && from <= readPos && readBuf[readPos] == NUL
      ensures from <= k <= readPos && (readBuf[k] == '\n' || readBuf[k] == NUL)
      ensures '\n' !in readBuf[from..k] && NUL !in readBuf[from..k]
    {
      k := from;
      while readBuf[k] != '\n' && readBuf[k] != NUL
        invariant from <= k <= readPos
        invariant '\n' !in readBuf[from..k] && NUL !in readBuf[from..k]
        decreases readPos - k
      {
        k := k + 1;
      }
    }

    /** The bytes that read() leaves in the buffer, with their terminator. */
    method Fill(chunk: string)
      requires Valid() && |chunk| <= BUFF_SIZE - readPos - 1
      modifies this`readPos, readBuf
      ensures Valid() && readBuf[..readPos] == old(readBuf[..readPos]) + chunk && readBuf[readPos] == NUL
    {
      forall i | 0 <= i < |chunk| { readBuf[readPos + i] := chunk[i]; }
      readPos := readPos + |chunk|;
      readBuf[readPos] := NUL;
    }

    lemma CutAt(from: nat, k: nat)
      requires Valid() && from <= k < readPos && readBuf[k] == '\n'
      requires '\n' !in readBuf[from..k] && NUL !in readBuf[from..k]
      ensures Delivered(readBuf[from..readPos]) == [readBuf[from..k]] + Delivered(readBuf[k+1..readPos])
      ensures Kept(readBuf[from..readPos]) == Kept(readBuf[k+1..readPos])
    {
      var r := readBuf[from..readPos];
      assert r[..k-from] == readBuf[from..k] && r[k-from+1..] == readBuf[k+1..readPos];
      CutLine(r, k - from);
    }

    /** One turn of the extraction loop: the newline is overwritten by a NUL and
        the line before it is handed over. */
    method Extract(from: nat, k: nat) returns (line: string)
      requires Valid() && from <= k < readPos && readBuf[k] == '\n'
      requires '\n' !in readBuf[from..k] && NUL !in readBuf[from..k]
      modifies readBuf
      ensures line == old(readBuf[from..k])
      ensures readBuf[readPos] == old(readBuf[readPos])
      ensures Delivered(old(readBuf[from..readPos])) == [line] + Delivered(readBuf[k+1..readPos])
      ensures Kept(old(readBuf[from..readPos])) == Kept(readBuf[k+1..readPos])
    {
      CutAt(from, k);
      ghost var rest := readBuf[k+1..readPos];
      line := readBuf[from..k];
      readBuf[k] := NUL;
      assert readBuf[k+1..readPos] == rest;
    }

    /** The compaction after the last line. */
    method Compact(from: nat)
      requires Valid() && from <= readPos
      modifies this`readPos, readBuf
      ensures Valid() && readBuf[..readPos] == old(readBuf[from..readPos])
    {
      var remaining := readPos - from;
      if remaining > 0 && from > 0 {
        forall i | 0 <= i < remaining { readBuf[i] := readBuf[from + i]; }
      }
      readPos := remaining;
    }

    /** The extraction loop, about to test the position k that strchr found
        after `from`, with `lines` taken out of the bytes b. */
    ghost predicate Scanning(b: string, lines: seq<string>, from: nat, k: nat)
      reads this, readBuf
    {
      && Valid() && from <= k <= readPos
      && readBuf[readPos] == NUL && (readBuf[k] == '\n' || readBuf[k] == NUL)
      && '\n' !in readBuf[from..k] && NUL !in readBuf[from..k]
      && Delivered(b) == lines + Delivered(readBuf[from..readPos])
      && Kept(b) == Kept(readBuf[from..readPos])
    }

    /** One turn of the loop. */
    method Turn(ghost b: string, lines: seq<string>, from: nat, k: nat) returns (lines': seq<string>, k': nat)
      requires Scanning(b, lines, from, k) && readBuf[k] == '\n'
      modifies readBuf
      ensures Scanning(b, lines', k + 1, k')
    {
      var line := Extract(from, k);
      Assoc(lines, [line], Delivered(readBuf[k+1..readPos]));
      lines' := lines + [line];
      k' := Strchr(k + 1);
    }

    method Start() returns (k: nat)
      requires Valid() && readBuf[readPos] == NUL
      ensures Scanning(readBuf[..readPos], [], 0, k)
    {
      k := Strchr(0);
      assert readBuf[0..readPos] == readBuf[..readPos];
      Parts([], Delivered(readBuf[..readPos]));
    }

    lemma Finish(b: string, lines: seq<string>, from: nat, k: nat)
      requires Scanning(b, lines, from, k) && readBuf[k] == NUL
      ensures lines == Delivered(b) && readBuf[from..readPos] == Kept(b)
    {
      var r := readBuf[from..readPos];
      assert r[..k-from] == readBuf[from..k];
      NoLine(r, k - from);
      Parts(lines, []);
    }

    method ExtractAll() returns (lines: seq<string>, from: nat)
      requires Valid() && readBuf[readPos] == NUL
      modifies readBuf
      ensures from <= readPos
      ensures lines == Delivered(old(readBuf[..readPos])) && readBuf[from..readPos] == Kept(old(readBuf[..readPos]))
    {
      ghost var b := readBuf[..readPos];
      lines, from := [], 0;
      var k := Start();
      while readBuf[k] == '\n'
        invariant Scanning(b, lines, from, k)
        decreases readPos - from
      {
        var next := k + 1;
        lines, k := Turn(b, lines, from, k);
        from := next;
      }
      Finish(b, lines, from, k);
    }

    /** The part of handle_tcp_read after a positive count. */
    method Take(chunk: string) returns (lines: seq<string>)
      requires Valid() && 0 < |chunk| <= BUFF_SIZE - readPos - 1
      modifies this`readPos, readBuf
      ensures Valid() && View() == old(View()).Read(chunk)
      ensures lines == Delivered(old(View()).inbox + chunk)
    {
      Fill(chunk);
      var from;
      lines, from := ExtractAll();
      Compact(from);
    }

    /** handle_tcp_read: nothing to read leaves everything as it is, an error or the
        end of the stream closes the connection, and bytes are cut into lines. */
    method TcpRead(got: Io<string>) returns (closed: bool, lines: seq<string>)
      requires Valid() && (got.Done? ==> |got.value| <= BUFF_SIZE - readPos - 1)
      modifies this`readPos, readBuf
      ensures Valid() && (closed <==> got == Failed || got == Done([]))
      ensures if got.Done? && !closed then
                View() == old(View()).Read(got.value) && lines == Delivered(old(View()).inbox + got.value)
              else View() == old(View()) && lines == []
    {
      match got
      case WouldBlock => return false, [];
      case Failed => return true, [];
      case Done(data) =>
        if |data| == 0 { return true, []; }
        lines := Take(data);
        closed := false;
    }
  }
}
