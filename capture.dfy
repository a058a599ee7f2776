/** A model of OutputCapture from package fixtures: it takes over the process-wide
    standard output and standard error slots, and hands back, once closed, every byte
    written to them in between.

    The process-wide `os.Stdout` and `os.Stderr` variables are the two fields of a
    `Streams` object. An `*os.File` is a `File`: writes append to its `data` while it is
    open. Each `os.Pipe()` is one `File` standing for both ends: what was written to the
    write end is what `ioutil.ReadAll` on the read end returns once the write end is closed.

    A Go `string` here is a string of bytes: `ToString` gives one character per byte, with
    the byte's value as its code, and decodes no UTF-8. (Module Shell, in contrast, treats the
    text `TrimSpace` works on as a sequence of Unicode code points.) */
module Fixtures {

  newtype byte = x: int | 0 <= x < 256

  /** Go's `string(b)` for a byte slice: the string made of exactly these bytes, one
      character per byte. */
  function ToString(b: seq<byte>): (s: string)
    ensures |s| == |b|
    ensures forall i :: 0 <= i < |b| ==> s[i] as int == b[i] as int
  {
    if b == [] then "" else [b[0] as int as char] + ToString(b[1..])
  }

  /** The bytes of a string whose characters are all below 256. */
  function ToBytes(s: string): (b: seq<byte>)
    requires forall i :: 0 <= i < |s| ==> s[i] as int < 256
    ensures |b| == |s|
    ensures forall i :: 0 <= i < |s| ==> b[i] as int == s[i] as int
  {
    if s == [] then [] else [s[0] as int as byte] + ToBytes(s[1..])
  }

  /** Converting bytes to a string loses nothing. */
  lemma {:induction false} ToStringRoundTrip(b: seq<byte>)
    ensures ToBytes(ToString(b)) == b
  {
    var s := ToString(b);
    var back := ToBytes(s);
    assert forall i :: 0 <= i < |b| ==> back[i] == b[i];
  }

  /** An open file handle. */
  class File {
    var data: seq<byte>
    var open: bool

    /** os.Pipe: a new, empty, open pipe. */
    constructor Pipe()
      ensures data == [] && open
    {
      data := [];
      open := true;
    }

    /** Write: appends while the file is open; a closed file refuses the write. */
    method Write(bytes: seq<byte>) returns (ok: bool)
      modifies this`data
      ensures ok == open
      ensures data == if ok then old(data) + bytes else old(data)
    {
      ok := open;
      if ok {
        data := data + bytes;
      }
    }

    method Close()
      modifies this`open
      ensures !open
    {
      open := false;
    }

    /** ioutil.ReadAll on the read end: it returns at end of file, that is once the write end
        is closed, with everything the write end received. (On a pipe whose write end is
        still open it would block; such a call is not modelled.) */
    method ReadAll() returns (bytes: seq<byte>)
      requires !open
      ensures bytes == data
    {
      bytes := data;
    }
  }

  /** The process-wide standard output and standard error slots. */
  class Streams {
    var stdout: File
    var stderr: File

    constructor (stdout: File, stderr: File)
      ensures this.stdout == stdout && this.stderr == stderr
    {
      this.stdout := stdout;
      this.stderr := stderr;
    }

    /** A write to whatever file the standard output slot holds now. */
    method WriteStdout(bytes: seq<byte>) returns (ok: bool)
      modifies stdout`data
      ensures ok == stdout.open
      ensures stdout.data == if ok then old(stdout.data) + bytes else old(stdout.data)
    {
      ok := stdout.Write(bytes);
    }

    /** A write to whatever file the standard error slot holds now. */
    method WriteStderr(bytes: seq<byte>) returns (ok: bool)
      modifies stderr`data
      ensures ok == stderr.open
      ensures stderr.data == if ok then old(stderr.data) + bytes else old(stderr.data)
    {
      ok := stderr.Write(bytes);
    }
  }

  class OutputCapture {
    const streams: Streams
    const origStdout: File
    const origStderr: File
    const outPipe: File
    const errPipe: File
    var out: seq<byte>
    var err: seq<byte>
    var closed: bool

    /** While active the pipes are open and nothing has been collected; once closed the
        pipes are shut and `out`/`err` hold everything they received. Which files the
        process-wide slots hold is not part of it: other code may reassign them while the
        capture is active, and Close restores the saved originals whatever they hold then. */
    ghost predicate Valid()
      reads this, outPipe, errPipe
    {
      && outPipe != errPipe
      && {outPipe, errPipe} !! {origStdout, origStderr}
      && if closed then
           !outPipe.open && !errPipe.open && out == outPipe.data && err == errPipe.data
         else
           outPipe.open && errPipe.open && out == [] && err == []
    }

    /** CaptureOutput: saves the current slots and installs two fresh, empty pipes in them. */
    constructor CaptureOutput(streams: Streams)
      modifies streams
      ensures Valid() && !closed && this.streams == streams
      ensures origStdout == old(streams.stdout) && origStderr == old(streams.stderr)
      ensures streams.stdout == outPipe && streams.stderr == errPipe
      ensures fresh(outPipe) && fresh(errPipe) && outPipe.data == [] && errPipe.data == []
    {
      this.streams := streams;
      origStdout := streams.stdout;
      origStderr := streams.stderr;
      var o := new File.Pipe();
      outPipe := o;
      streams.stdout := o;
      var e := new File.Pipe();
      errPipe := e;
      streams.stderr := e;
      out := [];
      err := [];
      closed := false;
    }

    /** Close: the first call shuts the pipes, collects what they hold and restores the saved
        slots; every later call changes nothing. */
    method Close()
      requires Valid()
      modifies this, streams, outPipe, errPipe
      ensures Valid() && closed
      ensures old(closed) ==> unchanged(this, streams, outPipe, errPipe)
      ensures out == if old(closed) then old(out) else old(outPipe.data)
      ensures err == if old(closed) then old(err) else old(errPipe.data)
      ensures !old(closed) ==> streams.stdout == origStdout && streams.stderr == origStderr
    {
      if closed {
        return;
      }
      outPipe.Close();
      errPipe.Close();
      out := outPipe.ReadAll();
      err := errPipe.ReadAll();
      streams.stdout := origStdout;
      streams.stderr := origStderr;
      closed := true;
    }

    /** GetOut: closes, then returns the captured standard output. */
    method GetOut() returns (b: seq<byte>)
      requires Valid()
      modifies this, streams, outPipe, errPipe
      ensures Valid() && closed && b == out
      ensures b == if old(closed) then old(out) else old(outPipe.data)
      ensures out == if old(closed) then old(out) else old(outPipe.data)
      ensures err == if old(closed) then old(err) else old(errPipe.data)
      ensures old(closed) ==> unchanged(this, streams, outPipe, errPipe)
      ensures !old(closed) ==> streams.stdout == origStdout && streams.stderr == origStderr
    {
      Close();
      b := out;
    }

    /** GetOutString: closes, then returns the captured standard output as a string. */
    method GetOutString() returns (s: string)
      requires Valid()
      modifies this, streams, outPipe, errPipe
      ensures Valid() && closed && s == ToString(out)
      ensures s == ToString(if old(closed) then old(out) else old(outPipe.data))
      ensures out == if old(closed) then old(out) else old(outPipe.data)
      ensures err == if old(closed) then old(err) else old(errPipe.data)
      ensures old(closed) ==> unchanged(this, streams, outPipe, errPipe)
      ensures !old(closed) ==> streams.stdout == origStdout && streams.stderr == origStderr
    {
      Close();
      s := ToString(out);
    }

    /** GetErr: closes, then returns the captured standard error. */
    method GetErr() returns (b: seq<byte>)
      requires Valid()
      modifies this, streams, outPipe, errPipe
      ensures Valid() && closed && b == err
      ensures b == if old(closed) then old(err) else old(errPipe.data)
      ensures out == if old(closed) then old(out) else old(outPipe.data)
      ensures err == if old(closed) then old(err) else old(errPipe.data)
      ensures old(closed) ==> unchanged(this, streams, outPipe, errPipe)
      ensures !old(closed) ==> streams.stdout == origStdout && streams.stderr == origStderr
    {
      Close();
      b := err;
    }

    /** GetErrString: closes, then returns the captured standard error as a string. */
    method GetErrString() returns (s: string)
      requires Valid()
      modifies this, streams, outPipe, errPipe
      ensures Valid() && closed && s == ToString(err)
      ensures s == ToString(if old(closed) then old(err) else old(errPipe.data))
      ensures out == if old(closed) then old(out) else old(outPipe.data)
      ensures err == if old(closed) then old(err) else old(errPipe.data)
      ensures old(closed) ==> unchanged(this, streams, outPipe, errPipe)
      ensures !old(closed) ==> streams.stdout == origStdout && streams.stderr == origStderr
    {
      Close();
      s := ToString(err);
    }
  }

  /** A whole capture window, with one fixed sequence of calls: error before output, an
      explicit Close in between, the string accessors after it and a repeat after a later
      write. What is written to the slots while the capture is active is exactly what the
      accessors return; writes made after Close reach the original files and leave the
      captured buffers as they were. That the same holds for any order of calls follows from
      each accessor's own contract, not from this method. */
  method CaptureWindow(streams: Streams, outBytes: seq<byte>, errBytes: seq<byte>, later: seq<byte>)
    returns (out1: seq<byte>, err1: seq<byte>, out2: string, err2: string, out3: seq<byte>)
    requires streams.stdout != streams.stderr && streams.stdout.open
    modifies streams, streams.stdout, streams.stderr
    ensures out1 == outBytes && err1 == errBytes
    ensures out2 == ToString(outBytes) && err2 == ToString(errBytes)
    ensures out3 == outBytes
    ensures streams.stdout == old(streams.stdout) && streams.stderr == old(streams.stderr)
    ensures streams.stdout.data == old(streams.stdout.data) + later
    ensures streams.stderr.data == old(streams.stderr.data)
  {
    var c := new OutputCapture.CaptureOutput(streams);
    var _ := streams.WriteStdout(outBytes);
    var _ := streams.WriteStderr(errBytes);
    err1 := c.GetErr();
    out1 := c.GetOut();
    c.Close();
    out2 := c.GetOutString();
    err2 := c.GetErrString();
    var _ := streams.WriteStdout(later);
    out3 := c.GetOut();
  }
}
