/** The standard I/O the library is written against: `std::io::Error`, a
    `Read`er, a `Write`r and the two file-system calls `File::create` and
    `File::open`. Only what the library observes is modelled: what a reader
    delivers, what ends up in a writer, and whether a call fails. */
module Io {
  import opened Results

  /** A `std::io::Error`, kept opaque apart from the one kind the model
      itself produces (opening a path that does not exist). */
  datatype IoError = NotFound | Os(code: int)

  type Path = string

  /** What `Error::source` hands back: the I/O failure or the inner error
      an error value wraps. */
  datatype Cause<E> = IoCause(io: IoError) | InnerCause(inner: E)

  /** Concatenation of the pieces a reader delivers, in order. */
  function Concat(chunks: seq<string>): string
  {
    if chunks == [] then "" else chunks[0] + Concat(chunks[1..])
  }

  lemma {:induction false} ConcatSnoc(chunks: seq<string>, c: string)
    ensures Concat(chunks + [c]) == Concat(chunks) + c
  {
    if chunks != [] {
      calc {
        Concat(chunks + [c]);
        { assert (chunks + [c])[1..] == chunks[1..] + [c]; }
        chunks[0] + Concat(chunks[1..] + [c]);
        { ConcatSnoc(chunks[1..], c); }
        chunks[0] + (Concat(chunks[1..]) + c);
      }
    } else {
      assert chunks + [c] == [c];
    }
  }

  /** A `Read`er: it hands out `chunks` one read at a time and then either
      reports end of input (`end == None`) or fails with `end.value`. */
  datatype Reader = Reader(chunks: seq<string>, end: Option<IoError>)
  {
    /** Everything the reader has to give: its text, or the error it ends with. */
    function Contents(): (r: Result<string, IoError>)
      ensures r.Ok? <==> end.None?
      ensures r.Ok? ==> r.value == Concat(chunks)
      ensures r.Err? ==> r.error == end.value
    {
      if end.Some? then Err(end.value) else Ok(Concat(chunks))
    }
  }

  /** A reader over a file's whole text, delivered in one piece. */
  function ReaderOf(text: string): (r: Reader)
    ensures r.Contents() == Ok(text)
  {
    assert Concat([text]) == text by {
      assert [text][1..] == [];
      assert text + "" == text;
    }
    Reader([text], None)
  }

  /** Reading `reader` to the end either fails or delivers exactly `text`. */
  predicate Yields(reader: Reader, text: string)
  {
    reader.Contents().Ok? ==> reader.Contents().value == text
  }

  /** `Read::read_to_string(&mut buf)`: reads chunk after chunk, appending
      each to `buf`, until end of input (`Ok` with the number of characters
      read) or an error (`Err`; what was read before it stays in `buf`). */
  method ReadToString(reader: Reader, buf: string) returns (buf': string, r: Result<nat, IoError>)
    ensures buf' == buf + Concat(reader.chunks)
    ensures r.Ok? <==> reader.Contents().Ok?
    ensures r.Ok? ==> r.value == |reader.Contents().value|
    ensures r.Err? ==> r.error == reader.Contents().error
  {
    buf' := buf;
    var i := 0;
    while i < |reader.chunks|
      invariant 0 <= i <= |reader.chunks|
      invariant buf' == buf + Concat(reader.chunks[..i])
    {
      ConcatSnoc(reader.chunks[..i], reader.chunks[i]);
      assert reader.chunks[..i + 1] == reader.chunks[..i] + [reader.chunks[i]];
      buf' := buf' + reader.chunks[i];
      i := i + 1;
    }
    assert reader.chunks[..i] == reader.chunks;
    if reader.end.Some? {
      r := Err(reader.end.value);
    } else {
      r := Ok(|buf'| - |buf|);
    }
  }

  /** A `Write`r: the text written so far, and a fault that, while set,
      makes every `write_all` fail with it. */
  class Writer {
    var buffer: string
    var fault: Option<IoError>

    constructor (fault: Option<IoError>)
      ensures buffer == "" && this.fault == fault
    {
      buffer := "";
      this.fault := fault;
    }

    /** `Write::write_all`: either all of `s` is appended, or nothing is and
        the writer's fault is returned. */
    method WriteAll(s: string) returns (r: Result<(), IoError>)
      modifies this
      ensures fault == old(fault)
      ensures old(fault).None? ==> r == Ok(()) && buffer == old(buffer) + s
      ensures old(fault).Some? ==> r == Err(old(fault).value) && buffer == old(buffer)
    {
      if fault.Some? {
        r := Err(fault.value);
      } else {
        buffer := buffer + s;
        r := Ok(());
      }
    }
  }

  /** The file system: each existing path maps to the file's handle, whose
      buffer is the file's text. Creating and opening may fail for reasons
      the model does not track, so both choose their outcome freely. */
  class FileSystem {
    var files: map<Path, Writer>

    constructor ()
      ensures files == map[]
    {
      files := map[];
    }

    /** `File::create`: fails, changing nothing, or truncates (or makes) the
        file at `path` and returns a handle writing to it. */
    method Create(path: Path) returns (r: Result<Writer, IoError>)
      modifies this
      ensures r.Err? ==> files == old(files)
      ensures r.Ok? ==> fresh(r.value) && r.value.buffer == "" && files == old(files)[path := r.value]
    {
      var fails: bool :| true;
      if fails {
        var code: int :| true;
        r := Err(Os(code));
      } else {
        var fault: Option<IoError> :| true;
        var handle := new Writer(fault);
        files := files[path := handle];
        r := Ok(handle);
      }
    }

    /** `File::open`: a missing path fails with `NotFound`; an existing one
        may still fail, or yields a reader over the file's text. Reading
        that file may itself fail part-way, after some of the text. */
    method Open(path: Path) returns (r: Result<Reader, IoError>)
      ensures path !in files ==> r == Err(NotFound)
      ensures r.Ok? ==> path in files && Yields(r.value, files[path].buffer)
    {
      if path !in files {
        r := Err(NotFound);
      } else {
        var fails: bool :| true;
        if fails {
          var code: int :| true;
          r := Err(Os(code));
        } else {
          var text := files[path].buffer;
          var end: Option<IoError> :| true;
          if end.None? {
            r := Ok(ReaderOf(text));
          } else {
            var k: nat :| k <= |text|;
            r := Ok(Reader([text[..k]], end));
          }
        }
      }
    }
  }
}
