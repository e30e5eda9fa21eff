/** The dummy backend: serializes through the target's `ToString` and
    deserializes through its `FromStr`; its pretty form wraps the text as
    `Dummy<...>`. */
module Dummy {
  import opened Results
  import opened Io
  import SerializerTrait

  /** The target type's own text conversions, `ToString::to_string` and
      `FromStr::from_str`, whose error type is `P`. */
  datatype Text<!T, P> = Text(show: T -> string, parse: string -> Result<T, P>)

  /** The dummy backend's error. */
  datatype Error<P> = Write(ioErr: IoError) | Read(ioErr: IoError) | Deserialize(err: P)
  {
    /** `Error::source`: the wrapped I/O failure or parse error. */
    function Source(): (c: Cause<P>)
      ensures c.IoCause? <==> Write? || Read?
      ensures c.IoCause? ==> c.io == ioErr
      ensures c.InnerCause? ==> c.inner == err
    {
      match this
      case Write(e) => IoCause(e)
      case Read(e) => IoCause(e)
      case Deserialize(e) => InnerCause(e)
    }
  }

  /** `to_string`: never fails, and is the value's own text. */
  function ToString<T, P>(c: Text<T, P>, v: T): (r: Result<string, Error<P>>)
    ensures r.Ok? && r.value == c.show(v)
  {
    Ok(c.show(v))
  }

  /** `to_string_pretty`: never fails, and is the plain text inside `Dummy<`
      and `>`. */
  function ToStringPretty<T, P>(c: Text<T, P>, v: T): (r: Result<string, Error<P>>)
    ensures r.Ok? && r.value == "Dummy<" + ToString(c, v).value + ">"
  {
    Ok("Dummy<" + c.show(v) + ">")
  }

  /** The plain text can be read back out of the pretty text: it is what
      lies between the six-character prefix `Dummy<` and the final `>`. */
  lemma PrettyEnclosesPlain<T, P>(c: Text<T, P>, v: T)
    ensures var pretty, plain := ToStringPretty(c, v).value, ToString(c, v).value;
      |pretty| == |plain| + 7 && pretty[..6] == "Dummy<" && pretty[|pretty| - 1] == '>' &&
      pretty[6..|pretty| - 1] == plain
  {
    var pretty, plain := ToStringPretty(c, v).value, ToString(c, v).value;
    assert pretty == "Dummy<" + plain + ">";
    assert pretty[..6] == "Dummy<";
    assert pretty[6..|pretty| - 1] == plain;
  }

  /** How `to_writer` and `to_writer_pretty` act on a writer: the text of
      `to_string` (resp. `to_string_pretty`), and a failed write becomes
      `Write`. */
  function PlainWriter<T, P>(c: Text<T, P>): SerializerTrait.WriteImpl<T, Error<P>>
  {
    SerializerTrait.WriteImpl((v: T) => ToString(c, v), (e: IoError) => Write(e))
  }

  function PrettyWriter<T, P>(c: Text<T, P>): SerializerTrait.WriteImpl<T, Error<P>>
  {
    SerializerTrait.WriteImpl((v: T) => ToStringPretty(c, v), (e: IoError) => Write(e))
  }

  /** `to_writer`: `write_all` of the value's text; a write failure becomes
      `Write` and leaves the writer as it was. */
  method ToWriter<T, P>(c: Text<T, P>, v: T, w: Writer) returns (r: Result<(), Error<P>>)
    modifies w
    ensures w.fault == old(w.fault)
    ensures old(w.fault).None? ==> r == Ok(()) && w.buffer == old(w.buffer) + c.show(v)
    ensures old(w.fault).Some? ==> r == Err(Write(old(w.fault).value)) && w.buffer == old(w.buffer)
    ensures w.buffer == old(w.buffer) + SerializerTrait.Run(PlainWriter(c), v, old(w.fault)).output
    ensures r == SerializerTrait.Run(PlainWriter(c), v, old(w.fault)).result
  {
    var text := ToString(c, v);
    var written := w.WriteAll(text.value);
    match written
    case Ok(_) => r := Ok(());
    case Err(e) => r := Err(Write(e));
  }

  /** `to_writer_pretty`: `write_all` of the `Dummy<...>` text; a write
      failure becomes `Write` and leaves the writer as it was. */
  method ToWriterPretty<T, P>(c: Text<T, P>, v: T, w: Writer) returns (r: Result<(), Error<P>>)
    modifies w
    ensures w.fault == old(w.fault)
    ensures old(w.fault).None? ==> r == Ok(()) && w.buffer == old(w.buffer) + "Dummy<" + c.show(v) + ">"
    ensures old(w.fault).Some? ==> r == Err(Write(old(w.fault).value)) && w.buffer == old(w.buffer)
    ensures w.buffer == old(w.buffer) + SerializerTrait.Run(PrettyWriter(c), v, old(w.fault)).output
    ensures r == SerializerTrait.Run(PrettyWriter(c), v, old(w.fault)).result
  {
    var text := ToStringPretty(c, v);
    var written := w.WriteAll(text.value);
    match written
    case Ok(_) => r := Ok(());
    case Err(e) => r := Err(Write(e));
  }

  /** `from_str`: the target's `FromStr`, a parse error wrapped unchanged
      in `Deserialize`. */
  function FromStr<T, P>(c: Text<T, P>, raw: string): (r: Result<T, Error<P>>)
    ensures r.Ok? <==> c.parse(raw).Ok?
    ensures r.Ok? ==> r.value == c.parse(raw).value
    ensures r.Err? ==> r.error == Deserialize(c.parse(raw).error)
  {
    match c.parse(raw)
    case Ok(v) => Ok(v)
    case Err(e) => Err(Deserialize(e))
  }

  /** What `from_reader` returns for a reader. */
  function ReadThenParse<T, P>(c: Text<T, P>, reader: Reader): Result<T, Error<P>>
  {
    match reader.Contents()
    case Err(e) => Err(Read(e))
    case Ok(text) => FromStr(c, text)
  }

  /** `from_reader`: reads everything into a fresh string; a read failure is
      `Read` and nothing is parsed, otherwise the result is `from_str` of
      the text read. */
  method FromReader<T, P>(c: Text<T, P>, reader: Reader) returns (r: Result<T, Error<P>>)
    ensures reader.Contents().Err? ==> r == Err(Read(reader.Contents().error))
    ensures reader.Contents().Ok? ==> r == FromStr(c, reader.Contents().value)
    ensures r == ReadThenParse(c, reader)
  {
    var raw: string := "";
    var read;
    raw, read := ReadToString(reader, raw);
    if read.Err? {
      return Err(Read(read.error));
    }
    assert raw == reader.Contents().value by {
      assert "" + Concat(reader.chunks) == Concat(reader.chunks);
    }
    r := FromStr(c, raw);
  }

  /** The dummy backend's implementation of the `Serializer` trait for a
      target type named `what`: it overrides both pretty operations. */
  function AsSerializer<T, P>(c: Text<T, P>, what: string): (s: SerializerTrait.Serializer<T, Error<P>>)
    ensures s.what == what
    ensures s.toStringPretty.Some? && s.toWriterPretty.Some?
    ensures s.toWriter == PlainWriter(c) && SerializerTrait.PrettyWriter(s) == PrettyWriter(c)
  {
    SerializerTrait.Serializer(
      what,
      (v: T) => ToString(c, v),
      Some((v: T) => ToStringPretty(c, v)),
      PlainWriter(c),
      Some(PrettyWriter(c)),
      (raw: string) => FromStr(c, raw),
      (reader: Reader) => ReadThenParse(c, reader))
  }
}
