/** The TOML backend: forwards to the `toml` crate's `to_string`,
    `to_string_pretty` and `from_str`, keeps codec failures (`Serialize`,
    `Deserialize`) apart from I/O failures (`Write`, `Read`), and reaches
    writers and readers only through strings. */
module Toml {
  import opened Results
  import opened Io
  import SerializerTrait

  /** The `toml` crate's entry points for one target type: encoding fails
      with a `toml::ser::Error` (`S`), decoding with a `toml::de::Error`
      (`D`). */
  datatype Codec<!T, S, D> = Codec(
    toString: T -> Result<string, S>,
    toStringPretty: T -> Result<string, S>,
    fromStr: string -> Result<T, D>)

  /** Either of the codec's two error types. */
  datatype CodecError<S, D> = SerError(ser: S) | DeError(de: D)

  /** `TomlError`. */
  datatype TomlError<S, D> = Write(ioErr: IoError) | Read(ioErr: IoError) | Serialize(ser: S) | Deserialize(de: D)
  {
    /** `Error::source`: the wrapped I/O failure or codec error. */
    function Source(): (c: Cause<CodecError<S, D>>)
      ensures c.IoCause? <==> Write? || Read?
      ensures c.IoCause? ==> c.io == ioErr
      ensures Serialize? ==> c == InnerCause(SerError(ser))
      ensures Deserialize? ==> c == InnerCause(DeError(de))
    {
      match this
      case Write(e) => IoCause(e)
      case Read(e) => IoCause(e)
      case Serialize(e) => InnerCause(SerError(e))
      case Deserialize(e) => InnerCause(DeError(e))
    }
  }

  /** `to_string`: the codec's text, or its error as `Serialize`. */
  function ToString<T, S, D>(c: Codec<T, S, D>, v: T): (r: Result<string, TomlError<S, D>>)
    ensures r.Ok? <==> c.toString(v).Ok?
    ensures r.Ok? ==> r.value == c.toString(v).value
    ensures r.Err? ==> r.error == Serialize(c.toString(v).error)
  {
    match c.toString(v)
    case Ok(text) => Ok(text)
    case Err(e) => Err(Serialize(e))
  }

  /** `to_string_pretty`: the codec's pretty text, or its error as
      `Serialize`. */
  function ToStringPretty<T, S, D>(c: Codec<T, S, D>, v: T): (r: Result<string, TomlError<S, D>>)
    ensures r.Ok? <==> c.toStringPretty(v).Ok?
    ensures r.Ok? ==> r.value == c.toStringPretty(v).value
    ensures r.Err? ==> r.error == Serialize(c.toStringPretty(v).error)
  {
    match c.toStringPretty(v)
    case Ok(text) => Ok(text)
    case Err(e) => Err(Serialize(e))
  }

  /** How `to_writer` and `to_writer_pretty` act on a writer: encode with
      `toml::to_string` (resp. `toml::to_string_pretty`), then one
      `write_all`, whose failure becomes `Write`. */
  function PlainWriter<T, S, D>(c: Codec<T, S, D>): SerializerTrait.WriteImpl<T, TomlError<S, D>>
  {
    SerializerTrait.WriteImpl((v: T) => ToString(c, v), (e: IoError) => Write(e))
  }

  function PrettyWriter<T, S, D>(c: Codec<T, S, D>): SerializerTrait.WriteImpl<T, TomlError<S, D>>
  {
    SerializerTrait.WriteImpl((v: T) => ToStringPretty(c, v), (e: IoError) => Write(e))
  }

  /** `to_writer`: encodes to a string first; an encoding failure is
      `Serialize` and the writer is not touched. Otherwise the writer gets
      exactly the encoded text, or, if `write_all` fails, nothing and a
      `Write` error. */
  method ToWriter<T, S, D>(c: Codec<T, S, D>, v: T, w: Writer) returns (r: Result<(), TomlError<S, D>>)
    modifies w
    ensures w.fault == old(w.fault)
    ensures c.toString(v).Err? ==> r == Err(Serialize(c.toString(v).error)) && w.buffer == old(w.buffer)
    ensures c.toString(v).Ok? && old(w.fault).None? ==>
      r == Ok(()) && w.buffer == old(w.buffer) + c.toString(v).value
    ensures c.toString(v).Ok? && old(w.fault).Some? ==>
      r == Err(Write(old(w.fault).value)) && w.buffer == old(w.buffer)
    ensures w.buffer == old(w.buffer) + SerializerTrait.Run(PlainWriter(c), v, old(w.fault)).output
    ensures r == SerializerTrait.Run(PlainWriter(c), v, old(w.fault)).result
  {
    var raw: string;
    match c.toString(v) {
      case Ok(text) => raw := text;
      case Err(e) => return Err(Serialize(e));
    }
    var written := w.WriteAll(raw);
    match written
    case Ok(_) => r := Ok(());
    case Err(e) => r := Err(Write(e));
  }

  /** `to_writer_pretty`: as `to_writer`, with `toml::to_string_pretty`. */
  method ToWriterPretty<T, S, D>(c: Codec<T, S, D>, v: T, w: Writer) returns (r: Result<(), TomlError<S, D>>)
    modifies w
    ensures w.fault == old(w.fault)
    ensures c.toStringPretty(v).Err? ==> r == Err(Serialize(c.toStringPretty(v).error)) && w.buffer == old(w.buffer)
    ensures c.toStringPretty(v).Ok? && old(w.fault).None? ==>
      r == Ok(()) && w.buffer == old(w.buffer) + c.toStringPretty(v).value
    ensures c.toStringPretty(v).Ok? && old(w.fault).Some? ==>
      r == Err(Write(old(w.fault).value)) && w.buffer == old(w.buffer)
    ensures w.buffer == old(w.buffer) + SerializerTrait.Run(PrettyWriter(c), v, old(w.fault)).output
    ensures r == SerializerTrait.Run(PrettyWriter(c), v, old(w.fault)).result
  {
    var raw: string;
    match c.toStringPretty(v) {
      case Ok(text) => raw := text;
      case Err(e) => return Err(Serialize(e));
    }
    var written := w.WriteAll(raw);
    match written
    case Ok(_) => r := Ok(());
    case Err(e) => r := Err(Write(e));
  }

  /** `from_str`: the codec's value, or its error as `Deserialize`. */
  function FromStr<T, S, D>(c: Codec<T, S, D>, raw: string): (r: Result<T, TomlError<S, D>>)
    ensures r.Ok? <==> c.fromStr(raw).Ok?
    ensures r.Ok? ==> r.value == c.fromStr(raw).value
    ensures r.Err? ==> r.error == Deserialize(c.fromStr(raw).error)
  {
    match c.fromStr(raw)
    case Ok(v) => Ok(v)
    case Err(e) => Err(Deserialize(e))
  }

  /** What `from_reader` returns for a reader. */
  function ReadThenParse<T, S, D>(c: Codec<T, S, D>, reader: Reader): Result<T, TomlError<S, D>>
  {
    match reader.Contents()
    case Err(e) => Err(Read(e))
    case Ok(text) =>
      match c.fromStr(text)
      case Ok(v) => Ok(v)
      case Err(e) => Err(Deserialize(e))
  }

  /** `from_reader`: reads the whole reader into a string; a read failure is
      `Read` and the codec is never run. Otherwise it decodes the text with
      `toml::from_str` itself, which comes to the same as `from_str` on the
      text read. */
  method FromReader<T, S, D>(c: Codec<T, S, D>, reader: Reader) returns (r: Result<T, TomlError<S, D>>)
    ensures reader.Contents().Err? ==> r == Err(Read(reader.Contents().error))
    ensures reader.Contents().Ok? ==> r == FromStr(c, reader.Contents().value)
    ensures r == ReadThenParse(c, reader)
  {
    var raw: string := "";
    var read;
    raw, read := ReadToString(reader, raw);
    if read.Err? {
      return Err(Read(read.error));
    }
    assert raw == reader.Contents().value by {
      assert "" + Concat(reader.chunks) == Concat(reader.chunks);
    }
    match c.fromStr(raw)
    case Ok(v) => r := Ok(v);
    case Err(e) => r := Err(Deserialize(e));
  }

  /** The TOML backend's implementation of the `Serializer` trait for a
      target type named `what`: it overrides both pretty operations. */
  function AsSerializer<T, S, D>(c: Codec<T, S, D>, what: string): (s: SerializerTrait.Serializer<T, TomlError<S, D>>)
    ensures s.what == what
    ensures s.toStringPretty.Some? && s.toWriterPretty.Some?
    ensures s.toWriter == PlainWriter(c) && SerializerTrait.PrettyWriter(s) == PrettyWriter(c)
  {
    SerializerTrait.Serializer(
      what,
      (v: T) => ToString(c, v),
      Some((v: T) => ToStringPretty(c, v)),
      PlainWriter(c),
      Some(PrettyWriter(c)),
      (raw: string) => FromStr(c, raw),
      (reader: Reader) => ReadThenParse(c, reader))
  }
}
