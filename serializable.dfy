/** The `Serializable` facade: generic operations over any backend that wrap
    the backend's errors in one tagged `Error`, add the file operations
    `to_path`, `to_path_pretty` and `from_path`, and choose between plain and
    pretty output from a flag. */
module Serializable {
  import opened Results
  import opened Io
  import opened SerializerTrait

  /** The facade's error: where the operation failed (file, string, writer,
      reader) and the wrapped cause; `what` names the target type. */
  datatype Error<E> =
    | FileCreate(path: Path, ioErr: IoError)
    | FileOpen(path: Path, ioErr: IoError)
    | SerializeString(what: string, err: E)
    | SerializeWriter(what: string, err: E)
    | SerializeFile(what: string, path: Path, err: E)
    | DeserializeString(what: string, err: E)
    | DeserializeReader(what: string, err: E)
    | DeserializeFile(what: string, path: Path, err: E)
  {
    /** `Error::source`: every variant has a cause, and it is the one the
        variant wraps. */
    function Source(): (c: Cause<E>)
      ensures c.IoCause? <==> FileCreate? || FileOpen?
      ensures c.IoCause? ==> c.io == ioErr
      ensures c.InnerCause? ==> c.inner == err
    {
      match this
      case FileCreate(_, e) => IoCause(e)
      case FileOpen(_, e) => IoCause(e)
      case SerializeString(_, e) => InnerCause(e)
      case SerializeWriter(_, e) => InnerCause(e)
      case SerializeFile(_, _, e) => InnerCause(e)
      case DeserializeString(_, e) => InnerCause(e)
      case DeserializeReader(_, e) => InnerCause(e)
      case DeserializeFile(_, _, e) => InnerCause(e)
    }
  }

  /** `Serializable::to_string`. */
  function ToString<V, E>(s: Serializer<V, E>, v: V): (r: Result<string, Error<E>>)
    ensures r.Ok? <==> s.toString(v).Ok?
    ensures r.Ok? ==> r.value == s.toString(v).value
    ensures r.Err? ==> r.error == SerializeString(s.what, s.toString(v).error)
  {
    match s.toString(v)
    case Ok(text) => Ok(text)
    case Err(e) => Err(SerializeString(s.what, e))
  }

  /** `Serializable::to_string_pretty`. */
  function ToStringPretty<V, E>(s: Serializer<V, E>, v: V): (r: Result<string, Error<E>>)
    ensures r.Ok? <==> SerializerTrait.ToStringPretty(s, v).Ok?
    ensures r.Ok? ==> r.value == SerializerTrait.ToStringPretty(s, v).value
    ensures r.Err? ==> r.error == SerializeString(s.what, SerializerTrait.ToStringPretty(s, v).error)
  {
    match SerializerTrait.ToStringPretty(s, v)
    case Ok(text) => Ok(text)
    case Err(e) => Err(SerializeString(s.what, e))
  }

  /** `Serializable::to_writer`: whatever the backend writes stays in `w`;
      any backend error, from the codec or from the writer, becomes
      `SerializeWriter`. */
  method ToWriter<V, E>(s: Serializer<V, E>, v: V, w: Writer) returns (r: Result<(), Error<E>>)
    modifies w
    ensures w.fault == old(w.fault)
    ensures w.buffer == old(w.buffer) + Run(s.toWriter, v, old(w.fault)).output
    ensures r.Ok? <==> Run(s.toWriter, v, old(w.fault)).result.Ok?
    ensures r.Err? ==> r.error == SerializeWriter(s.what, Run(s.toWriter, v, old(w.fault)).result.error)
  {
    var res := SerializerTrait.ToWriter(s, v, w);
    match res
    case Ok(_) => r := Ok(());
    case Err(e) => r := Err(SerializeWriter(s.what, e));
  }

  /** `Serializable::to_writer_pretty`. */
  method ToWriterPretty<V, E>(s: Serializer<V, E>, v: V, w: Writer) returns (r: Result<(), Error<E>>)
    modifies w
    ensures w.fault == old(w.fault)
    ensures w.buffer == old(w.buffer) + Run(PrettyWriter(s), v, old(w.fault)).output
    ensures r.Ok? <==> Run(PrettyWriter(s), v, old(w.fault)).result.Ok?
    ensures r.Err? ==> r.error == SerializeWriter(s.what, Run(PrettyWriter(s), v, old(w.fault)).result.error)
  {
    var res := SerializerTrait.ToWriterPretty(s, v, w);
    match res
    case Ok(_) => r := Ok(());
    case Err(e) => r := Err(SerializeWriter(s.what, e));
  }

  /** `Serializable::from_str`. */
  function FromStr<V, E>(s: Serializer<V, E>, raw: string): (r: Result<V, Error<E>>)
    ensures r.Ok? <==> s.fromStr(raw).Ok?
    ensures r.Ok? ==> r.value == s.fromStr(raw).value
    ensures r.Err? ==> r.error == DeserializeString(s.what, s.fromStr(raw).error)
  {
    match s.fromStr(raw)
    case Ok(v) => Ok(v)
    case Err(e) => Err(DeserializeString(s.what, e))
  }

  /** `Serializable::from_reader` as written: a backend error is tagged
      `DeserializeString`, the same as for `from_str`, and never
      `DeserializeReader`. */
  function FromReader<V, E>(s: Serializer<V, E>, reader: Reader): (r: Result<V, Error<E>>)
    ensures r.Ok? <==> s.fromReader(reader).Ok?
    ensures r.Ok? ==> r.value == s.fromReader(reader).value
    ensures r.Err? ==> r.error == DeserializeString(s.what, s.fromReader(reader).error)
    ensures r.Err? ==> !r.error.DeserializeReader?
  {
    match s.fromReader(reader)
    case Ok(v) => Ok(v)
    case Err(e) => Err(DeserializeString(s.what, e))
  }

  /** `from_reader` as its `from_path` caller expects it: a backend error is
      tagged `DeserializeReader`. */
  function FromReaderFixed<V, E>(s: Serializer<V, E>, reader: Reader): (r: Result<V, Error<E>>)
    ensures r.Ok? <==> s.fromReader(reader).Ok?
    ensures r.Ok? ==> r.value == s.fromReader(reader).value
    ensures r.Err? ==> r.error == DeserializeReader(s.what, s.fromReader(reader).error)
  {
    match s.fromReader(reader)
    case Ok(v) => Ok(v)
    case Err(e) => Err(DeserializeReader(s.what, e))
  }

  /** The re-tagging `to_path` and `to_path_pretty` apply to what their
      writer call returns: `SerializeWriter` becomes `SerializeFile` at
      `path`, keeping `what` and the cause; anything else passes through. */
  function WriterToFile<E>(path: Path, r: Result<(), Error<E>>): (r': Result<(), Error<E>>)
    ensures r'.Ok? <==> r.Ok?
    ensures r.Err? && r.error.SerializeWriter? ==>
      r'.Err? && r'.error.SerializeFile? && r'.error.what == r.error.what && r'.error.path == path
    ensures r.Err? && !r.error.SerializeWriter? ==> r' == r
    ensures r.Err? ==> r'.error.Source() == r.error.Source()
  {
    match r
    case Ok(_) => Ok(())
    case Err(SerializeWriter(what, err)) => Err(SerializeFile(what, path, err))
    case Err(e) => Err(e)
  }

  /** The re-tagging `from_path` applies to what its reader call returns:
      `DeserializeReader` becomes `DeserializeFile` at `path`, keeping
      `what` and the cause; anything else passes through. */
  function ReaderToFile<V, E>(path: Path, r: Result<V, Error<E>>): (r': Result<V, Error<E>>)
    ensures r'.Ok? <==> r.Ok?
    ensures r.Ok? ==> r' == r
    ensures r.Err? && r.error.DeserializeReader? ==>
      r'.Err? && r'.error.DeserializeFile? && r'.error.what == r.error.what && r'.error.path == path
    ensures r.Err? && !r.error.DeserializeReader? ==> r' == r
    ensures r.Err? ==> r'.error.Source() == r.error.Source()
  {
    match r
    case Ok(v) => Ok(v)
    case Err(DeserializeReader(what, err)) => Err(DeserializeFile(what, path, err))
    case Err(e) => Err(e)
  }

  /** `Serializable::to_path`: a failed create returns `FileCreate` with the
      very path given and leaves the file system as it was, before the
      backend is reached; otherwise the new file holds exactly what the
      backend wrote, and a backend error comes back as `SerializeFile` at
      `path` with the backend's `what` and cause. */
  method ToPath<V, E>(s: Serializer<V, E>, v: V, path: Path, fs: FileSystem) returns (r: Result<(), Error<E>>)
    modifies fs
    ensures r.Ok? || r.error.FileCreate? || r.error.SerializeFile?
    ensures r.Err? && r.error.FileCreate? ==> r.error.path == path && fs.files == old(fs.files)
    ensures !(r.Err? && r.error.FileCreate?) ==>
      path in fs.files && fresh(fs.files[path]) && fs.files == old(fs.files)[path := fs.files[path]] &&
      fs.files[path].buffer == Run(s.toWriter, v, fs.files[path].fault).output &&
      (r.Ok? <==> Run(s.toWriter, v, fs.files[path].fault).result.Ok?) &&
      (r.Err? ==> r.error == SerializeFile(s.what, path, Run(s.toWriter, v, fs.files[path].fault).result.error))
  {
    var handle := fs.Create(path);
    if handle.Err? {
      return Err(FileCreate(path, handle.error));
    }
    var res := ToWriter(s, v, handle.value);
    r := WriterToFile(path, res);
  }

  /** `Serializable::to_path_pretty`: as `to_path`, through `to_writer_pretty`. */
  method ToPathPretty<V, E>(s: Serializer<V, E>, v: V, path: Path, fs: FileSystem) returns (r: Result<(), Error<E>>)
    modifies fs
    ensures r.Ok? || r.error.FileCreate? || r.error.SerializeFile?
    ensures r.Err? && r.error.FileCreate? ==> r.error.path == path && fs.files == old(fs.files)
    ensures !(r.Err? && r.error.FileCreate?) ==>
      path in fs.files && fresh(fs.files[path]) && fs.files == old(fs.files)[path := fs.files[path]] &&
      fs.files[path].buffer == Run(PrettyWriter(s), v, fs.files[path].fault).output &&
      (r.Ok? <==> Run(PrettyWriter(s), v, fs.files[path].fault).result.Ok?) &&
      (r.Err? ==> r.error == SerializeFile(s.what, path, Run(PrettyWriter(s), v, fs.files[path].fault).result.error))
  {
    var handle := fs.Create(path);
    if handle.Err? {
      return Err(FileCreate(path, handle.error));
    }
    var res := ToWriterPretty(s, v, handle.value);
    r := WriterToFile(path, res);
  }

  /** `Serializable::from_path` as written: a failed open returns `FileOpen`
      with the path given; otherwise the result is `from_reader`'s on the
      opened file, unchanged, because the re-tagging arm waits for a
      `DeserializeReader` that `from_reader` never produces. So it never
      yields `DeserializeFile`, not even when reading the file fails. */
  method FromPath<V, E>(s: Serializer<V, E>, path: Path, fs: FileSystem) returns (r: Result<V, Error<E>>)
    ensures path !in fs.files ==> r == Err(FileOpen(path, NotFound))
    ensures r.Err? && r.error.FileOpen? ==> r.error.path == path
    ensures !(r.Err? && r.error.FileOpen?) ==>
      path in fs.files &&
      exists reader :: Yields(reader, fs.files[path].buffer) && r == FromReader(s, reader)
    ensures r.Err? ==> r.error.FileOpen? || r.error.DeserializeString?
    ensures r.Err? ==> !r.error.DeserializeFile?
  {
    var handle := fs.Open(path);
    if handle.Err? {
      return Err(FileOpen(path, handle.error));
    }
    var res := FromReader(s, handle.value);
    r := ReaderToFile(path, res);
    assert Yields(handle.value, fs.files[path].buffer) && r == FromReader(s, handle.value);
  }

  /** `from_path` with the corrected `from_reader`: a backend error reading
      the file comes back as `DeserializeFile` carrying `path`. */
  method FromPathFixed<V, E>(s: Serializer<V, E>, path: Path, fs: FileSystem) returns (r: Result<V, Error<E>>)
    ensures path !in fs.files ==> r == Err(FileOpen(path, NotFound))
    ensures r.Err? && r.error.FileOpen? ==> r.error.path == path
    ensures !(r.Err? && r.error.FileOpen?) ==>
      path in fs.files &&
      exists reader :: Yields(reader, fs.files[path].buffer) &&
        (r.Ok? <==> s.fromReader(reader).Ok?) &&
        (r.Ok? ==> r.value == s.fromReader(reader).value) &&
        (r.Err? ==> r.error == DeserializeFile(s.what, path, s.fromReader(reader).error))
    ensures r.Err? ==> r.error.FileOpen? || r.error.DeserializeFile?
  {
    var handle := fs.Open(path);
    if handle.Err? {
      return Err(FileOpen(path, handle.error));
    }
    var res := FromReaderFixed(s, handle.value);
    r := ReaderToFile(path, res);
    assert Yields(handle.value, fs.files[path].buffer);
  }

  /** `Serializable::to_string_pretty_opt`: `to_string_pretty` when
      `pretty` holds, `to_string` otherwise. */
  function ToStringPrettyOpt<V, E>(s: Serializer<V, E>, v: V, pretty: bool): (r: Result<string, Error<E>>)
    ensures pretty ==> r == ToStringPretty(s, v)
    ensures !pretty ==> r == ToString(s, v)
  {
    if pretty then ToStringPretty(s, v) else ToString(s, v)
  }

  /** The write behaviour the `pretty` flag selects. */
  function WriterFor<V, E>(s: Serializer<V, E>, pretty: bool): (impl: WriteImpl<V, E>)
    ensures pretty ==> impl == PrettyWriter(s)
    ensures !pretty ==> impl == s.toWriter
  {
    if pretty then PrettyWriter(s) else s.toWriter
  }

  /** `Serializable::to_writer_pretty_opt`: `to_writer_pretty` when `pretty`
      holds, `to_writer` otherwise. */
  method ToWriterPrettyOpt<V, E>(s: Serializer<V, E>, v: V, w: Writer, pretty: bool) returns (r: Result<(), Error<E>>)
    modifies w
    ensures w.fault == old(w.fault)
    ensures w.buffer == old(w.buffer) + Run(WriterFor(s, pretty), v, old(w.fault)).output
    ensures r.Ok? <==> Run(WriterFor(s, pretty), v, old(w.fault)).result.Ok?
    ensures r.Err? ==> r.error == SerializeWriter(s.what, Run(WriterFor(s, pretty), v, old(w.fault)).result.error)
  {
    if pretty {
      r := ToWriterPretty(s, v, w);
    } else {
      r := ToWriter(s, v, w);
    }
  }

  /** `Serializable::to_path_pretty_opt`: `to_path_pretty` when `pretty`
      holds, `to_path` otherwise. */
  method ToPathPrettyOpt<V, E>(s: Serializer<V, E>, v: V, path: Path, fs: FileSystem, pretty: bool) returns (r: Result<(), Error<E>>)
    modifies fs
    ensures r.Ok? || r.error.FileCreate? || r.error.SerializeFile?
    ensures r.Err? && r.error.FileCreate? ==> r.error.path == path && fs.files == old(fs.files)
    ensures !(r.Err? && r.error.FileCreate?) ==>
      path in fs.files && fresh(fs.files[path]) && fs.files == old(fs.files)[path := fs.files[path]] &&
      fs.files[path].buffer == Run(WriterFor(s, pretty), v, fs.files[path].fault).output &&
      (r.Ok? <==> Run(WriterFor(s, pretty), v, fs.files[path].fault).result.Ok?) &&
      (r.Err? ==> r.error == SerializeFile(s.what, path, Run(WriterFor(s, pretty), v, fs.files[path].fault).result.error))
  {
    if pretty {
      r := ToPathPretty(s, v, path, fs);
    } else {
      r := ToPath(s, v, path, fs);
    }
  }

  /** For a backend that overrides neither pretty operation, every pretty
      facade operation is its plain one: the same string or error, and the
      same writer behaviour, so `to_writer_pretty` and `to_path_pretty` act
      as `to_writer` and `to_path`. */
  lemma PlainFacadeWhenNotOverridden<V, E>(s: Serializer<V, E>, v: V)
    requires s.toStringPretty.None? && s.toWriterPretty.None?
    ensures ToStringPretty(s, v) == ToString(s, v)
    ensures PrettyWriter(s) == s.toWriter
    ensures forall pretty :: ToStringPrettyOpt(s, v, pretty) == ToString(s, v)
    ensures forall pretty :: WriterFor(s, pretty) == s.toWriter
  {
  }

  /** Every error the string and reader operations produce names
      the target type in `what` and has the backend's error as its cause. */
  lemma WhatIsTargetName<V, E>(s: Serializer<V, E>, v: V, raw: string, reader: Reader)
    ensures ToString(s, v).Err? ==>
      ToString(s, v).error.what == s.what && ToString(s, v).error.Source() == InnerCause(s.toString(v).error)
    ensures ToStringPretty(s, v).Err? ==>
      ToStringPretty(s, v).error.what == s.what &&
      ToStringPretty(s, v).error.Source() == InnerCause(SerializerTrait.ToStringPretty(s, v).error)
    ensures FromStr(s, raw).Err? ==>
      FromStr(s, raw).error.what == s.what && FromStr(s, raw).error.Source() == InnerCause(s.fromStr(raw).error)
    ensures FromReader(s, reader).Err? ==>
      FromReader(s, reader).error.what == s.what &&
      FromReader(s, reader).error.Source() == InnerCause(s.fromReader(reader).error)
  {
  }

  /** The re-tagging arm of `from_path` never fires on what `from_reader`
      returns: whatever the backend and the reader, it is the identity. */
  lemma FromPathRetagIsDead<V, E>(s: Serializer<V, E>, path: Path, reader: Reader)
    ensures ReaderToFile(path, FromReader(s, reader)) == FromReader(s, reader)
  {
  }

  /** With the corrected `from_reader`, the same arm fires on every backend
      error, so a file that fails to parse is reported as `DeserializeFile`
      at its path with the backend's error as cause. */
  lemma FromPathFixedRetags<V, E>(s: Serializer<V, E>, path: Path, reader: Reader)
    requires s.fromReader(reader).Err?
    ensures ReaderToFile(path, FromReaderFixed(s, reader)) ==
      Err(DeserializeFile(s.what, path, s.fromReader(reader).error))
  {
  }
}
