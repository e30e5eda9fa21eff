/** The facade over a concrete backend, end to end: what a caller of
    `Serializable` gets when the backend is the dummy one. */
module Usage {
  import opened Results
  import opened Io
  import Serializable
  import Dummy

  /** Through the facade, the dummy backend never fails to produce a
      string, and the `pretty` flag picks between the plain text and its
      `Dummy<...>` form. */
  lemma DummyStringsThroughFacade<T, P>(c: Dummy.Text<T, P>, what: string, v: T, pretty: bool)
    ensures Serializable.ToStringPrettyOpt(Dummy.AsSerializer(c, what), v, pretty) ==
      Ok(if pretty then "Dummy<" + c.show(v) + ">" else c.show(v))
  {
  }

  /** Through the facade, a dummy parse failure is reported by `from_str`
      and by `from_reader` alike as `DeserializeString` wrapping the
      backend's `Deserialize`. */
  lemma DummyParseFailureThroughFacade<T, P>(c: Dummy.Text<T, P>, what: string, text: string)
    requires c.parse(text).Err?
    ensures Serializable.FromStr(Dummy.AsSerializer(c, what), text) ==
      Err(Serializable.DeserializeString(what, Dummy.Deserialize(c.parse(text).error)))
    ensures Serializable.FromReader(Dummy.AsSerializer(c, what), ReaderOf(text)) ==
      Serializable.FromStr(Dummy.AsSerializer(c, what), text)
  {
  }

  /** Through the facade, a dummy read failure is reported by `from_reader`
      as `DeserializeString` wrapping the backend's `Read`, whatever was
      read before it. */
  lemma DummyReadFailureThroughFacade<T, P>(c: Dummy.Text<T, P>, what: string, reader: Reader)
    requires reader.end.Some?
    ensures Serializable.FromReader(Dummy.AsSerializer(c, what), reader) ==
      Err(Serializable.DeserializeString(what, Dummy.Read(reader.end.value)))
  {
  }

  /** Saving a value with `to_path` and loading it back with `from_path`
      through the dummy backend: when the value's text parses back to the
      value, a successful save is followed by the value itself, unless
      opening the file fails or reading it fails part-way. A failed read
      reaches the caller as `DeserializeString` wrapping the backend's
      `Read`, without the path. */
  method SaveThenLoad<T, P>(c: Dummy.Text<T, P>, what: string, v: T, path: Path, fs: FileSystem)
    returns (saved: Result<(), Serializable.Error<Dummy.Error<P>>>, loaded: Result<T, Serializable.Error<Dummy.Error<P>>>)
    requires c.parse(c.show(v)) == Ok(v)
    modifies fs
    ensures saved.Ok? ==> path in fs.files && fs.files[path].buffer == c.show(v)
    ensures saved.Ok? ==>
      loaded == Ok(v) ||
      (loaded.Err? && loaded.error.FileOpen? && loaded.error.path == path) ||
      (loaded.Err? && loaded.error.DeserializeString? && loaded.error.what == what && loaded.error.err.Read?)
  {
    var s := Dummy.AsSerializer(c, what);
    saved := Serializable.ToPath(s, v, path, fs);
    loaded := Serializable.FromPath(s, path, fs);
    if saved.Ok? && !(loaded.Err? && loaded.error.FileOpen?) {
      ghost var reader :| Yields(reader, fs.files[path].buffer) && loaded == Serializable.FromReader(s, reader);
      if reader.Contents().Err? {
        assert loaded == Err(Serializable.DeserializeString(what, Dummy.Read(reader.Contents().error)));
      } else {
        assert reader.Contents().value == c.show(v);
        assert loaded == Ok(v);
      }
    }
  }
}
