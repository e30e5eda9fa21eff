/** The `Serializer` trait: the operations a backend supplies for one target
    type, and the two operations the trait provides by default (the pretty
    variants, which fall back to the plain ones). A backend is a record of its
    operations; an absent pretty operation is one the backend does not
    override. */
module SerializerTrait {
  import opened Results
  import opened Io

  /** How a backend's `to_writer` acts on a writer: it renders the value to
      text first (a codec failure writes nothing), then passes the text to a
      single `write_all`, turning an I/O failure into its own error type. */
  datatype WriteImpl<!V, E> = WriteImpl(render: V -> Result<string, E>, writeFailed: IoError -> E)

  /** One backend bound to its `Target` type, whose name is `what`. */
  datatype Serializer<!V, E> = Serializer(
    what: string,
    toString: V -> Result<string, E>,
    toStringPretty: Option<V -> Result<string, E>>,
    toWriter: WriteImpl<V, E>,
    toWriterPretty: Option<WriteImpl<V, E>>,
    fromStr: string -> Result<V, E>,
    fromReader: Reader -> Result<V, E>)

  /** What running a `to_writer` leaves behind: the text appended to the
      writer and the result returned. */
  datatype Effect<E> = Effect(output: string, result: Result<(), E>)

  /** The effect of `impl` writing `v` to a writer whose fault is `fault`. */
  function Run<V, E>(impl: WriteImpl<V, E>, v: V, fault: Option<IoError>): (eff: Effect<E>)
    ensures eff.result.Ok? <==> impl.render(v).Ok? && fault.None?
    ensures eff.result.Ok? ==> eff.output == impl.render(v).value
    ensures eff.result.Err? ==> eff.output == ""
    ensures impl.render(v).Err? ==> eff.result == Err(impl.render(v).error)
    ensures impl.render(v).Ok? && fault.Some? ==> eff.result == Err(impl.writeFailed(fault.value))
  {
    match impl.render(v)
    case Err(e) => Effect("", Err(e))
    case Ok(text) =>
      if fault.Some? then Effect("", Err(impl.writeFailed(fault.value))) else Effect(text, Ok(()))
  }

  /** Runs `impl` against the writer `w`. */
  method RunOn<V, E>(impl: WriteImpl<V, E>, v: V, w: Writer) returns (r: Result<(), E>)
    modifies w
    ensures w.fault == old(w.fault)
    ensures w.buffer == old(w.buffer) + Run(impl, v, old(w.fault)).output
    ensures r == Run(impl, v, old(w.fault)).result
  {
    var text := impl.render(v);
    if text.Err? {
      return Err(text.error);
    }
    var written := w.WriteAll(text.value);
    if written.Err? {
      return Err(impl.writeFailed(written.error));
    }
    r := Ok(());
  }

  /** `Serializer::to_string_pretty`: the backend's own, or by default
      exactly `to_string`, error value included. */
  function ToStringPretty<V, E>(s: Serializer<V, E>, v: V): (r: Result<string, E>)
    ensures s.toStringPretty.None? ==> r == s.toString(v)
    ensures s.toStringPretty.Some? ==> r == s.toStringPretty.value(v)
  {
    match s.toStringPretty
    case None => s.toString(v)
    case Some(pretty) => pretty(v)
  }

  /** The write behaviour `to_writer_pretty` ends up with. */
  function PrettyWriter<V, E>(s: Serializer<V, E>): (impl: WriteImpl<V, E>)
    ensures s.toWriterPretty.None? ==> impl == s.toWriter
    ensures s.toWriterPretty.Some? ==> impl == s.toWriterPretty.value
  {
    match s.toWriterPretty
    case None => s.toWriter
    case Some(pretty) => pretty
  }

  /** `Serializer::to_writer`: hands `w` to the backend. */
  method ToWriter<V, E>(s: Serializer<V, E>, v: V, w: Writer) returns (r: Result<(), E>)
    modifies w
    ensures w.fault == old(w.fault)
    ensures w.buffer == old(w.buffer) + Run(s.toWriter, v, old(w.fault)).output
    ensures r == Run(s.toWriter, v, old(w.fault)).result
  {
    r := RunOn(s.toWriter, v, w);
  }

  /** `Serializer::to_writer_pretty`: the backend's own, or by default a
      single call of `to_writer` on the same writer, so the same text is
      appended and the same result returned. */
  method ToWriterPretty<V, E>(s: Serializer<V, E>, v: V, w: Writer) returns (r: Result<(), E>)
    modifies w
    ensures w.fault == old(w.fault)
    ensures w.buffer == old(w.buffer) + Run(PrettyWriter(s), v, old(w.fault)).output
    ensures r == Run(PrettyWriter(s), v, old(w.fault)).result
    ensures s.toWriterPretty.None? ==>
      w.buffer == old(w.buffer) + Run(s.toWriter, v, old(w.fault)).output &&
      r == Run(s.toWriter, v, old(w.fault)).result
  {
    match s.toWriterPretty
    case None =>
      r := ToWriter(s, v, w);
    case Some(pretty) =>
      r := RunOn(pretty, v, w);
  }

  /** A backend that overrides neither pretty operation produces, for every
      value and every writer state, pretty output identical to its plain
      output, both as a string and on a writer. */
  lemma PlainWhenNotOverridden<V, E>(s: Serializer<V, E>, v: V, fault: Option<IoError>)
    requires s.toStringPretty.None? && s.toWriterPretty.None?
    ensures ToStringPretty(s, v) == s.toString(v)
    ensures Run(PrettyWriter(s), v, fault) == Run(s.toWriter, v, fault)
  {
  }
}
