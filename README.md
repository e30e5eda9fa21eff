# serde glue: a Dafny model

This crate puts one interface over several serde codecs. A backend implements
the `Serializer` trait for one target type: `to_string`, `to_writer`,
`from_str` and `from_reader`, with pretty variants that default to the plain
ones. The generic `Serializable` facade wraps every backend error in one tagged
`Error`. It adds `to_path`, `to_path_pretty` and `from_path`, which create or
open a file and hand it to `to_writer` or `from_reader`. `to_path` re-tags
writer errors as file errors carrying the path. `from_path` is written to do
the same for reader errors, but with the provided `from_reader` it never does
(see "## Findings"). The `*_opt` helpers pick plain or pretty output from a boolean.

The model covers the trait, the facade, the dummy backend (`ToString` and
`FromStr`) and the TOML backend. Codecs are never interpreted: `toml::to_string`,
`toml::to_string_pretty`, `toml::from_str`, `ToString` and `FromStr` are function
values passed in, each returning a `Result`. The model does not fix any concrete
encoding.

Modules, one per concern:

- `Results` (results.dfy): `Option` and `Result`.
- `Io` (io.dfy): the standard I/O the crate uses.
  - An opaque `IoError`.
  - A `Reader` value: chunks, then end of input or an error.
  - `ReadToString`: a loop that appends chunk after chunk to the caller's string.
  - A `Writer` class: a text buffer, plus a fault that makes `write_all` fail while it is set. A write is all-or-nothing.
  - A `FileSystem` class: a map from paths to file handles. `Create` and `Open` may fail nondeterministically.
- `SerializerTrait` (serializer.dfy): the trait as a record of the backend's operations. `None` in a pretty slot means the backend keeps the trait's default. `WriteImpl` says how a backend's `to_writer` acts on a writer: render the text, then call `write_all` once. `Run` gives the text appended and the result returned.
- `Serializable` (serializable.dfy): the facade, generic over any backend record.
- `Dummy` (dummy.dfy) and `Toml` (toml.dfy): the two backends.
  - Each has its own error enum and its concrete operations.
  - `AsSerializer` gives the record the facade sees.
  - Each concrete writer and reader method is proved to behave exactly as that record says.
- `Usage` (usage.dfy): the facade over the dummy backend, end to end.

## Model

| member | source | states |
|---|---|---|
| `Io.ReadToString` | src/dummy.rs:89-94 | `read_to_string` appends all the reader's text to the buffer. It returns `Ok` with the number of characters read exactly when the reader ends cleanly, and otherwise the reader's error. |
| `Io.Writer.WriteAll` | src/dummy.rs:77 | `write_all` appends the whole text when the writer has no fault. Otherwise it returns the fault and leaves the buffer as it was. |
| `Io.FileSystem.Create` | src/serializable.rs:245-250 | `File::create` either fails and leaves the file system unchanged, or maps `path` to a fresh, empty handle and changes nothing else. |
| `Io.FileSystem.Open` | src/serializable.rs:310-315 | `File::open` fails with `NotFound` on a missing path. On success, reading the returned file either fails part-way or delivers exactly the file's text. |
| `SerializerTrait.Run` | src/serializer.rs:59-69 | `to_writer` succeeds exactly when encoding succeeds and the writer has no fault. On success it appends exactly the encoded text. On failure it appends nothing and returns the codec error, or the write error mapped by the backend. |
| `SerializerTrait.ToWriter` | src/serializer.rs:69 | Invoking the backend's `to_writer` appends `Run`'s output to the writer and returns `Run`'s result. |
| `SerializerTrait.ToStringPretty` | src/serializer.rs:40-57 | The default `to_string_pretty(v)` is exactly `to_string(v)`, error value included. An override is used as is. |
| `SerializerTrait.PrettyWriter` | src/serializer.rs:71-86 | The writer behaviour used by `to_writer_pretty` is the plain `to_writer` unless the backend overrides it. |
| `SerializerTrait.ToWriterPretty` | src/serializer.rs:86 | The default `to_writer_pretty` hands the same writer to `to_writer` once. It appends the same text and returns the same result as `to_writer`. |
| `SerializerTrait.PlainWhenNotOverridden` | src/serializer.rs:43-86 | A backend that overrides neither pretty method has pretty output identical to plain output, as a string and on a writer in any state. |
| `Serializable.Error.Source` | src/serializable.rs:78-94 | Every variant has a cause, and `source()` returns the one it wraps. The I/O error is the cause exactly for `FileCreate` and `FileOpen`. Every other variant returns its backend error. |
| `Serializable.ToString` | src/serializable.rs:113-119 | Returns the backend's `Ok` unchanged. A backend error `err` becomes `SerializeString { what, err }`, where `what` is the target's name. |
| `Serializable.ToStringPretty` | src/serializable.rs:133-139 | As `to_string`, over the backend's pretty string, whether overridden or the default. |
| `Serializable.ToWriter` | src/serializable.rs:150-156 | The writer holds exactly what the backend wrote. A codec or write failure becomes `SerializeWriter { what, err }` with the backend's error unchanged. |
| `Serializable.ToWriterPretty` | src/serializable.rs:171-177 | As `to_writer`, over the backend's pretty writer behaviour. |
| `Serializable.FromStr` | src/serializable.rs:192-201 | Returns the backend's value unchanged. A backend error becomes `DeserializeString { what, err }`. |
| `Serializable.FromReader` | src/serializable.rs:217-226 | Returns the backend's value unchanged. A backend error becomes `DeserializeString`, never `DeserializeReader`. |
| `Serializable.FromReaderFixed` | src/serializable.rs:318-320 | The corrected `from_reader`: a backend error becomes `DeserializeReader { what, err }`, the tag `from_path` matches on. |
| `Serializable.WriterToFile` | src/serializable.rs:253-257 | `SerializeWriter { what, err }` becomes `SerializeFile { what, path, err }`, keeping `what` and the cause. Success and every other error pass through unchanged. |
| `Serializable.ReaderToFile` | src/serializable.rs:318-322 | `DeserializeReader { what, err }` becomes `DeserializeFile { what, path, err }`, keeping `what` and the cause. Values and every other error pass through unchanged. |
| `Serializable.ToPath` | src/serializable.rs:241-258 | The only reachable errors are `FileCreate` and `SerializeFile`. A failed create gives `FileCreate` with the exact path and leaves the file system unchanged. Otherwise the new file holds exactly what the backend wrote, and a backend error becomes `SerializeFile` at `path`. |
| `Serializable.ToPathPretty` | src/serializable.rs:272-289 | As `to_path`, over the backend's pretty writer behaviour. |
| `Serializable.FromPath` | src/serializable.rs:303-323 | A missing file gives `FileOpen(path, NotFound)`, and a failed open gives `FileOpen` at `path`. Otherwise the result is `from_reader` on the opened file, unchanged: the file's text, or a read failure. So it only fails with `FileOpen` or `DeserializeString`, and never with `DeserializeFile`. |
| `Serializable.FromPathFixed` | src/serializable.rs:298-302 | With the corrected `from_reader`, a backend error on the opened file, a failed read included, comes back as `DeserializeFile { what, path, err }`, as the doc comment promises. |
| `Serializable.ToStringPrettyOpt` | src/serializable.rs:337-340 | With `true` it equals `to_string_pretty`, and with `false` it equals `to_string`. |
| `Serializable.WriterFor` | src/serializable.rs:353-355 | `true` selects the pretty writer behaviour, and `false` the plain one. |
| `Serializable.ToWriterPrettyOpt` | src/serializable.rs:352-355 | Behaves as `to_writer_pretty` when `pretty` holds, and as `to_writer` otherwise. This covers the writer's contents and the error value. |
| `Serializable.ToPathPrettyOpt` | src/serializable.rs:368-371 | Behaves as `to_path_pretty` when `pretty` holds, and as `to_path` otherwise. |
| `Serializable.PlainFacadeWhenNotOverridden` | src/serializable.rs:121-125 | For a backend without pretty overrides, `to_string_pretty` equals `to_string`, and `to_writer_pretty` and `to_path_pretty` use the plain writer behaviour, as the doc comments at lines 124-125, 161-162 and 261-262 say. The `*_opt` helpers then ignore their flag. |
| `Serializable.WhatIsTargetName` | src/serializable.rs:113-226 | Every error from the string and reader operations has the target's name as `what`. Its `source()` is the backend's error. |
| `Serializable.FromPathRetagIsDead` | src/serializable.rs:318-322 | For every backend and reader, `from_path`'s re-tagging leaves `from_reader`'s result unchanged. |
| `Serializable.FromPathFixedRetags` | src/serializable.rs:318-322 | With the corrected `from_reader`, every backend read error is re-tagged as `DeserializeFile` at the path, with the backend's error as its cause. |
| `Dummy.Error.Source` | src/dummy.rs:46-55 | `source()` returns the wrapped I/O error for `Write` and `Read`, and the parse error for `Deserialize`. |
| `Dummy.ToString` | src/dummy.rs:72 | Never fails, and returns the value's `ToString` text. |
| `Dummy.ToStringPretty` | src/dummy.rs:74 | Never fails, and returns `"Dummy<" + to_string(v) + ">"`. |
| `Dummy.PrettyEnclosesPlain` | src/dummy.rs:74 | The pretty text is 7 characters longer than the plain text. It starts with `Dummy<`, ends with `>`, and the plain text lies in between. |
| `Dummy.ToWriter` | src/dummy.rs:76-78 | On success it appends exactly the `ToString` text. A write failure becomes `Error::Write` and leaves the writer unchanged. |
| `Dummy.ToWriterPretty` | src/dummy.rs:80-82 | On success it appends exactly `Dummy<…>`. A write failure becomes `Error::Write` and leaves the writer unchanged. |
| `Dummy.FromStr` | src/dummy.rs:84-86 | Returns `FromStr`'s value. A parse error becomes `Error::Deserialize` with the same inner error. |
| `Dummy.FromReader` | src/dummy.rs:88-97 | A read failure gives `Error::Read`, and nothing is parsed. Otherwise the result equals `from_str` of the text read. |
| `Dummy.AsSerializer` | src/dummy.rs:68-98 | The dummy backend as the facade sees it: it overrides both pretty methods, and its writer behaviour is that of its own `to_writer` and `to_writer_pretty`. |
| `Toml.TomlError.Source` | src/toml.rs:52-62 | `source()` returns the I/O error for `Write` and `Read`. It returns the encode error for `Serialize` and the decode error for `Deserialize`. |
| `Toml.ToString` | src/toml.rs:78 | Returns the codec's text unchanged. A codec error always becomes `Serialize`, never `Write`, `Read` or `Deserialize`. |
| `Toml.ToStringPretty` | src/toml.rs:80-83 | As `to_string`, using `toml::to_string_pretty`. |
| `Toml.ToWriter` | src/toml.rs:85-98 | If encoding fails, returns `Serialize` and leaves the writer untouched. Otherwise it appends exactly `toml::to_string(v)`, and a `write_all` failure becomes `Write` with nothing appended. |
| `Toml.ToWriterPretty` | src/toml.rs:100-113 | The same two phases, using `toml::to_string_pretty`. |
| `Toml.FromStr` | src/toml.rs:115-118 | Returns the codec's value. A decode error becomes `Deserialize`. |
| `Toml.FromReader` | src/toml.rs:120-133 | A read failure gives `Read`, and the codec never runs. Otherwise the result equals `from_str` of the text read, with parse errors as `Deserialize`. |
| `Toml.AsSerializer` | src/toml.rs:73-134 | The TOML backend as the facade sees it: it overrides both pretty methods, and its writer behaviour is that of its own `to_writer` and `to_writer_pretty`. |
| `Usage.DummyStringsThroughFacade` | src/serializable.rs:337-340 | Through the facade with the dummy backend, `to_string_pretty_opt` never fails. It returns the plain text or `Dummy<…>`, as the flag says. |
| `Usage.DummyParseFailureThroughFacade` | src/serializable.rs:192-226 | With the dummy backend, a parse failure reaches the caller as `DeserializeString` wrapping `Deserialize`. This holds for `from_str` and for `from_reader` alike. |
| `Usage.DummyReadFailureThroughFacade` | src/dummy.rs:91-93 | With the dummy backend, a reader that fails reaches the caller of `from_reader` as `DeserializeString` wrapping `Read` with the reader's error. |
| `Usage.SaveThenLoad` | src/serializable.rs:241-323 | With the dummy backend, a successful `to_path` leaves the value's text in the file. If that text parses back to the value, `from_path` then returns the value, a `FileOpen` error at the path, or, when reading the file fails, `DeserializeString` wrapping `Read` without the path. |

## Left out

- Asynchronous writing and reading: the tokio code in `src/dummy.rs:100-128` and the empty, feature-gated `SerializerAsync` trait. This is runtime plumbing, and its methods are not part of any trait.
- `src/json.rs` and `src/yaml.rs`: one-line forwards to `serde_json` and `serde_yaml`. The YAML backend keeps both trait defaults. `SerializerTrait.PlainWhenNotOverridden` covers its pretty string. It covers its pretty writer only for render-then-write writers, and YAML's `to_writer` streams through `serde_yaml::to_writer` (src/yaml.rs:41-43), which is not one.
- Streaming encoders. A backend's `to_writer` is modelled as render-then-one-`write_all`, which is exactly what both modelled backends do. A codec that writes to the stream piece by piece, as `serde_json::to_writer` does, is not captured.
- The codecs themselves: TOML, serde, `ToString` and `FromStr` are uninterpreted function values. No concrete encoding is modelled.
- The `Display` messages, `path.display()` and `type_name` formatting are left out. `what` is an opaque string, fixed per backend record, and a path is an opaque string.
- Partial writes, and writes that succeed only after retries inside `write_all`, are left out. A write either appends everything or nothing.
- UTF-8 validation in `read_to_string`. Readers deliver characters, not bytes.
- Permissions, directories, concurrent access to one path, and the cause of an I/O failure. `File::create` and `File::open` only succeed or fail.
- `Serializable`'s methods are modelled as the trait's provided bodies. An implementor may override any of them, and an override is not modelled. In particular, an overriding `from_reader` that returns `DeserializeReader` would reach the re-tagging arm of `from_path` (src/serializable.rs:320).
- Serializable.ToPath: the source promises that the backend is never invoked when creation fails. The model states this as the file system staying unchanged and the error carrying only the path and the I/O error. Backend calls are pure here and leave no trace, so the call itself cannot be observed. The same holds for `Serializable.ToPathPretty` and `Serializable.ToPathPrettyOpt`.

## Findings

| source | as written | input that shows it | evidently intended | confidence | as-written member | corrected member |
|---|---|---|---|---|---|---|
| src/serializable.rs:224 | The provided `from_reader` tags backend errors `DeserializeString`, as its own doc comment (lines 212-216) also says, and no code in the crate builds `DeserializeReader`. So with the provided `from_reader`, the arm at line 320 that re-tags `DeserializeReader` as `DeserializeFile` can never fire, and `from_path` never returns `DeserializeFile`, although its doc comment (lines 298-302) says it can. | Any backend whose `from_reader` fails, such as the dummy backend on a file whose text does not parse. `from_path` returns `DeserializeString { what, err }` with no path. An implementor that overrides `from_reader` could still reach the arm. | `from_reader` should tag `DeserializeReader`, so that `from_path` reports `DeserializeFile { what, path, err }`. | high (not executed) | `Serializable.FromPath` | `Serializable.FromPathFixed` |

Supporting lemmas:

- For the source as written, `Serializable.FromPathRetagIsDead` and `Usage.DummyParseFailureThroughFacade` show the dead arm on every input, and `Usage.SaveThenLoad` shows a failed read of a saved file arriving without its path.
- For the corrected version, `Serializable.FromReaderFixed` and `Serializable.FromPathFixedRetags` carry the fix.
