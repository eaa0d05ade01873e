# `reverse` pipeline filter — Dafny model

This project models nushell's `reverse` command (`Reverse::run`), a pipeline
filter that reverses its input list or table. Every command in a nushell
pipeline receives its input as `PipelineData`, a channel that is empty, a
single value, a stream of values, or a raw external-process stream, and each
carries optional metadata. `reverse`:

1. reads the metadata of its input;
2. collects the input into a finite list with the strict coercion
   `into_iter_strict`, passing any error it raises straight back (Rust's `?`);
3. reverses the list and wraps it as a new stream that carries the same
   metadata and the engine's Ctrl-C flag.

Files:

- `wrappers.dfy` — `Option` and `Result` (the latter usable with `:-`, like `?`).
- `pipeline.dfy` — module `Pipeline`: the channel (`PipelineData`), values,
  metadata, spans, errors, the Ctrl-C flag, the strict coercion and the
  re-wrapping. `nu_protocol`, where these live, is not part of this model:
  they follow their documented contract. An empty channel coerces to no
  values. A list value coerces to its items. A stream is drained in order by
  the coercion itself, checking its Ctrl-C flag before each element. A set
  flag aborts the drain with `Interrupted` and drops what was pulled. Any
  other value and a raw external stream fail with `CannotCoerce`. Errors are
  attributed to the call head. In the command, `?` applies to the coercion
  alone and the `.collect()` after it cannot fail, so the model merges the
  two steps into one (see "Left out").
- `reverse.dfy` — module `Reverse`: `Run` (the command) and the lemmas about it.

The Ctrl-C flag is shared and written from outside. Here it is the value
`Ctrlc(setAtPull)`: the index of the first pull at which a reader finds it
set, or `None` if it stays clear while the data is drained. Once set it stays
set.

## Model

| member | source | states |
|---|---|---|
| `Reverse.Run` | crates/nu-command/src/filters/reverse.rs:60-73 | if strict coercion fails, `reverse` returns exactly that error and no data; otherwise it returns a stream whose items are the coerced items in reverse order (same length, item i is input item n-1-i), whose metadata is the input's and whose Ctrl-C flag is the engine's |
| `Reverse.Rev` | crates/nu-command/src/filters/reverse.rs:71 | the reversing iterator taken to its end yields the reverse of its input, position by position |
| `Reverse.RevInvolutive` | crates/nu-command/src/filters/reverse.rs:71 | reversing twice gives the original sequence |
| `Reverse.RevPermutes` | crates/nu-command/src/filters/reverse.rs:71 | reversal keeps the multiset of elements: nothing added, dropped or duplicated |
| `Reverse.RunKeepsElements` | crates/nu-command/src/filters/reverse.rs:70-72 | on success the output stream holds exactly the collected input elements, each with the same multiplicity |
| `Reverse.RunOnEmptyInput` | crates/nu-command/src/filters/reverse.rs:67-72 | an empty channel, an empty list or an empty stream gives an empty output stream, no error, with the input's metadata |
| `Reverse.RunInterrupted` | crates/nu-command/src/filters/reverse.rs:70 | a stream whose Ctrl-C flag is set before its last element is pulled makes `reverse` fail with `Interrupted` at the call head, passed on by `?`; this rests on the coercion draining the stream itself (see the `Pipeline.PipelineData.IntoIterStrict` line under Left out) |
| `Reverse.RunRejectsNonList` | crates/nu-command/src/filters/reverse.rs:70 | a raw external stream or a non-list value is refused by the strict coercion with `CannotCoerce` at the call head, and `?` returns that error with no data |
| `Reverse.RunTwiceRestores` | crates/nu-command/src/filters/reverse.rs:67-72 | `reverse` applied to its own output returns the original item list and the original metadata, when the flag stays clear during the second drain |
| `Reverse.ExampleReverseList` | crates/nu-command/src/filters/reverse.rs:36-43 | the list `[0,1,2,3]` piped into `reverse` becomes `[3,2,1,0]` |
| `Reverse.ExampleReverseTable` | crates/nu-command/src/filters/reverse.rs:46-55 | the table `[{a: 1} {a: 2}]` piped into `reverse` becomes `[{a: 2} {a: 1}]`, the records themselves unchanged |
| `Pipeline.PipelineData.Metadata` | crates/nu-command/src/filters/reverse.rs:67 | the metadata read from the input; an empty channel has none |
| `Pipeline.PipelineData.IntoIterStrict` | crates/nu-command/src/filters/reverse.rs:70 | strict coercion: empty gives no values, a list gives its items, a stream gives its items in order unless its flag interrupts the drain (then `Interrupted`), other values and raw streams give `CannotCoerce` |
| `Pipeline.Drain` | crates/nu-command/src/filters/reverse.rs:70 | draining a stream from a position succeeds exactly when the flag is not set before the last pull, then yields the remaining items in order; otherwise only the `Interrupted` error comes back |
| `Pipeline.IntoPipelineDataWithMetadata` | crates/nu-command/src/filters/reverse.rs:72 | the new stream carries exactly the given items in the given order, the given metadata unchanged and the given Ctrl-C flag |
| `Pipeline.WrapThenCoerce` | crates/nu-command/src/filters/reverse.rs:72 | coercing a wrapped list gives the same list back unless the wrapped flag interrupts the drain |

## Left out

- Pipeline.PipelineData.IntoIterStrict: the eager drain, with an `Interrupted` error when the Ctrl-C flag is found set, is taken as given from the channel's documented contract, since its code is not part of this model. In reverse.rs:70 the `?` covers only the coercion, and the elements are then pulled by an infallible `.collect()`. A flag first seen during that `.collect()` is not modelled: the model treats every interruption as raised inside the coercion, so `RunInterrupted` holds only under that contract.
- Command registration and help: `name`, `signature`, `usage`, `search_terms` and `examples` (reverse.rs:12-58) are declarative; the two examples appear only as the lemmas `ExampleReverseList` and `ExampleReverseTable`.
- The unit test at reverse.rs:76-86 only runs the examples.
- The `_stack` argument of `run` is unused by the command and is not modelled.
- `nu_protocol` (`PipelineData`, `Value`, `Span`, `ShellError`, `into_iter_strict`, `into_pipeline_data_with_metadata`) is not part of this model; these are abstract datatypes and functions that follow the channel's documented contract. Coercion of other value kinds (ranges, binary, error values) and the content of raw external streams are not modelled; a non-list value and a raw stream are treated as not coercible.
- Spans inside values are not modelled; the example values carry none.
- Single-pass exhaustion of a stream: `into_iter_strict` consumes its input by value, so a second drain of the same stream cannot be written in the source. The model works on values and has no second drain either.
- Infinite or lazily produced streams: a stream is a finite sequence here. Eager collection of an infinite producer never ends, so it has no finite model.
- The Ctrl-C flag's cross-thread sharing and atomic reads: the flag is a value giving the pull at which it is first seen set. The output merely carries the engine's flag. Laziness of the output stream (it is drained only by the next command) is not modelled.
