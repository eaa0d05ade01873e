/** The pipeline data channel that flows between two commands, and the two
    operations of it that the `reverse` filter uses: the strict coercion to a
    finite list of values and the re-wrapping of values as a new stream with
    metadata. Only their documented contract is modelled, not their code. */
module Pipeline {
  import opened Wrappers

  /** A source location; the `reverse` filter passes its call head. */
  datatype Span = Span(start: nat, end: nat)

  /** The structured values a pipeline carries; only the shapes the filter's
      examples use. A table is a list whose items are records. */
  datatype Value =
    | Int(i: int)
    | String(s: string)
    | Record(cols: seq<string>, vals: seq<Value>)
    | List(items: seq<Value>)

  /** Side-channel metadata (provenance of the data), passed along untouched. */
  datatype PipelineMetadata = PipelineMetadata(dataSource: string)

  /** The shared Ctrl-C flag, seen from the consumer's side. It is written by
      the outer environment and only read here; once set it stays set. It is
      modelled by the pull index from which a reader finds it set (`None`: it
      is never set while the data is being drained). */
  datatype Ctrlc = Ctrlc(setAtPull: Option<nat>) {

    /** The flag reads as set when the element with index `pull` is requested. */
    predicate IsSetAt(pull: nat) {
      setAtPull.Some? && setAtPull.value <= pull
    }

    /** Draining `n` elements meets the flag set before it is done. */
    predicate InterruptsDrainOf(n: nat) {
      setAtPull.Some? && setAtPull.value < n
    }
  }

  datatype ShellError =
    | Interrupted(span: Span)   // the Ctrl-C flag was found set during a drain
    | CannotCoerce(span: Span)  // the payload cannot be viewed as a list of values

  /** The four payload shapes of a channel. Raw external-process bytes are
      kept opaque: no operation here looks inside them. */
  datatype PipelineData =
    | Empty
    | Value(val: Value, valueMetadata: Option<PipelineMetadata>)
    | ListStream(stream: seq<Value>, streamMetadata: Option<PipelineMetadata>, ctrlc: Ctrlc)
    | ExternalStream(externalMetadata: Option<PipelineMetadata>)
  {
    /** The metadata attached to the channel; an empty channel has none. */
    function Metadata(): (m: Option<PipelineMetadata>)
      ensures Empty? ==> m == None
    {
      match this
      case Empty => None
      case Value(_, md) => md
      case ListStream(_, md, _) => md
      case ExternalStream(md) => md
    }

    /** Coerces the channel into a finite ordered list of values. A list
        value yields its items and an empty channel yields nothing; a stream
        is drained in order, checking its Ctrl-C flag before every element;
        any other value and a raw external stream cannot be coerced. Errors
        are attributed to `head`. */
    function IntoIterStrict(head: Span): (r: Result<seq<Value>, ShellError>)
      ensures Empty? ==> r == Ok([])
      ensures Value? ==> (r.Ok? <==> val.List?)
      ensures Value? && val.List? ==> r.value == val.items
      ensures Value? && !val.List? ==> r.error == CannotCoerce(head)
      ensures ListStream? ==> (r.Ok? <==> !ctrlc.InterruptsDrainOf(|stream|))
      ensures ListStream? && r.Ok? ==> r.value == stream
      ensures ListStream? && r.Err? ==> r.error == Interrupted(head)
      ensures ExternalStream? ==> r == Err(CannotCoerce(head))
    {
      match this
      case Empty => Ok([])
      case Value(v, _) => if v.List? then Ok(v.items) else Err(CannotCoerce(head))
      case ListStream(vals, _, flag) => Drain(vals, 0, flag, head)
      case ExternalStream(_) => Err(CannotCoerce(head))
    }
  }

  /** Pulls the elements of `vals` from index `pulled` on, one at a time,
      checking `ctrlc` before each pull. On interruption everything pulled so
      far is dropped and only the error comes back. */
  function Drain(vals: seq<Value>, pulled: nat, ctrlc: Ctrlc, head: Span): (r: Result<seq<Value>, ShellError>)
    requires pulled <= |vals|
    requires !ctrlc.InterruptsDrainOf(pulled)
    ensures r.Ok? <==> !ctrlc.InterruptsDrainOf(|vals|)
    ensures r.Ok? ==> r.value == vals[pulled..]
    ensures r.Err? ==> r.error == Interrupted(head)
    decreases |vals| - pulled
  {
    if pulled == |vals| then
      Ok([])
    else if ctrlc.IsSetAt(pulled) then
      Err(Interrupted(head))
    else
      match Drain(vals, pulled + 1, ctrlc, head)
      case Ok(rest) => Ok([vals[pulled]] + rest)
      case Err(e) => Err(e)
  }

  /** Wraps a finite list of values as a new stream channel that carries the
      given metadata and will check the given Ctrl-C flag when drained. */
  function IntoPipelineDataWithMetadata(vals: seq<Value>, metadata: Option<PipelineMetadata>, ctrlc: Ctrlc): (r: PipelineData)
    ensures r.Metadata() == metadata
    ensures r.ListStream? && r.ctrlc == ctrlc
    ensures r.stream == vals
  {
    ListStream(vals, metadata, ctrlc)
  }

  /** Wrapping and then coercing gives the values back, in the same order,
      unless the wrapped stream's flag is set before they are all pulled. */
  lemma WrapThenCoerce(vals: seq<Value>, metadata: Option<PipelineMetadata>, ctrlc: Ctrlc, head: Span)
    ensures IntoPipelineDataWithMetadata(vals, metadata, ctrlc).IntoIterStrict(head)
            == if ctrlc.InterruptsDrainOf(|vals|) then Err(Interrupted(head)) else Ok(vals)
  {
  }
}
