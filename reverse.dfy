/** The `reverse` filter: collects its input strictly into a list, reverses
    it, and hands it on as a new stream with the input's metadata. */
module Reverse {
  import opened Wrappers
  import opened Pipeline

  /** `b` holds the elements of `a` in the opposite order. */
  ghost predicate IsReverseOf<T>(b: seq<T>, a: seq<T>) {
    |b| == |a| && forall i :: 0 <= i < |a| ==> b[i] == a[|a| - 1 - i]
  }

  /** The reversing iterator adapter, taken to the end. */
  function Rev<T>(s: seq<T>): (r: seq<T>)
    ensures IsReverseOf(r, s)
  {
    if s == [] then [] else [s[|s| - 1]] + Rev(s[..|s| - 1])
  }

  /** Reversing twice gives the sequence back. */
  lemma RevInvolutive<T>(s: seq<T>)
    ensures Rev(Rev(s)) == s
  {
  }

  /** Reversal neither adds, drops nor duplicates an element. */
  lemma {:induction false} RevPermutes<T>(s: seq<T>)
    ensures multiset(Rev(s)) == multiset(s)
  {
    if s != [] {
      var init := s[..|s| - 1];
      RevPermutes(init);
      assert s == init + [s[|s| - 1]];
      calc {
        multiset(Rev(s));
        multiset([s[|s| - 1]]) + multiset(Rev(init));
        multiset([s[|s| - 1]]) + multiset(init);
        multiset(s);
      }
    }
  }

  /** `reverse` run with the engine's Ctrl-C flag `engineCtrlc`, the call head
      `head` and the input channel `input`. */
  function Run(engineCtrlc: Ctrlc, head: Span, input: PipelineData): (r: Result<PipelineData, ShellError>)
    ensures input.IntoIterStrict(head).Err? ==> r == Err(input.IntoIterStrict(head).error)
    ensures input.IntoIterStrict(head).Ok? ==>
              && r.Ok?
              && r.value.ListStream?
              && IsReverseOf(r.value.stream, input.IntoIterStrict(head).value)
              && r.value.Metadata() == input.Metadata()
              && r.value.ctrlc == engineCtrlc
  {
    var metadata := input.Metadata();
    var v :- input.IntoIterStrict(head);
    var iter := Rev(v);
    Ok(IntoPipelineDataWithMetadata(iter, metadata, engineCtrlc))
  }

  /** On success the output holds exactly the input's elements, each as often
      as in the input. */
  lemma RunKeepsElements(engineCtrlc: Ctrlc, head: Span, input: PipelineData)
    requires input.IntoIterStrict(head).Ok?
    ensures Run(engineCtrlc, head, input).Ok?
    ensures multiset(Run(engineCtrlc, head, input).value.stream) == multiset(input.IntoIterStrict(head).value)
  {
    RevPermutes(input.IntoIterStrict(head).value);
  }

  /** A channel with nothing in it comes out as an empty stream, with no
      error and with its metadata kept. */
  lemma RunOnEmptyInput(engineCtrlc: Ctrlc, head: Span, input: PipelineData)
    requires input.Empty? || (input.Value? && input.val == List([])) || (input.ListStream? && input.stream == [])
    ensures Run(engineCtrlc, head, input) == Ok(ListStream([], input.Metadata(), engineCtrlc))
  {
  }

  /** A stream whose Ctrl-C flag is set before it is fully drained makes
      `reverse` fail with `Interrupted` at its call head; no data comes out. */
  lemma RunInterrupted(engineCtrlc: Ctrlc, head: Span, input: PipelineData)
    requires input.ListStream? && input.ctrlc.InterruptsDrainOf(|input.stream|)
    ensures Run(engineCtrlc, head, input) == Err(Interrupted(head))
  {
  }

  /** Raw external-process output and non-list values are refused with a
      type error at the call head. */
  lemma RunRejectsNonList(engineCtrlc: Ctrlc, head: Span, input: PipelineData)
    requires input.ExternalStream? || (input.Value? && !input.val.List?)
    ensures Run(engineCtrlc, head, input) == Err(CannotCoerce(head))
  {
  }

  /** Running `reverse` on its own output gives back the original list with
      the original metadata, provided the engine's flag is not set while the
      intermediate stream is drained. */
  lemma {:induction false} RunTwiceRestores(engineCtrlc: Ctrlc, head: Span, input: PipelineData)
    requires input.IntoIterStrict(head).Ok?
    requires !engineCtrlc.InterruptsDrainOf(|input.IntoIterStrict(head).value|)
    ensures Run(engineCtrlc, head, Run(engineCtrlc, head, input).value)
            == Ok(ListStream(input.IntoIterStrict(head).value, input.Metadata(), engineCtrlc))
  {
    var v := input.IntoIterStrict(head).value;
    var once := Run(engineCtrlc, head, input).value;
    assert once == ListStream(Rev(v), input.Metadata(), engineCtrlc);
    WrapThenCoerce(Rev(v), input.Metadata(), engineCtrlc, head);
    RevInvolutive(v);
  }

  /** `[0,1,2,3] | reverse` gives `[3,2,1,0]`. */
  lemma ExampleReverseList(engineCtrlc: Ctrlc, head: Span)
    ensures Run(engineCtrlc, head, Value(List([Int(0), Int(1), Int(2), Int(3)]), None))
            == Ok(ListStream([Int(3), Int(2), Int(1), Int(0)], None, engineCtrlc))
  {
    var r := Run(engineCtrlc, head, Value(List([Int(0), Int(1), Int(2), Int(3)]), None));
    assert r.value.stream[0] == Int(3);
    assert r.value.stream[1] == Int(2);
    assert r.value.stream[2] == Int(1);
    assert r.value.stream[3] == Int(0);
    assert r.value.stream == [Int(3), Int(2), Int(1), Int(0)];
  }

  /** `[{a: 1} {a: 2}] | reverse` gives `[{a: 2} {a: 1}]`: the records are
      unchanged, only their order is. */
  lemma ExampleReverseTable(engineCtrlc: Ctrlc, head: Span)
    ensures Run(engineCtrlc, head, Value(List([Record(["a"], [Int(1)]), Record(["a"], [Int(2)])]), None))
            == Ok(ListStream([Record(["a"], [Int(2)]), Record(["a"], [Int(1)])], None, engineCtrlc))
  {
    var r := Run(engineCtrlc, head, Value(List([Record(["a"], [Int(1)]), Record(["a"], [Int(2)])]), None));
    assert r.value.stream[0] == Record(["a"], [Int(2)]);
    assert r.value.stream[1] == Record(["a"], [Int(1)]);
    assert r.value.stream == [Record(["a"], [Int(2)]), Record(["a"], [Int(1)])];
  }
}
