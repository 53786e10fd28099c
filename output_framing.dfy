/** The agent runner's result protocol: one structured result per run,
    written to stdout between two fixed sentinel lines so that a reader can
    recover it from among any other text on the same stream. */
module OutputFraming {
  import opened Wrappers

  const OutputStartMarker: string := "---NANOCLAW_OUTPUT_START---"
  const OutputEndMarker: string := "---NANOCLAW_OUTPUT_END---"

  datatype Status = Success | Error

  /** `ContainerOutput`: `result` is null on every error. */
  datatype ContainerOutput = ContainerOutput(
    status: Status,
    result: Option<string>,
    newSessionId: Option<string>,
    error: Option<string>)

  /** `writeOutput`: the lines written to stdout for one result, given its serialised
      form `payload` (JSON serialisation itself is not part of this model). */
  function WriteOutput(payload: string): (lines: seq<string>)
    ensures |lines| == 3
    ensures lines[0] == OutputStartMarker && lines[1] == payload && lines[2] == OutputEndMarker
  {
    [OutputStartMarker, payload, OutputEndMarker]
  }

  /** The first position of `x` in `s`. */
  function FirstIndex(s: seq<string>, x: string): (r: Option<nat>)
    ensures r.Some? ==> r.value < |s| && s[r.value] == x && x !in s[..r.value]
    ensures r.None? ==> x !in s
  {
    if s == [] then None
    else if s[0] == x then Some(0)
    else match FirstIndex(s[1..], x)
      case None => None
      case Some(i) => assert s[1..][..i] == s[1..i + 1]; Some(i + 1)
  }

  /** How a reader recovers the result from a stream of lines: what lies
      strictly between the first start marker and the first end marker after it. */
  function ReadFramed(out: seq<string>): (r: Option<seq<string>>)
    ensures r.Some? ==> OutputStartMarker in out && OutputEndMarker !in r.value
  {
    match FirstIndex(out, OutputStartMarker)
    case None => None
    case Some(i) =>
      match FirstIndex(out[i + 1..], OutputEndMarker)
      case None => None
      case Some(j) => Some(out[i + 1..][..j])
  }

  /** Whatever diagnostic lines precede the framed result (none of them the
      start marker) and whatever follows it, the reader recovers exactly the
      one serialised result. A serialised object starts with `{`, so it can be
      neither marker. */
  lemma FramedResultRecovered(diagnostics: seq<string>, payload: string, trailing: seq<string>)
    requires OutputStartMarker !in diagnostics
    requires |payload| > 0 && payload[0] == '{'
    ensures ReadFramed(diagnostics + WriteOutput(payload) + trailing) == Some([payload])
  {
    var out := diagnostics + WriteOutput(payload) + trailing;
    assert out[|diagnostics|] == OutputStartMarker;
    assert out[..|diagnostics|] == diagnostics;
    assert FirstIndex(out, OutputStartMarker) == Some(|diagnostics|);
    var rest := out[|diagnostics| + 1..];
    assert rest == [payload, OutputEndMarker] + trailing;
    assert payload != OutputEndMarker by {
      assert OutputEndMarker[0] == '-';
    }
    assert rest[..1] == [payload];
    assert FirstIndex(rest, OutputEndMarker) == Some(1);
  }
}
