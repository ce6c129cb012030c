/** The streaming select consumer (`S3Select`, s3s.go).

  The client builds a `SelectObjectContent` request, submits it, and drains the
  event stream it gets back: every Records event's payload is printed as it
  arrives, other events print nothing, and once the event channel closes the
  stream's terminal error decides the result. A deferred `Close` releases the
  stream on every path after it was obtained.

  The service is a function from the request to either an error (the request
  was rejected) or a finished stream: the events it delivers, then its
  terminal error. Standard output is the sequence of `fmt.Print` calls.
 */
module Select {
  import opened Outcomes
  import Compression

  // ---------------------------------------------------------------------------
  // The request

  datatype ExpressionType = Sql
  datatype JsonType = Document | Lines

  /** `types.RequestProgress`: whether the service should send Progress frames.
      In the SDK generation whose `KeyCount` is a plain `int32`, `Enabled` is a
      plain `bool`, so `RequestProgress{}` carries its zero value `false`. */
  datatype RequestProgress = RequestProgress(enabled: bool)

  datatype InputSerialization = InputSerialization(compression: Compression.CompressionType, json: JsonType)
  datatype OutputSerialization = JsonOutput

  datatype SelectRequest = SelectRequest(
    bucket: string,
    key: string,
    expressionType: ExpressionType,
    expression: string,
    progress: RequestProgress,
    input: InputSerialization,
    output: OutputSerialization)

  /** The request `S3Select` submits: an SQL query over JSON Lines input,
      compressed as the key's suffix suggests, answered as JSON. */
  function BuildRequest(bucket: string, key: string, query: string): (req: SelectRequest)
    ensures req.bucket == bucket && req.key == key && req.expression == query
    ensures req.input.compression == Compression.Gzip <==> Compression.HasSuffix(key, ".gz")
    ensures req.input.compression == Compression.Bzip2 <==> Compression.HasSuffix(key, ".bz2")
    ensures req.input.compression == Compression.None <==>
      !Compression.HasSuffix(key, ".gz") && !Compression.HasSuffix(key, ".bz2")
    ensures req.input.json == Lines && req.output == JsonOutput && req.expressionType == Sql
    ensures !req.progress.enabled
  {
    SelectRequest(
      bucket, key, Sql, query,
      RequestProgress(false),
      InputSerialization(Compression.SuggestCompressionType(key), Lines),
      JsonOutput)
  }

  // ---------------------------------------------------------------------------
  // The event stream

  /** The closed union of select stream events; only Records carries a payload. */
  datatype Event = Records(payload: string) | Progress | Stats | Cont | End

  /** A stream as the service delivers it: its events, then its terminal error. */
  datatype Stream = Stream(events: seq<Event>, err: Option<Error>)

  /** The payloads of the Records events, in event order. */
  function RecordPayloads(events: seq<Event>): seq<string>
    decreases |events|
  {
    if events == [] then []
    else (if events[0].Records? then [events[0].payload] else []) + RecordPayloads(events[1..])
  }

  /** Draining two stretches of events prints the first stretch's payloads, then the second's. */
  lemma {:induction false} RecordPayloadsAppend(a: seq<Event>, b: seq<Event>)
    ensures RecordPayloads(a + b) == RecordPayloads(a) + RecordPayloads(b)
    decreases |a|
  {
    if a == [] {
      assert a + b == b;
    } else {
      assert (a + b)[0] == a[0];
      assert (a + b)[1..] == a[1..] + b;
      RecordPayloadsAppend(a[1..], b);
    }
  }

  /** Progress, Stats, Cont and End events print nothing. */
  lemma {:induction false} MetadataEventsPrintNothing(events: seq<Event>)
    requires forall i :: 0 <= i < |events| ==> !events[i].Records?
    ensures RecordPayloads(events) == []
    decreases |events|
  {
    if events != [] {
      assert forall i :: 0 <= i < |events[1..]| ==> events[1..][i] == events[i + 1];
      MetadataEventsPrintNothing(events[1..]);
    }
  }

  /** Each payload is printed exactly as many times as a Records event carries it,
      and nothing else is printed. */
  lemma {:induction false} PayloadsMatchRecords(events: seq<Event>, text: string)
    ensures multiset(RecordPayloads(events))[text] == multiset(events)[Records(text)]
    decreases |events|
  {
    if events != [] {
      PayloadsMatchRecords(events[1..], text);
      assert events == [events[0]] + events[1..];
      assert multiset(events) == multiset([events[0]]) + multiset(events[1..]);
    }
  }

  /** The text a sequence of `fmt.Print` calls leaves on standard output. */
  function Stdout(prints: seq<string>): string
    decreases |prints|
  {
    if prints == [] then "" else prints[0] + Stdout(prints[1..])
  }

  /** An empty Records payload is printed but leaves no text: three Records
      events whose last payload is empty show the first two payloads. */
  lemma StdoutExample()
    ensures Stdout(RecordPayloads([Records("{\"a\":1}\n"), Progress, Records("{\"a\":2}\n"), Stats, Records(""), End]))
      == "{\"a\":1}\n{\"a\":2}\n"
  {
  }

  // ---------------------------------------------------------------------------
  // The consumer's state machine

  /** Acquiring → (Rejected | Open) → Draining → (ClosedSuccess | ClosedError). */
  datatype Phase = Acquiring | Rejected | Open | Draining | ClosedSuccess | ClosedError

  /** The consumer's observable state: its phase, what it printed, how often it
      closed the stream. */
  datatype Session = Session(phase: Phase, stdout: seq<string>, closes: nat)

  predicate IsClosed(p: Phase)
  {
    p.ClosedSuccess? || p.ClosedError?
  }

  predicate IsLive(p: Phase)
  {
    p.Open? || p.Draining?
  }

  /** The stream is closed once exactly in the closed phases and never before,
      and nothing is printed before a stream was obtained. */
  predicate Valid(s: Session)
  {
    && s.closes == (if IsClosed(s.phase) then 1 else 0)
    && (s.phase.Acquiring? || s.phase.Rejected? ==> s.stdout == [])
  }

  /** Submitting the request: a rejection short-circuits, a response opens the stream. */
  function Acquire(s: Session, response: Result<Stream>): (t: Session)
    requires s.phase.Acquiring? && Valid(s)
    ensures Valid(t) && t.stdout == s.stdout
    ensures t.phase.Rejected? <==> response.Err?
    ensures t.phase.Open? <==> response.Ok?
  {
    if response.Err? then Session(Rejected, s.stdout, s.closes)
    else Session(Open, s.stdout, s.closes)
  }

  /** Receiving one event while draining. */
  function Receive(s: Session, ev: Event): (t: Session)
    requires IsLive(s.phase) && Valid(s)
    ensures Valid(t) && t.phase.Draining?
    ensures t.stdout == s.stdout + RecordPayloads([ev])
  {
    match ev
    case Records(payload) => Session(Draining, s.stdout + [payload], s.closes)
    case Progress => Session(Draining, s.stdout, s.closes)
    case Stats => Session(Draining, s.stdout, s.closes)
    case Cont => Session(Draining, s.stdout, s.closes)
    case End => Session(Draining, s.stdout, s.closes)
  }

  /** The event channel closed: the deferred `Close` runs once, and the terminal
      error picks the final phase. Nothing printed is taken back. */
  function Finish(s: Session, err: Option<Error>): (t: Session)
    requires IsLive(s.phase) && Valid(s)
    ensures Valid(t) && t.closes == s.closes + 1 && t.stdout == s.stdout
    ensures t.phase.ClosedError? <==> err.Some?
    ensures t.phase.ClosedSuccess? <==> err.None?
  {
    Session(if err.Some? then ClosedError else ClosedSuccess, s.stdout, s.closes + 1)
  }

  /** `S3Select`: builds the request, submits it, drains the stream and reports
      the stream's terminal error. `result` is Go's returned `error` (None for nil). */
  method S3Select(bucket: string, key: string, query: string, service: SelectRequest -> Result<Stream>)
    returns (result: Option<Error>, session: Session)
    ensures Valid(session)
    ensures service(BuildRequest(bucket, key, query)).Err? ==>
      && result == Some(service(BuildRequest(bucket, key, query)).error)
      && session == Session(Rejected, [], 0)
    ensures service(BuildRequest(bucket, key, query)).Ok? ==>
      var stream := service(BuildRequest(bucket, key, query)).value;
      && session.closes == 1
      && session.stdout == RecordPayloads(stream.events)
      && result == stream.err
      && (session.phase.ClosedError? <==> stream.err.Some?)
      && (session.phase.ClosedSuccess? <==> stream.err.None?)
  {
    var params := BuildRequest(bucket, key, query);
    session := Session(Acquiring, [], 0);
    var response := service(params);
    session := Acquire(session, response);
    if response.Err? {
      return Some(response.error), session;
    }
    var stream := response.value;
    for i := 0 to |stream.events|
      invariant IsLive(session.phase) && Valid(session)
      invariant session.stdout == RecordPayloads(stream.events[..i])
    {
      assert stream.events[..i + 1] == stream.events[..i] + [stream.events[i]];
      RecordPayloadsAppend(stream.events[..i], [stream.events[i]]);
      session := Receive(session, stream.events[i]);
    }
    assert stream.events[..|stream.events|] == stream.events;
    session := Finish(session, stream.err);
    result := stream.err;
  }
}
