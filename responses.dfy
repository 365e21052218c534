/** What happens to one request after it is sent: the response's status code,
    its `data`, `end` and `error` events, and the deferred they settle. */
module Responses {
  import opened Values
  import opened Promises
  import opened Requests

  /** A failure reported by the HTTP transport, passed on as it is. */
  datatype TransportReason = TransportReason(description: string)

  /** The client's three exception classes; each carries its message. */
  datatype ApiException =
    | Unauthorized(message: Value)
    | NotFound(message: Value)
    | ApiError(message: Value)

  /** Why a call's promise is rejected. */
  datatype Reason = Api(exception: ApiException) | Transport(cause: TransportReason)

  /** The state of a call's promise. */
  type Outcome = Settlement<Value, Reason>

  const DecodeFailureMessage: string := "Can not decode response."

  /** A call that returns normally, or raises an exception. */
  datatype Decoded = Returned(value: Value) | Raised(exception: ApiException)

  /** decodeResponse: the decoded body, or an ApiError when, and only when,
      json_decode's result is the boolean `false`. Text that is not JSON
      decodes to null and is returned like any other value. */
  function DecodeResponse(json: JsonCodec, body: string): (r: Decoded)
    ensures r.Raised? <==> JsonDecode(json, body) == Bool(false)
    ensures r.Raised? ==> r.exception == ApiError(Str(DecodeFailureMessage))
    ensures r.Returned? ==> r.value == JsonDecode(json, body)
  {
    var data := JsonDecode(json, body);
    if data == Bool(false) then Raised(ApiError(Str(DecodeFailureMessage))) else Returned(data)
  }

  /** Text the JSON parser rejects is not an error: it comes back as null. */
  lemma InvalidJsonReturnsNull(json: JsonCodec, body: string)
    requires json.parse(body).None?
    ensures DecodeResponse(json, body) == Returned(Null)
  {
  }

  /** The only body that makes decodeResponse raise is one that parses as the
      JSON literal `false`. */
  lemma OnlyFalseRaises(json: JsonCodec, body: string)
    ensures DecodeResponse(json, body).Raised? <==> json.parse(body) == Some(Bool(false))
  {
  }

  /** What one `data` chunk is stored as: the raw chunk for a status code of
      400 or more, otherwise the result of decodeResponse on the chunk. */
  function StoreChunk(code: int, json: JsonCodec, chunk: string): (r: Decoded)
    ensures code >= 400 ==> r == Returned(Str(chunk))
    ensures code < 400 && r.Returned? ==> r.value == JsonDecode(json, chunk)
    ensures r.Raised? <==> code < 400 && JsonDecode(json, chunk) == Bool(false)
    ensures r.Raised? ==> r.exception == ApiError(Str(DecodeFailureMessage))
  {
    if code >= 400 then Returned(Str(chunk)) else DecodeResponse(json, chunk)
  }

  /** The status switch: 403 and 404 have their own exceptions, every other
      code an ApiError; all carry the stored content as their message. */
  function Classify(code: int, content: Value): (e: ApiException)
    ensures e.Unauthorized? <==> code == 403
    ensures e.NotFound? <==> code == 404
    ensures e.ApiError? <==> code != 403 && code != 404
    ensures e.message == content
  {
    if code == 403 then Unauthorized(content)
    else if code == 404 then NotFound(content)
    else ApiError(content)
  }

  /** The outcome the `end` event settles the deferred with. */
  function EndOutcome(code: int, content: Value): (o: Outcome)
    ensures o.Fulfilled? <==> code < 400
    ensures o.Fulfilled? ==> o.value == content
    ensures o.Rejected? ==> o.reason == Api(Classify(code, content))
  {
    if code >= 400 then Rejected(Api(Classify(code, content))) else Fulfilled(content)
  }

  /** The events a response emits after its status code is known. */
  datatype Event = Data(chunk: string) | End | Error(reason: TransportReason)

  predicate IsTerminal(e: Event) {
    e.End? || e.Error?
  }

  /** The captured content cell and the deferred of one response. */
  datatype CollectorState = CollectorState(content: Value, outcome: Outcome)

  /** The state after an event, and the exception an event's listener raised. */
  datatype StepResult = StepResult(state: CollectorState, raised: Option<ApiException>)

  const Initial: CollectorState := CollectorState(Null, Pending)

  /** One listener run. A `data` chunk replaces the content, unless storing it
      raises, in which case nothing changes; `end` and `error` settle the
      deferred once. */
  function Step(code: int, json: JsonCodec, st: CollectorState, e: Event): (r: StepResult)
    ensures e.Data? ==> r.state.outcome == st.outcome
    ensures r.raised.Some? ==> e.Data? && r.state == st
    ensures !e.Data? ==> r.raised.None? && r.state.content == st.content
    ensures !st.outcome.Pending? ==> r.state.outcome == st.outcome
    ensures st.outcome.Pending? && IsTerminal(e) ==> r.state.outcome == TerminalOutcome(code, st.content, e)
  {
    match e
    case Data(chunk) =>
      (match StoreChunk(code, json, chunk)
       case Returned(v) => StepResult(st.(content := v), None)
       case Raised(x) => StepResult(st, Some(x)))
    case End =>
      StepResult(st.(outcome := Settle(st.outcome, EndOutcome(code, st.content))), None)
    case Error(reason) =>
      StepResult(st.(outcome := Settle(st.outcome, Rejected(Transport(reason)))), None)
  }

  /** The state after the listeners have run for each event in turn. Once
      settled, the deferred keeps its outcome whatever events follow; before
      an `end` or `error` event it stays pending. */
  function Replay(code: int, json: JsonCodec, st: CollectorState, events: seq<Event>): (r: CollectorState)
    ensures !st.outcome.Pending? ==> r.outcome == st.outcome
    ensures st.outcome.Pending? && (forall i | 0 <= i < |events| :: !IsTerminal(events[i]))
            ==> r.outcome.Pending?
    decreases |events|
  {
    if events == [] then st
    else Replay(code, json, Step(code, json, st, events[0]).state, events[1..])
  }

  /** The outcome a terminal event settles a pending deferred with. */
  function TerminalOutcome(code: int, content: Value, e: Event): (o: Outcome)
    requires IsTerminal(e)
    ensures !o.Pending?
  {
    if e.End? then EndOutcome(code, content) else Rejected(Transport(e.reason))
  }

  lemma {:induction false} ReplayConcat(code: int, json: JsonCodec, st: CollectorState, a: seq<Event>, b: seq<Event>)
    ensures Replay(code, json, st, a + b) == Replay(code, json, Replay(code, json, st, a), b)
    decreases |a|
  {
    if a != [] {
      var next := Step(code, json, st, a[0]).state;
      assert (a + b)[0] == a[0];
      assert (a + b)[1..] == a[1..] + b;
      assert Replay(code, json, st, a + b) == Replay(code, json, next, a[1..] + b);
      assert Replay(code, json, st, a) == Replay(code, json, next, a[1..]);
      ReplayConcat(code, json, next, a[1..], b);
    } else {
      assert a + b == b;
    }
  }

  /** Without `data` events the content is never touched: it stays null for a
      fresh response. */
  lemma {:induction false} ContentWithoutData(code: int, json: JsonCodec, st: CollectorState, events: seq<Event>)
    requires forall i | 0 <= i < |events| :: !events[i].Data?
    ensures Replay(code, json, st, events).content == st.content
    decreases |events|
  {
    if events != [] {
      ContentWithoutData(code, json, Step(code, json, st, events[0]).state, events[1..]);
    }
  }

  /** The content is the last chunk that was stored: raw for a status of 400
      or more, decoded otherwise. Earlier chunks are discarded, never joined. */
  lemma ContentIsLastChunk(code: int, json: JsonCodec, st: CollectorState,
                           before: seq<Event>, chunk: string, after: seq<Event>)
    requires StoreChunk(code, json, chunk).Returned?
    requires forall i | 0 <= i < |after| :: !after[i].Data?
    ensures Replay(code, json, st, before + [Data(chunk)] + after).content
            == (if code >= 400 then Str(chunk) else JsonDecode(json, chunk))
  {
    ReplayConcat(code, json, st, before + [Data(chunk)], after);
    ReplayConcat(code, json, st, before, [Data(chunk)]);
    var mid := Replay(code, json, st, before + [Data(chunk)]);
    ContentWithoutData(code, json, mid, after);
  }

  /** The first `end` or `error` event alone decides the outcome: `end`
      classifies the content stored so far by the status code, `error`
      rejects with the transport's reason whatever the status code. */
  lemma FirstTerminalDecides(code: int, json: JsonCodec, st: CollectorState,
                             before: seq<Event>, e: Event, after: seq<Event>)
    requires st.outcome.Pending? && IsTerminal(e)
    requires forall i | 0 <= i < |before| :: !IsTerminal(before[i])
    ensures Replay(code, json, st, before + [e] + after).outcome
            == TerminalOutcome(code, Replay(code, json, st, before).content, e)
  {
    ReplayConcat(code, json, st, before + [e], after);
    ReplayConcat(code, json, st, before, [e]);
    var mid := Replay(code, json, st, before + [e]);
    assert mid.outcome == TerminalOutcome(code, Replay(code, json, st, before).content, e);
  }

  /** Helper: the events of a response whose body arrives in the given
      chunks, one `data` event per chunk. */
  function DataEvents(chunks: seq<string>): seq<Event> {
    seq(|chunks|, i requires 0 <= i < |chunks| => Data(chunks[i]))
  }

  /** A whole response, its chunks followed by `end`: the promise settles on
      the last chunk alone (null when there was none), resolved for a status
      below 400 and rejected by the status switch otherwise. */
  lemma WholeResponse(code: int, json: JsonCodec, chunks: seq<string>)
    requires chunks != [] ==> StoreChunk(code, json, chunks[|chunks| - 1]).Returned?
    ensures var content := if chunks == [] then Null else StoreChunk(code, json, chunks[|chunks| - 1]).value;
            Replay(code, json, Initial, DataEvents(chunks) + [End]).outcome == EndOutcome(code, content)
  {
    var before := DataEvents(chunks);
    assert before + [End] == before + [End] + [];
    FirstTerminalDecides(code, json, Initial, before, End, []);
    if chunks == [] {
      ContentWithoutData(code, json, Initial, before);
    } else {
      var n := |chunks| - 1;
      assert before == DataEvents(chunks[..n]) + [Data(chunks[n])] + [];
      ContentIsLastChunk(code, json, Initial, DataEvents(chunks[..n]), chunks[n], []);
    }
  }

  /** A listener that raises leaves both the content and the deferred as they
      were, and only a success status can raise. */
  lemma RaisingChunkChangesNothing(code: int, json: JsonCodec, st: CollectorState, chunk: string)
    requires Step(code, json, st, Data(chunk)).raised.Some?
    ensures Step(code, json, st, Data(chunk)).state == st
    ensures code < 400 && JsonDecode(json, chunk) == Bool(false)
    ensures Step(code, json, st, Data(chunk)).raised == Some(ApiError(Str(DecodeFailureMessage)))
  {
  }

  /** The listeners registered for one response of one request: the status
      code fixed when the response arrived, the content cell they capture by
      reference, and the deferred of the request. */
  class Collector {
    const code: int
    const json: JsonCodec
    const deferred: Deferred<Value, Reason>
    var content: Value

    /** A response with an error status only ever stores raw chunks. */
    ghost predicate Valid()
      reads this
    {
      code >= 400 ==> content.Null? || content.Str?
    }

    function State(): CollectorState
      reads this, deferred
    {
      CollectorState(content, deferred.state)
    }

    constructor (code: int, json: JsonCodec, deferred: Deferred<Value, Reason>)
      ensures Valid()
      ensures this.code == code && this.json == json && this.deferred == deferred
      ensures content == Null
    {
      this.code := code;
      this.json := json;
      this.deferred := deferred;
      content := Null;
    }

    /** The `data` listener; `raised` is the exception it throws, if any. */
    method OnData(chunk: string) returns (raised: Option<ApiException>)
      requires Valid()
      modifies this
      ensures Valid()
      ensures State() == Step(code, json, old(State()), Data(chunk)).state
      ensures raised == Step(code, json, old(State()), Data(chunk)).raised
      ensures raised.None? ==> content == (if code >= 400 then Str(chunk) else JsonDecode(json, chunk))
    {
      if code >= 400 {
        content := Str(chunk);
        raised := None;
      } else {
        var data := JsonDecode(json, chunk);
        if data == Bool(false) {
          raised := Some(ApiError(Str(DecodeFailureMessage)));
        } else {
          content := data;
          raised := None;
        }
      }
    }

    /** The `end` listener. */
    method OnEnd()
      requires Valid()
      modifies deferred
      ensures Valid()
      ensures State() == Step(code, json, old(State()), End).state
      ensures deferred.state == Settle(old(deferred.state), EndOutcome(code, content))
    {
      if code >= 400 {
        if code == 403 {
          deferred.Reject(Api(Unauthorized(content)));
        } else if code == 404 {
          deferred.Reject(Api(NotFound(content)));
        } else {
          deferred.Reject(Api(ApiError(content)));
        }
      } else {
        deferred.Resolve(content);
      }
    }

    /** The `error` listener of the response. */
    method OnError(reason: TransportReason)
      requires Valid()
      modifies deferred
      ensures Valid()
      ensures State() == Step(code, json, old(State()), Error(reason)).state
      ensures deferred.state == Settle(old(deferred.state), Rejected(Transport(reason)))
    {
      deferred.Reject(Transport(reason));
    }
  }

  /** A request that has been sent, with the deferred its promise reads. */
  class Exchange {
    const request: Request
    const json: JsonCodec
    const deferred: Deferred<Value, Reason>

    constructor (request: Request, json: JsonCodec)
      ensures this.request == request && this.json == json
      ensures fresh(deferred) && deferred.state == Pending
    {
      this.request := request;
      this.json := json;
      deferred := new Deferred();
    }

    /** The `response` listener: registers the listeners of a response with
        the given status code, with a fresh null content cell. */
    method OnResponse(code: int) returns (c: Collector)
      ensures fresh(c) && c.Valid()
      ensures c.code == code && c.json == json && c.deferred == deferred
      ensures c.State() == CollectorState(Null, deferred.state)
    {
      c := new Collector(code, json, deferred);
    }

    /** The `error` listener of the request. */
    method OnError(reason: TransportReason)
      modifies deferred
      ensures deferred.state == Settle(old(deferred.state), Rejected(Transport(reason)))
    {
      deferred.Reject(Transport(reason));
    }
  }
}
