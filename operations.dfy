/** The public operations of the client: the fixed table of method, endpoint
    and payload behind each one, and the read-then-write scaling operations. */
module Operations {
  import opened Values
  import opened Promises
  import opened Requests
  import opened Responses

  datatype Operation =
    | GetScaling
    | Scale(scaling: Payload)
    | GetConfig
    | UpdateConfig(config: Payload)
    | GetInstances
    | StopInstance(name: Value)

  /** What sendRequest is called with. */
  datatype Route = Route(httpMethod: Method, endpoint: string, payload: Payload)

  /** The operation table. */
  function RouteOf(op: Operation): (r: Route)
    ensures r.httpMethod == GET <==> op.GetScaling? || op.GetConfig? || op.GetInstances?
    ensures r.httpMethod == GET ==> r.payload == []
  {
    match op
    case GetScaling => Route(GET, "scaling", [])
    case Scale(scaling) => Route(PATCH, "scaling", scaling)
    case GetConfig => Route(GET, "config", [])
    case UpdateConfig(config) => Route(PATCH, "config", config)
    case GetInstances => Route(GET, "instances", [])
    case StopInstance(name) => Route(POST, "instances/stop", [(StrKey("name"), name)])
  }

  /** The endpoints of the remote API, with the methods used on each. */
  const Endpoints: set<(Method, string)> :=
    {(GET, "scaling"), (PATCH, "scaling"), (GET, "config"), (PATCH, "config"),
     (GET, "instances"), (POST, "instances/stop")}

  /** Every operation calls one of the API's endpoints. */
  lemma RoutesAreEndpoints(op: Operation)
    ensures (RouteOf(op).httpMethod, RouteOf(op).endpoint) in Endpoints
  {
  }

  /** Every endpoint of the API is called by some operation. */
  lemma EveryEndpointIsCalled(m: Method, endpoint: string)
    requires (m, endpoint) in Endpoints
    ensures exists op :: RouteOf(op).httpMethod == m && RouteOf(op).endpoint == endpoint
  {
    if (m, endpoint) == (GET, "scaling") {
      assert RouteOf(GetScaling).endpoint == endpoint;
    } else if (m, endpoint) == (PATCH, "scaling") {
      assert RouteOf(Scale([])).endpoint == endpoint;
    } else if (m, endpoint) == (GET, "config") {
      assert RouteOf(GetConfig).endpoint == endpoint;
    } else if (m, endpoint) == (PATCH, "config") {
      assert RouteOf(UpdateConfig([])).endpoint == endpoint;
    } else if (m, endpoint) == (GET, "instances") {
      assert RouteOf(GetInstances).endpoint == endpoint;
    } else {
      assert RouteOf(StopInstance(Null)).endpoint == endpoint;
    }
  }

  /** Reads, and updateConfig with its default empty array, send no body and
      a Content-Length of 0. */
  lemma NoBodyWithoutPayload(apiUrl: string, password: seq<byte>, json: JsonCodec, op: Operation)
    requires op.GetScaling? || op.GetConfig? || op.GetInstances? || op == UpdateConfig([])
    ensures var r := RouteOf(op);
            var q := BuildRequest(apiUrl, password, json, r.httpMethod, r.endpoint, r.payload);
            q.body == None && q.headers.contentLength == 0
  {
  }

  /** stopInstance sends an array with the one key "name"; scale and
      updateConfig send the caller's array unchanged. */
  lemma WritePayloads(op: Operation)
    ensures op.StopInstance? ==> Lookup(Arr(RouteOf(op).payload), StrKey("name")) == op.name
                                 && |RouteOf(op).payload| == 1
    ensures op.Scale? ==> RouteOf(op).payload == op.scaling
    ensures op.UpdateConfig? ==> RouteOf(op).payload == op.config
  {
  }

  datatype Direction = Up | Down

  /** A scaling array `{min, required, max}`: three entries that read back
      as the three values under their own keys. */
  function Triple(min: Value, required: Value, max: Value): (t: Payload)
    ensures |t| == 3
    ensures Lookup(Arr(t), StrKey("min")) == min
    ensures Lookup(Arr(t), StrKey("required")) == required
    ensures Lookup(Arr(t), StrKey("max")) == max
  {
    var t := [(StrKey("min"), min), (StrKey("required"), required), (StrKey("max"), max)];
    assert StrKey("required") != StrKey("min") by { assert |"required"| != |"min"|; }
    assert StrKey("max") != StrKey("min") by { assert "max"[1] != "min"[1]; }
    assert StrKey("max") != StrKey("required") by { assert |"required"| != |"max"|; }
    FindFirst(t, StrKey("min"), 0);
    FindFirst(t, StrKey("required"), 1);
    FindFirst(t, StrKey("max"), 2);
    t
  }

  /** The write upScale or downScale derives from the scaling it read: min and
      max as read, and required set to the max (upScale) or the min
      (downScale); the required count that was read is ignored. */
  function Rescaled(dir: Direction, scaling: Value): (w: Payload)
    ensures Lookup(Arr(w), StrKey("min")) == Lookup(scaling, StrKey("min"))
    ensures Lookup(Arr(w), StrKey("max")) == Lookup(scaling, StrKey("max"))
    ensures Lookup(Arr(w), StrKey("required")) == Lookup(scaling, StrKey(if dir == Up then "max" else "min"))
  {
    var min, max := Lookup(scaling, StrKey("min")), Lookup(scaling, StrKey("max"));
    Triple(min, if dir == Up then max else min, max)
  }

  /** Rescaling what a rescale wrote gives the same as rescaling the original
      read: a second upScale or downScale after the first changes nothing,
      and the last direction wins. */
  lemma RescaleLastWins(first: Direction, second: Direction, scaling: Value)
    ensures Rescaled(second, Arr(Rescaled(first, scaling))) == Rescaled(second, scaling)
  {
  }

  /** An integer scaling array satisfying min <= required <= max. */
  predicate Ordered(scaling: Value) {
    && Lookup(scaling, StrKey("min")).Int?
    && Lookup(scaling, StrKey("required")).Int?
    && Lookup(scaling, StrKey("max")).Int?
    && Lookup(scaling, StrKey("min")).i <= Lookup(scaling, StrKey("required")).i <= Lookup(scaling, StrKey("max")).i
  }

  /** The invariant the remote service expects, min <= required <= max, is
      kept by both writes. */
  lemma RescaleKeepsOrder(dir: Direction, scaling: Value)
    requires Ordered(scaling)
    ensures Ordered(Arr(Rescaled(dir, scaling)))
  {
  }

  /** On {min: 1, required: 2, max: 5}, upScale writes {min: 1, required: 5,
      max: 5} and downScale writes {min: 1, required: 1, max: 5}. */
  lemma RescaleExample()
    ensures Rescaled(Up, Arr(Triple(Int(1), Int(2), Int(5)))) == Triple(Int(1), Int(5), Int(5))
    ensures Rescaled(Down, Arr(Triple(Int(1), Int(2), Int(5)))) == Triple(Int(1), Int(1), Int(5))
  {
  }

  /** What a compound operation does once its scaling read has an outcome. */
  datatype Continuation = Waiting | Write(payload: Payload) | Propagate(reason: Reason)

  /** `then` on the read: the write is derived only from a fulfilled read; a
      rejection is passed on unchanged and nothing is written. */
  function Continue(dir: Direction, read: Outcome): (k: Continuation)
    ensures k.Write? <==> read.Fulfilled?
    ensures read.Fulfilled? ==> k == Write(Rescaled(dir, read.value))
    ensures k.Propagate? <==> read.Rejected?
    ensures read.Rejected? ==> k == Propagate(read.reason)
  {
    match read
    case Pending => Waiting
    case Fulfilled(scaling) => Write(Rescaled(dir, scaling))
    case Rejected(reason) => Propagate(reason)
  }
}
