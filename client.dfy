/** The client object: its configuration, its lazily built HTTP transport,
    and one method per public operation. What the transport is handed is
    recorded in `sent`, in order. */
module ScrapoxyClient {
  import opened Values
  import opened Promises
  import opened Requests
  import opened Responses
  import Op = Operations

  /** An event loop: one the caller supplied, or one the client created. */
  datatype LoopHandle = Supplied(id: nat) | OwnLoop

  /** The HTTP client built on the loop, with a cached DNS resolver. */
  datatype HttpTransport = HttpTransport(loop: LoopHandle, dnsServer: string)

  /** The DNS server the resolver is created for. */
  const DnsServer: string := "8.8.8.8"

  /** An upScale or downScale whose scaling read has been sent; `continued`
      records that its `then` callback has run, which happens at most once. */
  class Rescaling {
    const direction: Op.Direction
    const read: Exchange
    var continued: bool

    constructor (direction: Op.Direction, read: Exchange)
      ensures this.direction == direction && this.read == read && !continued
    {
      this.direction := direction;
      this.read := read;
      continued := false;
    }
  }

  class Client {
    const apiUrl: string
    const password: seq<byte>
    const loop: LoopHandle
    const json: JsonCodec
    /** `null` until the first request. */
    var transport: Option<HttpTransport>
    /** How many transports this client has built. */
    ghost var transportsBuilt: nat
    var sent: seq<Request>

    /** The transport is built at most once, on this client's loop. */
    ghost predicate Valid()
      reads this
    {
      && transportsBuilt <= 1
      && (transport.None? <==> transportsBuilt == 0)
      && (transport.Some? ==> transport.value == HttpTransport(loop, DnsServer))
    }

    /** Keeps the URL and password as given, uses the given loop or else
        creates one, and builds no transport. */
    constructor (apiUrl: string, password: seq<byte>, loop: Option<LoopHandle>, json: JsonCodec)
      ensures Valid()
      ensures this.apiUrl == apiUrl && this.password == password && this.json == json
      ensures this.loop == (if loop.Some? then loop.value else OwnLoop)
      ensures transport == None && transportsBuilt == 0 && sent == []
    {
      this.apiUrl := apiUrl;
      this.password := password;
      this.loop := if loop.Some? then loop.value else OwnLoop;
      this.json := json;
      transport := None;
      transportsBuilt := 0;
      sent := [];
    }

    function RequestFor(route: Op.Route): Request {
      BuildRequest(apiUrl, password, json, route.httpMethod, route.endpoint, route.payload)
    }

    /** getClient: builds the transport on first use, then returns that one. */
    method GetTransport() returns (t: HttpTransport)
      requires Valid()
      modifies this
      ensures Valid()
      ensures transport == Some(t) && t == HttpTransport(loop, DnsServer)
      ensures old(transport).Some? ==> t == old(transport).value && transportsBuilt == old(transportsBuilt)
      ensures old(transport).None? ==> transportsBuilt == old(transportsBuilt) + 1
      ensures sent == old(sent)
    {
      if transport.None? {
        transport := Some(HttpTransport(loop, DnsServer));
        transportsBuilt := transportsBuilt + 1;
      }
      t := transport.value;
    }

    /** What every call guarantees: a transport exists and was not rebuilt,
        exactly one request was sent, and its promise is pending. */
    twostate predicate Issued(new x: Exchange, route: Op.Route)
      reads this, x, x.deferred
    {
      && Valid()
      && transport.Some?
      && (old(transport).Some? ==> transport == old(transport) && transportsBuilt == old(transportsBuilt))
      && sent == old(sent) + [RequestFor(route)]
      && fresh(x) && fresh(x.deferred)
      && x.request == RequestFor(route) && x.json == json && x.deferred.state == Pending
    }

    /** sendRequest. */
    method SendRequest(httpMethod: Method, endpoint: string, payload: Payload) returns (x: Exchange)
      requires Valid()
      modifies this
      ensures Issued(x, Op.Route(httpMethod, endpoint, payload))
    {
      var t := GetTransport();
      var request := BuildRequest(apiUrl, password, json, httpMethod, endpoint, payload);
      x := new Exchange(request, json);
      sent := sent + [request];
    }

    method GetScaling() returns (x: Exchange)
      requires Valid()
      modifies this
      ensures Issued(x, Op.RouteOf(Op.GetScaling))
    {
      x := SendRequest(GET, "scaling", []);
    }

    method Scale(scaling: Payload) returns (x: Exchange)
      requires Valid()
      modifies this
      ensures Issued(x, Op.RouteOf(Op.Scale(scaling)))
    {
      x := SendRequest(PATCH, "scaling", scaling);
    }

    method GetConfig() returns (x: Exchange)
      requires Valid()
      modifies this
      ensures Issued(x, Op.RouteOf(Op.GetConfig))
    {
      x := SendRequest(GET, "config", []);
    }

    /** updateConfig; its default argument is the empty array. */
    method UpdateConfig(config: Payload) returns (x: Exchange)
      requires Valid()
      modifies this
      ensures Issued(x, Op.RouteOf(Op.UpdateConfig(config)))
    {
      x := SendRequest(PATCH, "config", config);
    }

    method GetInstances() returns (x: Exchange)
      requires Valid()
      modifies this
      ensures Issued(x, Op.RouteOf(Op.GetInstances))
    {
      x := SendRequest(GET, "instances", []);
    }

    method StopInstance(name: Value) returns (x: Exchange)
      requires Valid()
      modifies this
      ensures Issued(x, Op.RouteOf(Op.StopInstance(name)))
    {
      x := SendRequest(POST, "instances/stop", [(StrKey("name"), name)]);
    }

    /** upScale, first step: only the scaling read is sent. */
    method UpScale() returns (r: Rescaling)
      requires Valid()
      modifies this
      ensures fresh(r) && r.direction == Op.Up && !r.continued
      ensures Issued(r.read, Op.RouteOf(Op.GetScaling))
    {
      var x := GetScaling();
      r := new Rescaling(Op.Up, x);
    }

    /** downScale, first step: only the scaling read is sent. */
    method DownScale() returns (r: Rescaling)
      requires Valid()
      modifies this
      ensures fresh(r) && r.direction == Op.Down && !r.continued
      ensures Issued(r.read, Op.RouteOf(Op.GetScaling))
    {
      var x := GetScaling();
      r := new Rescaling(Op.Down, x);
    }

    /** The `then` callback of upScale and downScale, run once the read's
        promise has settled, and only the first time: a fulfilled read sends
        the derived PATCH scaling; a rejected one sends nothing and the
        compound operation rejects with the same reason. While the read is
        pending, or once the callback has run, nothing happens. */
    method ContinueRescale(r: Rescaling) returns (k: Op.Continuation, write: Option<Exchange>)
      requires Valid()
      modifies this, r
      ensures Valid()
      ensures r.continued == (old(r.continued) || !r.read.deferred.state.Pending?)
      ensures old(r.continued) ==> k == Op.Waiting
      ensures !old(r.continued) ==> k == Op.Continue(r.direction, r.read.deferred.state)
      ensures k.Write? ==> write.Some? && Issued(write.value, Op.RouteOf(Op.Scale(k.payload)))
      ensures !k.Write? ==> write.None? && sent == old(sent) && transport == old(transport)
                            && transportsBuilt == old(transportsBuilt)
    {
      if r.continued {
        k, write := Op.Waiting, None;
        return;
      }
      k := Op.Continue(r.direction, r.read.deferred.state);
      if !r.read.deferred.state.Pending? {
        r.continued := true;
      }
      if k.Write? {
        var x := Scale(k.payload);
        write := Some(x);
      } else {
        write := None;
      }
    }

    /** One upScale or downScale writes at most once: after its callback has
        run, a second delivery sends nothing. */
    method RescaleWritesOnce(r: Rescaling) returns (first: Option<Exchange>, second: Option<Exchange>)
      requires Valid()
      modifies this, r
      ensures |sent| <= |old(sent)| + 1
      ensures !r.read.deferred.state.Pending? ==> second.None?
      ensures old(r.continued) ==> first.None? && second.None?
    {
      var k1, k2;
      k1, first := ContinueRescale(r);
      k2, second := ContinueRescale(r);
    }
  }
}
