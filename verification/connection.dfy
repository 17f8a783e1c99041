/** One `WWPassConnection`: service-address normalisation, the request line it
    sends, and the retry loop of `makeRequest`. The network is abstracted into
    `net(i)`, the outcome of the i-th try; TLS setup is not modelled. */
module Connection {
  import opened Results
  import opened Params
  import Text

  datatype Method = GET | POST

  const DefaultAddress: string := "https://spfe.wwpass.com"
  const DefaultAttempts: int := 3
  const ErrorPrefix: string := "SPFE returned error: "

  /** The configuration a connection keeps after construction. */
  datatype Connection = Connection(address: string, timeout: int)

  /** The service address as `__init__` stores it: given `https://` in front
      unless it already names a scheme with `://`. */
  function NormaliseAddress(address: string): (r: string)
    ensures Text.Find(r, "://") >= 0
    ensures r == address <==> Text.Find(address, "://") >= 0
    ensures r != address ==> r == "https://" + address
  {
    if Text.Find(address, "://") >= 0 then address
    else
      var r := "https://" + address;
      assert Text.OccursAt(r, "://", 5);
      r
  }

  /** The default service address already names its scheme, so it is stored as given. */
  lemma DefaultAddressKept()
    ensures NormaliseAddress(DefaultAddress) == DefaultAddress
  {
    assert Text.OccursAt(DefaultAddress, "://", 5);
  }

  /** Normalising an address that is already normalised changes nothing. */
  lemma NormaliseAddressIdempotent(address: string)
    ensures NormaliseAddress(NormaliseAddress(address)) == NormaliseAddress(address)
  {
  }

  /** One `makeRequest` invocation: its positional arguments, the auth types
      and attempt count, and the remaining keyword arguments in order. */
  datatype Call = Call(verb: Method, command: string, authTypes: string, attempts: int, args: Args)

  /** What goes on the wire: the URL and, for POST, the body. */
  datatype RequestLine = RequestLine(url: string, body: Option<string>)

  /** The URL and body `makeRequest` derives from the encoded arguments `cgi`. */
  function BuildRequest(address: string, verb: Method, command: string, cgi: string): (r: RequestLine)
    ensures var base := address + "/" + command;
      && base <= r.url
      && (|r.url| > |base| <==> verb == GET && cgi != "")
      && (|r.url| > |base| ==> r.url[|base|..] == "?" + cgi)
      && (r.body.Some? <==> verb == POST)
      && (r.body.Some? ==> r.body.value == cgi)
  {
    var base := address + "/" + command;
    if verb == GET && cgi != "" then RequestLine(base + "?" + cgi, None)
    else RequestLine(base, if verb == POST then Some(cgi) else None)
  }

  /** The encoded arguments can be read back from the request line: from the
      query of a GET, from the body of a POST. */
  lemma BuildRequestKeepsArguments(address: string, verb: Method, command: string, cgi: string)
    ensures var line := BuildRequest(address, verb, command, cgi);
      var base := address + "/" + command;
      (if verb == POST then line.body.value
       else if |line.url| > |base| then line.url[|base| + 1..]
       else "") == cgi
  {
  }

  /** The request line `makeRequest` sends for a call. */
  function LineOf(conn: Connection, call: Call): RequestLine
    requires DistinctKeys(call.args)
  {
    BuildRequest(conn.address, call.verb, call.command,
                 UrlEncode(ProcessArgs(call.authTypes, call.args)))
  }

  /** A GET whose arguments all drop out carries no query at all. */
  lemma NoArgumentsNoQuery(conn: Connection, call: Call)
    requires DistinctKeys(call.args)
    requires call.verb == GET
    requires ProcessArgs(call.authTypes, call.args) == []
    ensures LineOf(conn, call) == RequestLine(conn.address + "/" + call.command, None)
  {
  }

  /** The decoded reply: a mapping, or some other unpickled object. */
  datatype Payload = Mapping(fields: map<string, Value>) | NotMapping

  /** What one try produced: `urlopen` raised URLError, reading or decoding the
      reply raised something else, or a payload arrived. */
  datatype Outcome = UrlFailure(reason: string) | OtherFailure(reason: string) | Delivered(payload: Payload)

  type Response = map<string, Value>

  /** The WWPassException text for a refusing reply. */
  function ServiceErrorMessage(code: Option<Value>, data: Value): string
  {
    ErrorPrefix + (if code.Some? then Show(code.value) + ": " else "") + Show(data)
  }

  /** How the loop body treats a delivered payload: a mapping whose `result` is
      truthy is returned; a falsy `result` raises WWPassException built from
      `code` and `data`; anything else escapes as an unexpected error. */
  function Judge(p: Payload): (r: Result<Response>)
    ensures r.Ok? <==> p.Mapping? && "result" in p.fields && Truthy(p.fields["result"])
    ensures r.Ok? ==> r.value == p.fields
    ensures r.Err? && r.error.WWPass? <==>
      p.Mapping? && "result" in p.fields && !Truthy(p.fields["result"]) && "data" in p.fields
    ensures p.Mapping? && "result" in p.fields && !Truthy(p.fields["result"]) && "data" in p.fields ==>
      r == Err(WWPass(ErrorPrefix
                      + (if "code" in p.fields then Show(p.fields["code"]) + ": " else "")
                      + Show(p.fields["data"])))
    ensures !r.Err? || !r.error.Transport?
  {
    match p
    case NotMapping => Err(Unexpected("AssertionError: reply is not a mapping"))
    case Mapping(m) =>
      if "result" !in m then Err(Unexpected("KeyError: result"))
      else if Truthy(m["result"]) then Ok(m)
      else if "data" !in m then Err(Unexpected("KeyError: data"))
      else Err(WWPass(ServiceErrorMessage(if "code" in m then Some(m["code"]) else None, m["data"])))
  }

  /** A refusal with a code reads `SPFE returned error: <code>: <data>`. */
  lemma RefusalWithCode()
    ensures Judge(Mapping(map["result" := Flag(false), "code" := Str("4"), "data" := Str("bad ticket")]))
         == Err(WWPass("SPFE returned error: 4: bad ticket"))
  {
  }

  /** A refusal without a code reads `SPFE returned error: <data>`. */
  lemma RefusalWithoutCode()
    ensures Judge(Mapping(map["result" := Flag(false), "data" := Str("bad ticket")]))
         == Err(WWPass("SPFE returned error: bad ticket"))
  {
  }

  /** The result of a try when it ends the loop; a URLError ends it only
      when no attempts are left, and then it is re-raised. */
  function Settle(o: Outcome): Result<Response>
  {
    match o
    case UrlFailure(reason) => Err(Transport(reason))
    case OtherFailure(reason) => Err(Unexpected(reason))
    case Delivered(p) => Judge(p)
  }

  /** The number of tries `attempts` allows: at least one. */
  function MaxTries(attempts: int): nat
  {
    if attempts < 1 then 1 else attempts
  }

  /** The loop's result and the number of tries it made. */
  datatype Tally = Tally(result: Result<Response>, tries: nat)

  /** The retry loop from try `start` on, with `left` attempts remaining: a
      URLError is retried while more than one attempt remains; any other
      outcome ends the loop at once. `tries` counts from try 0. */
  function RunFrom(net: nat -> Outcome, start: nat, left: int): (r: Tally)
    decreases MaxTries(left)
    ensures start < r.tries <= start + MaxTries(left)
    ensures forall j :: start <= j < r.tries - 1 ==> net(j).UrlFailure?
    ensures r.result == Settle(net(r.tries - 1))
    ensures net(r.tries - 1).UrlFailure? ==> r.tries == start + MaxTries(left)
  {
    if net(start).UrlFailure? && left > 1 then RunFrom(net, start + 1, left - 1)
    else Tally(Settle(net(start)), start + 1)
  }

  /** The retry loop of `makeRequest` with `attempts` allowed. */
  function Run(net: nat -> Outcome, attempts: int): (r: Tally)
    ensures 1 <= r.tries <= MaxTries(attempts)
    ensures forall j :: 0 <= j < r.tries - 1 ==> net(j).UrlFailure?
    ensures r.result == Settle(net(r.tries - 1))
    ensures net(r.tries - 1).UrlFailure? ==> r.tries == MaxTries(attempts)
  {
    RunFrom(net, 0, attempts)
  }

  /** The loop performs exactly the tries up to and including the first one that
      is not a URLError, capped at `MaxTries(attempts)`. */
  lemma {:induction false} RunStopsAtFirstNonUrlFailure(net: nat -> Outcome, attempts: int, n: nat)
    requires n < MaxTries(attempts)
    requires forall j :: 0 <= j < n ==> net(j).UrlFailure?
    requires !net(n).UrlFailure?
    ensures Run(net, attempts) == Tally(Settle(net(n)), n + 1)
  {
  }

  /** A transport that fails `n` times and then answers: `n + 1` attempts get
      the answer after exactly `n + 1` tries ... */
  lemma {:induction false} RetryRecovers(net: nat -> Outcome, n: nat)
    requires forall j :: 0 <= j < n ==> net(j).UrlFailure?
    requires net(n).Delivered?
    ensures Run(net, n + 1) == Tally(Judge(net(n).payload), n + 1)
  {
    RunStopsAtFirstNonUrlFailure(net, n + 1, n);
  }

  /** ... while `n` attempts (n >= 1) give up after exactly `n` tries with the
      last URLError. */
  lemma {:induction false} RetryExhausted(net: nat -> Outcome, n: nat)
    requires 1 <= n
    requires forall j :: 0 <= j < n ==> net(j).UrlFailure?
    ensures Run(net, n) == Tally(Err(Transport(net(n - 1).reason)), n)
  {
  }

  /** A refusal by the service is never retried. */
  lemma RefusalNotRetried(net: nat -> Outcome, attempts: int)
    requires net(0).Delivered? && Judge(net(0).payload).Err?
    ensures Run(net, attempts).tries == 1
    ensures Run(net, attempts).result == Judge(net(0).payload)
  {
  }

  /** The full request: the line sent and the tally of the retry loop. */
  datatype Exchange = Exchange(line: RequestLine, tally: Tally)

  /** `WWPassConnection.makeRequest` as a function of the network's behaviour:
      the reference definition `MakeRequest` is proved equal to. */
  function Request(conn: Connection, call: Call, net: nat -> Outcome): Exchange
    requires DistinctKeys(call.args)
  {
    Exchange(LineOf(conn, call), Run(net, call.attempts))
  }

  /** `makeRequest` written as the source writes it: build the line once, then
      loop, counting `attempts` down on every URLError until it reaches one. */
  method MakeRequest(conn: Connection, call: Call, net: nat -> Outcome) returns (ex: Exchange)
    requires DistinctKeys(call.args)
    ensures ex.line == LineOf(conn, call)
    ensures 1 <= ex.tally.tries <= MaxTries(call.attempts)
    ensures forall j :: 0 <= j < ex.tally.tries - 1 ==> net(j).UrlFailure?
    ensures ex.tally.result == Settle(net(ex.tally.tries - 1))
    ensures net(ex.tally.tries - 1).UrlFailure? ==> ex.tally.tries == MaxTries(call.attempts)
    ensures ex == Request(conn, call, net)
  {
    var cgi := UrlEncode(ProcessArgs(call.authTypes, call.args));
    var line := BuildRequest(conn.address, call.verb, call.command, cgi);
    var attempts := call.attempts;
    var i: nat := 0;
    while true
      invariant RunFrom(net, i, attempts) == Run(net, call.attempts)
      decreases MaxTries(attempts)
    {
      var o := net(i);
      if !o.UrlFailure? {
        return Exchange(line, Tally(Settle(o), i + 1));
      }
      if attempts <= 1 {
        return Exchange(line, Tally(Err(Transport(o.reason)), i + 1));
      }
      attempts := attempts - 1;
      i := i + 1;
    }
  }
}
