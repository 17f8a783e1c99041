/** The typed wrappers of `WWPassConnection` (`getTicket` ... `getClientKey`) and
    `getName`. Each wrapper is a `makeRequest` call shaped from its arguments
    (`CallOf`) and a reshaping of the reply into a small record (`Finish`). */
module Api {
  import opened Results
  import opened Params
  import opened Connection
  import Text

  /** One wrapper invocation with its arguments; defaults as in the source are
      `Num(0)` for a ttl, `Str("")` for a container or data, `Flag(false)` for
      finalize and `""` for auth types. */
  datatype Operation =
    | GetTicket(ttl: Value, authTypes: string)
    | GetPUID(ticket: Value, authTypes: string, finalize: Value)
    | PutTicket(ticket: Value, ttl: Value, authTypes: string, finalize: Value)
    | ReadData(ticket: Value, container: Value, finalize: Value)
    | ReadDataAndLock(ticket: Value, lockTimeout: Value, container: Value)
    | WriteData(ticket: Value, data: Value, container: Value, finalize: Value)
    | WriteDataAndUnlock(ticket: Value, data: Value, container: Value, finalize: Value)
    | Lock(ticket: Value, lockTimeout: Value, lockid: Value)
    | Unlock(ticket: Value, lockid: Value, finalize: Value)
    | GetSessionKey(ticket: Value, finalize: Value)
    | CreatePFID(data: Value)
    | RemovePFID(pfid: Value)
    | ReadDataSP(pfid: Value)
    | ReadDataSPandLock(pfid: Value, lockTimeout: Value)
    | WriteDataSP(pfid: Value, data: Value)
    | WriteDataSPandUnlock(pfid: Value, data: Value)
    | LockSP(lockid: Value, lockTimeout: Value)
    | UnlockSP(lockid: Value)
    | GetClientKey(ticket: Value)

  /** The record a wrapper returns; `Done` is the plain `True` of the writers. */
  datatype Reply =
    | TicketReply(ticket: Value, ttl: Value)
    | PuidReply(puid: Value)
    | DataReply(data: Value)
    | SessionKeyReply(sessionKey: Value)
    | PfidReply(pfid: Value)
    | ClientKeyReply(clientKey: Value, ttl: Value, originalTicket: Option<Value>)
    | Done

  /** The operations whose wrapper answers `True` without reading the reply. */
  predicate Acknowledges(op: Operation)
  {
    op.WriteData? || op.WriteDataAndUnlock? || op.Lock? || op.Unlock? || op.RemovePFID?
    || op.WriteDataSP? || op.WriteDataSPandUnlock? || op.LockSP? || op.UnlockSP?
  }

  /** The operations that send their arguments in a POST body. */
  predicate Posts(op: Operation)
  {
    op.WriteData? || op.WriteDataAndUnlock? || op.RemovePFID? || op.WriteDataSP?
    || op.WriteDataSPandUnlock? || (op.CreatePFID? && Truthy(op.data))
  }

  /** The `makeRequest` call each wrapper makes. */
  function CallOf(op: Operation): (c: Call)
    ensures c.attempts == DefaultAttempts
    ensures c.verb == POST <==> Posts(op)
    ensures !(op.GetTicket? || op.GetPUID? || op.PutTicket?) ==> c.authTypes == ""
    ensures op.GetTicket? || op.GetPUID? || op.PutTicket? ==> c.authTypes == op.authTypes
  {
    match op
    case GetTicket(ttl, a) => Call(GET, "get", a, DefaultAttempts, [("ttl", ttl)])
    case GetPUID(t, a, fin) => Call(GET, "puid", a, DefaultAttempts, [("ticket", t), ("finalize", fin)])
    case PutTicket(t, ttl, a, fin) =>
      Call(GET, "put", a, DefaultAttempts, [("ticket", t), ("ttl", ttl), ("finalize", fin)])
    case ReadData(t, cont, fin) =>
      Call(GET, "read", "", DefaultAttempts, [("ticket", t), ("container", cont), ("finalize", fin)])
    case ReadDataAndLock(t, to, cont) =>
      Call(GET, "read", "", DefaultAttempts, [("ticket", t), ("container", cont), ("lock", Flag(true)), ("to", to)])
    case WriteData(t, d, cont, fin) =>
      Call(POST, "write", "", DefaultAttempts, [("ticket", t), ("data", d), ("container", cont), ("finalize", fin)])
    case WriteDataAndUnlock(t, d, cont, fin) =>
      Call(POST, "write", "", DefaultAttempts,
           [("ticket", t), ("data", d), ("container", cont), ("unlock", Flag(true)), ("finalize", fin)])
    case Lock(t, to, id) => Call(GET, "lock", "", DefaultAttempts, [("ticket", t), ("lockid", id), ("to", to)])
    case Unlock(t, id, fin) => Call(GET, "unlock", "", DefaultAttempts, [("ticket", t), ("lockid", id), ("finalize", fin)])
    case GetSessionKey(t, fin) => Call(GET, "key", "", DefaultAttempts, [("ticket", t), ("finalize", fin)])
    case CreatePFID(d) =>
      if Truthy(d) then Call(POST, "sp/create", "", DefaultAttempts, [("data", d)])
      else Call(GET, "sp/create", "", DefaultAttempts, [])
    case RemovePFID(p) => Call(POST, "sp/remove", "", DefaultAttempts, [("pfid", p)])
    case ReadDataSP(p) => Call(GET, "sp/read", "", DefaultAttempts, [("pfid", p)])
    case ReadDataSPandLock(p, to) => Call(GET, "sp/read", "", DefaultAttempts, [("pfid", p), ("to", to), ("lock", Flag(true))])
    case WriteDataSP(p, d) => Call(POST, "sp/write", "", DefaultAttempts, [("pfid", p), ("data", d)])
    case WriteDataSPandUnlock(p, d) =>
      Call(POST, "sp/write", "", DefaultAttempts, [("pfid", p), ("data", d), ("unlock", Flag(true))])
    case LockSP(id, to) => Call(GET, "sp/lock", "", DefaultAttempts, [("lockid", id), ("to", to)])
    case UnlockSP(id) => Call(GET, "sp/unlock", "", DefaultAttempts, [("lockid", id)])
    case GetClientKey(t) => Call(GET, "clientkey", "", DefaultAttempts, [("ticket", t)])
  }

  /** Every wrapper passes distinct keyword names and never an `auth_type` of
      its own, so the filtered auth types are appended last. */
  lemma CallOfWellFormed(op: Operation)
    ensures DistinctKeys(CallOf(op).args)
    ensures Lookup(CallOf(op).args, AuthTypeKey) == None
  {
  }

  /** The arguments a wrapper actually puts on the wire. */
  function SentArgs(op: Operation): Args
  {
    CallOfWellFormed(op);
    ProcessArgs(CallOf(op).authTypes, CallOf(op).args)
  }

  /** `getTicket()` with the default `ttl=0` sends no `ttl` at all. */
  lemma ZeroTtlNotSent(authTypes: string)
    ensures Lookup(SentArgs(GetTicket(Num(0), authTypes)), "ttl") == None
  {
  }

  /** `finalize` is a presence-only marker: `True` is sent as `1`, `False` not at all. */
  lemma FinalizeIsPresenceOnly(ticket: Value, authTypes: string)
    ensures Lookup(SentArgs(GetPUID(ticket, authTypes, Flag(true))), "finalize") == Some(Num(1))
    ensures Lookup(SentArgs(GetPUID(ticket, authTypes, Flag(false))), "finalize") == None
  {
  }

  /** Each keyword argument of a wrapper is sent under its own name exactly
      when it is truthy, with `True` sent as `1`. */
  lemma SentArgument(op: Operation, i: int)
    requires 0 <= i < |CallOf(op).args|
    ensures var (k, v) := CallOf(op).args[i];
      Lookup(SentArgs(op), k) == (if Truthy(v) then Some(Encode(v)) else None)
  {
    CallOfWellFormed(op);
    var args := CallOf(op).args;
    LookupAt(args, i);
    assert args[i].0 != AuthTypeKey;
  }

  /** The lock and unlock variants always send `lock=1` or `unlock=1`. */
  lemma LockFlagsSentAsOne(op: Operation)
    requires op.ReadDataAndLock? || op.ReadDataSPandLock? || op.WriteDataAndUnlock? || op.WriteDataSPandUnlock?
    ensures Lookup(SentArgs(op), if op.ReadDataAndLock? || op.ReadDataSPandLock? then "lock" else "unlock")
         == Some(Num(1))
  {
    match op
    case ReadDataAndLock(_, _, _) => SentArgument(op, 2);
    case ReadDataSPandLock(_, _) => SentArgument(op, 2);
    case WriteDataAndUnlock(_, _, _, _) => SentArgument(op, 3);
    case WriteDataSPandUnlock(_, _) => SentArgument(op, 2);
  }

  /** `createPFID()` with no data is a bare GET: no query string and no body. */
  lemma CreatePFIDWithoutData(conn: Connection, data: Value)
    requires !Truthy(data)
    ensures LineOf(conn, CallOf(CreatePFID(data))) == RequestLine(conn.address + "/sp/create", None)
  {
    var c := CallOf(CreatePFID(data));
    assert c == Call(GET, "sp/create", "", DefaultAttempts, []);
    assert Assign([], AuthTypeKey, Str("")) == [(AuthTypeKey, Str(""))];
    assert ProcessArgs(c.authTypes, c.args) == [];
  }

  /** The response fields a wrapper reads, in the order it reads them. */
  function NeededFields(op: Operation): seq<string>
  {
    if Acknowledges(op) then []
    else if op.GetTicket? || op.PutTicket? || op.GetClientKey? then ["data", "ttl"]
    else ["data"]
  }

  /** The first field the wrapper needs that the response lacks. */
  function FirstMissing(fields: seq<string>, m: Response): (r: Option<string>)
    ensures r.None? <==> forall f :: f in fields ==> f in m
    ensures r.Some? ==> r.value in fields && r.value !in m
  {
    if fields == [] then None
    else if fields[0] !in m then Some(fields[0])
    else FirstMissing(fields[1..], m)
  }

  /** Reshapes a successful reply into the wrapper's record; a missing field
      raises KeyError. */
  function Reshape(op: Operation, m: Response): (r: Result<Reply>)
    ensures r.Ok? <==> forall f :: f in NeededFields(op) ==> f in m
    ensures r.Err? ==> r.error.Unexpected?
    ensures r.Ok? && (op.GetTicket? || op.PutTicket?) ==> r.value.TicketReply?
    ensures r.Ok? ==> match r.value
      case TicketReply(t, ttl) =>
        (op.GetTicket? || op.PutTicket?) && "data" in m && "ttl" in m && t == m["data"] && ttl == m["ttl"]
      case PuidReply(p) => op.GetPUID? && "data" in m && p == m["data"]
      case DataReply(d) =>
        && (op.ReadData? || op.ReadDataAndLock? || op.ReadDataSP? || op.ReadDataSPandLock?)
        && "data" in m && d == m["data"]
      case SessionKeyReply(k) => op.GetSessionKey? && "data" in m && k == m["data"]
      case PfidReply(p) => op.CreatePFID? && "data" in m && p == m["data"]
      case ClientKeyReply(k, ttl, orig) =>
        && op.GetClientKey? && "data" in m && "ttl" in m && k == m["data"] && ttl == m["ttl"]
        && (orig.Some? <==> "originalTicket" in m)
        && (orig.Some? ==> orig.value == m["originalTicket"])
      case Done => Acknowledges(op)
  {
    match FirstMissing(NeededFields(op), m)
    case Some(f) => Err(Unexpected("KeyError: " + f))
    case None =>
      assert "data" in NeededFields(op) ==> "data" in m;
      assert "ttl" in NeededFields(op) ==> "ttl" in m;
      match op
      case GetTicket(_, _) => Ok(TicketReply(m["data"], m["ttl"]))
      case PutTicket(_, _, _, _) => Ok(TicketReply(m["data"], m["ttl"]))
      case GetPUID(_, _, _) => Ok(PuidReply(m["data"]))
      case ReadData(_, _, _) => Ok(DataReply(m["data"]))
      case ReadDataAndLock(_, _, _) => Ok(DataReply(m["data"]))
      case ReadDataSP(_) => Ok(DataReply(m["data"]))
      case ReadDataSPandLock(_, _) => Ok(DataReply(m["data"]))
      case GetSessionKey(_, _) => Ok(SessionKeyReply(m["data"]))
      case CreatePFID(_) => Ok(PfidReply(m["data"]))
      case GetClientKey(_) =>
        Ok(ClientKeyReply(m["data"], m["ttl"],
                          if "originalTicket" in m then Some(m["originalTicket"]) else None))
      case _ => Ok(Done)
  }

  /** A wrapper after `makeRequest` returned or raised: errors pass through
      unchanged, replies are reshaped. */
  function Finish(op: Operation, res: Result<Response>): Result<Reply>
  {
    match res
    case Err(e) => Err(e)
    case Ok(m) => Reshape(op, m)
  }

  /** A wrapper on a single connection. */
  function Perform(conn: Connection, op: Operation, net: nat -> Outcome): (r: Result<Reply>)
    ensures Run(net, DefaultAttempts).result.Err? ==> r == Err(Run(net, DefaultAttempts).result.error)
    ensures Run(net, DefaultAttempts).result.Ok? ==> r == Reshape(op, Run(net, DefaultAttempts).result.value)
    ensures r.Ok? && (op.GetTicket? || op.PutTicket?) ==> r.value.TicketReply?
  {
    CallOfWellFormed(op);
    Finish(op, Request(conn, CallOf(op), net).tally.result)
  }

  /** A reply `{result: True, data: "xyz", ttl: 120}` to `getTicket` gives
      `{ticket: "xyz", ttl: 120}`. */
  lemma TicketRoundTrip(ttl: Value, authTypes: string)
    ensures Finish(GetTicket(ttl, authTypes),
                   Judge(Mapping(map["result" := Flag(true), "data" := Str("xyz"), "ttl" := Num(120)])))
         == Ok(TicketReply(Str("xyz"), Num(120)))
  {
  }

  const NoNameMessage: string := "Cannot extract service provider name from ticket"

  /** The service-provider name in a ticket: everything before its first `:`. */
  function ServiceName(ticket: Value): (r: Result<string>)
    ensures r.Ok? ==> ticket.Str? && ':' !in r.value && r.value + ":" <= ticket.s
    ensures ticket.Str? ==> (r.Ok? <==> ':' in ticket.s)
    ensures ticket.Str? && ':' !in ticket.s ==> r == Err(WWPass(NoNameMessage))
    ensures !ticket.Str? ==> r.Err? && r.error.Unexpected?
  {
    if !ticket.Str? then Err(Unexpected("AssertionError: ticket is not bytes"))
    else
      var s := ticket.s;
      var pos := Text.Find(s, ":");
      if pos == -1 then
        assert forall i :: 0 <= i < |s| ==> s[i] != ':' by {
          forall i | 0 <= i < |s| ensures s[i] != ':' {
            Text.OccursAtChar(s, ':', i);
          }
        }
        Err(WWPass(NoNameMessage))
      else
        Text.OccursAtChar(s, ':', pos);
        assert forall i :: 0 <= i < pos ==> s[i] != ':' by {
          forall i | 0 <= i < pos ensures s[i] != ':' {
            Text.OccursAtChar(s, ':', i);
          }
        }
        assert s[..pos] + ":" == s[..pos + 1];
        Ok(s[..pos])
  }

  /** The name is exactly the text before the first `:`. */
  lemma {:induction false} ServiceNameBeforeFirstColon(s: string, n: nat)
    requires n < |s| && s[n] == ':'
    requires forall j :: 0 <= j < n ==> s[j] != ':'
    ensures ServiceName(Str(s)) == Ok(s[..n])
  {
    assert ':' in s;
    var v := ServiceName(Str(s)).value;
    assert v + ":" <= s;
    assert s[|v|] == (v + ":")[|v|] == ':';
    assert forall j :: 0 <= j < |v| ==> s[j] == v[j];
    assert n <= |v|;
    assert |v| <= n;
    assert v == s[..n];
  }

  /** The name in the ticket `mysite.com:abcdef123` is `mysite.com`. */
  lemma ServiceNameExample()
    ensures ServiceName(Str("mysite.com:abcdef123")) == Ok("mysite.com")
  {
    var s := "mysite.com:abcdef123";
    ServiceNameBeforeFirstColon(s, 10);
    assert s[..10] == "mysite.com";
  }

  /** `getName()`: asks for a zero-ttl ticket and extracts the name from it.
      Any failure of the request comes back unchanged; a name is the text of the
      reply's `data` before its first `:`. */
  function GetName(conn: Connection, net: nat -> Outcome): (r: Result<string>)
    ensures var res := Run(net, DefaultAttempts).result;
      && (res.Err? ==> r == Err(res.error))
      && (r.Ok? ==> res.Ok? && "data" in res.value && res.value["data"].Str?
                    && ':' !in r.value && r.value + ":" <= res.value["data"].s)
      && (res.Ok? && "data" in res.value && "ttl" in res.value && res.value["data"].Str? ==>
            (r.Ok? <==> ':' in res.value["data"].s))
  {
    var got := Perform(conn, GetTicket(Num(0), ""), net);
    if got.Err? then Err(got.error)
    else
      assert got.value.TicketReply?;
      ServiceName(got.value.ticket)
  }
}
