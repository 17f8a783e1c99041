# WWPass service-provider client, modelled in Dafny

This project models the request layer of the WWPass Python SDK (`wwpass.py`). The SDK is a client
for SPFE, the WWPass authentication service. It issues and redeems tickets, resolves them to a
persistent user identifier (PUID), and reads and writes a small data store kept by the service.
The model keeps the SDK's deterministic logic and replaces the network by an abstract sequence of
per-try outcomes. It covers:

- **Params** (`params.dfy`). Keyword-argument values with Python truthiness, and the auth-type
  whitelist `"psc"`. `_processArgs` stores the filtered auth types under `auth_type`, drops every
  falsy value, and sends `True` as `1`. Also a stand-in for `urlencode` over the ordered pairs.
- **Connection** (`connection.dfy`). Service-address normalisation. The URL and body that
  `makeRequest` sends. How one decoded reply is judged. The retry loop, both as a function (`Run`)
  and as a method that follows the source's `while True` loop (`MakeRequest`). `net(i)` is the
  outcome of the i-th try: a URLError, some other failure, or a decoded payload.
- **Api** (`api.dfy`). The typed wrappers `getTicket` … `getClientKey`, as one `Operation`
  datatype. `CallOf` gives the `makeRequest` call each wrapper makes, and `Reshape`/`Finish` give
  the record it returns. `ServiceName` and `GetName` model `getName`.
- **Pool** (`pool.dfy`). `WWPassConnectionMT` as a state machine over the lock flags of its
  connections: creation, `getConnection`, release, and the pooled `makeRequest`, which releases
  in `finally`.
- **Results** and **Text**. The error taxonomy, plus Python's `str.find` and `str(int)`.

Exceptions are values of `Results.Error`, grouped by the class the code raises:

- `Transport`: URLError. This is the only error that is retried.
- `WWPass`: WWPassException.
- `Unexpected`: everything else that escapes, such as a failed `assert`, a `KeyError` on a
  missing reply field, or an error while reading or unpickling the reply.

Behaviours of `wwpass.py` the model keeps exactly:

- `getName` raises WWPassException when the ticket has no `:` (wwpass.py:155-156). This is the
  same class as a service refusal.
- An `attempts` value below 1 still makes one try, because the loop re-raises once
  `attempts <= 1` (wwpass.py:146).
- A refusing reply with no `data` field raises `KeyError`, because the message reads
  `ret['data']` (wwpass.py:143).
- A refusal's code is not a separate field. It is part of one formatted message (wwpass.py:143).
  This holds for a `str` code; see `Connection.Judge` under "Left out" for the other code types.
- `net(i)` stands for everything that can happen in one try. An error while reading the reply,
  such as a read timeout, is not a URLError, so it is not retried (wwpass.py:138-145).

## Model

| member | source | states |
|---|---|---|
| Text.Find | wwpass.py:154 | `str.find`: -1 exactly when the pattern occurs nowhere; otherwise an index where it occurs, with no occurrence before it |
| Params.FilterAuthTypes | wwpass.py:122 | every output character is one of `p`, `s`, `c`; an all-valid input is returned unchanged |
| Params.FilterAuthTypesCounts | wwpass.py:51-122 | each valid character occurs in the output exactly as often as in the input, and no other character survives |
| Params.FilterAuthTypesAppend | wwpass.py:122 | the filter works character by character, so it keeps input order: filtering a concatenation is concatenating the filtered parts |
| Params.FilterAuthTypesIdempotent | wwpass.py:122 | filtering an already filtered string changes nothing |
| Params.Compact | wwpass.py:123 | the dict comprehension keeps distinct keys; every kept value is truthy and never a bool; each key is sent with its encoded value when truthy and omitted otherwise |
| Params.CompactAppend | wwpass.py:123 | compaction keeps the insertion order of the surviving entries |
| Params.Assign | wwpass.py:122 | `kwargs['auth_type'] = …` sets that key, leaves every other key as it was, overwrites in place (same length, same key at every position) when the key was present, and appends when it was absent |
| Params.ProcessArgs | wwpass.py:119-123 | `auth_type` is sent exactly when the filtered auth types are non-empty; any other key is sent, with `True` as `1`, exactly when its value is truthy, so `None`, `0`, `''` and `False` are never sent |
| Params.ProcessArgsOrder | wwpass.py:122-123 | when the caller passes no `auth_type` of its own, the encoded arguments are the caller's surviving arguments in order, followed by `auth_type` if it survives |
| Params.UrlEncode | wwpass.py:123 | the encoded query string is empty exactly when no argument survives |
| Connection.NormaliseAddress | wwpass.py:106 | the stored address always contains `://`; it equals the given address exactly when that one already contains `://`, and is `https://` plus the address otherwise |
| Connection.DefaultAddressKept | wwpass.py:48 | the default address `https://spfe.wwpass.com`, which `__init__` takes when none is given, already contains `://`, so normalisation stores it unchanged |
| Connection.NormaliseAddressIdempotent | wwpass.py:106 | normalising twice is normalising once |
| Connection.BuildRequest | wwpass.py:134-135 | the URL starts with `address/command`; it carries `?` plus the query exactly for a GET with a non-empty query; a POST sends the query as its body and never in the URL; a GET has no body |
| Connection.BuildRequestKeepsArguments | wwpass.py:133-135 | the encoded arguments can be read back from the request line: from the query of a GET, from the body of a POST |
| Connection.NoArgumentsNoQuery | wwpass.py:134 | a GET whose arguments all drop out is the bare `address/command` with no body |
| Connection.Judge | wwpass.py:139-144 | a reply is returned exactly when it is a mapping with a truthy `result`; a falsy `result` raises WWPassException exactly when `data` is present, and its text is `SPFE returned error: `, then `code: ` only when the reply has a code, then the data; a decoded reply never produces a transport error |
| Connection.RefusalWithCode | wwpass.py:143 | `{result: False, code: "4", data: "bad ticket"}` raises `SPFE returned error: 4: bad ticket` |
| Connection.RefusalWithoutCode | wwpass.py:143 | without a `code` the text is `SPFE returned error: ` followed by the data |
| Connection.RunFrom | wwpass.py:136-148 | from any try on, the loop makes at least one and at most `max(left, 1)` tries; all but the last are URLErrors; the last try's outcome is the result; it ends on a URLError only when the attempts are used up |
| Connection.Run | wwpass.py:136-148 | between 1 and `max(attempts, 1)` tries; every try before the last is a URLError; the last try's outcome decides the result; a final URLError is re-raised only after `max(attempts, 1)` tries |
| Connection.RunStopsAtFirstNonUrlFailure | wwpass.py:136-148 | when the first outcome that is not a URLError comes within the allowed tries, the loop stops exactly there with that outcome |
| Connection.RetryRecovers | wwpass.py:145-148 | a transport that fails `n` times and then answers gets that answer with `n + 1` attempts, after exactly `n + 1` tries |
| Connection.RetryExhausted | wwpass.py:145-148 | with `n` attempts against `n` URLErrors the loop raises the last URLError after exactly `n` tries |
| Connection.RefusalNotRetried | wwpass.py:141-143 | a refusal (or malformed reply) on the first try is raised after that single try |
| Connection.MakeRequest | wwpass.py:125-148 | the source's loop, with `attempts` counted down on every URLError, sends the line built from the encoded arguments; it makes between 1 and `max(attempts, 1)` tries, every try before the last a URLError; the last try's outcome is the result, and a final URLError only after `max(attempts, 1)` tries; it equals the functional reference `Request` |
| Api.CallOf | wwpass.py:159-256 | every wrapper uses the default 3 attempts; it uses POST exactly for the writers, `removePFID` and a `createPFID` with truthy data; `getTicket`, `getPUID` and `putTicket` pass the caller's auth types, and every other wrapper passes none |
| Api.CallOfWellFormed | wwpass.py:159-256 | every wrapper passes distinct argument names and never an `auth_type` of its own |
| Api.SentArgument | wwpass.py:120-123 | each wrapper argument is sent under its name exactly when truthy, with `True` as `1` |
| Api.ZeroTtlNotSent | wwpass.py:159-161 | `getTicket` with the default `ttl=0` sends no `ttl` |
| Api.FinalizeIsPresenceOnly | wwpass.py:164-166 | `finalize=True` is sent as `1` and `finalize=False` is not sent |
| Api.LockFlagsSentAsOne | wwpass.py:179-238 | the lock and unlock variants always send `lock=1` or `unlock=1` |
| Api.CreatePFIDWithoutData | wwpass.py:209-213 | `createPFID` with empty data is a bare GET of `sp/create`, with no query and no body |
| Api.Reshape | wwpass.py:159-256 | a wrapper succeeds exactly when the reply has the fields it reads; then the ticket, puid, data, session-key, pfid or client-key record takes its fields from the reply, `originalTicket` is present exactly when the reply has it, and the writers answer `True`; a missing field is a KeyError |
| Api.Perform | wwpass.py:159-256 | a wrapper on one connection fails with exactly the error of its retry loop (default 3 attempts) when that fails, and otherwise reshapes the reply it got; `getTicket` and `putTicket` always yield a ticket record |
| Api.TicketRoundTrip | wwpass.py:159-162 | `{result: True, data: "xyz", ttl: 120}` comes back from `getTicket` as `{ticket: "xyz", ttl: 120}` |
| Api.ServiceName | wwpass.py:152-157 | a found name contains no `:` and, followed by `:`, is a prefix of the ticket; a text ticket fails exactly when it has no `:`, and then with WWPassException `Cannot extract service provider name from ticket`; a non-text ticket fails the assertion |
| Api.ServiceNameBeforeFirstColon | wwpass.py:154-157 | the name is exactly the text before the first `:` |
| Api.ServiceNameExample | wwpass.py:150-157 | the ticket `mysite.com:abcdef123` names `mysite.com` |
| Api.GetName | wwpass.py:150-157 | `getName` raises exactly what its request's retry loop raises; a name it returns has no `:` and, followed by `:`, is a prefix of the reply's text `data`; when the reply has a text `data` and a `ttl`, it succeeds exactly when that `data` contains `:` |
| Pool.NewPool | wwpass.py:259-268 | a new pool holds `max(initialConnections, 0)` free connections sharing one configuration |
| Pool.AddConnection | wwpass.py:274-281 | appends one connection whose lock is held exactly when `acquired`, returns its index, the old pool size, and leaves every other flag and the shared configuration unchanged |
| Pool.FirstFree | wwpass.py:284-287 | the scan stops at the first free connection, every one before it being held, or runs off the end |
| Pool.Acquire | wwpass.py:283-288 | the lowest-index free connection is taken and locked; when all are held, exactly one connection is appended already locked; no other flag changes |
| Pool.GetConnection | wwpass.py:283-288 | the try-lock scan followed by growth takes the lowest free connection or appends one, and agrees with `Acquire` |
| Pool.Release | wwpass.py:302 | releasing a held connection clears its flag and nothing else |
| Pool.PooledRequest | wwpass.py:290-302 | the pooled request returns or raises exactly what the single connection does; afterwards every existing connection has its old lock state, any added one is free, and the pool grew by one exactly when every connection was held |
| Pool.PooledPerform | wwpass.py:290-302 | a wrapper on the pool answers as on one connection and leaves the lock flags as it found them |
| Pool.AcquireExcludesHolder | wwpass.py:283-288 | two acquisitions with no release between them get different connections |
| Pool.SecondCallerGrowsPool | wwpass.py:259-288 | in a pool of one, the first caller gets connection 0 and the second grows the pool to two and gets connection 1 |
| Pool.ReleaseMakesReacquirable | wwpass.py:299-302 | after an acquire and its release, the next acquire gets the same connection again |
| Pool.Step | wwpass.py:283-302 | one acquire or release never shrinks the pool and adds at most one connection |
| Pool.PoolOnlyGrows | wwpass.py:266-302 | over any sequence of acquires and releases, the pool never shrinks, keeps its configuration, and grows by at most one connection per operation |

## Left out

- TLS context setup, certificate and CA loading, and the embedded default CA (wwpass.py:53-87,
  100-105). These are calls into the `ssl` library. A connection keeps only its address and timeout.
- `urlopen`, reading the reply, `pickle.loads` and `conn.close`. These are network I/O and
  deserialisation. They are replaced by `net(i)`, the outcome of the i-th try. The timeout is
  stored but only affects the real transport.
- Params.UrlEncode: does not model `urlencode`'s percent-escaping. The query is the raw `k=v`
  pairs joined by `&`. It keeps order and emptiness but not the exact bytes.
- Python `str` and `bytes` are one text type, `Value.Str`. So `%s` of a bytes value renders as
  the text, without the `b'…'` Python 3 adds.
- Connection.Judge: under Python 3, a refusal whose `code` is `bytes` or `int` (the reply types
  wwpass.py:28 declares) makes `ret['code'] + ': '` at wwpass.py:143 raise `TypeError`. The model
  renders every code through `Show` and builds the message instead, so its code-present message
  is what the source produces only for a `str` code. Under Python 2, where `bytes` is `str`, a
  bytes code works too; an `int` code raises `TypeError` under both.
  Modelling it would need separate bytes and str values, which the model does not have.
- `authTypes` is a string of characters. An iterable of multi-character strings, which the
  source's `in` test would match as substrings, is not modelled.
- Real lock atomicity and thread interleavings. The pool is a sequence of lock flags, and each
  acquire or release is one atomic step.
- Argument order follows Python 3, where `**kwargs` and dict comprehensions keep insertion
  order. Under Python 2, which wwpass.py:33-36 still supports, the order of the `urlencode` pairs
  is unspecified. Params.CompactAppend and Params.ProcessArgsOrder state the Python 3 order.
- `assert method in (GET, POST)`. The `Method` type has only those two values.
- `close`, `__enter__` and `__exit__` (wwpass.py:110-117, 270-272). These are resource handling.
- `example/webapp.py` (an HTTP demo server with template files) and `setup.py` (packaging).
