/** Request parameters: the keyword arguments `makeRequest` receives, the
    auth-type whitelist, and `_processArgs`, which drops falsy values and turns
    `True` into `1` before the arguments are url-encoded. */
module Params {
  import opened Results
  import Text

  /** A keyword-argument or response-field value: Python's None, a bool, an int,
      or a text payload (str and bytes are not told apart). */
  datatype Value = Absent | Flag(b: bool) | Num(n: int) | Str(s: string)

  /** Python truthiness: None, False, 0 and the empty string are false. */
  predicate Truthy(v: Value)
  {
    match v
    case Absent => false
    case Flag(b) => b
    case Num(n) => n != 0
    case Str(s) => s != ""
  }

  /** How `%s` and `urlencode` render a value. */
  function Show(v: Value): string
  {
    match v
    case Absent => "None"
    case Flag(b) => if b then "True" else "False"
    case Num(n) => Text.IntToDecimal(n)
    case Str(s) => s
  }

  /** Password, session key, client key. */
  const ValidAuthTypes: string := "psc"

  /** The key under which the filtered auth types are sent. */
  const AuthTypeKey: string := "auth_type"

  /** Keyword arguments in insertion order. */
  type Args = seq<(string, Value)>

  /** Python keyword arguments never repeat a name. */
  predicate DistinctKeys(args: Args)
  {
    forall i, j :: 0 <= i < j < |args| ==> args[i].0 != args[j].0
  }

  /** `args.get(k)`, distinguishing a missing key from a present None. */
  function Lookup(args: Args, k: string): (r: Option<Value>)
    ensures r.None? <==> forall i :: 0 <= i < |args| ==> args[i].0 != k
  {
    if args == [] then None
    else if args[0].0 == k then Some(args[0].1)
    else
      var r := Lookup(args[1..], k);
      assert forall i :: 1 <= i < |args| ==> args[i] == args[1..][i - 1];
      r
  }

  /** With distinct keys, looking up the key of an entry finds that entry. */
  lemma {:induction false} LookupAt(args: Args, i: int)
    requires DistinctKeys(args)
    requires 0 <= i < |args|
    ensures Lookup(args, args[i].0) == Some(args[i].1)
  {
    if i > 0 {
      assert args[1..][i - 1] == args[i];
      LookupAt(args[1..], i - 1);
    }
  }

  /** The auth-type filter: keeps, in order and with repetitions, exactly the
      characters of `authTypes` that are valid auth types. */
  function FilterAuthTypes(authTypes: string): (r: string)
    ensures forall i :: 0 <= i < |r| ==> r[i] in ValidAuthTypes
    ensures (forall i :: 0 <= i < |authTypes| ==> authTypes[i] in ValidAuthTypes) ==> r == authTypes
  {
    if authTypes == [] then []
    else
      var rest := FilterAuthTypes(authTypes[1..]);
      if authTypes[0] in ValidAuthTypes then [authTypes[0]] + rest else rest
  }

  /** The filter keeps every valid character as often as it occurs and no other. */
  lemma {:induction false} FilterAuthTypesCounts(a: string)
    ensures forall c :: c in ValidAuthTypes ==> multiset(FilterAuthTypes(a))[c] == multiset(a)[c]
    ensures forall c :: c !in ValidAuthTypes ==> multiset(FilterAuthTypes(a))[c] == 0
  {
    if a != [] {
      FilterAuthTypesCounts(a[1..]);
      assert a == [a[0]] + a[1..];
      assert multiset(a) == multiset{a[0]} + multiset(a[1..]);
    }
  }

  /** The filter is applied character by character, so it keeps the order of its input. */
  lemma {:induction false} FilterAuthTypesAppend(a: string, b: string)
    ensures FilterAuthTypes(a + b) == FilterAuthTypes(a) + FilterAuthTypes(b)
  {
    if a == [] {
      assert a + b == b;
    } else {
      assert (a + b)[1..] == a[1..] + b;
      FilterAuthTypesAppend(a[1..], b);
    }
  }

  /** Filtering twice is filtering once. */
  lemma FilterAuthTypesIdempotent(a: string)
    ensures FilterAuthTypes(FilterAuthTypes(a)) == FilterAuthTypes(a)
  {
  }

  /** The wire form of a kept value: `True` is sent as `1`, everything else as is. */
  function Encode(v: Value): Value
  {
    if v == Flag(true) then Num(1) else v
  }

  /** What `_processArgs` sends for key `k` of `args`: nothing when `k` is absent
      or falsy, otherwise its encoded value. */
  function SentFor(args: Args, k: string): Option<Value>
  {
    match Lookup(args, k)
    case None => None
    case Some(v) => if Truthy(v) then Some(Encode(v)) else None
  }

  /** A value that survives compaction: truthy and never a bare bool. */
  predicate Kept(v: Value)
  {
    Truthy(v) && !v.Flag?
  }

  /** The dict comprehension of `_processArgs`: keeps the truthy entries, in order,
      with `True` turned into `1`. */
  function Compact(args: Args): (r: Args)
    requires DistinctKeys(args)
    ensures DistinctKeys(r)
    ensures |r| <= |args|
    ensures forall i :: 0 <= i < |r| ==> Kept(r[i].1)
    ensures forall k :: Lookup(r, k) == SentFor(args, k)
  {
    if args == [] then []
    else
      var rest := Compact(args[1..]);
      var (k, v) := args[0];
      assert forall k' :: k' != k ==> Lookup(args, k') == Lookup(args[1..], k');
      assert Lookup(args[1..], k) == None by {
        forall i | 0 <= i < |args[1..]| ensures args[1..][i].0 != k {
          assert args[1..][i] == args[i + 1];
        }
      }
      if Truthy(v) then
        var r := [(k, Encode(v))] + rest;
        assert r[1..] == rest;
        assert Lookup(rest, k) == None;
        r
      else rest
  }

  /** Compaction works entry by entry, so it keeps the insertion order. */
  lemma {:induction false} CompactAppend(a: Args, b: Args)
    requires DistinctKeys(a + b)
    ensures DistinctKeys(a) && DistinctKeys(b)
    ensures Compact(a + b) == Compact(a) + Compact(b)
  {
    assert forall i :: 0 <= i < |a| ==> a[i] == (a + b)[i];
    assert forall i :: 0 <= i < |b| ==> b[i] == (a + b)[|a| + i];
    if a == [] {
      assert a + b == b;
    } else {
      assert (a + b)[1..] == a[1..] + b;
      CompactAppend(a[1..], b);
    }
  }

  /** Looking up in a list with one entry in front. */
  lemma LookupCons(x: (string, Value), rest: Args, k: string)
    ensures Lookup([x] + rest, k) == if x.0 == k then Some(x.1) else Lookup(rest, k)
  {
  }

  /** A list with one entry in front has distinct keys exactly when the rest
      does and does not repeat the front key. */
  lemma DistinctCons(x: (string, Value), rest: Args)
    ensures DistinctKeys([x] + rest) <==> DistinctKeys(rest) && Lookup(rest, x.0) == None
  {
    var l := [x] + rest;
    assert forall i :: 0 <= i < |rest| ==> l[i + 1] == rest[i];
    if DistinctKeys(l) {
      forall i | 0 <= i < |rest| ensures rest[i].0 != x.0 {
        assert l[0] == x && l[i + 1] == rest[i];
      }
      forall i, j | 0 <= i < j < |rest| ensures rest[i].0 != rest[j].0 {
        assert l[i + 1] == rest[i] && l[j + 1] == rest[j];
      }
    }
    if DistinctKeys(rest) && Lookup(rest, x.0) == None {
      forall i, j | 0 <= i < j < |l| ensures l[i].0 != l[j].0 {
        if i > 0 {
          assert l[i] == rest[i - 1] && l[j] == rest[j - 1];
        } else {
          assert l[j] == rest[j - 1];
        }
      }
    }
  }

  /** `kwargs[k] = v`: overwrite the entry in place when `k` is present,
      append it otherwise. */
  function Assign(args: Args, k: string, v: Value): (r: Args)
    requires DistinctKeys(args)
    ensures DistinctKeys(r)
    ensures Lookup(r, k) == Some(v)
    ensures forall k' :: k' != k ==> Lookup(r, k') == Lookup(args, k')
    ensures Lookup(args, k) == None ==> r == args + [(k, v)]
    ensures Lookup(args, k) != None ==> |r| == |args| && forall i :: 0 <= i < |r| ==> r[i].0 == args[i].0
  {
    if args == [] then [(k, v)]
    else
      assert args == [args[0]] + args[1..];
      DistinctCons(args[0], args[1..]);
      if args[0].0 == k then
        AssignHere(args[0], args[1..], v);
        [(k, v)] + args[1..]
      else
        var rest := Assign(args[1..], k, v);
        AssignFurther(args[0], args[1..], k, v, rest);
        [args[0]] + rest
  }

  /** `Assign` when the key stands in front. */
  lemma AssignHere(x: (string, Value), tail: Args, v: Value)
    requires DistinctKeys([x] + tail)
    ensures DistinctKeys([(x.0, v)] + tail)
    ensures Lookup([(x.0, v)] + tail, x.0) == Some(v)
    ensures forall k' :: k' != x.0 ==> Lookup([(x.0, v)] + tail, k') == Lookup([x] + tail, k')
    ensures Lookup([x] + tail, x.0) != None
  {
    DistinctCons(x, tail);
    DistinctCons((x.0, v), tail);
    LookupCons((x.0, v), tail, x.0);
    LookupCons(x, tail, x.0);
    forall k' | k' != x.0 ensures Lookup([(x.0, v)] + tail, k') == Lookup([x] + tail, k') {
      LookupCons((x.0, v), tail, k');
      LookupCons(x, tail, k');
    }
  }

  /** `Assign` past a front entry with another key, given the result for the tail. */
  lemma AssignFurther(x: (string, Value), tail: Args, k: string, v: Value, rest: Args)
    requires x.0 != k
    requires DistinctKeys([x] + tail)
    requires DistinctKeys(rest)
    requires Lookup(rest, k) == Some(v)
    requires forall k' :: k' != k ==> Lookup(rest, k') == Lookup(tail, k')
    requires Lookup(tail, k) == None ==> rest == tail + [(k, v)]
    ensures DistinctKeys([x] + rest)
    ensures Lookup([x] + rest, k) == Some(v)
    ensures forall k' :: k' != k ==> Lookup([x] + rest, k') == Lookup([x] + tail, k')
    ensures Lookup([x] + tail, k) == None ==> [x] + rest == [x] + tail + [(k, v)]
  {
    DistinctCons(x, tail);
    DistinctCons(x, rest);
    LookupCons(x, rest, k);
    LookupCons(x, tail, k);
    forall k' | k' != k ensures Lookup([x] + rest, k') == Lookup([x] + tail, k') {
      LookupCons(x, rest, k');
      LookupCons(x, tail, k');
    }
  }

  /** `_processArgs(authTypes, **kwargs)`: stores the filtered auth types under
      `auth_type`, then drops every falsy entry and sends `True` as `1`. */
  function ProcessArgs(authTypes: string, kwargs: Args): (r: Args)
    requires DistinctKeys(kwargs)
    ensures DistinctKeys(r)
    ensures forall i :: 0 <= i < |r| ==> Kept(r[i].1)
    ensures Lookup(r, AuthTypeKey) ==
      (if FilterAuthTypes(authTypes) == "" then None else Some(Str(FilterAuthTypes(authTypes))))
    ensures forall k :: k != AuthTypeKey ==> Lookup(r, k) == SentFor(kwargs, k)
  {
    Compact(Assign(kwargs, AuthTypeKey, Str(FilterAuthTypes(authTypes))))
  }

  /** When the caller passed no `auth_type` of its own, the encoded arguments are
      the caller's in their order, followed by the auth types if any survive. */
  lemma ProcessArgsOrder(authTypes: string, kwargs: Args)
    requires DistinctKeys(kwargs)
    requires Lookup(kwargs, AuthTypeKey) == None
    ensures ProcessArgs(authTypes, kwargs) ==
      Compact(kwargs) +
      (if FilterAuthTypes(authTypes) == "" then [] else [(AuthTypeKey, Str(FilterAuthTypes(authTypes)))])
  {
    var tail := [(AuthTypeKey, Str(FilterAuthTypes(authTypes)))];
    CompactAppend(kwargs, tail);
    assert Compact(tail) == (if FilterAuthTypes(authTypes) == "" then [] else tail) by {
      assert tail[1..] == [];
    }
  }

  /** `k=v` as urlencode writes one pair (percent-escaping aside). */
  function Pair(entry: (string, Value)): string
  {
    entry.0 + "=" + Show(entry.1)
  }

  /** `urlencode(args)`: the pairs joined by `&`, in order. */
  function UrlEncode(args: Args): (r: string)
    ensures r == "" <==> args == []
  {
    if args == [] then ""
    else if |args| == 1 then Pair(args[0])
    else Pair(args[0]) + "&" + UrlEncode(args[1..])
  }
}
