/** The Fetch API records that the server passes around (`Headers`, `Request`,
    `Response`, `URL`), as plain values. */
module Http {
  import opened Strings
  import opened Opt

  /** A `Headers` object: lower-cased header name to the values appended under it. */
  type Headers = map<string, seq<string>>

  /** `headers.set(name, value)`: the name's values become exactly `[value]`. */
  function SetHeader(h: Headers, name: string, value: string): (r: Headers)
    ensures r.Keys == h.Keys + {ToLower(name)}
    ensures r[ToLower(name)] == [value]
    ensures forall n :: n in h && n != ToLower(name) ==> r[n] == h[n]
  {
    PutHeader(h, ToLower(name), value)
  }

  /** `headers.set(n, value)` for a name `n` written in lower case already. */
  function PutHeader(h: Headers, n: string, value: string): (r: Headers)
    ensures r.Keys == h.Keys + {n} && r[n] == [value]
    ensures forall m :: m in h && m != n ==> r[m] == h[m]
  {
    h[n := [value]]
  }

  /** `headers.append(name, value)`: `value` is added after the name's earlier values. */
  function AppendHeader(h: Headers, name: string, value: string): (r: Headers)
    ensures r.Keys == h.Keys + {ToLower(name)}
    ensures r[ToLower(name)] == (if ToLower(name) in h then h[ToLower(name)] else []) + [value]
    ensures forall n :: n in h && n != ToLower(name) ==> r[n] == h[n]
  {
    AppendValue(h, ToLower(name), value)
  }

  /** `headers.append(n, value)` for a name `n` written in lower case already. */
  function AppendValue(h: Headers, n: string, value: string): (r: Headers)
    ensures r.Keys == h.Keys + {n} && r[n] == (if n in h then h[n] else []) + [value]
    ensures forall m :: m in h && m != n ==> r[m] == h[m]
  {
    h[n := (if n in h then h[n] else []) + [value]]
  }

  /** `headers.get(name)`: the values joined with ", ", or null. */
  function GetHeader(h: Headers, name: string): Option<string>
  {
    HeaderValue(h, ToLower(name))
  }

  /** `headers.get(n)` for a name `n` written in lower case already. */
  function HeaderValue(h: Headers, n: string): Option<string>
  {
    if n in h then Some(Join(h[n], ", ")) else None
  }

  /** `headers.get(name) || undefined`: a present but empty value counts as absent. */
  function TruthyHeader(h: Headers, name: string): Option<string>
  {
    match GetHeader(h, name)
    case Some(v) => if v == "" then None else Some(v)
    case None => None
  }

  /** What iterating a `Headers` object yields for one name, written back with `set`:
      `set-cookie` values come one at a time so only the last survives; any other
      name comes once, its values combined with ", ". */
  function IteratedValue(name: string, values: seq<string>): seq<string>
  {
    if name == "set-cookie" then (if |values| == 0 then [] else [values[|values| - 1]])
    else [Join(values, ", ")]
  }

  /** `for (const [k, v] of over) base.set(k, v)`: every name of `over` replaces the
      same-named header of `base`; other headers of `base` are kept. */
  function SetAll(base: Headers, over: Headers): (r: Headers)
    ensures r.Keys == base.Keys + over.Keys
    ensures forall n :: n in over ==> r[n] == IteratedValue(n, over[n])
    ensures forall n :: n in base && n !in over ==> r[n] == base[n]
  {
    map n | n in base.Keys + over.Keys :: if n in over then IteratedValue(n, over[n]) else base[n]
  }

  /** `new Headers(record)`: the record's entries appended in order. */
  function HeadersOf(record: seq<(string, string)>): Headers
    decreases |record|
  {
    if |record| == 0 then map[]
    else AppendHeader(HeadersOf(record[..|record| - 1]), record[|record| - 1].0, record[|record| - 1].1)
  }

  /** Object spread `{ ...a, ...b }` on string records: a key of `b` replaces the value of
      the same key of `a` in place; new keys follow in order. */
  function Spread(a: seq<(string, string)>, b: seq<(string, string)>): seq<(string, string)>
    decreases |b|
  {
    if |b| == 0 then a else Spread(RecordSet(a, b[0].0, b[0].1), b[1..])
  }

  /** `record[key] = value` on a string record. */
  function RecordSet(a: seq<(string, string)>, key: string, value: string): (r: seq<(string, string)>)
    ensures |r| == |a| || |r| == |a| + 1
  {
    if |a| == 0 then [(key, value)]
    else if a[0].0 == key then [(key, value)] + a[1..]
    else [a[0]] + RecordSet(a[1..], key, value)
  }

  /** The part of a `URL` the server reads. `query` is `searchParams.entries()` in order. */
  datatype Url = Url(pathname: string, search: string, query: seq<(string, string)>)

  datatype Request = Request(httpMethod: string, url: Url, headers: Headers)

  /** A `Response`: status, status text, headers and the body as text. */
  datatype Response = Response(status: int, statusText: string, headers: Headers, body: string)

  /** `new Response(body, { status })` with no headers. */
  function Plain(status: int, body: string): Response
  {
    Response(status, "", map[], body)
  }

  /** `Object.fromEntries(entries)`: a later entry for the same key wins. */
  function FromEntries(entries: seq<(string, string)>): (m: map<string, string>)
    ensures forall k :: k in m <==> exists i :: 0 <= i < |entries| && entries[i].0 == k
    decreases |entries|
  {
    if |entries| == 0 then map[]
    else
      var last := entries[|entries| - 1];
      var m := FromEntries(entries[..|entries| - 1])[last.0 := last.1];
      assert forall k :: k in m <==> exists i :: 0 <= i < |entries| && entries[i].0 == k by {
        forall k | k in m ensures exists i :: 0 <= i < |entries| && entries[i].0 == k {
          if k != last.0 {
            var i :| 0 <= i < |entries| - 1 && entries[..|entries| - 1][i].0 == k;
            assert entries[i].0 == k;
          }
        }
        forall k | exists i :: 0 <= i < |entries| && entries[i].0 == k ensures k in m {
          var i :| 0 <= i < |entries| && entries[i].0 == k;
          if i < |entries| - 1 {
            assert entries[..|entries| - 1][i].0 == k;
          }
        }
      }
      m
  }

  /** The value `Object.fromEntries` keeps for a key is that of its last entry. */
  lemma {:induction false} FromEntriesLast(entries: seq<(string, string)>, i: nat)
    requires i < |entries|
    requires forall j :: i < j < |entries| ==> entries[j].0 != entries[i].0
    ensures entries[i].0 in FromEntries(entries) && FromEntries(entries)[entries[i].0] == entries[i].1
    decreases |entries|
  {
    if i < |entries| - 1 {
      var init := entries[..|entries| - 1];
      assert init[i] == entries[i];
      FromEntriesLast(init, i);
    }
  }

  /** Headers built from a record whose only entry under a name (ignoring case) is the
      first: that name holds exactly the first entry's value. */
  lemma {:induction false} HeadersOfFirst(record: seq<(string, string)>, n: string)
    requires |record| >= 1 && ToLower(record[0].0) == n
    requires forall j :: 0 < j < |record| ==> ToLower(record[j].0) != n
    ensures n in HeadersOf(record) && HeadersOf(record)[n] == [record[0].1]
    decreases |record|
  {
    if |record| > 1 {
      var init := record[..|record| - 1];
      HeadersOfFirst(init, n);
    }
  }

  /** A spread of records that hold no key equal to `n` up to case holds none either. */
  lemma {:induction false} SpreadKeys(a: seq<(string, string)>, b: seq<(string, string)>, n: string)
    requires forall i :: 0 <= i < |a| ==> ToLower(a[i].0) != n
    requires forall i :: 0 <= i < |b| ==> ToLower(b[i].0) != n
    ensures forall i :: 0 <= i < |Spread(a, b)| ==> ToLower(Spread(a, b)[i].0) != n
    decreases |b|
  {
    if |b| > 0 {
      RecordSetKeys(a, b[0].0, b[0].1, n);
      SpreadKeys(RecordSet(a, b[0].0, b[0].1), b[1..], n);
    }
  }

  lemma {:induction false} RecordSetKeys(a: seq<(string, string)>, key: string, value: string, n: string)
    requires ToLower(key) != n && forall i :: 0 <= i < |a| ==> ToLower(a[i].0) != n
    ensures forall i :: 0 <= i < |RecordSet(a, key, value)| ==> ToLower(RecordSet(a, key, value)[i].0) != n
    decreases |a|
  {
    if |a| > 0 && a[0].0 != key {
      RecordSetKeys(a[1..], key, value, n);
    }
  }

  /** A spread whose right operand never names the left operand's first key keeps that
      entry first and spreads into the rest. */
  lemma {:induction false} SpreadCons(x: (string, string), rest: seq<(string, string)>, b: seq<(string, string)>)
    requires forall i :: 0 <= i < |b| ==> b[i].0 != x.0
    ensures Spread([x] + rest, b) == [x] + Spread(rest, b)
    decreases |b|
  {
    if |b| > 0 {
      assert RecordSet([x] + rest, b[0].0, b[0].1) == [x] + RecordSet(rest, b[0].0, b[0].1) by {
        assert ([x] + rest)[1..] == rest;
      }
      SpreadCons(x, RecordSet(rest, b[0].0, b[0].1), b[1..]);
    }
  }
}
