/**
 * The proxy response budget of desktop/go/proxy.go against the bytes it promises to bound: the protobuf
 * encoding of Frame / Response / ProxyHttpResponse (proto/leapmux/desktop/v1/frame.proto), with map
 * entries in any order. Strings are their bytes.
 */
module ProxyBudget {
  import opened Bytes

  type Headers = map<bytes, seq<bytes>>

  const MAX_FRAME_SIZE: nat := 16 * 1024 * 1024 + 4 * 1024 * 1024
  const WRAPPER_RESERVE: nat := 48
  const PER_HEADER_FRAMING: nat := 2 + 5 + 1 + 5 + 1 + 5
  const PER_VALUE_FRAMING: nat := 1 + 5

  const TWO35: nat := 0x8_0000_0000
  const TWO64: nat := 0x1_0000_0000_0000_0000

  // ----- Protobuf encoding -----

  /** Base-128 varint, least significant group first. */
  function Varint(n: nat): (r: bytes)
    ensures |r| >= 1
  {
    if n < 128 then [n as byte] else [(n % 128 + 128) as byte] + Varint(n / 128)
  }

  /** Reads one varint; None when the input ends inside it. */
  function ReadVarint(s: bytes): Option<(nat, bytes)>
  {
    if s == [] then None
    else if s[0] < 128 then Some((s[0] as nat, s[1..]))
    else
      var rest := ReadVarint(s[1..]);
      if rest.None? then None else Some((s[0] as nat - 128 + 128 * rest.value.0, rest.value.1))
  }

  lemma {:induction false} VarintRoundTrip(n: nat, rest: bytes)
    ensures ReadVarint(Varint(n) + rest) == Some((n, rest))
    decreases n
  {
    var s := Varint(n) + rest;
    if n < 128 {
      assert s[1..] == rest;
    } else {
      VarintRoundTrip(n / 128, rest);
      assert s[0] == (n % 128 + 128) as byte;
      assert s[1..] == Varint(n / 128) + rest;
    }
  }

  function Pow128(k: nat): nat
  {
    if k == 0 then 1 else 128 * Pow128(k - 1)
  }

  /** A number below 128 to the k takes at most k bytes. */
  lemma {:induction false} VarintWidth(n: nat, k: nat)
    requires 0 < k && n < Pow128(k)
    ensures |Varint(n)| <= k
    decreases k
  {
    if n >= 128 {
      assert k > 1 by {
        assert Pow128(1) == 128 * Pow128(0) == 128;
      }
      assert n / 128 < Pow128(k - 1);
      VarintWidth(n / 128, k - 1);
    }
  }

  lemma LengthWidth(n: nat)
    requires n < TWO35
    ensures |Varint(n)| <= 5
  {
    assert Pow128(0) == 1 && Pow128(1) == 128 && Pow128(2) == 16384 && Pow128(3) == 2097152 && Pow128(4) == 268435456;
    assert Pow128(5) == TWO35;
    VarintWidth(n, 5);
  }

  lemma WordWidth(n: nat)
    requires n < TWO64
    ensures |Varint(n)| <= 10
  {
    assert Pow128(5) == TWO35 by {
      assert Pow128(0) == 1 && Pow128(1) == 128 && Pow128(2) == 16384 && Pow128(3) == 2097152 && Pow128(4) == 268435456;
    }
    assert Pow128(6) == 128 * TWO35 && Pow128(7) == 16384 * TWO35 && Pow128(8) == 2097152 * TWO35;
    assert Pow128(9) == 268435456 * TWO35 && Pow128(10) == TWO35 * TWO35;
    VarintWidth(n, 10);
  }

  /** A field's tag: its number and wire type. */
  function Tag(field: nat, wire: nat): bytes
  {
    Varint(field * 8 + wire)
  }

  /** A length-delimited field: string, bytes or submessage. */
  function Delimited(field: nat, payload: bytes): bytes
  {
    Tag(field, 2) + Varint(|payload|) + payload
  }

  /** A varint field, omitted at its default. */
  function Scalar(field: nat, n: nat): bytes
  {
    if n == 0 then [] else Tag(field, 0) + Varint(n)
  }

  /** int32 is sign-extended to 64 bits on the wire. */
  function SignExtend(v: int): nat
    requires -0x8000_0000 <= v < 0x8000_0000
  {
    if v < 0 then v + TWO64 else v
  }

  function EncodeValues(values: seq<bytes>): bytes
  {
    if values == [] then [] else Delimited(1, values[0]) + EncodeValues(values[1..])
  }

  function EncodeEntry(name: bytes, values: seq<bytes>): bytes
  {
    Delimited(2, Delimited(1, name) + Delimited(2, EncodeValues(values)))
  }

  function EncodeHeaders(headers: Headers, order: seq<bytes>): bytes
    requires forall name :: name in order ==> name in headers
  {
    if order == [] then [] else EncodeEntry(order[0], headers[order[0]]) + EncodeHeaders(headers, order[1..])
  }

  function EncodeProxyResponse(status: int, headers: Headers, order: seq<bytes>, body: bytes): bytes
    requires forall name :: name in order ==> name in headers
    requires -0x8000_0000 <= status < 0x8000_0000
  {
    Scalar(1, SignExtend(status)) + EncodeHeaders(headers, order) + (if body == [] then [] else Delimited(3, body))
  }

  /** Frame{response: Response{id, proxy_http}}. */
  function EncodeFrame(id: nat, status: int, headers: Headers, order: seq<bytes>, body: bytes): bytes
    requires forall name :: name in order ==> name in headers
    requires -0x8000_0000 <= status < 0x8000_0000
  {
    Delimited(2, Scalar(1, id) + Delimited(15, EncodeProxyResponse(status, headers, order, body)))
  }

  /** The order in which a map is encoded: each header that has values, once. */
  ghost predicate Enumerates(headers: Headers, order: seq<bytes>)
  {
    && (forall name :: name in order <==> name in headers && headers[name] != [])
    && (forall i, j :: 0 <= i < j < |order| ==> order[i] != order[j])
  }

  // ----- The budget -----

  function ValuesCost(values: seq<bytes>): nat
  {
    if values == [] then 0 else |values[0]| + PER_VALUE_FRAMING + ValuesCost(values[1..])
  }

  /** What one header adds to the overhead; one without values is skipped. */
  function HeaderCost(name: bytes, values: seq<bytes>): nat
  {
    if values == [] then 0 else |name| + PER_HEADER_FRAMING + ValuesCost(values)
  }

  ghost function Pick(names: set<bytes>): bytes
    requires names != {}
    ensures Pick(names) in names
  {
    var name :| name in names; name
  }

  ghost function Cost(headers: Headers, names: set<bytes>): nat
    requires names <= headers.Keys
  {
    if names == {} then 0
    else var name := Pick(names); HeaderCost(name, headers[name]) + Cost(headers, names - {name})
  }

  /** The sum does not depend on the order the map is walked in. */
  lemma {:induction false} CostRemove(headers: Headers, names: set<bytes>, name: bytes)
    requires names <= headers.Keys && name in names
    ensures Cost(headers, names) == HeaderCost(name, headers[name]) + Cost(headers, names - {name})
  {
    var picked := Pick(names);
    if picked != name {
      CostRemove(headers, names - {picked}, name);
      CostRemove(headers, names - {name}, picked);
      assert names - {picked} - {name} == names - {name} - {picked};
    }
  }

  ghost function BodyBudget(headers: Headers): int
  {
    MAX_FRAME_SIZE - (WRAPPER_RESERVE + Cost(headers, headers.Keys))
  }

  /** proxyResponseBodyBudget. */
  method ProxyResponseBodyBudget(headers: Headers) returns (budget: int)
    ensures budget == BodyBudget(headers)
  {
    var overhead := WRAPPER_RESERVE;
    var left := headers.Keys;
    while left != {}
      invariant left <= headers.Keys
      invariant overhead + Cost(headers, left) == WRAPPER_RESERVE + Cost(headers, headers.Keys)
      decreases |left|
    {
      var name :| name in left;
      CostRemove(headers, left, name);
      left := left - {name};
      var values := headers[name];
      if |values| == 0 {
        continue;
      }
      overhead := overhead + |name| + PER_HEADER_FRAMING;
      var i := 0;
      ghost var before := overhead;
      while i < |values|
        invariant i <= |values| && overhead + ValuesCost(values[i..]) == before + ValuesCost(values)
      {
        overhead := overhead + |values[i]| + PER_VALUE_FRAMING;
        i := i + 1;
      }
    }
    budget := MAX_FRAME_SIZE - overhead;
  }

  /** headerValuesToProto: exactly the headers that have values. */
  method HeaderValuesToProto(headers: Headers) returns (result: Headers)
    ensures result == map name | name in headers && headers[name] != [] :: headers[name]
  {
    result := map[];
    var left := headers.Keys;
    while left != {}
      invariant left <= headers.Keys
      invariant result == map name | name in headers && name !in left && headers[name] != [] :: headers[name]
      decreases |left|
    {
      var name :| name in left;
      left := left - {name};
      if |headers[name]| == 0 {
        continue;
      }
      result := result[name := headers[name]];
    }
  }

  datatype ProxyError = HeadersTooLarge | BodyTooLarge

  /** The budgeted read of HubProxy.Do: the whole body, or a refusal; never a truncated one. */
  method ReadWithinBudget(headers: Headers, stream: bytes) returns (r: Result<bytes, ProxyError>)
    ensures r.Ok? <==> |stream| <= BodyBudget(headers)
    ensures r.Ok? ==> r.value == stream
    ensures r.Err? ==> r.error == if BodyBudget(headers) < 0 then HeadersTooLarge else BodyTooLarge
  {
    var budget := ProxyResponseBodyBudget(headers);
    if budget < 0 {
      return Err(HeadersTooLarge);
    }
    var body := if |stream| > budget + 1 then stream[..budget + 1] else stream;
    if |body| > budget {
      return Err(BodyTooLarge);
    }
    return Ok(body);
  }

  // ----- The budget is a true upper bound -----

  lemma SmallTag(field: nat, wire: nat)
    requires field <= 15 && wire < 8
    ensures |Tag(field, wire)| == 1
  {
  }

  lemma DelimitedSize(field: nat, payload: bytes)
    requires field <= 15 && |payload| < TWO35
    ensures |Delimited(field, payload)| <= 1 + 5 + |payload|
  {
    SmallTag(field, 2);
    LengthWidth(|payload|);
  }

  lemma ScalarSize(field: nat, n: nat)
    requires field <= 15 && n < TWO64
    ensures |Scalar(field, n)| <= 1 + 10
  {
    if n != 0 {
      SmallTag(field, 0);
      WordWidth(n);
    }
  }

  lemma {:induction false} ValuesSize(values: seq<bytes>)
    requires ValuesCost(values) <= MAX_FRAME_SIZE
    ensures |EncodeValues(values)| <= ValuesCost(values)
  {
    if values != [] {
      DelimitedSize(1, values[0]);
      ValuesSize(values[1..]);
    }
  }

  lemma EntrySize(name: bytes, values: seq<bytes>)
    requires values != [] && HeaderCost(name, values) <= MAX_FRAME_SIZE
    ensures |EncodeEntry(name, values)| <= HeaderCost(name, values)
  {
    ValuesSize(values);
    DelimitedSize(1, name);
    DelimitedSize(2, EncodeValues(values));
    DelimitedSize(2, Delimited(1, name) + Delimited(2, EncodeValues(values)));
  }

  /** Encoding the headers in any order costs no more than the headers named were charged. */
  lemma {:induction false} HeadersSize(headers: Headers, order: seq<bytes>, names: set<bytes>)
    requires names <= headers.Keys && Cost(headers, names) <= MAX_FRAME_SIZE
    requires forall name :: name in order ==> name in names && headers[name] != []
    requires forall i, j :: 0 <= i < j < |order| ==> order[i] != order[j]
    ensures |EncodeHeaders(headers, order)| <= Cost(headers, names)
    decreases |order|
  {
    if order != [] {
      var name, rest := order[0], order[1..];
      CostRemove(headers, names, name);
      EntrySize(name, headers[name]);
      forall other | other in rest ensures other in names - {name} {
        var i :| 0 <= i < |rest| && rest[i] == other;
        assert order[0] != order[i + 1];
      }
      HeadersSize(headers, rest, names - {name});
    }
  }

  /**
   * The budget is a true upper bound: for every header map, every order its entries are written in,
   * every id and status, a body the budget admits yields a frame within the frame limit.
   */
  lemma AdmittedFrameFits(id: nat, status: int, headers: Headers, order: seq<bytes>, body: bytes)
    requires id < TWO64 && -0x8000_0000 <= status < 0x8000_0000
    requires Enumerates(headers, order) && |body| <= BodyBudget(headers)
    ensures |EncodeFrame(id, status, headers, order, body)| <= MAX_FRAME_SIZE
  {
    HeadersSize(headers, order, headers.Keys);
    ScalarSize(1, SignExtend(status));
    DelimitedSize(3, body);
    var inner := EncodeProxyResponse(status, headers, order, body);
    assert |inner| <= 11 + Cost(headers, headers.Keys) + 6 + |body|;
    DelimitedSize(15, inner);
    ScalarSize(1, id);
    DelimitedSize(2, Scalar(1, id) + Delimited(15, inner));
  }

  // ----- and not a wasteful one -----

  /** How many header values are written. */
  function CountValues(headers: Headers, order: seq<bytes>): nat
    requires forall name :: name in order ==> name in headers
  {
    if order == [] then 0 else |headers[order[0]]| + CountValues(headers, order[1..])
  }

  lemma {:induction false} ValuesAtLeast(values: seq<bytes>)
    ensures ValuesCost(values) <= |EncodeValues(values)| + 4 * |values|
  {
    if values != [] {
      ValuesAtLeast(values[1..]);
    }
  }

  lemma EntryAtLeast(name: bytes, values: seq<bytes>)
    ensures HeaderCost(name, values) <= |EncodeEntry(name, values)| + 13 + 4 * |values|
  {
    ValuesAtLeast(values);
  }

  lemma {:induction false} ValuelessCostNothing(headers: Headers, names: set<bytes>)
    requires names <= headers.Keys && forall name :: name in names ==> headers[name] == []
    ensures Cost(headers, names) == 0
  {
    if names != {} {
      ValuelessCostNothing(headers, names - {Pick(names)});
    }
  }

  /** Headers are charged at most 13 bytes each, and 4 for each value, more than they take. */
  lemma {:induction false} HeadersAtLeast(headers: Headers, order: seq<bytes>, names: set<bytes>)
    requires names <= headers.Keys && (forall name :: name in order ==> name in headers)
    requires forall name :: name in names && headers[name] != [] ==> name in order
    ensures Cost(headers, names) <= |EncodeHeaders(headers, order)| + 13 * |order| + 4 * CountValues(headers, order)
    decreases |order|
  {
    if order == [] {
      ValuelessCostNothing(headers, names);
    } else {
      var name, rest := order[0], order[1..];
      HeadersAtLeast(headers, rest, names - {name});
      EntryAtLeast(name, headers[name]);
      if name in names {
        CostRemove(headers, names, name);
      } else {
        assert names - {name} == names;
      }
    }
  }

  /**
   * The budget wastes nothing but framing estimates: a body of exactly the budget fills the frame up to the 48 bytes
   * reserved for the wrapper, 13 bytes a header and 4 a value.
   */
  lemma FullBudgetFillsFrame(id: nat, status: int, headers: Headers, order: seq<bytes>, body: bytes)
    requires id < TWO64 && -0x8000_0000 <= status < 0x8000_0000
    requires Enumerates(headers, order) && |body| == BodyBudget(headers)
    ensures |EncodeFrame(id, status, headers, order, body)| + WRAPPER_RESERVE + 13 * |order| + 4 * CountValues(headers, order) >= MAX_FRAME_SIZE
  {
    HeadersAtLeast(headers, order, headers.Keys);
  }

  /** And the refusal of a negative budget is needed: with an empty body such headers can overflow the frame. */
  lemma NegativeBudgetCanOverflow() returns (headers: Headers, order: seq<bytes>)
    ensures Enumerates(headers, order) && BodyBudget(headers) < 0
    ensures |EncodeFrame(1, 200, headers, order, [])| > MAX_FRAME_SIZE
  {
    var big := Zeros(MAX_FRAME_SIZE);
    headers, order := map[[] := [big]], [[]];
    CostRemove(headers, headers.Keys, []);
    assert headers[order[0]] == [big];
    assert |EncodeValues([big])| >= |big|;
    assert |EncodeEntry([], [big])| > |big|;
    assert EncodeHeaders(headers, order) == EncodeEntry([], [big]) + EncodeHeaders(headers, order[1..]);
  }
}
