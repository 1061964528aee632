/** SUBSCRIBE and UNSUBSCRIBE (sections 3.8 and 3.10 of MQTT 3.1.1). */
module SubscribeWire {
  import opened Basics
  import opened Bits
  import opened Reader
  import opened Packets
  import opened Validation
  import Utf8
  import Varint

  // ----- one filter -----

  predicate FilterOk(f: Str) {
    TopicFilterValid(f) && Utf8.Valid(f)
  }

  function TakeFilter(bs: seq<Byte>): Taken<Str> {
    var (f, rest) :- TakePrefixed(bs);
    if !TopicFilterValid(f) then Err(InvalidTopic)
    else if !Utf8.Valid(f) then Err(InvalidUtf8)
    else Ok((f, rest))
  }

  lemma TakeFilterExact(bs: seq<Byte>, f: Str, rest: seq<Byte>)
    ensures TakeFilter(bs) == Ok((f, rest)) <==> FilterOk(f) && bs == PutPrefixed(f) + rest
  {
    PrefixedExact(bs, f, rest);
    assert TopicFilterValid(f) ==> |f| < 0x1_0000;
    hide TopicFilterValid, Utf8.Valid, PutPrefixed;
    if TakePrefixed(bs).Ok? {
      var got := TakePrefixed(bs).value;
      PrefixedExact(bs, got.0, got.1);
      assert got == (got.0, got.1);
    }
  }

  method ReadFilter(reader: Reader) returns (r: Result<Str, ParseError>)
    requires reader.Valid()
    modifies reader
    ensures reader.Valid() && Tied(TakeFilter(old(reader.Rest())), r, reader.Rest())
  {
    hide TopicFilterValid, Utf8.Valid, TakeU16, TakeBytes;
    var n: U16 :- reader.ReadU16();
    var f :- reader.ReadBytes(n);
    var valid := CheckTopicFilter(f);
    if !valid {
      return Err(InvalidTopic);
    }
    if !Utf8.Valid(f) {
      return Err(InvalidUtf8);
    }
    return Ok(f);
  }

  // ----- SUBSCRIBE -----

  function TakeRequest(bs: seq<Byte>): Taken<(Str, Byte)> {
    var (f, rest) :- TakeFilter(bs);
    var (qos, rest) :- TakeU8(rest);
    if QosValid(qos) then Ok(((f, qos), rest)) else Err(InvalidQos)
  }

  function PutRequest(request: (Str, Byte)): seq<Byte> {
    PutPrefixed(request.0) + [request.1]
  }

  function PutRequests(requests: seq<(Str, Byte)>): seq<Byte> {
    if requests == [] then [] else PutRequest(requests[0]) + PutRequests(requests[1..])
  }

  predicate RequestOk(request: (Str, Byte)) {
    FilterOk(request.0) && request.1 <= 2
  }

  lemma TakeRequestExact(bs: seq<Byte>, request: (Str, Byte), rest: seq<Byte>)
    ensures TakeRequest(bs) == Ok((request, rest)) <==> RequestOk(request) && bs == PutRequest(request) + rest
  {
    hide FilterOk, PutPrefixed, TakeFilter;
    var (f, qos) := request;
    TakeFilterExact(bs, f, [qos] + rest);
    assert PutRequest(request) + rest == PutPrefixed(f) + ([qos] + rest);
    if TakeFilter(bs).Ok? {
      var got := TakeFilter(bs).value;
      TakeFilterExact(bs, got.0, got.1);
      assert got == (got.0, got.1);
      assert got.1 != [] ==> got.1 == [got.1[0]] + got.1[1..];
    }
  }

  function ParseRequests(bs: seq<Byte>): Result<seq<(Str, Byte)>, ParseError>
    decreases |bs|
  {
    if bs == [] then Ok([])
    else
      var (request, rest) :- TakeRequest(bs);
      TakeRequestExact(bs, request, rest);
      var more :- ParseRequests(rest);
      Ok([request] + more)
  }

  predicate AllOk(requests: seq<(Str, Byte)>) {
    forall i :: 0 <= i < |requests| ==> RequestOk(requests[i])
  }

  /** Accepted lists are well-formed, and the bytes are theirs and nothing else. */
  lemma {:induction false} RequestsSound(bs: seq<Byte>)
    requires ParseRequests(bs).Ok?
    ensures AllOk(ParseRequests(bs).value) && bs == PutRequests(ParseRequests(bs).value)
    decreases |bs|
  {
    hide RequestOk, PutRequest, TakeRequest;
    if bs != [] {
      var (request, rest) := TakeRequest(bs).value;
      TakeRequestExact(bs, request, rest);
      RequestShorter(bs, request, rest);
      RequestsSound(rest);
      var requests := ParseRequests(bs).value;
      assert requests[0] == request && requests[1..] == ParseRequests(rest).value;
    }
  }

  lemma RequestShorter(bs: seq<Byte>, request: (Str, Byte), rest: seq<Byte>)
    requires bs == PutRequest(request) + rest
    ensures |rest| < |bs|
  {}

  lemma {:induction false} RequestsComplete(requests: seq<(Str, Byte)>)
    requires AllOk(requests)
    ensures ParseRequests(PutRequests(requests)) == Ok(requests)
  {
    hide RequestOk, TakeRequest;
    if requests != [] {
      var rest := PutRequests(requests[1..]);
      TakeRequestExact(PutRequests(requests), requests[0], rest);
      RequestsComplete(requests[1..]);
      assert [requests[0]] + requests[1..] == requests;
    }
  }

  lemma RequestsExact(bs: seq<Byte>, requests: seq<(Str, Byte)>)
    ensures ParseRequests(bs) == Ok(requests) <==> AllOk(requests) && bs == PutRequests(requests)
  {
    if ParseRequests(bs).Ok? {
      RequestsSound(bs);
    }
    if AllOk(requests) {
      RequestsComplete(requests);
    }
  }

  function ParseSubscribe(buf: seq<Byte>): Result<(U16, seq<(Str, Byte)>), ParseError> {
    var (fixed, rest) :- TakeU8(buf);
    if fixed % 16 != 2 then Err(InvalidFlags)
    else
      var (_, rest) :- TakeVarint(rest);
      var (id, rest) :- TakeU16(rest);
      if id == 0 then Err(ZeroIdentifier)
      else
        var requests :- ParseRequests(rest);
        if requests == [] then Err(NoTopics) else Ok((id, requests))
  }

  predicate SubscribeOk(id: U16, requests: seq<(Str, Byte)>) {
    id != 0 && requests != [] && AllOk(requests)
  }

  function SubscribeBody(id: U16, requests: seq<(Str, Byte)>): seq<Byte> {
    PutU16(id) + PutRequests(requests)
  }

  /** Exactly the well-formed requests are accepted, each from its own encodings only. */
  lemma SubscribeExact(buf: seq<Byte>, id: U16, requests: seq<(Str, Byte)>)
    ensures ParseSubscribe(buf) == Ok((id, requests)) <==>
            SubscribeOk(id, requests) && HasBody(buf, 2, SubscribeBody(id, requests))
  {
    hide ParseRequests, PutRequests, AllOk, Varint.Decode, PutU16;
    if buf != [] && Varint.Decode(buf[1..], 4).Complete? {
      var bs := buf[1..][Varint.Decode(buf[1..], 4).size..];
      U16Exact(bs, id, PutRequests(requests));
      if |bs| >= 2 {
        var got := TakeU16(bs).value;
        U16Exact(bs, got.0, got.1);
        RequestsExact(got.1, requests);
      }
    }
  }

  method SubscribeFromBytes(buf: seq<Byte>) returns (r: Result<(U16, seq<(Str, Byte)>), ParseError>)
    ensures r == ParseSubscribe(buf)
  {
    hide And, TakeVarint, TakeU16, TakeFilter;
    var reader := new Reader(buf);
    var fixed :- reader.ReadU8();
    FlagMasks(fixed);
    if And(fixed, 0xf) != 2 {
      return Err(InvalidFlags);
    }
    var _ :- reader.ReadVarint();
    var id: U16 :- reader.ReadU16();
    if id == 0 {
      return Err(ZeroIdentifier);
    }
    var requests: seq<(Str, Byte)> := [];
    ghost var payload := reader.Rest();
    PrependNone(ParseRequests(payload));
    while !reader.IsEmpty()
      invariant reader.Valid()
      invariant ParseRequests(payload) == Prepend(requests, ParseRequests(reader.Rest()))
      decreases |reader.Rest()|
    {
      ghost var bs := reader.Rest();
      var f :- ReadFilter(reader);
      var qos :- reader.ReadU8();
      if !QosValid(qos) {
        return Err(InvalidQos);
      }
      TakeRequestExact(bs, (f, qos), reader.Rest());
      RequestShorter(bs, (f, qos), reader.Rest());
      PrependStep(requests, (f, qos), ParseRequests(reader.Rest()));
      requests := requests + [(f, qos)];
    }
    assert requests + [] == requests;
    if requests == [] {
      return Err(NoTopics);
    }
    return Ok((id, requests));
  }

  // ----- UNSUBSCRIBE -----

  function PutFilters(filters: seq<Str>): seq<Byte> {
    if filters == [] then [] else PutPrefixed(filters[0]) + PutFilters(filters[1..])
  }

  function ParseFilters(bs: seq<Byte>): Result<seq<Str>, ParseError>
    decreases |bs|
  {
    if bs == [] then Ok([])
    else
      var (f, rest) :- TakeFilter(bs);
      TakeFilterExact(bs, f, rest);
      var more :- ParseFilters(rest);
      Ok([f] + more)
  }

  predicate AllFiltersOk(filters: seq<Str>) {
    forall i :: 0 <= i < |filters| ==> FilterOk(filters[i])
  }

  lemma {:induction false} FiltersSound(bs: seq<Byte>)
    requires ParseFilters(bs).Ok?
    ensures AllFiltersOk(ParseFilters(bs).value) && bs == PutFilters(ParseFilters(bs).value)
    decreases |bs|
  {
    hide FilterOk, TakeFilter;
    if bs != [] {
      var (f, rest) := TakeFilter(bs).value;
      TakeFilterExact(bs, f, rest);
      FiltersSound(rest);
      var filters := ParseFilters(bs).value;
      assert filters[0] == f && filters[1..] == ParseFilters(rest).value;
    }
  }

  lemma {:induction false} FiltersComplete(filters: seq<Str>)
    requires AllFiltersOk(filters)
    ensures ParseFilters(PutFilters(filters)) == Ok(filters)
  {
    hide FilterOk, TakeFilter;
    if filters != [] {
      TakeFilterExact(PutFilters(filters), filters[0], PutFilters(filters[1..]));
      FiltersComplete(filters[1..]);
      assert [filters[0]] + filters[1..] == filters;
    }
  }

  lemma FiltersExact(bs: seq<Byte>, filters: seq<Str>)
    ensures ParseFilters(bs) == Ok(filters) <==> AllFiltersOk(filters) && bs == PutFilters(filters)
  {
    if ParseFilters(bs).Ok? {
      FiltersSound(bs);
    }
    if AllFiltersOk(filters) {
      FiltersComplete(filters);
    }
  }

  /** Unlike SUBSCRIBE, a zero identifier passes. */
  function ParseUnsubscribe(buf: seq<Byte>): Result<(U16, seq<Str>), ParseError> {
    var (fixed, rest) :- TakeU8(buf);
    if fixed % 16 != 2 then Err(InvalidFlags)
    else
      var (_, rest) :- TakeVarint(rest);
      var (id, rest) :- TakeU16(rest);
      var filters :- ParseFilters(rest);
      if filters == [] then Err(NoTopics) else Ok((id, filters))
  }

  function UnsubscribeBody(id: U16, filters: seq<Str>): seq<Byte> {
    PutU16(id) + PutFilters(filters)
  }

  lemma UnsubscribeExact(buf: seq<Byte>, id: U16, filters: seq<Str>)
    ensures ParseUnsubscribe(buf) == Ok((id, filters)) <==>
            filters != [] && AllFiltersOk(filters) && HasBody(buf, 2, UnsubscribeBody(id, filters))
  {
    hide ParseFilters, PutFilters, AllFiltersOk, Varint.Decode, PutU16;
    if buf != [] && Varint.Decode(buf[1..], 4).Complete? {
      var bs := buf[1..][Varint.Decode(buf[1..], 4).size..];
      U16Exact(bs, id, PutFilters(filters));
      if |bs| >= 2 {
        var got := TakeU16(bs).value;
        U16Exact(bs, got.0, got.1);
        FiltersExact(got.1, filters);
      }
    }
  }

  method UnsubscribeFromBytes(buf: seq<Byte>) returns (r: Result<(U16, seq<Str>), ParseError>)
    ensures r == ParseUnsubscribe(buf)
  {
    hide And, TakeVarint, TakeU16, TakeFilter;
    var reader := new Reader(buf);
    var fixed :- reader.ReadU8();
    FlagMasks(fixed);
    if And(fixed, 0xf) != 2 {
      return Err(InvalidFlags);
    }
    var _ :- reader.ReadVarint();
    var id: U16 :- reader.ReadU16();
    var filters: seq<Str> := [];
    ghost var payload := reader.Rest();
    PrependNone(ParseFilters(payload));
    while !reader.IsEmpty()
      invariant reader.Valid()
      invariant ParseFilters(payload) == Prepend(filters, ParseFilters(reader.Rest()))
      decreases |reader.Rest()|
    {
      ghost var bs := reader.Rest();
      var f :- ReadFilter(reader);
      TakeFilterExact(bs, f, reader.Rest());
      PrependStep(filters, f, ParseFilters(reader.Rest()));
      filters := filters + [f];
    }
    assert filters + [] == filters;
    if filters == [] {
      return Err(NoTopics);
    }
    return Ok((id, filters));
  }

  // ----- the loops' lists -----

  function Prepend<T>(front: seq<T>, r: Result<seq<T>, ParseError>): Result<seq<T>, ParseError> {
    match r
    case Ok(back) => Ok(front + back)
    case Err(e) => Err(e)
  }

  lemma PrependStep<T>(front: seq<T>, x: T, r: Result<seq<T>, ParseError>)
    ensures Prepend(front, Prepend([x], r)) == Prepend(front + [x], r)
  {
    if r.Ok? {
      assert front + ([x] + r.value) == (front + [x]) + r.value;
    }
  }

  lemma PrependNone<T>(r: Result<seq<T>, ParseError>)
    ensures Prepend([], r) == r
  {
    if r.Ok? {
      assert [] + r.value == r.value;
    }
  }
}
