/**
 * The `Authorized` request: a function authorization, an optional fee
 * authorization and a broadcast flag, with its JSON object encoding.
 */
module Authorized {
  import opened Wrappers
  import opened Json

  /** A proof-of-intent produced by the execution engine; its contents are not modelled. */
  type Authorization(==, !new)

  /**
   * How one `Authorization` is written to and read from JSON. The engine owns
   * this encoding; the model only relies on `RoundTrips`.
   */
  datatype AuthorizationCodec = AuthorizationCodec(
    encode: Authorization -> Json,
    decode: Json -> Result<Authorization, string>)

  /**
   * Decoding an encoded authorization gives it back, and no authorization is
   * encoded as `null` (a `null` would read back as "no fee").
   */
  ghost predicate RoundTrips(c: AuthorizationCodec) {
    forall a :: c.encode(a) != Null && c.decode(c.encode(a)) == Success(a)
  }

  /**
   * A request: the authorization of the call itself, the authorization that
   * pays its fee if there is one, and the flag handed on to the remote
   * service saying whether to publish the resulting transaction.
   */
  datatype Authorized = Authorized(functionAuth: Authorization, fee: Option<Authorization>, broadcast: bool)

  /**
   * Why a JSON value is not an `Authorized` request: a required member is
   * missing (the error names it), or a member does not decode (the error is
   * the decoder's own, naming no member).
   */
  datatype DeError =
    | MissingField(field: string)
    | InvalidValue(reason: string)

  /** Initializes a request from its three parts. */
  function New(functionAuth: Authorization, fee: Option<Authorization>, broadcast: bool): (r: Authorized)
    ensures r.functionAuth == functionAuth && r.fee == fee && r.broadcast == broadcast
  {
    Authorized(functionAuth, fee, broadcast)
  }

  // ---------------------------------------------------------------------------
  // Serialization

  /** The members written for `a`, in the order they are written. */
  function Serialized(a: Authorized, c: AuthorizationCodec): (ms: seq<Member>)
    ensures DistinctKeys(ms)
    ensures |ms| == if a.fee.Some? then 3 else 2
    ensures ms[0] == ("function", c.encode(a.functionAuth))
    ensures ms[|ms| - 1] == ("broadcast", Bool(a.broadcast))
    ensures a.fee.Some? ==> ms[1] == ("fee", c.encode(a.fee.value))
    ensures "fee" in Keys(ms) <==> a.fee.Some?
  {
    [("function", c.encode(a.functionAuth))]
    + (if a.fee.Some? then [("fee", c.encode(a.fee.value))] else [])
    + [("broadcast", Bool(a.broadcast))]
  }

  /** A serializer for one JSON object: members are appended as they are written. */
  class StructSerializer {
    var members: seq<Member>

    constructor ()
      ensures members == []
    {
      members := [];
    }

    method SerializeField(key: string, value: Json)
      modifies this
      ensures members == old(members) + [(key, value)]
    {
      members := members + [(key, value)];
    }

    method End() returns (ms: seq<Member>)
      ensures ms == members
    {
      ms := members;
    }
  }

  /** Writes `a` field by field; the fee member only when there is a fee. */
  method Serialize(a: Authorized, c: AuthorizationCodec) returns (ms: seq<Member>)
    ensures ms == Serialized(a, c)
  {
    var authorization := new StructSerializer();
    authorization.SerializeField("function", c.encode(a.functionAuth));
    if a.fee.Some? {
      authorization.SerializeField("fee", c.encode(a.fee.value));
    }
    authorization.SerializeField("broadcast", Bool(a.broadcast));
    ms := authorization.End();
  }

  // ---------------------------------------------------------------------------
  // Deserialization

  /** Reads a boolean; any other value is the wrong type. */
  function DecodeBool(v: Json): (r: Result<bool, string>)
    ensures r.Success? <==> v.Bool?
    ensures r.Success? ==> r.value == v.b
  {
    if v.Bool? then Success(v.b) else Failure("invalid type: expected a boolean")
  }

  /** Reads an optional authorization: `null` is none, anything else must decode. */
  function DecodeOption(v: Json, c: AuthorizationCodec): (r: Result<Option<Authorization>, string>)
    ensures v == Null ==> r == Success(None)
    ensures v != Null ==> r == match c.decode(v)
                              case Success(x) => Success(Some(x))
                              case Failure(e) => Failure(e)
  {
    if v == Null then Success(None)
    else
      match c.decode(v)
      case Success(x) => Success(Some(x))
      case Failure(e) => Failure(e)
  }

  /**
   * The request a parsed JSON value stands for, with each member looked up by
   * key: `function` must be present and decode, `fee` is none when missing or
   * `null` and must decode otherwise, `broadcast` must be present and a boolean.
   * Errors are reported for the first of these that fails, in that order.
   */
  function Deserialize(v: Json, c: AuthorizationCodec): Result<Authorized, DeError> {
    match Get(v, "function")
    case None => Failure(MissingField("function"))
    case Some(fv) =>
      match c.decode(fv)
      case Failure(e) => Failure(InvalidValue(e))
      case Success(functionAuth) =>
        match DecodeOption(Get(v, "fee").GetOr(Null), c)
        case Failure(e) => Failure(InvalidValue(e))
        case Success(fee) =>
          match Get(v, "broadcast")
          case None => Failure(MissingField("broadcast"))
          case Some(bv) =>
            match DecodeBool(bv)
            case Failure(e) => Failure(InvalidValue(e))
            case Success(broadcast) => Success(Authorized(functionAuth, fee, broadcast))
  }

  /**
   * Deserializes a parsed value the way the source does: each member is
   * taken out of the value in turn, leaving `null` behind.
   */
  method DeserializeValue(parsed: Json, c: AuthorizationCodec) returns (r: Result<Authorized, DeError>)
    ensures r == Deserialize(parsed, c)
  {
    var authorization := parsed;
    var taken: Option<Json>;

    var step := Take(authorization, "function");
    authorization, taken := step.0, step.1;
    if taken.None? {
      return Failure(MissingField("function"));
    }
    var functionAuth := c.decode(taken.value);
    if functionAuth.Failure? {
      return Failure(InvalidValue(functionAuth.error));
    }

    step := Take(authorization, "fee");
    authorization, taken := step.0, step.1;
    var fee := DecodeOption(taken.GetOr(Null), c);
    if fee.Failure? {
      return Failure(InvalidValue(fee.error));
    }

    step := Take(authorization, "broadcast");
    authorization, taken := step.0, step.1;
    if taken.None? {
      return Failure(MissingField("broadcast"));
    }
    var broadcast := DecodeBool(taken.value);
    if broadcast.Failure? {
      return Failure(InvalidValue(broadcast.error));
    }

    r := Success(Authorized(functionAuth.value, fee.value, broadcast.value));
  }

  // ---------------------------------------------------------------------------
  // Properties of the encoding

  /** The values `Deserialize` accepts, stated member by member. */
  ghost predicate Accepted(v: Json, c: AuthorizationCodec) {
    && v.Object?
    && "function" in v.members && c.decode(v.members["function"]).Success?
    && ("fee" in v.members && v.members["fee"] != Null ==> c.decode(v.members["fee"]).Success?)
    && "broadcast" in v.members && v.members["broadcast"].Bool?
  }

  /**
   * Deserialization succeeds exactly on accepted values, and then yields the
   * decoded members; a missing or `null` fee is no fee.
   */
  lemma DeserializeSucceedsIff(v: Json, c: AuthorizationCodec)
    ensures Deserialize(v, c).Success? <==> Accepted(v, c)
    ensures Deserialize(v, c).Success? ==>
      var a := Deserialize(v, c).value;
      && Success(a.functionAuth) == c.decode(v.members["function"])
      && a.broadcast == v.members["broadcast"].b
      && (if "fee" in v.members && v.members["fee"] != Null
          then a.fee.Some? && Success(a.fee.value) == c.decode(v.members["fee"])
          else a.fee == None)
  {
  }

  /** The error cases, in the order the members are read. */
  lemma DeserializeErrors(v: Json, c: AuthorizationCodec)
    ensures Get(v, "function").None? ==> Deserialize(v, c) == Failure(MissingField("function"))
    ensures Get(v, "function").Some? && c.decode(v.members["function"]).Failure? ==>
      Deserialize(v, c) == Failure(InvalidValue(c.decode(v.members["function"]).error))
    ensures Get(v, "function").Some? && c.decode(v.members["function"]).Success? &&
            Get(v, "fee").Some? && v.members["fee"] != Null && c.decode(v.members["fee"]).Failure? ==>
      Deserialize(v, c) == Failure(InvalidValue(c.decode(v.members["fee"]).error))
    ensures Get(v, "function").Some? && c.decode(v.members["function"]).Success? &&
            DecodeOption(Get(v, "fee").GetOr(Null), c).Success? && Get(v, "broadcast").None? ==>
      Deserialize(v, c) == Failure(MissingField("broadcast"))
    ensures Get(v, "function").Some? && c.decode(v.members["function"]).Success? &&
            DecodeOption(Get(v, "fee").GetOr(Null), c).Success? &&
            Get(v, "broadcast").Some? && !v.members["broadcast"].Bool? ==>
      Deserialize(v, c) == Failure(InvalidValue(DecodeBool(v.members["broadcast"]).error))
    ensures Deserialize(v, c).Failure? ==>
      Deserialize(v, c).error in {MissingField("function"), MissingField("broadcast")} || Deserialize(v, c).error.InvalidValue?
  {
  }

  /** An explicit `null` fee reads exactly like a missing fee. */
  lemma NullFeeIsMissingFee(m: map<string, Json>, c: AuthorizationCodec)
    ensures Deserialize(Object(m["fee" := Null]), c) == Deserialize(Object(m - {"fee"}), c)
    ensures Deserialize(Object(m - {"fee"}), c).Success? ==> Deserialize(Object(m - {"fee"}), c).value.fee == None
  {
  }

  /**
   * Only the `function`, `fee` and `broadcast` members matter: two objects
   * that agree on those keys deserialize alike, whatever else they hold.
   */
  lemma DeserializeIgnoresOtherMembers(m: map<string, Json>, n: map<string, Json>, c: AuthorizationCodec)
    requires forall k :: k in {"function", "fee", "broadcast"} ==> (k in m <==> k in n)
    requires forall k :: k in {"function", "fee", "broadcast"} && k in m ==> m[k] == n[k]
    ensures Deserialize(Object(m), c) == Deserialize(Object(n), c)
  {
    assert Get(Object(m), "function") == Get(Object(n), "function");
    assert Get(Object(m), "fee") == Get(Object(n), "fee");
    assert Get(Object(m), "broadcast") == Get(Object(n), "broadcast");
  }

  /** Reading back what `Serialize` wrote gives the same request. */
  lemma {:induction false} RoundTrip(a: Authorized, c: AuthorizationCodec)
    requires RoundTrips(c)
    ensures Deserialize(ParseObject(Serialized(a, c)), c) == Success(a)
  {
    var ms := Serialized(a, c);
    var m := ToMap(ms);
    ToMapDistinct(ms, 0);
    ToMapDistinct(ms, |ms| - 1);
    if a.fee.Some? {
      ToMapDistinct(ms, 1);
    } else {
      ToMapKeys(ms);
      assert "fee" !in m by {
        assert ms[0].0 == "function" && ms[1].0 == "broadcast";
      }
    }
  }

  /** The round trip holds whatever order the members arrive in. */
  lemma {:induction false} RoundTripAnyOrder(a: Authorized, c: AuthorizationCodec, ms: seq<Member>)
    requires RoundTrips(c)
    requires multiset(ms) == multiset(Serialized(a, c))
    ensures Deserialize(ParseObject(ms), c) == Success(a)
  {
    var ws := Serialized(a, c);
    ToMapIgnoresOrder(ws, ms);
    RoundTrip(a, c);
  }

  /**
   * Why `RoundTrips` demands a non-null encoding: a fee whose encoding is
   * `null` is read back as no fee at all.
   */
  lemma NullEncodedFeeIsLost(a: Authorized, c: AuthorizationCodec)
    requires a.fee.Some? && c.encode(a.fee.value) == Null
    requires c.decode(c.encode(a.functionAuth)) == Success(a.functionAuth)
    ensures Deserialize(ParseObject(Serialized(a, c)), c) == Success(a.(fee := None))
  {
    var ms := Serialized(a, c);
    ToMapDistinct(ms, 0);
    ToMapDistinct(ms, 1);
    ToMapDistinct(ms, 2);
  }
}
