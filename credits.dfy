/**
 * `Credits::transfer_public`: builds an `Authorized` request that moves public
 * credits to a recipient, by a fixed sequence of fallible engine steps.
 */
module Credits {
  import opened Wrappers
  import opened Authorized
  import Json

  /** An account's private key; its contents are not modelled. */
  type PrivateKey(==)
  /** An account address; its contents are not modelled. */
  type Address(==)
  /** The identifier that commits to one function execution; not modelled. */
  type ExecutionId(==)
  /** What a failing engine step reports; passed on unchanged. */
  type Error(==)

  /** An unsigned 64-bit integer. */
  newtype uint64 = x: int | 0 <= x < 0x1_0000_0000_0000_0000

  /** The typed program inputs used here. */
  datatype Literal = Address(address: Address) | U64(value: uint64)

  const CreditsProgram: string := "credits.aleo"
  const TransferPublicFunction: string := "transfer_public"

  /**
   * What the engine does, as functions of its inputs. A randomized step takes
   * the caller's random-stream position and returns the position after it.
   */
  datatype Oracle = Oracle(
    parsePrivateKey: string -> Result<PrivateKey, Error>,
    parseAddress: string -> Result<Address, Error>,
    authorize: (PrivateKey, string, string, seq<Literal>, nat) -> (Result<Authorization, Error>, nat),
    toExecutionId: Authorization -> Result<ExecutionId, Error>,
    authorizeFeePublic: (PrivateKey, uint64, ExecutionId, nat) -> (Result<Authorization, Error>, nat))

  /** One request made of the engine, with the inputs it was given. */
  datatype Call =
    | ParsePrivateKeyCall(text: string)
    | ParseAddressCall(text: string)
    | AuthorizeCall(key: PrivateKey, program: string, functionName: string, inputs: seq<Literal>, rng: nat)
    | ToExecutionIdCall(authorization: Authorization)
    | AuthorizeFeePublicCall(key: PrivateKey, fee: uint64, executionId: ExecutionId, rng: nat)

  /** The caller's random number generator, as a position in its stream. */
  class Rng {
    var state: nat

    constructor (seed: nat)
      ensures state == seed
    {
      state := seed;
    }
  }

  /** The execution engine handle: it answers as `oracle` says and records every request. */
  class Engine {
    const oracle: Oracle
    ghost var log: seq<Call>

    constructor (oracle: Oracle)
      ensures this.oracle == oracle && log == []
    {
      this.oracle := oracle;
      log := [];
    }

    method ParsePrivateKey(text: string) returns (r: Result<PrivateKey, Error>)
      modifies this`log
      ensures r == oracle.parsePrivateKey(text)
      ensures log == old(log) + [ParsePrivateKeyCall(text)]
    {
      r := oracle.parsePrivateKey(text);
      log := log + [ParsePrivateKeyCall(text)];
    }

    method ParseAddress(text: string) returns (r: Result<Address, Error>)
      modifies this`log
      ensures r == oracle.parseAddress(text)
      ensures log == old(log) + [ParseAddressCall(text)]
    {
      r := oracle.parseAddress(text);
      log := log + [ParseAddressCall(text)];
    }

    method Authorize(key: PrivateKey, program: string, functionName: string, inputs: seq<Literal>, rng: Rng)
      returns (r: Result<Authorization, Error>)
      modifies this`log, rng
      ensures (r, rng.state) == oracle.authorize(key, program, functionName, inputs, old(rng.state))
      ensures log == old(log) + [AuthorizeCall(key, program, functionName, inputs, old(rng.state))]
    {
      var out := oracle.authorize(key, program, functionName, inputs, rng.state);
      log := log + [AuthorizeCall(key, program, functionName, inputs, rng.state)];
      r, rng.state := out.0, out.1;
    }

    method ToExecutionId(authorization: Authorization) returns (r: Result<ExecutionId, Error>)
      modifies this`log
      ensures r == oracle.toExecutionId(authorization)
      ensures log == old(log) + [ToExecutionIdCall(authorization)]
    {
      r := oracle.toExecutionId(authorization);
      log := log + [ToExecutionIdCall(authorization)];
    }

    method AuthorizeFeePublic(key: PrivateKey, fee: uint64, executionId: ExecutionId, rng: Rng)
      returns (r: Result<Authorization, Error>)
      modifies this`log, rng
      ensures (r, rng.state) == oracle.authorizeFeePublic(key, fee, executionId, old(rng.state))
      ensures log == old(log) + [AuthorizeFeePublicCall(key, fee, executionId, old(rng.state))]
    {
      var out := oracle.authorizeFeePublic(key, fee, executionId, rng.state);
      log := log + [AuthorizeFeePublicCall(key, fee, executionId, rng.state)];
      r, rng.state := out.0, out.1;
    }
  }

  /** The outcome of one `transfer_public` call: its result, the requests it made, and the final random-stream position. */
  datatype Run = Run(result: Result<Authorized, Error>, calls: seq<Call>, rng: nat)

  /** The inputs of `transfer_public`: the recipient, then the amount. */
  function TransferInputs(recipient: Address, amount: uint64): (inputs: seq<Literal>)
    ensures |inputs| == 2 && inputs[0].Address? && inputs[1].U64?
    ensures inputs[0].address == recipient && inputs[1].value == amount
  {
    [Address(recipient), U64(amount)]
  }

  /**
   * The run of `transfer_public` on the given arguments, step by step; each
   * step that fails ends the run with its error.
   */
  function TransferPublicRun(o: Oracle, privateKey: string, recipient: string,
                             amount: uint64, fee: uint64, broadcast: bool, rng: nat): Run
  {
    var calls1 := [ParsePrivateKeyCall(privateKey)];
    match o.parsePrivateKey(privateKey)
    case Failure(e) => Run(Failure(e), calls1, rng)
    case Success(key) =>
      var calls2 := calls1 + [ParseAddressCall(recipient)];
      match o.parseAddress(recipient)
      case Failure(e) => Run(Failure(e), calls2, rng)
      case Success(address) =>
        var inputs := TransferInputs(address, amount);
        var calls3 := calls2 + [AuthorizeCall(key, CreditsProgram, TransferPublicFunction, inputs, rng)];
        var (authorized, rng1) := o.authorize(key, CreditsProgram, TransferPublicFunction, inputs, rng);
        match authorized
        case Failure(e) => Run(Failure(e), calls3, rng1)
        case Success(functionAuth) =>
          var calls4 := calls3 + [ToExecutionIdCall(functionAuth)];
          match o.toExecutionId(functionAuth)
          case Failure(e) => Run(Failure(e), calls4, rng1)
          case Success(id) =>
            var calls5 := calls4 + [AuthorizeFeePublicCall(key, fee, id, rng1)];
            var (feeAuthorized, rng2) := o.authorizeFeePublic(key, fee, id, rng1);
            match feeAuthorized
            case Failure(e) => Run(Failure(e), calls5, rng2)
            case Success(feeAuth) => Run(Success(New(functionAuth, Some(feeAuth), broadcast)), calls5, rng2)
  }

  /**
   * Builds the signed request for a public transfer of `amount` microcredits
   * to `recipient`, with a fee of `fee` microcredits paid by the same key.
   */
  method TransferPublic(engine: Engine, privateKey: string, recipient: string,
                        amount: uint64, fee: uint64, broadcast: bool, rng: Rng)
    returns (r: Result<Authorized, Error>)
    modifies engine`log, rng
    ensures var run := TransferPublicRun(engine.oracle, privateKey, recipient, amount, fee, broadcast, old(rng.state));
      && r == run.result
      && engine.log == old(engine.log) + run.calls
      && rng.state == run.rng
  {
    var key :- engine.ParsePrivateKey(privateKey);
    var address :- engine.ParseAddress(recipient);
    var inputs := TransferInputs(address, amount);
    var functionAuth :- engine.Authorize(key, CreditsProgram, TransferPublicFunction, inputs, rng);
    var executionId :- engine.ToExecutionId(functionAuth);
    var feeAuth :- engine.AuthorizeFeePublic(key, fee, executionId, rng);
    r := Success(New(functionAuth, Some(feeAuth), broadcast));
  }

  // ---------------------------------------------------------------------------
  // Properties of a run

  /** The position of each kind of request in the fixed order of steps. */
  function StepOf(c: Call): nat {
    match c
    case ParsePrivateKeyCall(_) => 0
    case ParseAddressCall(_) => 1
    case AuthorizeCall(_, _, _, _, _) => 2
    case ToExecutionIdCall(_) => 3
    case AuthorizeFeePublicCall(_, _, _, _) => 4
  }

  /** The error in a step's answer, or none when it succeeded. */
  function ErrorIn<T>(r: Result<T, Error>): (e: Option<Error>)
    ensures e.Some? <==> r.Failure?
    ensures e.Some? ==> e.value == r.error
  {
    if r.Failure? then Some(r.error) else None
  }

  /** The error the engine answers a request with, or none when the request succeeds. */
  function ErrorOf(o: Oracle, c: Call): Option<Error> {
    match c
    case ParsePrivateKeyCall(text) => ErrorIn(o.parsePrivateKey(text))
    case ParseAddressCall(text) => ErrorIn(o.parseAddress(text))
    case AuthorizeCall(key, program, name, inputs, rng) => ErrorIn(o.authorize(key, program, name, inputs, rng).0)
    case ToExecutionIdCall(authorization) => ErrorIn(o.toExecutionId(authorization))
    case AuthorizeFeePublicCall(key, fee, id, rng) => ErrorIn(o.authorizeFeePublic(key, fee, id, rng).0)
  }

  /**
   * The private key is parsed first; when it does not parse, its error is the
   * result and nothing else is asked of the engine.
   */
  lemma BadPrivateKeyStopsTheRun(o: Oracle, privateKey: string, recipient: string,
                                 amount: uint64, fee: uint64, broadcast: bool, rng: nat)
    requires o.parsePrivateKey(privateKey).Failure?
    ensures TransferPublicRun(o, privateKey, recipient, amount, fee, broadcast, rng)
         == Run(Failure(o.parsePrivateKey(privateKey).error), [ParsePrivateKeyCall(privateKey)], rng)
  {
  }

  /**
   * The recipient is parsed second; when it does not parse, its error is the
   * result and no authorization, execution id or fee is requested.
   */
  lemma BadRecipientStopsTheRun(o: Oracle, privateKey: string, recipient: string,
                                amount: uint64, fee: uint64, broadcast: bool, rng: nat)
    requires o.parsePrivateKey(privateKey).Success?
    requires o.parseAddress(recipient).Failure?
    ensures TransferPublicRun(o, privateKey, recipient, amount, fee, broadcast, rng)
         == Run(Failure(o.parseAddress(recipient).error),
                [ParsePrivateKeyCall(privateKey), ParseAddressCall(recipient)], rng)
  {
  }

  /**
   * Requests are made in the fixed order of steps, every request but the last
   * succeeded, and the run fails exactly when its last request failed, with
   * that request's error. A successful run makes all five requests.
   */
  lemma {:induction false} RunShortCircuits(o: Oracle, privateKey: string, recipient: string,
                                            amount: uint64, fee: uint64, broadcast: bool, rng: nat)
    ensures var run := TransferPublicRun(o, privateKey, recipient, amount, fee, broadcast, rng);
      && 1 <= |run.calls| <= 5
      && (forall i :: 0 <= i < |run.calls| ==> StepOf(run.calls[i]) == i)
      && (forall i :: 0 <= i < |run.calls| - 1 ==> ErrorOf(o, run.calls[i]) == None)
      && (run.result.Failure? <==> ErrorOf(o, run.calls[|run.calls| - 1]).Some?)
      && (run.result.Failure? ==> run.result.error == ErrorOf(o, run.calls[|run.calls| - 1]).value)
      && (run.result.Success? ==> |run.calls| == 5)
  {
    var run := TransferPublicRun(o, privateKey, recipient, amount, fee, broadcast, rng);
    var calls := run.calls;
    if o.parsePrivateKey(privateKey).Success? && o.parseAddress(recipient).Success? {
      var key := o.parsePrivateKey(privateKey).value;
      var inputs := TransferInputs(o.parseAddress(recipient).value, amount);
      var (authorized, rng1) := o.authorize(key, CreditsProgram, TransferPublicFunction, inputs, rng);
      assert ErrorOf(o, calls[0]) == None && ErrorOf(o, calls[1]) == None;
      if authorized.Success? && o.toExecutionId(authorized.value).Success? {
        assert ErrorOf(o, calls[2]) == None && ErrorOf(o, calls[3]) == None;
      }
    }
  }

  /**
   * Whatever the outcome, each request a run makes carries the arguments of
   * its step: the private key text, then the recipient text, then an
   * authorization of `transfer_public` of `credits.aleo` with the parsed key
   * on `[recipient, amount]`, then the execution id of that authorization,
   * then a fee authorization with the same key, the caller's fee, that id and
   * the random stream after the function authorization.
   */
  lemma RunRequests(o: Oracle, privateKey: string, recipient: string,
                    amount: uint64, fee: uint64, broadcast: bool, rng: nat)
    ensures var run := TransferPublicRun(o, privateKey, recipient, amount, fee, broadcast, rng);
      && |run.calls| >= 1
      && run.calls[0] == ParsePrivateKeyCall(privateKey)
      && (|run.calls| >= 2 ==> o.parsePrivateKey(privateKey).Success? && run.calls[1] == ParseAddressCall(recipient))
      && (|run.calls| >= 3 ==>
            && o.parsePrivateKey(privateKey).Success? && o.parseAddress(recipient).Success?
            && var key := o.parsePrivateKey(privateKey).value;
            var inputs := [Address(o.parseAddress(recipient).value), U64(amount)];
            var (authorized, rng1) := o.authorize(key, "credits.aleo", "transfer_public", inputs, rng);
            && run.calls[2] == AuthorizeCall(key, "credits.aleo", "transfer_public", inputs, rng)
            && (|run.calls| == 3 ==> run.rng == rng1)
            && (|run.calls| >= 4 ==>
                  && authorized.Success?
                  && run.calls[3] == ToExecutionIdCall(authorized.value)
                  && (|run.calls| == 4 ==> run.rng == rng1)
                  && (|run.calls| >= 5 ==>
                        && o.toExecutionId(authorized.value).Success?
                        && run.calls[4] == AuthorizeFeePublicCall(key, fee, o.toExecutionId(authorized.value).value, rng1)
                        && run.rng == o.authorizeFeePublic(key, fee, o.toExecutionId(authorized.value).value, rng1).1)))
  {
  }

  /**
   * A successful run authorizes `transfer_public` of `credits.aleo` with the
   * parsed key on the inputs `[recipient, amount]`, derives the execution id of
   * that very authorization, authorizes the fee against that id with the same
   * key and the caller's fee (a fee of zero included), and returns both with
   * the broadcast flag unchanged.
   */
  lemma SuccessfulRun(o: Oracle, privateKey: string, recipient: string,
                      amount: uint64, fee: uint64, broadcast: bool, rng: nat)
    requires TransferPublicRun(o, privateKey, recipient, amount, fee, broadcast, rng).result.Success?
    ensures var run := TransferPublicRun(o, privateKey, recipient, amount, fee, broadcast, rng);
      var a := run.result.value;
      && o.parsePrivateKey(privateKey).Success? && o.parseAddress(recipient).Success?
      && var key := o.parsePrivateKey(privateKey).value;
      var inputs := [Address(o.parseAddress(recipient).value), U64(amount)];
      var (authorized, rng1) := o.authorize(key, "credits.aleo", "transfer_public", inputs, rng);
      && authorized == Success(a.functionAuth)
      && o.toExecutionId(a.functionAuth).Success?
      && var id := o.toExecutionId(a.functionAuth).value;
      && a.fee.Some?
      && o.authorizeFeePublic(key, fee, id, rng1) == (Success(a.fee.value), run.rng)
      && a.broadcast == broadcast
      && run.calls == [ParsePrivateKeyCall(privateKey), ParseAddressCall(recipient),
                       AuthorizeCall(key, "credits.aleo", "transfer_public", inputs, rng),
                       ToExecutionIdCall(a.functionAuth),
                       AuthorizeFeePublicCall(key, fee, id, rng1)]
  {
  }

  /** Every step succeeding, stated without reference to the run. */
  ghost predicate AllStepsSucceed(o: Oracle, privateKey: string, recipient: string, amount: uint64, fee: uint64, rng: nat) {
    && o.parsePrivateKey(privateKey).Success?
    && o.parseAddress(recipient).Success?
    && var key := o.parsePrivateKey(privateKey).value;
    var (authorized, rng1) := o.authorize(key, "credits.aleo", "transfer_public",
                                          [Address(o.parseAddress(recipient).value), U64(amount)], rng);
    && authorized.Success?
    && o.toExecutionId(authorized.value).Success?
    && o.authorizeFeePublic(key, fee, o.toExecutionId(authorized.value).value, rng1).0.Success?
  }

  /** A request is produced exactly when every engine step succeeds; otherwise no request is produced. */
  lemma RunSucceedsIff(o: Oracle, privateKey: string, recipient: string,
                       amount: uint64, fee: uint64, broadcast: bool, rng: nat)
    ensures TransferPublicRun(o, privateKey, recipient, amount, fee, broadcast, rng).result.Success?
        <==> AllStepsSucceed(o, privateKey, recipient, amount, fee, rng)
  {
  }

  /**
   * A request built by `transfer_public` is written with all three members,
   * `function`, `fee` and `broadcast` in that order, and reads back unchanged.
   */
  lemma {:induction false} BuiltRequestOnTheWire(o: Oracle, privateKey: string, recipient: string,
                                                 amount: uint64, fee: uint64, broadcast: bool, rng: nat,
                                                 c: AuthorizationCodec)
    requires RoundTrips(c)
    requires TransferPublicRun(o, privateKey, recipient, amount, fee, broadcast, rng).result.Success?
    ensures var a := TransferPublicRun(o, privateKey, recipient, amount, fee, broadcast, rng).result.value;
      && Json.Keys(Serialized(a, c)) == ["function", "fee", "broadcast"]
      && Deserialize(Json.ParseObject(Serialized(a, c)), c) == Success(a)
  {
    var a := TransferPublicRun(o, privateKey, recipient, amount, fee, broadcast, rng).result.value;
    SuccessfulRun(o, privateKey, recipient, amount, fee, broadcast, rng);
    RoundTrip(a, c);
  }
}
