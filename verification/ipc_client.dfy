/** The example IPC client: its two locally served RPC methods, the table
    that binds their names, and the handshake that registers them with the
    daemon on every connect. */
module IpcClientModel {
  import opened Variant
  import opened Decimal

  const Test1Prefix: string := "Test1 "
  const ArityPrefix: string := "Method expects exactly one parameter. "
  const AritySuffix: string := " given."
  const NotStringMessage: string := "Parameter is not of type string."
  /** Fault code the handlers use for parameter validation errors. */
  const ValidationFault: int := -1

  // ---------------------------------------------------------------------
  // The RPC methods served locally

  /** `exampleTest1`: ignores its parameters and answers "Test1 " followed by
      the clock reading `now` (seconds) in decimal. */
  function Test1(parameters: seq<Value>, now: int): (r: Value)
    ensures r.Str? && |r.s| > |Test1Prefix| && r.s[..|Test1Prefix|] == Test1Prefix
    ensures IsIntNumeral(r.s[|Test1Prefix|..]) && ParseInt(r.s[|Test1Prefix|..]) == now
  {
    IntDecimalRoundTrip(now);
    var text := Test1Prefix + IntDecimal(now);
    assert text[|Test1Prefix|..] == IntDecimal(now);
    Str(text)
  }

  /** The message is the arity complaint of `exampleTest2`, and the number it
      quotes is `n`. */
  predicate ArityMessageReports(msg: string, n: nat) {
    && |msg| >= |ArityPrefix| + |AritySuffix|
    && msg[..|ArityPrefix|] == ArityPrefix
    && msg[|msg| - |AritySuffix|..] == AritySuffix
    && IsNatNumeral(msg[|ArityPrefix|..|msg| - |AritySuffix|])
    && ParseNat(msg[|ArityPrefix|..|msg| - |AritySuffix|]) == n
  }

  function ArityMessage(n: nat): (msg: string)
    ensures ArityMessageReports(msg, n)
  {
    NatDecimalIsNumeral(n);
    var msg := ArityPrefix + NatDecimal(n) + AritySuffix;
    assert msg[|ArityPrefix|..|msg| - |AritySuffix|] == NatDecimal(n);
    msg
  }

  /** `exampleTest2`: answers the length of its single string parameter. The
      arity check comes first, then the type check; the length goes through
      a 32-bit signed cast. */
  function Test2(parameters: seq<Value>): (r: Value)
    ensures IsError(r) <==> |parameters| != 1 || !parameters[0].Str?
    ensures |parameters| != 1 ==>
      r.Error? && r.code == ValidationFault && ArityMessageReports(r.msg, |parameters|)
    ensures |parameters| == 1 && !parameters[0].Str? ==>
      r == Error(ValidationFault, NotStringMessage)
    ensures |parameters| == 1 && parameters[0].Str? ==>
      && r.Int? && InInt32(r.i)
      && (r.i - |parameters[0].s|) % 0x1_0000_0000 == 0
      && (|parameters[0].s| <= MaxInt32 ==> r.i == |parameters[0].s|)
  {
    if |parameters| != 1 then Error(ValidationFault, ArityMessage(|parameters|))
    else if !parameters[0].Str? then Error(ValidationFault, NotStringMessage)
    else Int(ToInt32(|parameters[0].s|))
  }

  /** The concrete cases the handler is documented with. */
  lemma Test2Examples()
    ensures Test2([Str("hello")]) == Int(5)
    ensures Test2([]).Error? && Test2([]).code == -1 && ArityMessageReports(Test2([]).msg, 0)
    ensures Test2([Int(3)]) == Error(-1, "Parameter is not of type string.")
  {
  }

  /** Which parameters `exampleTest1` looks at: none. */
  lemma Test1IgnoresParameters(p: seq<Value>, q: seq<Value>, now: int)
    ensures Test1(p, now) == Test1(q, now)
  {
  }

  // ---------------------------------------------------------------------
  // The local method table

  /** The member functions that `std::bind` puts into the table. */
  datatype Handler = Test1Handler | Test2Handler

  /** Runs a handler on the parameters of an inbound call at clock `now`. */
  function Call(h: Handler, parameters: seq<Value>, now: int): Value {
    match h
    case Test1Handler => Test1(parameters, now)
    case Test2Handler => Test2(parameters)
  }

  /** `std::map::emplace`: adds the binding only when the key is new; an
      existing binding is kept. */
  function Emplaced<K, V>(m: map<K, V>, key: K, value: V): (r: map<K, V>)
    ensures r.Keys == m.Keys + {key}
    ensures forall k :: k in m ==> r[k] == m[k]
    ensures key !in m ==> r[key] == value
  {
    if key in m then m else m[key := value]
  }

  /** Emplacing a key twice keeps the first binding. */
  lemma EmplaceFirstWins<K, V>(m: map<K, V>, key: K, first: V, second: V)
    requires key !in m
    ensures Emplaced(Emplaced(m, key, first), key, second)[key] == first
  {
  }

  /** The table the constructor builds. */
  function LocalRpcMethods(): (table: map<string, Handler>)
    ensures table.Keys == {"exampleTest1", "exampleTest2"}
    ensures table["exampleTest1"] == Test1Handler
    ensures table["exampleTest2"] == Test2Handler
  {
    Emplaced(Emplaced(map[], "exampleTest1", Test1Handler), "exampleTest2", Test2Handler)
  }

  // ---------------------------------------------------------------------
  // Registration handshake

  /** A call issued through `invoke`. */
  datatype RpcCall = RpcCall(methodName: string, parameters: seq<Value>)

  /** What the handshake reports through the output channel. */
  datatype LogLine = Info(text: string) | Critical(text: string)

  const RegisterMethod: string := "registerRpcMethod"
  const SuccessText: string := "Info: RPC methods successfully registered."

  const Test1Signature: Signature := NoParametersVoid
  const Test2Signature: Signature := Signature(TInteger, [TString])

  /** The registration arguments for one method: its name, then its
      signature array. */
  function Registration(name: string, sig: Signature): (c: RpcCall)
    ensures c.methodName == RegisterMethod && |c.parameters| == 2
    ensures c.parameters[0] == Str(name)
    ensures c.parameters[1].Arr? && DecodeSignature(c.parameters[1].a) == sig
  {
    SignatureRoundTrip(sig);
    RpcCall(RegisterMethod, [Str(name), Arr(EncodeSignature(sig))])
  }

  /** The calls one handshake issues, in order. */
  function RegistrationCalls(): (calls: seq<RpcCall>)
    ensures |calls| == 2
    ensures forall c :: c in calls ==>
      c.methodName == RegisterMethod && |c.parameters| == 2
      && c.parameters[0].Str? && c.parameters[1].Arr?
    ensures calls[0].parameters[0] == Str("exampleTest1")
    ensures calls[1].parameters[0] == Str("exampleTest2")
    ensures calls[0].parameters[1] == Arr([])
    ensures calls[1].parameters[1] == Arr([Int(0), Str("")])
    ensures DecodeSignature(calls[0].parameters[1].a) == Signature(TVoid, [])
    ensures DecodeSignature(calls[1].parameters[1].a) == Signature(TInteger, [TString])
  {
    [Registration("exampleTest1", Test1Signature), Registration("exampleTest2", Test2Signature)]
  }

  /** The critical line logged when registering `name` failed with `fault`. */
  function FailureText(name: string, fault: string): string {
    "Critical: Could not register RPC method " + name + ": " + fault
  }

  function FailureLog(name: string, result: Value): seq<LogLine> {
    if IsError(result) then [Critical(FailureText(name, result.msg))] else []
  }

  /** The lines one handshake logs, given the answers to its two calls. */
  function HandshakeLog(first: Value, second: Value): (log: seq<LogLine>)
    ensures Info(SuccessText) in log <==> !IsError(first) && !IsError(second)
    ensures |log| >= 1
    ensures IsError(first) ==>
      log[0] == Critical(FailureText("test1", first.msg))
    ensures IsError(second) ==>
      Critical(FailureText("test2", second.msg)) in log
    ensures forall l :: l in log && l.Critical? ==> IsError(first) || IsError(second)
  {
    FailureLog("test1", first) + FailureLog("test2", second)
      + (if !IsError(first) && !IsError(second) then [Info(SuccessText)] else [])
  }

  /** Every method the handshake registers is served by the local table, and
      every method of the table is registered. */
  lemma RegisteredNamesAreServed()
    ensures (set c | c in RegistrationCalls() :: c.parameters[0].s) == LocalRpcMethods().Keys
  {
    var calls := RegistrationCalls();
    assert calls[0] in calls && calls[1] in calls;
    assert forall c :: c in calls ==> c == calls[0] || c == calls[1];
  }

  /** The handler's results have the declared type whenever the parameters
      have the declared types. */
  ghost predicate Honours(h: Handler, sig: Signature) {
    forall parameters: seq<Value>, now: int ::
      TypesOf(parameters) == sig.paramTypes ==> TypeOf(Call(h, parameters, now)) == sig.returnType
  }

  /** `exampleTest2` answers an integer to a single string, as registered. */
  lemma Test2HonoursSignature()
    ensures Honours(Test2Handler, Test2Signature)
  {
    forall parameters: seq<Value>, now: int | TypesOf(parameters) == Test2Signature.paramTypes
      ensures TypeOf(Call(Test2Handler, parameters, now)) == TInteger
    {
      assert TypeOf(parameters[0]) == TString;
    }
  }

  /** `exampleTest1` is registered as returning void, yet it answers a
      string. */
  lemma Test1DeclaredVoidAnswersString(now: int)
    ensures Test1Signature.returnType == TVoid
    ensures TypeOf(Call(Test1Handler, [], now)) == TString
    ensures !Honours(Test1Handler, Test1Signature)
  {
    assert TypeOf(Call(Test1Handler, [], now)) != Test1Signature.returnType;
  }

  // ---------------------------------------------------------------------
  // The client object

  class IpcClient {
    /** `_localRpcMethods`, filled by the constructor. */
    var localRpcMethods: map<string, Handler>
    /** Every call issued through `invoke`, oldest first. */
    var invoked: seq<RpcCall>
    /** The daemon: its answer to the n-th call issued through `invoke`. */
    const peer: nat -> Value

    constructor (peer: nat -> Value)
      ensures localRpcMethods == LocalRpcMethods()
      ensures invoked == [] && this.peer == peer
    {
      this.peer := peer;
      localRpcMethods := map[];
      invoked := [];
      new;
      var inserted := Emplace("exampleTest1", Test1Handler);
      inserted := Emplace("exampleTest2", Test2Handler);
    }

    /** `_localRpcMethods.emplace(name, handler)`. */
    method Emplace(name: string, handler: Handler) returns (inserted: bool)
      modifies this`localRpcMethods
      ensures inserted <==> name !in old(localRpcMethods)
      ensures localRpcMethods == Emplaced(old(localRpcMethods), name, handler)
    {
      inserted := name !in localRpcMethods;
      if inserted {
        localRpcMethods := localRpcMethods[name := handler];
      }
    }

    /** `invoke`: records the call and returns the daemon's answer to it. */
    method Invoke(methodName: string, parameters: seq<Value>) returns (result: Value)
      modifies this`invoked
      ensures invoked == old(invoked) + [RpcCall(methodName, parameters)]
      ensures result == peer(|old(invoked)|)
    {
      result := peer(|invoked|);
      invoked := invoked + [RpcCall(methodName, parameters)];
    }

    /** `onConnect`: registers both methods, one call each, whatever the
        first answer was; `error` is set when either answer is an error, and
        success is logged only when neither is. */
    method OnConnect() returns (error: bool, log: seq<LogLine>)
      modifies this`invoked
      ensures invoked == old(invoked) + RegistrationCalls()
      ensures error <==> IsError(peer(|old(invoked)|)) || IsError(peer(|old(invoked)| + 1))
      ensures log == HandshakeLog(peer(|old(invoked)|), peer(|old(invoked)| + 1))
    {
      error := false;
      log := [];

      var parameters: seq<Value> := [];
      parameters := parameters + [Str("exampleTest1")];
      parameters := parameters + [Default(TArray)];
      assert parameters == RegistrationCalls()[0].parameters;
      var result := Invoke(RegisterMethod, parameters);
      if IsError(result) {
        error := true;
        log := log + [Critical(FailureText("test1", result.msg))];
      }

      parameters := [];
      parameters := parameters + [Str("exampleTest2")];
      parameters := parameters + [Default(TArray)];
      var last := |parameters| - 1;
      parameters := parameters[last := Arr(parameters[last].a + [Default(TInteger)])];
      parameters := parameters[last := Arr(parameters[last].a + [Default(TString)])];
      assert parameters[1].a == [Int(0), Str("")];
      assert parameters == RegistrationCalls()[1].parameters;
      result := Invoke(RegisterMethod, parameters);
      if IsError(result) {
        error := true;
        log := log + [Critical(FailureText("test2", result.msg))];
      }

      if !error {
        log := log + [Info(SuccessText)];
      }
      assert invoked == old(invoked) + RegistrationCalls();
    }
  }

  /** A fresh client whose daemon rejects the first registration still
      issues the second one, reports the failure and does not report
      success. Like the whole model, this takes every error answer to carry
      a string fault string; an error struct without one would make the
      lookup of "faultString" throw and end the handshake after the first
      call. */
  method FirstFailureDoesNotStopSecond(peer: nat -> Value) returns (client: IpcClient, error: bool, log: seq<LogLine>)
    requires IsError(peer(0))
    ensures client.invoked == RegistrationCalls()
    ensures error && Info(SuccessText) !in log
    ensures |log| > 0 && log[0] == Critical(FailureText("test1", peer(0).msg))
  {
    client := new IpcClient(peer);
    error, log := client.OnConnect();
  }
}
