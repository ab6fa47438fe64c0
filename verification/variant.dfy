/** The part of Homegear's variant value (`BaseLib::Variable`) that the IPC
    client touches: type tags, values, error structs, 32-bit integers, and the
    way a method signature is written as an array of empty variables. */
module Variant {

  /** `BaseLib::VariableType`, without the floating point, binary, base64,
      64-bit integer and "variant" tags. The client builds none of them; a
      parameter carrying one is simply not a string, as any non-`Str` value
      here is. */
  datatype VariableType = TVoid | TBoolean | TInteger | TString | TArray | TStruct

  /** A variable. `Error` is the struct that `Variable::createError` builds
      (its `errorStruct` flag set, with `faultCode` and `faultString`); its
      type tag is that of a struct. `Int` is unbounded here; the results
      the client computes are shown to lie in the 32-bit range (`InInt32`). */
  datatype Value =
    | Void
    | Bool(b: bool)
    | Int(i: int)
    | Str(s: string)
    | Arr(a: seq<Value>)
    | Struct(fields: map<string, Value>)
    | Error(code: int, msg: string)

  const MinInt32: int := -0x8000_0000
  const MaxInt32: int := 0x7fff_ffff

  predicate InInt32(n: int) {
    MinInt32 <= n <= MaxInt32
  }

  /** The C++ conversion `(int32_t)n`: two's-complement wrap-around. */
  function ToInt32(n: int): (r: int)
    ensures InInt32(r)
    ensures (r - n) % 0x1_0000_0000 == 0
    ensures InInt32(n) ==> r == n
  {
    var w := n % 0x1_0000_0000;
    if w > MaxInt32 then w - 0x1_0000_0000 else w
  }

  function TypeOf(v: Value): VariableType {
    match v
    case Void => TVoid
    case Bool(_) => TBoolean
    case Int(_) => TInteger
    case Str(_) => TString
    case Arr(_) => TArray
    case Struct(_) => TStruct
    case Error(_, _) => TStruct
  }

  /** `Variable::isError()`: the error-struct flag. */
  predicate IsError(v: Value) {
    v.Error?
  }

  /** The "empty variable" that `Variable(VariableType t)` constructs: the
      given tag with the zero value of that tag. */
  function Default(t: VariableType): (v: Value)
    ensures TypeOf(v) == t && !IsError(v)
    ensures t == TArray ==> v == Arr([])
  {
    match t
    case TVoid => Void
    case TBoolean => Bool(false)
    case TInteger => Int(0)
    case TString => Str("")
    case TArray => Arr([])
    case TStruct => Struct(map[])
  }

  predicate IsEmptyVariable(v: Value) {
    v == Default(TypeOf(v))
  }

  function TypesOf(vs: seq<Value>): (ts: seq<VariableType>)
    ensures |ts| == |vs|
    ensures forall i :: 0 <= i < |vs| ==> ts[i] == TypeOf(vs[i])
  {
    seq(|vs|, i requires 0 <= i < |vs| => TypeOf(vs[i]))
  }

  function Defaults(ts: seq<VariableType>): (vs: seq<Value>)
    ensures |vs| == |ts|
    ensures forall i :: 0 <= i < |ts| ==> vs[i] == Default(ts[i])
  {
    seq(|ts|, i requires 0 <= i < |ts| => Default(ts[i]))
  }

  /** A method signature: the return type, then the parameter types. */
  datatype Signature = Signature(returnType: VariableType, paramTypes: seq<VariableType>)

  const NoParametersVoid: Signature := Signature(TVoid, [])

  /** The signature array sent to `registerRpcMethod`: an empty array for "no
      parameters, returns void", otherwise one empty variable for the return
      type followed by one per parameter type. */
  function EncodeSignature(sig: Signature): (a: seq<Value>)
    ensures a == [] <==> sig == NoParametersVoid
    ensures a != [] ==> |a| == 1 + |sig.paramTypes| && TypeOf(a[0]) == sig.returnType
    ensures a != [] ==> forall i {:trigger sig.paramTypes[i]} :: 0 <= i < |sig.paramTypes| ==> TypeOf(a[i + 1]) == sig.paramTypes[i]
    ensures forall i :: 0 <= i < |a| ==> IsEmptyVariable(a[i])
  {
    if sig == NoParametersVoid then []
    else
      var a := [Default(sig.returnType)] + Defaults(sig.paramTypes);
      assert a[1..] == Defaults(sig.paramTypes);
      a
  }

  /** How the receiving side reads a signature array back. */
  function DecodeSignature(a: seq<Value>): (sig: Signature)
    ensures a == [] ==> sig == NoParametersVoid
    ensures a != [] ==> sig.returnType == TypeOf(a[0]) && |sig.paramTypes| == |a| - 1
    ensures a != [] ==> forall i :: 0 <= i < |sig.paramTypes| ==> sig.paramTypes[i] == TypeOf(a[i + 1])
  {
    if a == [] then NoParametersVoid
    else Signature(TypeOf(a[0]), TypesOf(a[1..]))
  }

  /** Decoding an encoded signature gives the signature back. */
  lemma SignatureRoundTrip(sig: Signature)
    ensures DecodeSignature(EncodeSignature(sig)) == sig
  {
    var a := EncodeSignature(sig);
    if a != [] {
      assert TypesOf(a[1..]) == sig.paramTypes;
    }
  }

  /** Conversely, an array of empty variables other than the redundant
      `[Void]` is exactly the encoding of the signature it decodes to. */
  lemma SignatureArrayRoundTrip(a: seq<Value>)
    requires forall i :: 0 <= i < |a| ==> IsEmptyVariable(a[i])
    requires a != [Void]
    ensures EncodeSignature(DecodeSignature(a)) == a
  {
    if a != [] {
      var sig := Signature(TypeOf(a[0]), TypesOf(a[1..]));
      assert DecodeSignature(a) == sig;
      assert a[0] == Default(sig.returnType);
      if sig == NoParametersVoid {
        assert false;
      }
      var e := [Default(sig.returnType)] + Defaults(sig.paramTypes);
      assert EncodeSignature(sig) == e;
      forall i | 1 <= i < |a|
        ensures e[i] == a[i]
      {
        assert a[1..][i - 1] == a[i];
        assert IsEmptyVariable(a[i]);
      }
      assert e == a;
    }
  }
}
