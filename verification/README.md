# Homegear IPC example client, modelled in Dafny

This project models the client in `src/IpcClient.cpp` of the Homegear IPC
example. The client connects to the Homegear daemon over a Unix socket. It
serves two RPC methods of its own, `exampleTest1` and `exampleTest2`. On every
connect it registers both methods with the daemon through the
`registerRpcMethod` call.

Files:

- `decimal.dfy` (module `Decimal`): `std::to_string` of unsigned and signed
  integers, and the parser that inverts it.
- `variant.dfy` (module `Variant`): the part of Homegear's variant value
  (`BaseLib::Variable`) that the client touches. It covers type tags, values,
  error structs and the `(int32_t)` cast. It also shows how a method signature
  is written as an array of "empty variables": return type first, then the
  parameter types.
- `ipc_client.dfy` (module `IpcClientModel`): the two handlers, the local
  method table, and class `IpcClient`.
  - The handlers are pure functions of their parameter array.
  - The method table is built by the constructor with `emplace`.
  - `Invoke` is an oracle. The daemon is a function `peer: nat -> Value` that
    gives its answer to the n-th call, and every call issued is appended to
    `invoked`.
  - `OnConnect` builds both argument arrays step by step, as the source does.
  - `OnConnect` returns the final value of the `error` flag and the lines it
    logged.

The clock reading used by `test1` (`getTimeSeconds()`) is a parameter `now`.
A `Variable(VariableType::tX)` "empty variable" is modelled as `Default(tX)`:
the tag with its zero value. An error (`Variable::createError`) is the
`Error(code, msg)` variant. Its type tag is `TStruct`, and `msg` stands for the
struct's `faultString` entry.

Where the code differs from its comments:

- The comment at `src/IpcClient.cpp:76-77` speaks of an outer array of
  signatures holding inner signature arrays. The code at lines 78-80 pushes
  the type tags straight into one flat signature array, so the model follows
  the code: `[Int(0), Str("")]`.
- `exampleTest1` is registered with the empty signature, which the comment at
  line 55 reads as "no parameters, returns void". The handler answers a string,
  though. `Test1DeclaredVoidAnswersString` states this mismatch, and
  `Test2HonoursSignature` shows that `exampleTest2` does keep to its declared
  signature.

The table is filled with `emplace`, so a second `emplace` of a name is
ignored and the first handler stays bound (`EmplaceFirstWins`).

## Model

| member | source | states |
|---|---|---|
| Decimal.NatDecimal | src/IpcClient.cpp:135 | `std::to_string` of a size is a non-empty string of digits that starts with '0' only when it is "0" |
| Decimal.IntDecimal | src/IpcClient.cpp:114 | `std::to_string` of a signed value is non-empty and starts with '-' exactly when the value is negative |
| Decimal.NatDecimalIsNumeral | src/IpcClient.cpp:135 | the rendering of every natural number is a canonical numeral, and parsing it gives the number back |
| Decimal.IntDecimalRoundTrip | src/IpcClient.cpp:114 | the rendering of every integer is a canonical signed numeral, and parsing it gives the integer back |
| Decimal.IntDecimalInjective | src/IpcClient.cpp:114 | distinct clock readings give distinct renderings |
| Variant.ToInt32 | src/IpcClient.cpp:141 | `(int32_t)n` lies in the 32-bit range, is congruent to n modulo 2^32, and equals n whenever n fits |
| Variant.Default | src/IpcClient.cpp:78-80 | the empty variable built from a tag has that tag, is not an error, and is `[]` for the array tag |
| Variant.EncodeSignature | src/IpcClient.cpp:75-80 | the signature array is empty exactly for "no parameters, void return"; otherwise it holds the return tag first and then the parameter tags in order, all as empty variables |
| Variant.DecodeSignature | src/IpcClient.cpp:55-56 | an empty signature array reads as "no parameters, void return"; otherwise the first tag is the return type and the remaining tags, in order, are the parameter types |
| Variant.SignatureRoundTrip | src/IpcClient.cpp:75-80 | decoding the encoding of any signature gives that signature back |
| Variant.SignatureArrayRoundTrip | src/IpcClient.cpp:76-77 | every array of empty variables except `[Void]` is the encoding of the signature it decodes to |
| IpcClientModel.Test1 | src/IpcClient.cpp:108-115 | `test1` answers a String that begins with "Test1 " and continues with a canonical numeral whose value is the clock reading |
| IpcClientModel.Test1IgnoresParameters | src/IpcClient.cpp:108-114 | `test1` gives the same answer whatever its parameters are |
| IpcClientModel.ArityMessage | src/IpcClient.cpp:135 | the arity complaint has the fixed prefix and suffix, and the number between them parses to the count given |
| IpcClientModel.Test2 | src/IpcClient.cpp:131-141 | `test2` fails exactly when there is not one parameter or it is not a string. With a wrong count the fault is -1 and the message reports the count, whatever the types are. With one non-string the fault is -1 and the message is "Parameter is not of type string.". Otherwise it answers the int32 cast of the string's length, which equals the length when that fits in 32 bits |
| IpcClientModel.Test2Examples | src/IpcClient.cpp:131-141 | `["hello"]` gives 5; `[]` gives fault -1 with a message reporting 0; `[3]` gives fault -1 "Parameter is not of type string." |
| IpcClientModel.Emplaced | src/IpcClient.cpp:36-37 | `emplace` adds the key, keeps every existing binding, and binds the new value only when the key was absent |
| IpcClientModel.EmplaceFirstWins | src/IpcClient.cpp:36-37 | emplacing an absent key twice keeps the first value |
| IpcClientModel.LocalRpcMethods | src/IpcClient.cpp:33-38 | the table has exactly the keys "exampleTest1" and "exampleTest2", bound to `test1` and `test2` |
| IpcClientModel.Registration | src/IpcClient.cpp:49-59 | a registration call goes to "registerRpcMethod" with two arguments: the method name string and an array that decodes to the signature |
| IpcClientModel.RegistrationCalls | src/IpcClient.cpp:46-83 | the handshake issues two calls, each to "registerRpcMethod" with [name, signature array]: "exampleTest1" with `[]` (no parameters, void) first, then "exampleTest2" with `[Integer, String]` |
| IpcClientModel.HandshakeLog | src/IpcClient.cpp:44-91 | success is logged exactly when neither answer is an error. A failed first registration is logged first with its fault string. A failed second registration is logged whatever the first answer was. Critical lines appear only when some answer is an error |
| IpcClientModel.RegisteredNamesAreServed | src/IpcClient.cpp:36-83 | the names registered with the daemon are exactly the names in the local method table |
| IpcClientModel.Test2HonoursSignature | src/IpcClient.cpp:75-80 | for every parameter array whose types match `[String]`, `test2` answers an Integer, as registered |
| IpcClientModel.Test1DeclaredVoidAnswersString | src/IpcClient.cpp:55-56 | `exampleTest1` is registered as returning void but answers a String, so it does not honour its declared signature |
| IpcClientModel.IpcClient.constructor | src/IpcClient.cpp:33-38 | the new client's table is `LocalRpcMethods()` and it has issued no calls |
| IpcClientModel.IpcClient.Emplace | src/IpcClient.cpp:36-37 | inserts exactly when the name was absent; the table becomes `Emplaced` of the old table |
| IpcClientModel.IpcClient.Invoke | src/IpcClient.cpp:59 | the call is appended to the issued calls, and the answer is the daemon's answer for that position |
| IpcClientModel.IpcClient.OnConnect | src/IpcClient.cpp:40-91 | issues exactly `RegistrationCalls()` in order after the earlier calls. The error flag is set exactly when either answer is an error. The log is `HandshakeLog` of the two answers |
| IpcClientModel.FirstFailureDoesNotStopSecond | src/IpcClient.cpp:59-84 | on a fresh client whose first registration is rejected, both registrations are still issued, the error flag is set, success is not logged, and the failure is logged first |

## Left out

- `src/main.cpp` is not part of this model. It holds signal handling, `exit(0)` from a signal handler, the global client and the endless sleep loop.
- The real `invoke`, `start`, `stop`, reconnection and the socket transport belong to Homegear's `IIpcClient` base class. That class is not part of this model. `invoke` is an oracle (`IpcClient.Invoke`), and inbound dispatch through the table (including a "method not found" answer) is not modelled.
- The `catch` blocks and the `-32500` "Unknown application error." fallback of `onConnect`, `test1` and `test2` are not modelled, because Dafny has no exceptions. The model states the result of the non-throwing path.
- IpcClientModel.IpcClient.OnConnect: every error answer is taken to carry a string fault string (`Error(code, msg)` always has `msg`). An error struct without a "faultString" entry makes the lookup at src/IpcClient.cpp:63 or :87 throw. The catch at :93 then ends the handshake, so after a first-answer failure of that kind the second registration is never issued and no critical or success line is logged. The model, including `FirstFailureDoesNotStopSecond`, does not cover that path.
- The info lines "Test1 called" and "Test2 called" and the `printEx` reports are output only and are not modelled. The handshake's critical and info lines are recorded as `LogLine` values.
- The wall clock `getTimeSeconds()` is a parameter of `Test1`.
- Float, binary, base64, 64-bit integer and "variant" tags and values are not modelled. The client builds none of them. A parameter carrying one of them reaches `test2` like any other value and takes the not-a-string branch at src/IpcClient.cpp:136, which the model covers through every non-`Str` value.
- IpcClientModel.Test2: the length is counted in characters of the model's string. Each character stands for one byte of the C++ `std::string`, and no text encoding is modelled.
- Concurrent execution of handlers and the `shared_ptr` ownership of variables are not modelled. Arrays are values, so the in-place `reserve`/`push_back` steps become sequence updates.
