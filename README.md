# kim: subject-ID resolver and zap flag values, in Dafny

This project models two pieces of the kim identity control plane.

**The opaque subject-ID resolver** (`internal/storage/user.go`). An OIDC subject identifier
is the Base16 encoding (section 8 of RFC 4648) of `"<name>/<namespace>"`.
`GetUserByID` hex-decodes the identifier the way Go's `hex.DecodeString` does: it accepts upper- or
lower-case digits and reports the first invalid byte, or an odd length. It then hands the decoded
bytes to `GetUserByUsername`. That function splits at the first `/` with `strings.SplitN(name, "/", 2)`
and reads the User stored under `(Namespace = parts[1], Name = parts[0])` from the cluster client.
In the model the client is a map from `NamespacedName` to a User record, and the record is an opaque type
parameter. Every operation is a function of that map, so resolution never changes a store entry.
Strings are Go strings, that is bytes (`seq<byte>`).

**The zap logging flag values** (`internal/logx/flags.go`). These are `encoderFlag`, `levelFlag`,
`stackTraceFlag` and `timeEncodingFlag`. Each is a class with the source's `value` field and an
`applied` field. `applied` records, oldest first, every argument that `Set` passed to `setFunc`:
an `Encoder`, a `TimeEncoding` or an `int8` level. Each `Set` is proved against a pure function of
its input (`ParseEncoder`, `ParseLevel`, `ParseStackLevel`, `ParseTimeEncoding`):
- On acceptance it appends exactly that function's result to `applied`, and `value` becomes the
  input with its original casing, which is what `String()` returns.
- On rejection it returns the flag's own error and leaves both fields unchanged.

The log level also accepts a positive integer n, parsed with `strconv.Atoi`. It selects level
`int8(-n)`, and the model writes out the 8-bit wrap: "129" selects 127, "256" selects Info and
"257" selects Debug. The help text (`internal/logx/zap.go:36`) advertises a time encoding "nano",
which `Set` rejects; "nanos" is accepted.

Four facts about the resolver's code that the model keeps:
- A decoding failure is returned as the decoder's own error (`InvalidHex`), not as a separate identifier error.
- A decoded name with no `/` indexes `parts[1]` out of range, which is a runtime panic in the code.
  The model makes it the explicit error `IndexOutOfRange`.
- A name with more than one `/` is not rejected: everything after the first `/` is the namespace.
- An empty name (`"/ns"`) is looked up like any other.

Modules: `Wrappers` (Option, Result), `Hex` (the hex codec), `UserStore` (the resolver), `Strconv`
(`Atoi` with `FormatInt` as its partner) and `Logx` (the flags).

Go strings appear in two forms, following what each piece of code does with them. The resolver
works on bytes: `hex.DecodeString` yields arbitrary bytes, which become the username unchanged,
and the split looks for the byte `/`. So `UserStore` and `Hex` use `seq<byte>`, and `Hex.LowerByte`
only serves to state that hex digits are case-insensitive. The flags fold case rune by rune with
`unicode.ToLower` and compare whole strings. So `Logx` uses Dafny's Unicode `string`, and
`Logx.LowerChar` models that rune mapping.

## Model

| member | source | states |
|---|---|---|
| `Hex.Decode` | internal/storage/user.go:29-32 | hex.DecodeString: a decoded result is half as long as the identifier; ErrLength only for odd length; an invalid-byte error names a byte of the input that is not a hex digit |
| `Hex.DecodeAccepts` | internal/storage/user.go:29-32 | hex decoding of the identifier succeeds exactly when it has even length and only hex digits (either case), and then yields half as many bytes |
| `Hex.DecodeRejects` | internal/storage/user.go:29-32 | a rejected identifier fails with the first byte that is not a hex digit, or with the odd-length error when every byte is a digit |
| `Hex.DecodeEncode` | internal/storage/user.go:29 | decoding the lower- or upper-case hex encoding of any byte string gives back that byte string |
| `Hex.EncodeDecode` | internal/storage/user.go:29 | re-encoding decoded bytes gives the identifier with its digits lower-cased, so decoding is injective up to case |
| `Hex.UpperDecodesAsLower` | internal/storage/user.go:29 | upper-case hex decodes to the same bytes as lower-case hex |
| `Hex.DecodeIgnoresCase` | internal/storage/user.go:29 | lower-casing an identifier neither changes whether it decodes nor what it decodes to |
| `UserStore.IndexByte` | internal/storage/user.go:37 | the index of the first occurrence of the separator, or -1 exactly when it does not occur |
| `UserStore.SplitN2` | internal/storage/user.go:37 | `SplitN(s, "/", 2)` gives one part (the whole string) exactly when there is no `/`; otherwise two parts that rejoin with `/` into the input, the first holding no `/` |
| `UserStore.Get` | internal/storage/user.go:40-43 | the client's keyed read: succeeds exactly when the key is stored, returning that record; otherwise NotFound for that key |
| `UserStore.GetUserByUsername` | internal/storage/user.go:36-44 | fails with the out-of-range error exactly when the username has no `/`; a returned user is a record of the store |
| `UserStore.GetUserByID` | internal/storage/user.go:28-34 | fails with the decoder's error exactly when the identifier is not valid hex; a returned user is a record of the store |
| `UserStore.SplitAtFirstSlash` | internal/storage/user.go:37 | for a name without `/`, `name + "/" + namespace` splits into exactly that name and namespace, even when the namespace holds further `/` |
| `UserStore.ResolvesStoredKey` | internal/storage/user.go:37-43 | resolving `name/namespace` returns the record stored under (namespace, name), or NotFound for that key when it is absent |
| `UserStore.EmptyNameIsLookedUp` | internal/storage/user.go:37-39 | `"/ns"` is not rejected: it is looked up under the empty name in namespace ns |
| `UserStore.OtherEntriesIgnored` | internal/storage/user.go:39-43 | adding, replacing or removing any other store entry does not change a resolution (one keyed read) |
| `UserStore.InvalidIdNeverReadsStore` | internal/storage/user.go:28-32 | an identifier that is not valid hex fails with the decoder's error, and the result is the same for every store |
| `UserStore.ValidIdDelegates` | internal/storage/user.go:33 | a valid hex identifier decodes, and resolving it equals resolving its decoding by username |
| `UserStore.IdRoundTrip` | internal/storage/user.go:28-34 | for any username, resolving its hex encoding (either case) equals resolving the username |
| `UserStore.OpaqueIdResolvesKey` | internal/storage/user.go:28-44 | the hex encoding of `name/namespace` resolves to the record stored under that key, or NotFound |
| `Strconv.Atoi` | internal/logx/flags.go:66 | an accepted integer lies in the int64 range and the input starts with a digit or a sign |
| `Strconv.Digits` | internal/logx/flags.go:66 | the decimal rendering of a natural number is a non-empty run of digits whose value is that number |
| `Strconv.AtoiFormatInt` | internal/logx/flags.go:66 | Atoi reads back every int64 written in decimal |
| `Strconv.AtoiExplicitPlus` | internal/logx/flags.go:66 | a leading `+` is accepted in front of a non-negative number |
| `Strconv.AtoiRejectsNonNumeric` | internal/logx/flags.go:66-69 | any character that is neither a digit nor a sign makes Atoi fail |
| `Strconv.Zeros` | internal/logx/flags.go:66 | a run of k zero digits |
| `Strconv.LeadingZerosKeepValue` | internal/logx/flags.go:66 | zeros in front of a digit run do not change its value |
| `Strconv.DigitRunIsPaddedDigits` | internal/logx/flags.go:66 | every non-empty digit run is the canonical rendering of its value behind some leading zeros |
| `Strconv.AtoiAccepts` | internal/logx/flags.go:66-69 | converse of the round trip: an accepted input is the rendering of its magnitude behind leading zeros, with an optional `+`, or with `-` only for a value that is not positive |
| `Strconv.AtoiLeadingZeros` | internal/logx/flags.go:66 | leading zeros, with or without `+`, keep the value |
| `Strconv.AtoiRejectsOutOfRange` | internal/logx/flags.go:66-69 | digits whose value leaves the int64 range are rejected, unsigned, with `+`, or with `-` below -2^63 |
| `Strconv.AtoiRejectsInnerSign` | internal/logx/flags.go:66-69 | a sign anywhere but in first position makes Atoi fail |
| `Logx.ToLower` | internal/logx/flags.go:43 | lower-casing keeps the length and folds each character on its own: A-Z, U+0130 to `i`, U+212A to `k` |
| `Logx.AtoiIgnoresCase` | internal/logx/flags.go:64-66 | lower-casing the input does not change what Atoi returns |
| `Logx.ToInt8` | internal/logx/flags.go:71-72 | the int8 conversion agrees with its argument modulo 256 and is the identity on -128..127 |
| `Logx.ParseEncoder` | internal/logx/flags.go:42-51 | the encoder flag selects encoder e exactly when the lower-cased input is e's name, "json" or "console" |
| `Logx.ParseTimeEncoding` | internal/logx/flags.go:131-148 | the time-encoding flag selects encoding t exactly when the lower-cased input is t's name (rfc3339nano, rfc3339, iso8601, millis, nanos, epoch) |
| `Logx.ParseStackLevel` | internal/logx/flags.go:98-102 | the stacktrace flag accepts exactly the log-level names other than "debug", with the same level values |
| `Logx.TablesIgnoreCase` | internal/logx/flags.go:43-44 | the encoder, stacktrace and time-encoding flags decide on the lower-cased input alone |
| `Logx.LevelIgnoresCase` | internal/logx/flags.go:63-75 | the log-level flag decides on the lower-cased input alone, for names and for numbers |
| `Logx.NumberIsNotLevelName` | internal/logx/flags.go:64-66 | a decimal number is never a level name, so it goes to the integer path |
| `Logx.VerbosityLevel` | internal/logx/flags.go:65-72 | for 1 <= n <= 128 the log-level flag selects level -n |
| `Logx.VerbosityWraps` | internal/logx/flags.go:70-72 | for n > 128 the selected level is int8(-n), which differs from -n |
| `Logx.NonPositiveLevelRejected` | internal/logx/flags.go:70-75 | zero and negative integers are rejected by the log-level flag |
| `Logx.WrapTo127` | internal/logx/flags.go:70-72 | the verbosity "129" wraps to level 127 |
| `Logx.WrapToInfo` | internal/logx/flags.go:70-72 | the verbosity "256" wraps to Info (0) |
| `Logx.WrapToDebug` | internal/logx/flags.go:70-72 | the verbosity "257" wraps to Debug (-1) |
| `Logx.ParseLevel` | internal/logx/flags.go:63-78 | a level name (any case) selects its zap level; any other input is accepted exactly when Atoi reads a positive n, and the level is then congruent to -n modulo 256 |
| `Logx.NumericTextIsNotLevelName` | internal/logx/flags.go:64-65 | text starting with a digit or sign is never a level name |
| `Logx.NumericLevel` | internal/logx/flags.go:65-72 | any text that Atoi reads as n in 1..128 selects level -n |
| `Logx.PaddedVerbosityLevel` | internal/logx/flags.go:65-72 | leading zeros and an explicit `+` keep the verbosity level |
| `Logx.PaddedLevelExample` | internal/logx/flags.go:65-72 | "+005" selects level -5 |
| `Logx.DottedCapitalIFolds` | internal/logx/flags.go:64-140 | capital I with dot above folds to `i`: "İNFO" selects Info and "PANİC" is a stacktrace level |
| `Logx.DottedCapitalIFoldsInTimeEncodings` | internal/logx/flags.go:64-140 | with the same fold, "İSO8601" and "MİLLİS" are time encodings |
| `Logx.StackLevelsAreLogLevels` | internal/logx/flags.go:14-25 | every stacktrace level is the log level of the same name; "debug" (any case) is a log level and not a stacktrace level |
| `Logx.NanoIsRejected` | internal/logx/flags.go:131-148 | "nano", which the help text lists, is rejected; "NANOS" selects the epoch-nanos encoder |
| `Logx.EncoderFlag.constructor` | internal/logx/flags.go:27-30 | a fresh flag has the empty value and no setFunc call |
| `Logx.FlagError.Message` | internal/logx/flags.go:50 | each error message starts with "invalid " and ends with the rejected input in double quotes (also lines 68, 74, 101 and 147) |
| `Logx.EncoderFlag.String` | internal/logx/flags.go:34-36 | the stored text of the last accepted value |
| `Logx.EncoderFlag.Type` | internal/logx/flags.go:38-40 | the type name "encoder" |
| `Logx.EncoderFlag.Set` | internal/logx/flags.go:42-54 | accepts exactly what ParseEncoder accepts; on success records the encoder through setFunc once and stores the original text, which String() then returns; on failure returns the encoder error and changes nothing |
| `Logx.LevelFlag.constructor` | internal/logx/flags.go:56-59 | a fresh flag has the empty value and no setFunc call |
| `Logx.LevelFlag.String` | internal/logx/flags.go:83-85 | the stored text of the last accepted value |
| `Logx.LevelFlag.Type` | internal/logx/flags.go:87-89 | the type name "level" |
| `Logx.LevelFlag.Set` | internal/logx/flags.go:63-81 | accepts exactly what ParseLevel accepts (a level name, or a positive integer cut to int8); on success records that level once and stores the original text; on failure returns the log-level error and changes nothing |
| `Logx.StackTraceFlag.constructor` | internal/logx/flags.go:91-94 | a fresh flag has the empty value and no setFunc call |
| `Logx.StackTraceFlag.String` | internal/logx/flags.go:108-110 | the stored text of the last accepted value |
| `Logx.StackTraceFlag.Type` | internal/logx/flags.go:112-114 | the type name "level", the same as the log-level flag's |
| `Logx.StackTraceFlag.Set` | internal/logx/flags.go:98-106 | accepts exactly the stacktrace level names; on success records the level once and stores the original text; on failure returns the stacktrace error and changes nothing |
| `Logx.TimeEncodingFlag.constructor` | internal/logx/flags.go:116-119 | a fresh flag has the empty value and no setFunc call |
| `Logx.TimeEncodingFlag.String` | internal/logx/flags.go:123-125 | the stored text of the last accepted value |
| `Logx.TimeEncodingFlag.Type` | internal/logx/flags.go:127-129 | the type name "time-encoding" |
| `Logx.TimeEncodingFlag.Set` | internal/logx/flags.go:131-152 | accepts exactly the six time-encoding names; on success records the encoding once and stores the original text; on failure returns the time-encoding error and changes nothing |

## Left out

- Logx.ToLower: maps A-Z, U+0130 (to `i`) and U+212A (to `k`) as `unicode.ToLower` does, and keeps every other character. Go may map such a character to a different non-ASCII character, but no table name contains a non-ASCII character, so the accept sets equal Go's. Flag values are Unicode strings here and byte strings in Go; Go turns invalid UTF-8 into U+FFFD when lower-casing, so such input is rejected either way.
- Strconv.Atoi: models a 64-bit `int`; on a 32-bit platform the range bound would be int32.
- `setFunc` is modelled by recording its argument. The logger options it writes (`internal/logx/zap.go`) are not part of this model, and neither is the `zap.NewAtomicLevelAt` wrapper around a level.
- The cluster client's errors other than NotFound (network, authorisation, decoding) and the `context.Context` arguments: these are I/O.
- The partial output that `hex.DecodeString` returns beside an error: the caller discards it.
- `Service.keys` (`internal/storage/user.go:15-17`): an unused field.
- `internal/logx/zap.go` (`BindFlags`, the encoder constructors), `cmd/manager/*`, `internal/tracing/tracing.go`, `internal/oidc/oidc.go` and `internal/handle/template.go`: flag registration, process bootstrap, HTTP serving and exporter setup, all foreign-library calls with no local logic.
- The Policy and Role reconcilers (`internal/controller/kim/*.go`) only fetch a resource and call a sync function whose body is not part of this model. The resource types in `api/kim/v1` carry no behaviour. Policy evaluation, the device-authorization flow, token storage and claim projection have no code in these sources.
