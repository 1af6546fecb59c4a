# SeqForwarderOutputConfig, modelled in Dafny

This project models the output configuration of the Seq forwarder, the agent
that ships log events to a Seq server. The model covers the two pieces of logic
in that configuration:

- **The API-key codec.** The endpoint key is stored in one of three forms:
  absent, plaintext, or the tag `pd.` followed by a token from an injected data
  protector. `GetApiKey` turns the stored value back into the key. `SetApiKey`
  stores a key in its protected form.
- **The minimum-level resolver.** `GetMinimumLevel` maps the `MinimumLevel`
  name onto the `LogEventLevel` scale. The comparison ignores case. The scale
  runs Verbose < Debug < Information < Warning < Error < Fatal, and `off` sits
  one step above Fatal. The result is cached in `_minimumLevel` the first time
  it is computed.

Modules:

- `Wrappers`: `Option` (a C# nullable) and `Result` (a call that may throw).
- `DotNetStrings`: `string.IsNullOrWhiteSpace`, an ordinal `StartsWith`, and
  `OrdinalIgnoreCase` equality with ASCII case folding. It also proves that
  ignore-case equality is an equivalence.
- `LogEventLevels`: the severity scale as integers 0..5, with Off = 6, and
  `ResolveLevel`, the conditional chain from `GetMinimumLevel`. The lemmas cover
  case-insensitivity, which names reach which level in both directions, "off"
  above everything else, and the Information fallback.
- `ApiKeyCodec`: the data protector, given as a pair of functions, and the pure
  functions `Encode` (what `SetApiKey` stores) and `Decode` (what `GetApiKey`
  returns). The lemmas cover the round trip, blank input and independence
  from the protector.
- `OutputConfig`: the class `SeqForwarderOutputConfig`, with its fields and
  their defaults, `GetApiKey`, `SetApiKey` (changes `ApiKey` only) and
  `GetMinimumLevel` (changes the cache only). Three client methods state the
  documented scenarios on a fresh object.

The data protector is a parameter. Its round-trip law
`unprotect(protect(k)) == Success(k)` is a hypothesis, stated per key
(`RoundTripsOn`), wherever a lemma needs it. Serilog's `LevelAlias.Minimum` and
`LevelAlias.Maximum` are not part of this model. They are taken to be Verbose
and Fatal (`LevelAliasMinimum`, `LevelAliasMaximum`).

## Model

| member | source | states |
|---|---|---|
| `DotNetStrings.EqualsIgnoreCaseIffSameUpper` | src/Seq.Forwarder/Config/SeqForwarderOutputConfig.cs:62-70 | two names are equal under `OrdinalIgnoreCase` exactly when their upper-cased forms are equal, in both directions |
| `DotNetStrings.EqualsIgnoreCaseEquivalence` | src/Seq.Forwarder/Config/SeqForwarderOutputConfig.cs:62-70 | the ignore-case comparison used by the resolver is reflexive, symmetric and transitive |
| `LogEventLevels.ResolveLevel` | src/Seq.Forwarder/Config/SeqForwarderOutputConfig.cs:61-71 | every name resolves to a level between Verbose and Off; no name makes the resolver fail |
| `LogEventLevels.ResolveLevelIgnoresCase` | src/Seq.Forwarder/Config/SeqForwarderOutputConfig.cs:62-70 | names that are equal ignoring case resolve to the same level |
| `LogEventLevels.LevelNamesDisjoint` | src/Seq.Forwarder/Config/SeqForwarderOutputConfig.cs:62-70 | no string matches two of the nine names, so the order of the chain does not matter |
| `LogEventLevels.ResolveLevelInverse` | src/Seq.Forwarder/Config/SeqForwarderOutputConfig.cs:62-71 | each level is reached exactly from its listed names, in both directions: off → Off; minimum or verbose → Verbose; maximum or fatal → Fatal; debug, warning and error → their level; Information from "information" and from every unrecognised name |
| `LogEventLevels.OffAboveEveryOtherName` | src/Seq.Forwarder/Config/SeqForwarderOutputConfig.cs:62-64 | "off" resolves to `LevelAlias.Maximum + 1`, strictly above what any other name resolves to, "maximum" included |
| `LogEventLevels.ErrorSpellings` | src/Seq.Forwarder/Config/SeqForwarderOutputConfig.cs:69 | "ERROR", "error" and "Error" all resolve to Error |
| `LogEventLevels.UnknownNamesAreInformation` | src/Seq.Forwarder/Config/SeqForwarderOutputConfig.cs:71 | an unrecognised name falls back to Information; so do "" and "bogus" |
| `ApiKeyCodec.Encode` | src/Seq.Forwarder/Config/SeqForwarderOutputConfig.cs:50-56 | blank or null input, and only that, stores nothing; anything else stores a non-blank value that starts with `pd.` and whose remainder is the protector's token for the input |
| `ApiKeyCodec.Decode` | src/Seq.Forwarder/Config/SeqForwarderOutputConfig.cs:39-45 | null is returned exactly for a blank stored value; untagged values are returned verbatim; a tagged value yields what `Unprotect` makes of the text after `pd.`, and its failure passes through and is never read as "no key" |
| `ApiKeyCodec.RoundTrip` | src/Seq.Forwarder/Config/SeqForwarderOutputConfig.cs:37-57 | reading back a stored non-blank key gives the key, when the protector round-trips it |
| `ApiKeyCodec.BlankIsAbsent` | src/Seq.Forwarder/Config/SeqForwarderOutputConfig.cs:50-53 | storing null, "" or whitespace clears the field, and reading it back gives no key |
| `ApiKeyCodec.DecodeUntaggedIgnoresProtector` | src/Seq.Forwarder/Config/SeqForwarderOutputConfig.cs:39-43 | blank and untagged stored values decode the same under any two protectors, so the protector is not consulted |
| `ApiKeyCodec.BareTagUnprotectsEmpty` | src/Seq.Forwarder/Config/SeqForwarderOutputConfig.cs:42-45 | a stored value of exactly `pd.` is treated as tagged and hands the empty token to `Unprotect` |
| `OutputConfig.SeqForwarderOutputConfig.constructor` | src/Seq.Forwarder/Config/SeqForwarderOutputConfig.cs:26-35 | the defaults: ServerUrl `http://localhost:5341`, body limit 262144, payload limit 10485760, lifetime 2 minutes, MinimumLevel "Error", no API key, empty level cache |
| `OutputConfig.SeqForwarderOutputConfig.GetApiKey` | src/Seq.Forwarder/Config/SeqForwarderOutputConfig.cs:37-46 | null exactly for a blank field; untagged values returned verbatim; a failure comes only from `Unprotect` on the text after `pd.` |
| `OutputConfig.SeqForwarderOutputConfig.SetApiKey` | src/Seq.Forwarder/Config/SeqForwarderOutputConfig.cs:48-57 | changes only `ApiKey`: blank input clears it; other input stores `"pd." + Protect(input)`, which a following `GetApiKey` reads back as the input under the protector law |
| `OutputConfig.SeqForwarderOutputConfig.GetMinimumLevel` | src/Seq.Forwarder/Config/SeqForwarderOutputConfig.cs:59-71 | changes only the cache: the first call returns and caches the level of the current name; later calls return the cached level and leave the cache as it is |
| `OutputConfig.DefaultConfiguration` | src/Seq.Forwarder/Config/SeqForwarderOutputConfig.cs:31-35 | a fresh configuration has no API key, and its default level name resolves to Error |
| `OutputConfig.SetThenGetApiKey` | src/Seq.Forwarder/Config/SeqForwarderOutputConfig.cs:37-57 | on a configuration object, `SetApiKey` then `GetApiKey` returns the key |
| `OutputConfig.LevelStaysAfterRename` | src/Seq.Forwarder/Config/SeqForwarderOutputConfig.cs:59-61 | reading the level, renaming `MinimumLevel` and reading again gives the first name's level both times |

## Left out

- JSON serialisation attributes and the configuration loader: the model has no file format. Fields are written directly, as the loader would write them.
- `PooledConnectionLifetime`: the `TimeSpan` of 2 minutes is kept as a number of seconds. It has no behaviour in this class.
- Concrete data protectors, such as DPAPI: these are foreign cryptography. The protector is a pair of functions, and its round-trip law is a hypothesis.
- Exceptions from `Unprotect`: they are modelled as a `Failure` result that `GetApiKey` passes on unchanged. Exceptions in general are not modelled.
- `string.IsNullOrWhiteSpace`: modelled as a test against the fixed set of characters that `char.IsWhiteSpace` accepts. Strings are sequences of characters, not UTF-16 code units.
- `StartsWith`: .NET compares with the current culture when no comparison is given. The model uses an ordinal prefix test.
- `OrdinalIgnoreCase`: the model folds ASCII letters only. Non-ASCII case mappings are not captured.
- Thread safety of the `??=` cache: two threads reading for the first time at once could both compute the level. The model is single-threaded.
- Serilog's `LevelAlias.Minimum` and `LevelAlias.Maximum`: Serilog is not part of this model. They are taken to be Verbose and Fatal.
- A null `MinimumLevel`: the property is declared non-nullable, so the model's name is always a string. A null name would fall through to Information in the source.
- `ulong` overflow: the two byte limits are `UInt64` values. Nothing in this class does arithmetic on them.
