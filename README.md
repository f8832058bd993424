# STARTUP options builder, in Dafny

A model of the Java driver's `StartupOptionsBuilder`, which assembles the
key/value options a CQL driver sends in the protocol's STARTUP message
(section 4.1.1 of the CQL native protocol v4 specification defines the
`CQL_VERSION` and `COMPRESSION` keys).

- `wrappers.dfy`: `Option`, used wherever the Java code admits `null`
  (a `null` argument, a `null` option value, a `null` algorithm).
- `java_strings.dfy` (module `JavaStrings`): `String.trim()` as the builder
  uses it. It removes every leading and trailing character `<= ' '`: space
  and the control characters U+0000 to U+001F. DEL (U+007F) and the C1
  controls are kept, as in `String.trim()`. It cuts `s` between the
  end of the leading run and the start of the trailing run of such
  characters, as the two loops of `String.trim()` do.
- `startup_options.dfy` (module `StartupOptions`): the four reserved keys
  and the specification functions.
  - `Merged` is one filtered merge.
  - `AfterCall` and `AfterCalls` are one call and a sequence of calls.
  - `IsStartupOptions` is the whole map that `build()` returns.
  - The class `StartupOptionsBuilder` holds the accumulator
    `additionalOptions` as a `map<string, Option<string>>` field.
  - `WithAdditionalOptions` loops over the argument's entries and updates the
    field in place (`modifies this`).
  - `Build` performs the builder's puts into a local map and changes nothing.
  - `Valid()` is the class invariant: no reserved key in the accumulator.
- `startup_options_properties.dfy` (module `StartupOptionsProperties`):
  lemmas relating several calls. They cover:
  - the accumulator after any sequence of calls (last writer wins; reserved
    keys never enter);
  - what a caller's options contribute to the built map;
  - uniqueness of the built map, which makes two builds agree.
- `startup_options_scenarios.dfy` (module `StartupOptionsScenarios`):
  concrete scenarios, each driven through a fresh builder, with the whole
  resulting map stated.
  - Five of them follow the cases of `StartupOptionsBuilderTest`.
  - `BlankAlgorithmOmitted`, `PaddedAlgorithmTrimmed` and
    `NullValuePreserved` add the blank algorithm, the padded algorithm and
    the `null` value.
  - `BuildTwice` states that two builds agree.

How the model reads the code:

- Order of the puts: `build()` writes the accumulated options after the
  driver name and version (lines 94-96). The accumulator never holds those
  keys (`Valid()`), so the order cannot change the result, and the driver's
  values always end up in the map.
- A caller's `COMPRESSION` entry is dropped whether or not an algorithm is
  configured (line 62). With no algorithm, the built map has no
  `COMPRESSION` key at all.
- `CQL_VERSION` is never in the built map. The protocol's `Startup` message
  adds it later (doc comment at lines 77-79).

## Model

| member | source | states |
|---|---|---|
| `JavaStrings.LeadingTrimmed` | core/src/main/java/com/datastax/oss/driver/internal/core/context/StartupOptionsBuilder.java:90-91 | the count is the length of the longest prefix made of characters `<= ' '`: those characters are all trimmed, and the next one, if any, is kept |
| `JavaStrings.TrailingTrimmed` | core/src/main/java/com/datastax/oss/driver/internal/core/context/StartupOptionsBuilder.java:90-91 | the count is the length of the longest suffix made of characters `<= ' '`: those characters are all trimmed, and the one before, if any, is kept |
| `JavaStrings.Trim` | core/src/main/java/com/datastax/oss/driver/internal/core/context/StartupOptionsBuilder.java:90-91 | `String.trim()`: the characters between the end of the leading run and the start of the trailing run of characters `<= ' '`; its contract only bounds the length, and its meaning is stated by `TrimIsInfix` |
| `JavaStrings.TrimIsInfix` | core/src/main/java/com/datastax/oss/driver/internal/core/context/StartupOptionsBuilder.java:90-91 | `trim()` gives an infix of the string; everything before and after it is `<= ' '`; the infix is empty or starts and ends with a kept character |
| `JavaStrings.TrimEmptyIff` | core/src/main/java/com/datastax/oss/driver/internal/core/context/StartupOptionsBuilder.java:90 | `trim().isEmpty()` holds exactly when every character is `<= ' '` (both directions) |
| `JavaStrings.TrimOfUntrimmed` | core/src/main/java/com/datastax/oss/driver/internal/core/context/StartupOptionsBuilder.java:91 | a string that is empty or starts and ends with a kept character is its own trim |
| `JavaStrings.TrimIdempotent` | core/src/main/java/com/datastax/oss/driver/internal/core/context/StartupOptionsBuilder.java:91 | trimming the trimmed algorithm changes nothing |
| `StartupOptions.IsReserved` | core/src/main/java/com/datastax/oss/driver/internal/core/context/StartupOptionsBuilder.java:60-63 | no contract; defined by its body: true exactly for `DRIVER_NAME`, `DRIVER_VERSION`, `COMPRESSION` and `CQL_VERSION` |
| `StartupOptions.AfterCall` | core/src/main/java/com/datastax/oss/driver/internal/core/context/StartupOptionsBuilder.java:52-67 | one call: a `null` argument leaves the accumulator as it is, otherwise `Merged`; no key is lost and a reserved-free accumulator stays reserved-free |
| `StartupOptions.Merged` | core/src/main/java/com/datastax/oss/driver/internal/core/context/StartupOptionsBuilder.java:53-66 | a key is in the merged accumulator iff it was there before or the options hold it and it is not reserved; non-reserved option entries overwrite (a `null` value included); every other old entry is kept |
| `StartupOptions.MergedOneMore` | core/src/main/java/com/datastax/oss/driver/internal/core/context/StartupOptionsBuilder.java:57-65 | handling one more entry writes it into the merged accumulator, unless its key is reserved, in which case nothing changes |
| `StartupOptions.StartupOptionsBuilder.constructor` | core/src/main/java/com/datastax/oss/driver/internal/core/context/StartupOptionsBuilder.java:37-41 | a new builder has an empty accumulator, which satisfies the invariant |
| `StartupOptions.StartupOptionsBuilder.WithAdditionalOptions` | core/src/main/java/com/datastax/oss/driver/internal/core/context/StartupOptionsBuilder.java:51-69 | the entry-by-entry loop leaves the accumulator equal to `Merged(old accumulator, options)`; a `null` argument leaves it unchanged; the invariant (no reserved key) is kept; the builder itself is returned |
| `StartupOptions.StartupOptionsBuilder.Build` | core/src/main/java/com/datastax/oss/driver/internal/core/context/StartupOptionsBuilder.java:85-97 | the keys are exactly the accumulator's keys, plus `DRIVER_NAME` and `DRIVER_VERSION`, plus `COMPRESSION` iff the algorithm is non-null and not all `<= ' '`; `COMPRESSION` holds the trimmed algorithm; the two identity keys hold the driver's values; every accumulator entry is copied verbatim; `CQL_VERSION` is absent; no state changes |
| `StartupOptionsProperties.NoReservedKeyAfterCalls` | core/src/main/java/com/datastax/oss/driver/internal/core/context/StartupOptionsBuilder.java:59-65 | after any sequence of `withAdditionalOptions` calls, the accumulator contains none of the four reserved keys |
| `StartupOptionsProperties.UnsuppliedKeyUnchanged` | core/src/main/java/com/datastax/oss/driver/internal/core/context/StartupOptionsBuilder.java:51-69 | after any sequence of calls, a reserved key, or a key no call supplied, is present and valued exactly as before the calls |
| `StartupOptionsProperties.LastSupplierWins` | core/src/main/java/com/datastax/oss/driver/internal/core/context/StartupOptionsBuilder.java:51-69 | after any sequence of calls, a non-reserved key holds the value given by the last call that supplied it, a `null` value included |
| `StartupOptionsProperties.StartupOptionsUnique` | core/src/main/java/com/datastax/oss/driver/internal/core/context/StartupOptionsBuilder.java:85-97 | for every accumulator, two maps that both meet `build()`'s contract with the same inputs are equal, so repeated builds agree |
| `StartupOptionsProperties.CallerOptionsThroughBuild` | core/src/main/java/com/datastax/oss/driver/internal/core/context/StartupOptionsBuilder.java:51-96 | after one call, every non-reserved caller entry reaches the built map verbatim; the driver name, version and configured compression win over the caller's values for those keys; `CQL_VERSION` is absent |
| `StartupOptionsScenarios.BuildFresh` | core/src/test/java/com/datastax/oss/driver/internal/core/context/StartupOptionsBuilderTest.java:72-97 | a fresh builder given one options argument (or `null`) builds a map meeting `build()`'s contract over the filtered options |
| `StartupOptionsScenarios.MinimalStartupOptions` | core/src/test/java/com/datastax/oss/driver/internal/core/context/StartupOptionsBuilderTest.java:94-100 | with no options and no compression, the map is exactly the driver name and version |
| `StartupOptionsScenarios.CustomStartupOptions` | core/src/test/java/com/datastax/oss/driver/internal/core/context/StartupOptionsBuilderTest.java:102-113 | two custom options appear verbatim beside the identity keys, with no compression key |
| `StartupOptionsScenarios.CompressionStartupOptions` | core/src/test/java/com/datastax/oss/driver/internal/core/context/StartupOptionsBuilderTest.java:115-126 | algorithm "lz4" yields `COMPRESSION` = "lz4" beside the identity keys |
| `StartupOptionsScenarios.InternalOptionsNotOverridden` | core/src/test/java/com/datastax/oss/driver/internal/core/context/StartupOptionsBuilderTest.java:128-143 | caller values for `DRIVER_NAME`, `DRIVER_VERSION` and `CQL_VERSION` are dropped; the map is exactly the driver's name and version |
| `StartupOptionsScenarios.CompressionNotOverridden` | core/src/test/java/com/datastax/oss/driver/internal/core/context/StartupOptionsBuilderTest.java:145-167 | with "snappy" configured and a caller `COMPRESSION` of "lz4", the map holds "snappy", the two custom options and the identity keys, and nothing else |
| `StartupOptionsScenarios.SnappyWithCustomOptions` | core/src/test/java/com/datastax/oss/driver/internal/core/context/StartupOptionsBuilderTest.java:145-167 | the map meeting `build()`'s contract for "snappy" over the two custom options is exactly that five-entry map |
| `StartupOptionsScenarios.BlankAlgorithmOmitted` | core/src/main/java/com/datastax/oss/driver/internal/core/context/StartupOptionsBuilder.java:89-92 | a whitespace-only algorithm counts as none: the map is exactly the driver name and version |
| `StartupOptionsScenarios.PaddedAlgorithmTrimmed` | core/src/main/java/com/datastax/oss/driver/internal/core/context/StartupOptionsBuilder.java:89-92 | the algorithm " lz4\n" is sent as `COMPRESSION` = "lz4"; the map is exactly that entry and the driver name and version |
| `StartupOptionsScenarios.NullValuePreserved` | core/src/main/java/com/datastax/oss/driver/internal/core/context/StartupOptionsBuilder.java:86-96 | a custom option whose value is `null` is kept with value `null`; the map is exactly that entry and the driver name and version |
| `StartupOptionsScenarios.BuildTwice` | core/src/main/java/com/datastax/oss/driver/internal/core/context/StartupOptionsBuilder.java:85-97 | two builds with no `withAdditionalOptions` in between return equal maps |

## Left out

- The driver's identity. `getDriverName()` and `getDriverVersion()` (lines 108-123) read `Driver.properties` through `DefaultMavenCoordinates` and format a `Version`; both are I/O and library code. The name and version are parameters of `Build`, so an overriding subclass is one more caller-chosen pair.
- The compressor. `context.getCompressor().algorithm()` (line 89) belongs to the compression subsystem and the configuration profile. The algorithm is an `Option<string>` parameter of `Build`; `None` stands for `null`.
- `NullAllowingImmutableMap` (lines 86-96). Its builder is a foreign library, and its duplicate-key and capacity behaviour is not visible. The result is a plain Dafny map. The accumulator is pre-filtered, so the three groups of puts never collide. The capacity hint `3 + size` has no observable effect.
- `java.lang.String` is not part of this model. `Trim` follows the documented behaviour of `String.trim()`, which removes space and U+0000 to U+001F and keeps DEL and the C1 controls.
- Characters: a Dafny `char` is a Unicode scalar value, not a UTF-16 code unit. `Trim` still gives the same result as on code units, because every character `<= ' '` is a single code unit and no surrogate is `<= ' '`. A Java string that holds a lone surrogate cannot be represented.
- A `null` key in the caller's map is not modelled. None of the four tests at lines 60-63 matches `null`, so line 64 would store it. Option keys here are Dafny strings, which cannot be `null`, and what `NullAllowingImmutableMap` does with a `null` key (line 96) is not visible.
- `CQL_VERSION` = "3.0.0" is added by the protocol's `Startup` constructor, which is not part of this model. The scenarios check only the map the builder returns.
- Iteration order. `WithAdditionalOptions` takes the argument's entries in whatever order its `entrySet()` yields; the model leaves that order unspecified. The keys of one map are distinct, so the order cannot change the result.
- Concurrency. The unsynchronised `HashMap` and the `@Immutable` annotation (line 26) matter only for concurrent use, which a sequential model does not have.
