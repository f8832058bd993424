/**
 * Scenarios of the builder, each driven through a fresh builder: one
 * `WithAdditionalOptions` call with the caller's options (or `null`), then
 * `Build`. Each concrete scenario states the whole
 * map; `BuildFresh` states `Build`'s contract for any input, and `BuildTwice`
 * that two builds agree.
 */
module StartupOptionsScenarios {
  import opened Wrappers
  import opened JavaStrings
  import opened StartupOptions
  import StartupOptionsProperties

  /** A fresh builder, given `options`, then built. */
  method BuildFresh(options: Option<Options>, algorithm: Option<string>,
                    driverName: string, driverVersion: string)
    returns (built: Options)
    ensures IsStartupOptions(built, AfterCall(map[], options), algorithm, driverName, driverVersion)
    ensures CQL_VERSION_KEY !in built
  {
    var builder := new StartupOptionsBuilder();
    var _ := builder.WithAdditionalOptions(options);
    built := builder.Build(algorithm, driverName, driverVersion);
  }

  /** No options and no compression: only the driver's name and version. */
  method MinimalStartupOptions(driverName: string, driverVersion: string) returns (built: Options)
    ensures built == map[DRIVER_NAME_KEY := Some(driverName), DRIVER_VERSION_KEY := Some(driverVersion)]
  {
    built := BuildFresh(None, None, driverName, driverVersion);
  }

  /** Custom options pass through verbatim beside the identity keys. */
  method CustomStartupOptions(driverName: string, driverVersion: string) returns (built: Options)
    ensures built == map[
      DRIVER_NAME_KEY := Some(driverName), DRIVER_VERSION_KEY := Some(driverVersion),
      "Custom_Key1" := Some("Custom_Value1"), "Custom_Key2" := Some("Custom_Value2")]
  {
    var custom := map["Custom_Key1" := Some("Custom_Value1"), "Custom_Key2" := Some("Custom_Value2")];
    built := BuildFresh(Some(custom), None, driverName, driverVersion);
  }

  /** A configured algorithm is sent under the compression key. */
  method CompressionStartupOptions(driverName: string, driverVersion: string) returns (built: Options)
    ensures built == map[
      COMPRESSION_KEY := Some("lz4"),
      DRIVER_NAME_KEY := Some(driverName), DRIVER_VERSION_KEY := Some(driverVersion)]
  {
    built := BuildFresh(None, Some("lz4"), driverName, driverVersion);
    assert IsStartupOptions(built, map[], Some("lz4"), driverName, driverVersion);
    assert CompressionConfigured(Some("lz4")) && Trim("lz4") == "lz4" by {
      assert !IsTrimmed("lz4"[0]);
      TrimOfUntrimmed("lz4");
    }
  }

  /** Caller values for the identity and protocol-version keys are dropped. */
  method InternalOptionsNotOverridden(driverName: string, driverVersion: string) returns (built: Options)
    ensures built == map[DRIVER_NAME_KEY := Some(driverName), DRIVER_VERSION_KEY := Some(driverVersion)]
  {
    var custom := map[
      DRIVER_NAME_KEY := Some("Custom_Value1"), DRIVER_VERSION_KEY := Some("Custom_Value2"),
      CQL_VERSION_KEY := Some("9.9.9999")];
    built := BuildFresh(Some(custom), None, driverName, driverVersion);
  }

  /** The configured "snappy" wins over a caller's "lz4"; other custom keys pass. */
  method CompressionNotOverridden(driverName: string, driverVersion: string) returns (built: Options)
    ensures built == map[
      COMPRESSION_KEY := Some("snappy"),
      DRIVER_NAME_KEY := Some(driverName), DRIVER_VERSION_KEY := Some(driverVersion),
      "Custom_Key1" := Some("Custom_Value1"), "Custom_Key2" := Some("Custom_Value2")]
  {
    var custom := map[
      "Custom_Key1" := Some("Custom_Value1"), "Custom_Key2" := Some("Custom_Value2"),
      COMPRESSION_KEY := Some("lz4")];
    built := BuildFresh(Some(custom), Some("snappy"), driverName, driverVersion);
    assert AfterCall(map[], Some(custom))
        == map["Custom_Key1" := Some("Custom_Value1"), "Custom_Key2" := Some("Custom_Value2")];
    SnappyWithCustomOptions(built, driverName, driverVersion);
  }

  /** The map meeting `Build`'s contract for "snappy" over the two surviving custom options. */
  lemma SnappyWithCustomOptions(built: Options, driverName: string, driverVersion: string)
    requires IsStartupOptions(
      built, map["Custom_Key1" := Some("Custom_Value1"), "Custom_Key2" := Some("Custom_Value2")],
      Some("snappy"), driverName, driverVersion)
    ensures built == map[
      COMPRESSION_KEY := Some("snappy"),
      DRIVER_NAME_KEY := Some(driverName), DRIVER_VERSION_KEY := Some(driverVersion),
      "Custom_Key1" := Some("Custom_Value1"), "Custom_Key2" := Some("Custom_Value2")]
  {
    assert CompressionConfigured(Some("snappy")) && Trim("snappy") == "snappy" by {
      assert !IsTrimmed("snappy"[0]);
      TrimOfUntrimmed("snappy");
    }
  }

  /** A whitespace-only algorithm counts as no compression. */
  method BlankAlgorithmOmitted(driverName: string, driverVersion: string) returns (built: Options)
    ensures built == map[DRIVER_NAME_KEY := Some(driverName), DRIVER_VERSION_KEY := Some(driverVersion)]
  {
    built := BuildFresh(None, Some(" \t "), driverName, driverVersion);
  }

  /** Padding around a configured algorithm is trimmed away before sending. */
  method PaddedAlgorithmTrimmed(driverName: string, driverVersion: string) returns (built: Options)
    ensures built == map[
      COMPRESSION_KEY := Some("lz4"),
      DRIVER_NAME_KEY := Some(driverName), DRIVER_VERSION_KEY := Some(driverVersion)]
  {
    var padded := " lz4\n";
    assert LeadingTrimmed(padded[1..]) == 0;
    assert LeadingTrimmed(padded) == 1;
    assert padded[1..] == "lz4\n";
    assert TrailingTrimmed("lz4") == 0;
    assert TrailingTrimmed("lz4\n") == 1;
    assert TrimEnd(padded) == 4;
    assert Trim(padded) == "lz4";
    built := BuildFresh(None, Some(padded), driverName, driverVersion);
  }

  /** A custom option whose value is `null` is kept, `null` and all. */
  method NullValuePreserved(driverName: string, driverVersion: string) returns (built: Options)
    ensures built == map[
      DRIVER_NAME_KEY := Some(driverName), DRIVER_VERSION_KEY := Some(driverVersion),
      "Custom_Key" := None]
  {
    built := BuildFresh(Some(map["Custom_Key" := None]), None, driverName, driverVersion);
  }

  /** Building twice with nothing added in between gives equal maps. */
  method BuildTwice(options: Option<Options>, algorithm: Option<string>,
                    driverName: string, driverVersion: string)
    returns (first: Options, second: Options)
    ensures first == second
  {
    var builder := new StartupOptionsBuilder();
    var _ := builder.WithAdditionalOptions(options);
    first := builder.Build(algorithm, driverName, driverVersion);
    second := builder.Build(algorithm, driverName, driverVersion);
    StartupOptionsProperties.StartupOptionsUnique(
      first, second, builder.additionalOptions, algorithm, driverName, driverVersion);
  }
}
