/**
 * The option map a CQL driver sends in the protocol's STARTUP message, and the
 * builder that assembles it: caller-supplied options are accumulated under a
 * filter that drops the four reserved keys, and `Build` combines them with the
 * negotiated compression algorithm and the driver's own name and version.
 *
 * A Java `null` value stored for a key is `None`; a missing key is a key that
 * is not in the map.
 */
module StartupOptions {
  import opened Wrappers
  import opened JavaStrings

  /** A STARTUP option map; values may be `null` (`None`). */
  type Options = map<string, Option<string>>

  const DRIVER_NAME_KEY: string := "DRIVER_NAME"
  const DRIVER_VERSION_KEY: string := "DRIVER_VERSION"
  /** The protocol's compression key (`Startup.COMPRESSION_KEY`). */
  const COMPRESSION_KEY: string := "COMPRESSION"
  /** The protocol's version key (`Startup.CQL_VERSION_KEY`). */
  const CQL_VERSION_KEY: string := "CQL_VERSION"

  /** The keys the driver derives itself, which callers may not set. */
  predicate IsReserved(key: string) {
    || key == DRIVER_NAME_KEY
    || key == DRIVER_VERSION_KEY
    || key == COMPRESSION_KEY
    || key == CQL_VERSION_KEY
  }

  /** No reserved key is present. */
  predicate FreeOfReserved(options: Options) {
    forall k :: k in options ==> !IsReserved(k)
  }

  /**
   * The accumulator after merging `options` into `acc`: every non-reserved
   * entry of `options` is written (overwriting), reserved ones are dropped,
   * and every other entry of `acc` is kept.
   */
  function Merged(acc: Options, options: Options): (r: Options)
    ensures forall k :: k in r <==> k in acc || (k in options && !IsReserved(k))
    ensures forall k :: k in options && !IsReserved(k) ==> r[k] == options[k]
    ensures forall k :: k in acc && (k !in options || IsReserved(k)) ==> r[k] == acc[k]
  {
    acc + map k | k in options && !IsReserved(k) :: options[k]
  }

  /** Merging one more entry writes it, unless its key is reserved. */
  lemma MergedOneMore(acc: Options, done: Options, key: string, value: Option<string>)
    ensures Merged(acc, done[key := value])
         == if IsReserved(key) then Merged(acc, done) else Merged(acc, done)[key := value]
  {
  }

  /** One `withAdditionalOptions` call on an accumulator; `None` is a `null` argument. */
  function AfterCall(acc: Options, options: Option<Options>): (r: Options)
    ensures FreeOfReserved(acc) ==> FreeOfReserved(r)
    ensures acc.Keys <= r.Keys
  {
    match options
    case None => acc
    case Some(m) => Merged(acc, m)
  }

  /** The accumulator after a sequence of `withAdditionalOptions` calls, in order. */
  function AfterCalls(acc: Options, calls: seq<Option<Options>>): (r: Options)
    decreases |calls|
  {
    if calls == [] then acc
    else AfterCall(AfterCalls(acc, calls[..|calls| - 1]), calls[|calls| - 1])
  }

  /** The algorithm is present and `trim()` leaves something of it. */
  predicate CompressionConfigured(algorithm: Option<string>) {
    algorithm.Some? && !AllTrimmed(algorithm.value)
  }

  /**
   * What `build()` returns for accumulator `acc`: the compression key only
   * when an algorithm is configured (holding the trimmed algorithm), the
   * driver's name and version, and every accumulator entry verbatim; nothing
   * else.
   */
  ghost predicate IsStartupOptions(options: Options, acc: Options, algorithm: Option<string>,
                                   driverName: string, driverVersion: string)
  {
    && options.Keys == acc.Keys + {DRIVER_NAME_KEY, DRIVER_VERSION_KEY}
                       + (if CompressionConfigured(algorithm) then {COMPRESSION_KEY} else {})
    && (COMPRESSION_KEY in options <==> CompressionConfigured(algorithm))
    && (CompressionConfigured(algorithm) ==>
          COMPRESSION_KEY in options && options[COMPRESSION_KEY] == Some(Trim(algorithm.value)))
    && DRIVER_NAME_KEY in options && options[DRIVER_NAME_KEY] == Some(driverName)
    && DRIVER_VERSION_KEY in options && options[DRIVER_VERSION_KEY] == Some(driverVersion)
    && (forall k :: k in acc ==> k in options && options[k] == acc[k])
  }

  /**
   * Builds the STARTUP options of one connection. The compressor's algorithm
   * and the driver's identity are inputs of `Build`.
   */
  class StartupOptionsBuilder {
    /** The caller-supplied options gathered so far. */
    var additionalOptions: Options

    /** The accumulator never holds a reserved key. */
    predicate Valid()
      reads this
    {
      FreeOfReserved(additionalOptions)
    }

    constructor ()
      ensures Valid() && additionalOptions == map[]
    {
      additionalOptions := map[];
    }

    /**
     * Adds the non-reserved entries of `options` to the accumulator, one entry
     * at a time; a `null` argument changes nothing. Returns the builder itself.
     */
    method WithAdditionalOptions(options: Option<Options>) returns (self: StartupOptionsBuilder)
      requires Valid()
      modifies this
      ensures Valid() && self == this
      ensures additionalOptions == AfterCall(old(additionalOptions), options)
    {
      if options.Some? {
        var entries := options.value;
        var remaining := entries.Keys;
        while remaining != {}
          invariant remaining <= entries.Keys
          invariant additionalOptions == Merged(old(additionalOptions), entries - remaining)
          decreases remaining
        {
          var key :| key in remaining;
          var value := entries[key];
          if !IsReserved(key) {
            additionalOptions := additionalOptions[key := value];
          }
          assert entries - (remaining - {key}) == (entries - remaining)[key := value];
          MergedOneMore(old(additionalOptions), entries - remaining, key, value);
          remaining := remaining - {key};
        }
        assert entries - remaining == entries;
      }
      self := this;
    }

    /**
     * The option map of one STARTUP message: first the trimmed compression
     * algorithm when one is configured, then the driver's name and version,
     * then the accumulated options. Changes nothing.
     */
    method Build(algorithm: Option<string>, driverName: string, driverVersion: string)
      returns (options: Options)
      requires Valid()
      ensures IsStartupOptions(options, additionalOptions, algorithm, driverName, driverVersion)
      ensures CQL_VERSION_KEY !in options
    {
      var builder: Options := map[];
      if algorithm.Some? && Trim(algorithm.value) != [] {
        builder := builder[COMPRESSION_KEY := Some(Trim(algorithm.value))];
      }
      builder := builder[DRIVER_NAME_KEY := Some(driverName)][DRIVER_VERSION_KEY := Some(driverVersion)];
      options := builder + additionalOptions;
      if algorithm.Some? {
        TrimEmptyIff(algorithm.value);
      }
    }
  }
}
