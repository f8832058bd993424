/**
 * Properties of the STARTUP option builder that relate several operations:
 * what the accumulator holds after any sequence of `withAdditionalOptions`
 * calls, what reaches the built map from a caller, and why two builds agree.
 */
module StartupOptionsProperties {
  import opened Wrappers
  import opened JavaStrings
  import opened StartupOptions

  /** The `withAdditionalOptions` argument `call` carries an entry for `key`. */
  predicate Supplies(call: Option<Options>, key: string) {
    call.Some? && key in call.value
  }

  /** Call `i` is the last call of `calls` that carries an entry for `key`. */
  predicate LastSupplier(calls: seq<Option<Options>>, key: string, i: int) {
    && 0 <= i < |calls|
    && Supplies(calls[i], key)
    && forall j :: i < j < |calls| ==> !Supplies(calls[j], key)
  }

  /** However many calls are made, no reserved key enters the accumulator. */
  lemma {:induction false} NoReservedKeyAfterCalls(acc: Options, calls: seq<Option<Options>>)
    requires FreeOfReserved(acc)
    ensures FreeOfReserved(AfterCalls(acc, calls))
    decreases |calls|
  {
    if calls != [] {
      NoReservedKeyAfterCalls(acc, calls[..|calls| - 1]);
    }
  }

  /**
   * After a sequence of calls, a reserved key, or one that no call supplied,
   * is present and valued exactly as it was before the calls.
   */
  lemma {:induction false} UnsuppliedKeyUnchanged(acc: Options, calls: seq<Option<Options>>, key: string)
    requires IsReserved(key) || forall i :: 0 <= i < |calls| ==> !Supplies(calls[i], key)
    ensures key in AfterCalls(acc, calls) <==> key in acc
    ensures key in acc ==> AfterCalls(acc, calls)[key] == acc[key]
    decreases |calls|
  {
    if calls != [] {
      var n := |calls| - 1;
      var init := calls[..n];
      assert forall i :: 0 <= i < n ==> init[i] == calls[i];
      UnsuppliedKeyUnchanged(acc, init, key);
      assert AfterCalls(acc, calls) == AfterCall(AfterCalls(acc, init), calls[n]);
    }
  }

  /**
   * After a sequence of calls, a non-reserved key that some call supplied
   * holds the value of the LAST call that supplied it, a `null` value
   * included.
   */
  lemma {:induction false} LastSupplierWins(acc: Options, calls: seq<Option<Options>>, key: string, i: int)
    requires !IsReserved(key) && LastSupplier(calls, key, i)
    ensures key in AfterCalls(acc, calls)
    ensures AfterCalls(acc, calls)[key] == calls[i].value[key]
    decreases |calls|
  {
    var n := |calls| - 1;
    var init := calls[..n];
    var prev := AfterCalls(acc, init);
    assert AfterCalls(acc, calls) == AfterCall(prev, calls[n]);
    if i < n {
      assert forall j :: 0 <= j < n ==> init[j] == calls[j];
      assert LastSupplier(init, key, i);
      LastSupplierWins(acc, init, key, i);
      assert !Supplies(calls[n], key);
    }
  }

  /**
   * Build's contract determines its result: two builds over the same
   * accumulator with the same algorithm and identity return equal maps.
   */
  lemma StartupOptionsUnique(o1: Options, o2: Options, acc: Options, algorithm: Option<string>,
                             driverName: string, driverVersion: string)
    requires IsStartupOptions(o1, acc, algorithm, driverName, driverVersion)
    requires IsStartupOptions(o2, acc, algorithm, driverName, driverVersion)
    ensures o1 == o2
  {
    forall k | k in o1
      ensures o1[k] == o2[k]
    {
      if k !in acc && k != DRIVER_NAME_KEY && k != DRIVER_VERSION_KEY {
        assert k == COMPRESSION_KEY;
      }
    }
  }

  /**
   * End to end: after one `withAdditionalOptions(options)` call, the built
   * map holds every non-reserved entry of `options` verbatim, while the
   * driver's name and version and the configured compression win over
   * whatever `options` gave for those keys, and `CQL_VERSION` is absent.
   */
  lemma CallerOptionsThroughBuild(acc: Options, options: Options, algorithm: Option<string>,
                                  driverName: string, driverVersion: string, built: Options)
    requires FreeOfReserved(acc)
    requires IsStartupOptions(built, Merged(acc, options), algorithm, driverName, driverVersion)
    ensures forall k :: k in options && !IsReserved(k) ==> k in built && built[k] == options[k]
    ensures built[DRIVER_NAME_KEY] == Some(driverName)
    ensures built[DRIVER_VERSION_KEY] == Some(driverVersion)
    ensures COMPRESSION_KEY in built <==> CompressionConfigured(algorithm)
    ensures COMPRESSION_KEY in built ==> built[COMPRESSION_KEY] == Some(Trim(algorithm.value))
    ensures CQL_VERSION_KEY !in built
  {
  }
}
