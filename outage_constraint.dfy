/**
 * The planned-outage constraint: a per-time observability mask built from the
 * outage windows of a configuration.
 *
 * Times are integers (seconds since 1970-01-01T00:00:00 UTC). A window is one
 * configuration record, which may or may not carry a "start" and an "end" key.
 * Two readings are given side by side: the literal one, which is what the code
 * computes, and the intended one, which its comment describes ("outside the
 * range is valid").
 */
module Outage {
  import opened Wrappers

  /** 1950-01-01T00:00:00, the lower sentinel time. */
  const MinTime := -631152000

  /** 2120-01-01T00:00:00, the upper sentinel time. */
  const MaxTime := 4733510400

  /** One outage record; None stands for a missing key. */
  datatype OutageWindow = OutageWindow(start: Option<int>, end: Option<int>)

  /** A configuration; `times` is None when the object has no `times` attribute. */
  datatype OutageConfig = OutageConfig(times: Option<seq<OutageWindow>>)

  /** InvalidTime: a time built from a missing key; MissingTimesAttribute: a configuration without `times`. */
  datatype OutageError = InvalidTime | MissingTimesAttribute

  predicate Complete(w: OutageWindow)
  {
    w.start.Some? && w.end.Some?
  }

  /** The windows a configuration lists, none if it lists nothing. */
  function ConfiguredWindows(config: OutageConfig): seq<OutageWindow>
  {
    config.times.GetOr([])
  }

  function AllTrue(n: nat): (m: seq<bool>)
    ensures |m| == n && forall i :: 0 <= i < n ==> m[i]
  {
    seq(n, i => true)
  }

  /** Elementwise conjunction of two aligned masks. */
  function AndMasks(a: seq<bool>, b: seq<bool>): (m: seq<bool>)
    requires |a| == |b|
    ensures |m| == |a| && forall i :: 0 <= i < |a| ==> (m[i] <==> a[i] && b[i])
  {
    seq(|a|, i requires 0 <= i < |a| => a[i] && b[i])
  }

  // ---------------------------------------------------------------------------
  // The code as written

  /**
   * One window's mask as the code computes it. The conditionals are inverted:
   * a window that has both keys gets the sentinel bounds (start 2120, end 1950),
   * and a missing key builds a time from None, which raises. The two half-lines
   * are then conjoined, so the window's own times play no part.
   */
  function LiteralWindowMask(w: OutageWindow, times: seq<int>): (r: Result<seq<bool>, OutageError>)
    ensures r.Failure? <==> !Complete(w)
    ensures r.Success? ==> |r.value| == |times|
    ensures r.Success? ==> forall i :: 0 <= i < |times| ==> (r.value[i] <==> MinTime < times[i] < MaxTime)
  {
    if w.start.None? || w.end.None? then Failure(InvalidTime)
    else
      var minOutTime, maxOutTime := MaxTime, MinTime;
      Success(seq(|times|, i requires 0 <= i < |times| => times[i] < minOutTime && times[i] > maxOutTime))
  }

  /** The fold over the windows, in order, starting from a mask that is true everywhere. */
  function LiteralFold(windows: seq<OutageWindow>, times: seq<int>): (r: Result<seq<bool>, OutageError>)
    ensures r.Success? ==> |r.value| == |times|
  {
    if windows == [] then Success(AllTrue(|times|))
    else
      match LiteralFold(windows[..|windows| - 1], times)
      case Failure(e) => Failure(e)
      case Success(mask) =>
        match LiteralWindowMask(windows[|windows| - 1], times)
        case Failure(e) => Failure(e)
        case Success(windowMask) => Success(AndMasks(mask, windowMask))
  }

  /** What the evaluation returns for a configuration, as written. */
  function LiteralMask(config: OutageConfig, times: seq<int>): (r: Result<seq<bool>, OutageError>)
    ensures config.times.None? ==> r == Failure(MissingTimesAttribute)
    ensures config.times.Some? ==>
      (r.Failure? <==> exists w :: w in config.times.value && !Complete(w))
    ensures r.Success? ==> |r.value| == |times|
  {
    match config.times
    case None => Failure(MissingTimesAttribute)
    case Some(windows) =>
      LiteralFoldCharacterized(windows, times);
      LiteralFold(windows, times)
  }

  /**
   * The literal fold fails exactly when some window lacks a key; otherwise every
   * entry is true when there are no windows and otherwise says only whether the
   * time lies strictly between the two sentinels.
   */
  lemma {:induction false} LiteralFoldCharacterized(windows: seq<OutageWindow>, times: seq<int>)
    ensures LiteralFold(windows, times).Failure? <==> exists w :: w in windows && !Complete(w)
    ensures LiteralFold(windows, times).Failure? ==> LiteralFold(windows, times).error == InvalidTime
    ensures LiteralFold(windows, times).Success? ==>
      var mask := LiteralFold(windows, times).value;
      |mask| == |times| &&
      forall i :: 0 <= i < |times| ==> (mask[i] <==> windows == [] || MinTime < times[i] < MaxTime)
  {
    if windows != [] {
      var init, last := windows[..|windows| - 1], windows[|windows| - 1];
      assert windows == init + [last];
      LiteralFoldCharacterized(init, times);
      if LiteralFold(init, times).Failure? {
        var w :| w in init && !Complete(w);
        assert w in windows;
      } else if !Complete(last) {
        assert last in windows;
      } else {
        forall w | w in windows ensures Complete(w) {
          if w != last {
            assert w in init;
          }
        }
      }
    }
  }

  /** Adding a window only conjoins: no entry goes from false to true. */
  lemma LiteralFoldMonotone(windows: seq<OutageWindow>, w: OutageWindow, times: seq<int>)
    requires LiteralFold(windows + [w], times).Success?
    ensures LiteralFold(windows, times).Success?
    ensures |LiteralFold(windows + [w], times).value| == |LiteralFold(windows, times).value|
    ensures forall i :: 0 <= i < |LiteralFold(windows, times).value| ==>
      LiteralFold(windows + [w], times).value[i] ==> LiteralFold(windows, times).value[i]
  {
    assert (windows + [w])[..|windows|] == windows;
  }

  /** The order of the windows does not matter. */
  lemma LiteralFoldOrderIndependent(windows: seq<OutageWindow>, windows': seq<OutageWindow>, times: seq<int>)
    requires multiset(windows) == multiset(windows')
    ensures LiteralFold(windows, times) == LiteralFold(windows', times)
  {
    LiteralFoldCharacterized(windows, times);
    LiteralFoldCharacterized(windows', times);
    assert forall w :: w in windows <==> w in multiset(windows);
    assert forall w :: w in windows' <==> w in multiset(windows');
    assert windows == [] <==> windows' == [] by {
      assert |windows| == |multiset(windows)| == |multiset(windows')| == |windows'|;
    }
    if LiteralFold(windows, times).Success? {
      var m, m' := LiteralFold(windows, times).value, LiteralFold(windows', times).value;
      assert |m| == |m'|;
      assert forall i :: 0 <= i < |m| ==> m[i] == m'[i];
      assert m == m';
    }
  }

  // ---------------------------------------------------------------------------
  // The intended reading

  /**
   * A time is valid for a window when it lies strictly before the window's start
   * or strictly after its end. A missing start counts as the upper sentinel and a
   * missing end as the lower one.
   */
  predicate IntendedWindowValid(w: OutageWindow, t: int)
  {
    t < w.start.GetOr(MaxTime) || t > w.end.GetOr(MinTime)
  }

  /** The fold with the intended window test, entry by entry. */
  function IntendedFold(windows: seq<OutageWindow>, times: seq<int>): (mask: seq<bool>)
    ensures |mask| == |times|
  {
    if windows == [] then AllTrue(|times|)
    else
      var last := windows[|windows| - 1];
      AndMasks(IntendedFold(windows[..|windows| - 1], times),
               seq(|times|, i requires 0 <= i < |times| => IntendedWindowValid(last, times[i])))
  }

  /** The intended mask of a configuration; a configuration that lists nothing blocks nothing. */
  function IntendedMask(config: OutageConfig, times: seq<int>): seq<bool>
  {
    IntendedFold(ConfiguredWindows(config), times)
  }

  /** An entry of the intended mask is true exactly when its time is valid for every window. */
  lemma {:induction false} IntendedFoldCharacterized(windows: seq<OutageWindow>, times: seq<int>)
    ensures forall i :: 0 <= i < |times| ==>
      (IntendedFold(windows, times)[i] <==> forall w :: w in windows ==> IntendedWindowValid(w, times[i]))
  {
    if windows != [] {
      var init, last := windows[..|windows| - 1], windows[|windows| - 1];
      assert windows == init + [last];
      IntendedFoldCharacterized(init, times);
      forall i | 0 <= i < |times|
        ensures IntendedFold(windows, times)[i] <==> forall w :: w in windows ==> IntendedWindowValid(w, times[i])
      {
        if !IntendedFold(windows, times)[i] {
          if !IntendedWindowValid(last, times[i]) {
            assert last in windows;
          } else {
            var w :| w in init && !IntendedWindowValid(w, times[i]);
            assert w in windows;
          }
        }
      }
    }
  }

  /**
   * For windows with both keys: a time outside every window is observable, and
   * a time strictly inside some window is not.
   */
  lemma IntendedMaskOutsideInside(windows: seq<OutageWindow>, times: seq<int>, i: int)
    requires 0 <= i < |times|
    requires forall w :: w in windows ==> Complete(w)
    ensures (forall w :: w in windows && Complete(w) ==> times[i] < w.start.value || times[i] > w.end.value)
            ==> IntendedFold(windows, times)[i]
    ensures (exists w :: w in windows && Complete(w) && w.start.value < times[i] < w.end.value)
            ==> !IntendedFold(windows, times)[i]
  {
    IntendedFoldCharacterized(windows, times);
  }

  /** With no windows every time is observable. */
  lemma IntendedMaskEmpty(config: OutageConfig, times: seq<int>)
    requires ConfiguredWindows(config) == []
    ensures IntendedMask(config, times) == AllTrue(|times|)
  {
  }

  /** Adding a window never turns an entry from false to true. */
  lemma IntendedFoldMonotone(windows: seq<OutageWindow>, w: OutageWindow, times: seq<int>)
    ensures forall i :: 0 <= i < |times| ==> IntendedFold(windows + [w], times)[i] ==> IntendedFold(windows, times)[i]
  {
    assert (windows + [w])[..|windows|] == windows;
  }

  /** The order of the windows does not matter. */
  lemma IntendedFoldOrderIndependent(windows: seq<OutageWindow>, windows': seq<OutageWindow>, times: seq<int>)
    requires multiset(windows) == multiset(windows')
    ensures IntendedFold(windows, times) == IntendedFold(windows', times)
  {
    IntendedFoldCharacterized(windows, times);
    IntendedFoldCharacterized(windows', times);
    assert forall w :: w in windows <==> w in multiset(windows);
    assert forall w :: w in windows' <==> w in multiset(windows');
  }

  /**
   * One window from 2024-01-01 to 2024-01-05, evaluated at 2024-01-03 and
   * 2024-02-01: the intended mask is [false, true]; the literal one is
   * [true, true], since both times lie between the sentinels.
   */
  lemma LiteralAndIntendedDisagree()
    ensures var windows := [OutageWindow(Some(1704067200), Some(1704412800))];
      var times := [1704240000, 1706745600];
      LiteralFold(windows, times) == Success([true, true]) && IntendedFold(windows, times) == [false, true]
  {
    var windows := [OutageWindow(Some(1704067200), Some(1704412800))];
    var times := [1704240000, 1706745600];
    assert windows[..0] == [];
    assert LiteralFold(windows, times).value == [true, true];
    assert IntendedFold(windows, times) == [false, true];
  }

  // ---------------------------------------------------------------------------
  // The constraint object

  /** The configuration used when none is given: an empty dictionary, which has no `times` attribute. */
  function DefaultOutageConfig(): (c: OutageConfig)
    ensures ConfiguredWindows(c) == []
    ensures forall times :: LiteralMask(c, times) == Failure(MissingTimesAttribute)
  {
    OutageConfig(None)
  }

  class TsoOutageConstraint {
    const outageConfig: OutageConfig

    /** Keeps the given configuration, or the default one when given None. */
    constructor(outageConfig: Option<OutageConfig>)
      ensures this.outageConfig == if outageConfig.Some? then outageConfig.value else DefaultOutageConfig()
    {
      this.outageConfig := if outageConfig.Some? then outageConfig.value else DefaultOutageConfig();
    }

    /** The evaluation as written: one pass over the windows, conjoining each window's mask. */
    method ComputeConstraint(times: seq<int>) returns (mask: Result<seq<bool>, OutageError>)
      ensures mask == LiteralMask(outageConfig, times)
    {
      if outageConfig.times.None? {
        return Failure(MissingTimesAttribute);
      }
      var windows := outageConfig.times.value;
      var m := AllTrue(|times|);
      for i := 0 to |windows|
        invariant LiteralFold(windows[..i], times) == Success(m)
      {
        assert windows[..i + 1][..i] == windows[..i];
        var windowMask := LiteralWindowMask(windows[i], times);
        if windowMask.Failure? {
          LiteralFoldCharacterized(windows[..i + 1], times);
          LiteralFoldCharacterized(windows, times);
          assert windows[i] in windows;
          return windowMask;
        }
        m := AndMasks(m, windowMask.value);
      }
      assert windows[..|windows|] == windows;
      mask := Success(m);
    }
  }
}
