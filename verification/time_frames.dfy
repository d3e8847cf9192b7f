/** The "1Q / 1Y / 5Y / ALL" chart windows: a time frame names a number of
    trading days, and the view shows at most that many of the newest points. */
module TimeFrames {

  /** Trading days in one quarter (`quarterDuration`). */
  const QuarterDays: nat := 63

  datatype TimeFrame = OneQuarter | OneYear | FiveYears | All | Unknown(name: string)

  /** `mapping[timeFrame] || fullLength`: frames without a fixed length show the whole series. */
  function SliceDays(frame: TimeFrame, fullLength: nat): nat
  {
    match frame
    case OneQuarter => QuarterDays
    case OneYear => 252
    case FiveYears => 1260
    case All => fullLength
    case Unknown(_) => fullLength
  }

  /** `sim.slice(fullLength > sliceDays ? fullLength - sliceDays : 0)`. */
  function Trailing<T>(s: seq<T>, frame: TimeFrame): (r: seq<T>)
    ensures |r| == if |s| < SliceDays(frame, |s|) then |s| else SliceDays(frame, |s|)
    ensures r == s[|s| - |r|..]
  {
    var sliceDays := SliceDays(frame, |s|);
    var startIdx := if |s| > sliceDays then |s| - sliceDays else 0;
    s[startIdx..]
  }

  /** "ALL" and any frame name the table does not know show every point, and a
      series no longer than the frame is shown whole. */
  lemma TrailingWhole<T>(s: seq<T>, frame: TimeFrame)
    requires frame.All? || frame.Unknown? || |s| <= SliceDays(frame, |s|)
    ensures Trailing(s, frame) == s
  {
  }

  /** A non-empty series always shows a non-empty window that ends with its newest point. */
  lemma TrailingKeepsNewest<T>(s: seq<T>, frame: TimeFrame)
    requires |s| > 0
    ensures |Trailing(s, frame)| > 0
    ensures Trailing(s, frame)[|Trailing(s, frame)| - 1] == s[|s| - 1]
  {
    var r := Trailing(s, frame);
    if frame.All? || frame.Unknown? {
      assert r == s;
    } else {
      assert SliceDays(frame, |s|) > 0;
    }
  }
}
