/**
 * The mashup selector's skip buttons: "next" and "previous" hand a new
 * mashup index to the page's setTrackIndex.  The page shows `trackLimit`
 * mashups, 3 of them, starting at index 0.
 */
module MashupSelector {
  import opened Division

  /** The number of mashups the page shows. */
  const TrackLimit: nat := 3

  const InitialIndex: nat := 0

  /** The "next tracks" button. */
  function Next(trackIndex: nat, trackLimit: nat): (r: nat)
    requires trackLimit > 0
    ensures r < trackLimit
  {
    (trackIndex + 1) % trackLimit
  }

  /** The "previous tracks" button as written: no modulo is taken. */
  function PreviousAsWritten(trackIndex: nat, trackLimit: nat): int {
    trackLimit + trackIndex - 1
  }

  /** The "previous tracks" button as evidently intended: one step back,
    * wrapping from the first mashup to the last. */
  function Previous(trackIndex: nat, trackLimit: nat): (r: nat)
    requires trackLimit > 0
    ensures r < trackLimit
  {
    (trackLimit + trackIndex - 1) % trackLimit
  }

  /** "next" moves one mashup on, from the last back to the first. */
  lemma NextSteps(trackIndex: nat, trackLimit: nat)
    requires trackIndex < trackLimit
    ensures trackIndex + 1 < trackLimit ==> Next(trackIndex, trackLimit) == trackIndex + 1
    ensures trackIndex + 1 == trackLimit ==> Next(trackIndex, trackLimit) == 0
  {
    if trackIndex + 1 < trackLimit {
      ModBlock(0, trackLimit, trackIndex + 1);
    } else {
      ModBlock(1, trackLimit, 0);
    }
  }

  /** The intended "previous" moves one mashup back, from the first to the
    * last. */
  lemma PreviousSteps(trackIndex: nat, trackLimit: nat)
    requires trackIndex < trackLimit
    ensures trackIndex > 0 ==> Previous(trackIndex, trackLimit) == trackIndex - 1
    ensures trackIndex == 0 ==> Previous(trackIndex, trackLimit) == trackLimit - 1
  {
    if trackIndex > 0 {
      ModBlock(1, trackLimit, trackIndex - 1);
    } else {
      ModBlock(0, trackLimit, trackLimit - 1);
    }
  }

  /** `n` presses of "next". */
  function NextTimes(trackIndex: nat, trackLimit: nat, n: nat): nat
    requires trackLimit > 0
  {
    if n == 0 then trackIndex else Next(NextTimes(trackIndex, trackLimit, n - 1), trackLimit)
  }

  /** Up to `limit` presses of "next" from a valid index go round the mashups
    * once: n presses land n places on, wrapping past the last. */
  lemma {:induction false} NextTimesIsOffset(trackIndex: nat, trackLimit: nat, n: nat)
    requires trackIndex < trackLimit && n <= trackLimit
    ensures NextTimes(trackIndex, trackLimit, n)
              == if trackIndex + n < trackLimit then trackIndex + n else trackIndex + n - trackLimit
  {
    if n > 0 {
      NextTimesIsOffset(trackIndex, trackLimit, n - 1);
      NextSteps(NextTimes(trackIndex, trackLimit, n - 1), trackLimit);
    }
  }

  /** Pressing "next" `limit` times from a valid index returns to it. */
  lemma NextCycles(trackIndex: nat, trackLimit: nat)
    requires trackIndex < trackLimit
    ensures NextTimes(trackIndex, trackLimit, trackLimit) == trackIndex
  {
    NextTimesIsOffset(trackIndex, trackLimit, trackLimit);
  }

  /** As written, "previous" from the first mashup reaches the last, but from
    * any other index it leaves the range of mashups. */
  lemma PreviousAsWrittenLeavesRange(trackIndex: nat, trackLimit: nat)
    requires trackLimit > 0
    ensures PreviousAsWritten(0, trackLimit) == trackLimit - 1
    ensures trackIndex >= 1 ==> PreviousAsWritten(trackIndex, trackLimit) >= trackLimit
  {
  }

  /** With the page's three mashups, "next" then "previous" from the first
    * mashup asks for mashup index 3, which does not exist. */
  lemma PreviousAsWrittenOnPage()
    ensures Next(InitialIndex, TrackLimit) == 1
    ensures PreviousAsWritten(Next(InitialIndex, TrackLimit), TrackLimit) == 3 == TrackLimit
  {
    NextSteps(InitialIndex, TrackLimit);
  }

  /** The intended "previous" undoes "next" and is undone by it. */
  lemma PreviousInvertsNext(trackIndex: nat, trackLimit: nat)
    requires trackIndex < trackLimit
    ensures Previous(Next(trackIndex, trackLimit), trackLimit) == trackIndex
    ensures Next(Previous(trackIndex, trackLimit), trackLimit) == trackIndex
  {
    NextSteps(trackIndex, trackLimit);
    PreviousSteps(Next(trackIndex, trackLimit), trackLimit);
    PreviousSteps(trackIndex, trackLimit);
    NextSteps(Previous(trackIndex, trackLimit), trackLimit);
  }

  /** The intended "previous" agrees with the written one where the written
    * one stays in range: at the first mashup. */
  lemma PreviousAgreesAtFirst(trackLimit: nat)
    requires trackLimit > 0
    ensures Previous(0, trackLimit) == PreviousAsWritten(0, trackLimit)
  {
    PreviousSteps(0, trackLimit);
  }
}
