/**
 The throttled feedback update of the detection loop (EmotionDetector.jsx,
 line 18 and lines 130-143): at most once every 5000 ms a message is drawn
 from the dominant label's pool and shown, and the timestamp is moved on.
 */
module Feedback {
  import opened Wrappers
  import opened Expressions
  import opened FunnyTexts

  /** Milliseconds that must pass between two message changes. */
  const Interval: int := 5000

  /** `lastChangeRef.current` and the `topText` state. */
  datatype FeedbackState = FeedbackState(lastChange: int, topText: Option<Message>)

  /** At mount: the timestamp is the clock at first render, no message yet. */
  function Initial(mountedAt: int): FeedbackState
  {
    FeedbackState(mountedAt, None)
  }

  /** What the host supplies to one update: the clock read by the throttle
      test (line 137), the clock read stored as the new timestamp (line 141)
      and the value drawn by `Math.random` (line 139). */
  datatype Reading = Reading(checkedAt: int, stampedAt: int, draw: real)

  /** `Math.random` returns a value in [0, 1). */
  predicate ValidDraw(t: Reading)
  {
    0.0 <= t.draw < 1.0
  }

  /** The throttle test of line 137. */
  predicate Due(s: FeedbackState, t: Reading)
  {
    t.checkedAt - s.lastChange >= Interval
  }

  /** One feedback update for the dominant label (lines 137-142). */
  function Step(s: FeedbackState, dominant: Label, t: Reading): (s': FeedbackState)
    requires ValidDraw(t)
    ensures !Due(s, t) ==> s' == s
    ensures Due(s, t) ==> s'.lastChange == t.stampedAt
    ensures Due(s, t) ==> s'.topText.Some? && s'.topText.value in PoolFor(dominant)
  {
    if Due(s, t) then
      var pool := PoolFor(dominant);
      FeedbackState(t.stampedAt, Some(pool[RandomIndex(t.draw, |pool|)]))
    else
      s
  }

  /** The message shown after an update is from the dominant label's own list
      when the table has that label, and from the neutral list otherwise. */
  lemma StepDrawsFromLabelPool(s: FeedbackState, dominant: Label, t: Reading)
    requires ValidDraw(t) && Due(s, t)
    ensures Step(s, dominant, t).topText.Some?
    ensures dominant in Table ==> Step(s, dominant, t).topText.value.pool == dominant
    ensures dominant !in Table ==> Step(s, dominant, t).topText.value.pool == Fallback
  {
    PoolForOwner(dominant, Step(s, dominant, t).topText.value);
  }

  /** One detected face as the loop sees it: its expression entries (the
      geometry only feeds drawing, which is not modelled). */
  datatype Detection = Detection(expressions: seq<Entry>)

  /** Result of the block at lines 130-143: the new state, or the TypeError
      that `reduce` throws on an empty entry list. */
  datatype FrameOutcome = Updated(state: FeedbackState) | ReduceOfEmpty

  /** Lines 130-143 applied to the resized detections of one frame. */
  function FrameUpdate(s: FeedbackState, detections: seq<Detection>, t: Reading): (o: FrameOutcome)
    requires ValidDraw(t)
    ensures |detections| == 0 ==> o == Updated(s)
    ensures o.ReduceOfEmpty? <==> |detections| > 0 && |detections[0].expressions| == 0
    ensures o.Updated? && |detections| > 0 ==>
      o.state == Step(s, Dominant(detections[0].expressions).name, t)
  {
    if |detections| == 0 then Updated(s)
    else if |detections[0].expressions| == 0 then ReduceOfEmpty
    else Updated(Step(s, Dominant(detections[0].expressions).name, t))
  }

  /** One update moves the timestamp forward by at least the interval when
      it is due, and leaves it where it was otherwise. */
  lemma StepMovesForward(s: FeedbackState, dominant: Label, t: Reading)
    requires ValidDraw(t) && t.checkedAt <= t.stampedAt
    ensures Step(s, dominant, t).lastChange >= s.lastChange + (if Due(s, t) then Interval else 0)
    ensures !Due(s, t) ==> Step(s, dominant, t).lastChange == s.lastChange
  {
  }

  /** One frame that reached the update: its dominant label and readings. */
  datatype Input = Input(dominant: Label, reading: Reading)

  predicate AllDrawsValid(xs: seq<Input>)
  {
    forall i :: 0 <= i < |xs| ==> ValidDraw(xs[i].reading)
  }

  /** The state after a sequence of updates, applied in order. */
  function Run(s0: FeedbackState, xs: seq<Input>): FeedbackState
    requires AllDrawsValid(xs)
    decreases |xs|
  {
    if xs == [] then s0
    else
      var x := xs[|xs| - 1];
      Step(Run(s0, xs[..|xs| - 1]), x.dominant, x.reading)
  }

  /** The timestamps stored by the updates of a run that were due: each of
      them set a message (possibly the one already shown) and moved the
      timestamp. */
  function ChangeTimes(s0: FeedbackState, xs: seq<Input>): seq<int>
    requires AllDrawsValid(xs)
    decreases |xs|
  {
    if xs == [] then []
    else
      var front := xs[..|xs| - 1];
      var t := xs[|xs| - 1].reading;
      if Due(Run(s0, front), t) then ChangeTimes(s0, front) + [t.stampedAt]
      else ChangeTimes(s0, front)
  }

  /** Running one more update is one more step on the state reached so far. */
  lemma RunAppend(s0: FeedbackState, xs: seq<Input>, x: Input)
    requires AllDrawsValid(xs) && ValidDraw(x.reading)
    ensures AllDrawsValid(xs + [x])
    ensures Run(s0, xs + [x]) == Step(Run(s0, xs), x.dominant, x.reading)
  {
    assert (xs + [x])[..|xs|] == xs;
  }

  /** Updates whose throttle test falls within 5000 ms of the starting
      timestamp change nothing; in particular nothing is shown within the
      first 5000 ms after mount. */
  lemma {:induction false} QuietWithinInterval(s0: FeedbackState, xs: seq<Input>)
    requires AllDrawsValid(xs)
    requires forall i :: 0 <= i < |xs| ==> xs[i].reading.checkedAt - s0.lastChange < Interval
    ensures Run(s0, xs) == s0
    ensures ChangeTimes(s0, xs) == []
  {
    if xs != [] {
      QuietWithinInterval(s0, xs[..|xs| - 1]);
    }
  }

  /** The timestamp is the last stored change time (or the starting one),
      and the message is set exactly when some change happened. */
  lemma {:induction false} RunState(s0: FeedbackState, xs: seq<Input>)
    requires AllDrawsValid(xs)
    ensures var ts := ChangeTimes(s0, xs);
      Run(s0, xs).lastChange == (if ts == [] then s0.lastChange else ts[|ts| - 1])
    ensures ChangeTimes(s0, xs) == [] ==> Run(s0, xs).topText == s0.topText
    ensures ChangeTimes(s0, xs) != [] ==> Run(s0, xs).topText.Some?
  {
    if xs != [] {
      RunState(s0, xs[..|xs| - 1]);
    }
  }

  /** The host clock does not step back between the two reads of a frame. */
  predicate ClockForward(xs: seq<Input>)
  {
    forall i :: 0 <= i < |xs| ==> xs[i].reading.checkedAt <= xs[i].reading.stampedAt
  }

  /** Successive message changes are at least 5000 ms apart, and the first
      comes at least 5000 ms after the starting timestamp. */
  lemma {:induction false} ChangesAreSpaced(s0: FeedbackState, xs: seq<Input>)
    requires AllDrawsValid(xs) && ClockForward(xs)
    ensures var ts := ChangeTimes(s0, xs);
      |ts| > 0 ==> ts[0] >= s0.lastChange + Interval
    ensures var ts := ChangeTimes(s0, xs);
      forall i :: 0 < i < |ts| ==> ts[i] >= ts[i - 1] + Interval
  {
    if xs != [] {
      var front := xs[..|xs| - 1];
      ChangesAreSpaced(s0, front);
      RunState(s0, front);
    }
  }

  /** The timestamp never moves backwards over a run. */
  lemma {:induction false} LastChangeNeverDecreases(s0: FeedbackState, xs: seq<Input>)
    requires AllDrawsValid(xs) && ClockForward(xs)
    ensures Run(s0, xs).lastChange >= s0.lastChange
  {
    if xs != [] {
      LastChangeNeverDecreases(s0, xs[..|xs| - 1]);
    }
  }

  /** From mount on, the badge shows the status until the first message
      change and a feedback message from then on. */
  lemma BadgeShowsStatusUntilFirstChange(mountedAt: int, xs: seq<Input>, status: string)
    requires AllDrawsValid(xs)
    ensures BadgeText(Run(Initial(mountedAt), xs).topText, status) == ShowsStatus(status)
       <==> ChangeTimes(Initial(mountedAt), xs) == []
  {
    RunState(Initial(mountedAt), xs);
  }

  /** The feedback state of the component, updated in place. */
  class FeedbackSelector {
    var lastChange: int
    var topText: Option<Message>

    /** The clock at first render, the initial `lastChangeRef.current`. */
    ghost const mountedAt: int
    /** Every update so far, in order. */
    ghost var inputs: seq<Input>

    function State(): FeedbackState
      reads this
    {
      FeedbackState(lastChange, topText)
    }

    ghost predicate Valid()
      reads this
    {
      AllDrawsValid(inputs) && State() == Run(Initial(mountedAt), inputs)
    }

    /** `useRef(Date.now())` and `useState(null)`. */
    constructor (now: int)
      ensures Valid() && mountedAt == now && inputs == []
      ensures State() == Initial(now)
    {
      lastChange := now;
      topText := None;
      mountedAt := now;
      inputs := [];
    }

    /** Lines 137-142 for the dominant label of the first detection. */
    method Update(dominant: Label, t: Reading)
      requires Valid() && ValidDraw(t)
      modifies this
      ensures Valid() && inputs == old(inputs) + [Input(dominant, t)]
      ensures State() == Step(old(State()), dominant, t)
    {
      RunAppend(Initial(mountedAt), inputs, Input(dominant, t));
      if t.checkedAt - lastChange >= Interval {
        var pool := PoolFor(dominant);
        var randomText := pool[RandomIndex(t.draw, |pool|)];
        topText := Some(randomText);
        lastChange := t.stampedAt;
      }
      inputs := inputs + [Input(dominant, t)];
    }

    /** Lines 130-143: with no detection nothing happens; otherwise the
        dominant label of the first one is selected and the update runs.
        `ok` is false when `reduce` throws on an empty entry list. */
    method OnDetections(detections: seq<Detection>, t: Reading) returns (ok: bool)
      requires Valid() && ValidDraw(t)
      modifies this
      ensures Valid()
      ensures ok <==> FrameUpdate(old(State()), detections, t).Updated?
      ensures ok ==> FrameUpdate(old(State()), detections, t) == Updated(State())
      ensures !ok || |detections| == 0 ==> State() == old(State()) && inputs == old(inputs)
      ensures ok && |detections| > 0 ==>
        inputs == old(inputs) + [Input(Dominant(detections[0].expressions).name, t)]
    {
      if |detections| > 0 {
        var exps := detections[0].expressions;
        if |exps| == 0 {
          return false;
        }
        var dominant := Dominant(exps).name;
        Update(dominant, t);
      }
      ok := true;
    }
  }
}
