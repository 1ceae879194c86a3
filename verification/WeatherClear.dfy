/** The convergence loop that proves a cleared simulator sky:
    scripts/xplane_weather_clear.py. Each element of `frames` is what one turn
    of the loop received before the deadline, possibly nothing. */
module WeatherClear {

  // ---- values ---------------------------------------------------------------

  /** A Python float; both zeros are `Finite(0.0)`. */
  datatype Float = Finite(value: real) | NaN | PosInf | NegInf

  type Values = map<int, Float>

  const RESPONSE_GENERATION := 103
  const APPLIED_GENERATION := 104
  const RESPONSE_OPERATION := 105
  const RESPONSE_WIND_SPEED := 106
  const RESPONSE_WIND_DIRECTION := 107
  const RESPONSE_TURBULENCE := 108
  const STATUS := 109
  const ACTUAL_SPEED := 110
  const ACTUAL_VERTICAL := 111
  const ACTUAL_TURBULENCE_PROFILE_MAX := 112

  const ACTUAL_REFS := {ACTUAL_SPEED, ACTUAL_VERTICAL, ACTUAL_TURBULENCE_PROFILE_MAX}

  const CLEAR_STATUS := 3.0
  const CLEAR_OPERATION := 2.0
  const WIND_TOLERANCE_MPS := 0.5
  const TURBULENCE_TOLERANCE := 0.05
  const REQUIRED_CALM_SAMPLES := 3

  predicate Is(values: Values, key: int, value: real) {
    key in values && values[key] == Finite(value)
  }

  predicate Below(f: Float, bound: real) {
    f == NegInf || (f.Finite? && f.value < bound)
  }

  function Actuals(update: Values): Values {
    map key | key in update && key in ACTUAL_REFS :: update[key]
  }

  function Responses(update: Values): Values {
    map key | key in update && key !in ACTUAL_REFS :: update[key]
  }

  predicate ResponseIsClear(values: Values, generation: nat) {
    && Is(values, RESPONSE_GENERATION, generation as real)
    && Is(values, APPLIED_GENERATION, generation as real)
    && Is(values, RESPONSE_OPERATION, CLEAR_OPERATION)
    && Is(values, RESPONSE_WIND_SPEED, 0.0)
    && Is(values, RESPONSE_WIND_DIRECTION, 0.0)
    && Is(values, RESPONSE_TURBULENCE, 0.0)
    && Is(values, STATUS, CLEAR_STATUS)
  }

  predicate Refuses(values: Values, generation: nat) {
    && Is(values, RESPONSE_GENERATION, generation as real)
    && STATUS in values && Below(values[STATUS], 0.0)
  }

  predicate Complete(actual: Values) {
    ACTUAL_REFS <= actual.Keys
  }

  predicate ActualIsCalm(values: Values) {
    if !(ACTUAL_SPEED in values && ACTUAL_VERTICAL in values && ACTUAL_TURBULENCE_PROFILE_MAX in values) then false
    else if !(values[ACTUAL_SPEED].Finite? && values[ACTUAL_VERTICAL].Finite?
              && values[ACTUAL_TURBULENCE_PROFILE_MAX].Finite?) then false
    else
      && 0.0 <= values[ACTUAL_SPEED].value <= WIND_TOLERANCE_MPS
      && -WIND_TOLERANCE_MPS <= values[ACTUAL_VERTICAL].value <= WIND_TOLERANCE_MPS
      && 0.0 <= values[ACTUAL_TURBULENCE_PROFILE_MAX].value <= TURBULENCE_TOLERANCE
  }

  // ---- the loop -------------------------------------------------------------

  datatype Outcome = Cleared | Refused | AcknowledgementChanged | DidNotConverge

  /** Where the loop stands after some frames: `acknowledged` is the number of
      the frame that completed the acknowledgement. */
  datatype Progress =
    | Waiting(response: Values, acknowledged: int, actual: Values, calm: nat)
    | Ended(outcome: Outcome, used: nat)

  const BEGIN := Waiting(map[], -1, map[], 0)

  /** One turn, for the frame numbered `index`. */
  function Turn(p: Progress, update: Values, index: nat, generation: nat): Progress
    requires p.Waiting?
  {
    var response := p.response + Responses(update);
    if Refuses(response, generation) then Ended(Refused, index + 1)
    else if p.acknowledged < 0 then
      if ResponseIsClear(response, generation) then Waiting(response, index, map[], p.calm)
      else p.(response := response)
    else if !ResponseIsClear(response, generation) then Ended(AcknowledgementChanged, index + 1)
    else
      var actual := p.actual + Actuals(update);
      if Complete(actual) then
        var calm := if ActualIsCalm(actual) then p.calm + 1 else 0;
        if calm == REQUIRED_CALM_SAMPLES then Ended(Cleared, index + 1)
        else Waiting(response, p.acknowledged, map[], calm)
      else Waiting(response, p.acknowledged, actual, p.calm)
  }

  function After(frames: seq<Values>, generation: nat): Progress {
    if frames == [] then BEGIN
    else
      var before := After(frames[..|frames| - 1], generation);
      if before.Ended? then before else Turn(before, frames[|frames| - 1], |frames| - 1, generation)
  }

  /** The loop ends with the frames it used, or when the deadline passes. */
  function OutcomeOf(frames: seq<Values>, generation: nat): (Outcome, nat) {
    var p := After(frames, generation);
    if p.Ended? then (p.outcome, p.used) else (DidNotConverge, |frames|)
  }

  method WaitForClear(frames: seq<Values>, generation: nat) returns (outcome: Outcome, used: nat)
    ensures (outcome, used) == OutcomeOf(frames, generation)
  {
    hide ResponseIsClear, Refuses, ActualIsCalm, Complete;
    var response: Values := map[];
    var actual: Values := map[];
    var ackSeen := false;
    var calmSamples := 0;
    ghost var acknowledged := -1;
    used := 0;
    while used < |frames|
      invariant 0 <= used <= |frames|
      invariant ackSeen <==> acknowledged >= 0
      invariant calmSamples >= 0
      invariant After(frames[..used], generation) == Waiting(response, acknowledged, actual, calmSamples)
    {
      var update := frames[used];
      ghost var before := Waiting(response, acknowledged, actual, calmSamples);
      assert frames[..used + 1][..used] == frames[..used];
      assert After(frames[..used + 1], generation) == Turn(before, update, used, generation);
      if Turn(before, update, used, generation).Ended? {
        EndedStays(frames, used + 1, generation);
      }
      used := used + 1;
      response := response + Responses(update);
      if Refuses(response, generation) {
        return Refused, used;
      }
      if !ackSeen {
        if ResponseIsClear(response, generation) {
          ackSeen := true;
          actual := map[];
          acknowledged := used - 1;
        }
        continue;
      }
      if !ResponseIsClear(response, generation) {
        return AcknowledgementChanged, used;
      }
      actual := actual + Actuals(update);
      if Complete(actual) {
        calmSamples := if ActualIsCalm(actual) then calmSamples + 1 else 0;
        actual := map[];
        if calmSamples == REQUIRED_CALM_SAMPLES {
          return Cleared, used;
        }
      }
    }
    assert frames[..used] == frames;
    return DidNotConverge, used;
  }

  lemma {:induction false} EndedStays(frames: seq<Values>, n: nat, generation: nat)
    requires n <= |frames| && After(frames[..n], generation).Ended?
    ensures After(frames, generation) == After(frames[..n], generation)
    decreases |frames|
  {
    if n < |frames| {
      var front := frames[..|frames| - 1];
      assert front[..n] == frames[..n];
      EndedStays(front, n, generation);
    } else {
      assert frames[..n] == frames;
    }
  }

  // ---- what a run must show -------------------------------------------------

  /** Everything the simulator has answered over the frames, newest first to win. */
  function Answered(frames: seq<Values>): Values {
    if frames == [] then map[] else Answered(frames[..|frames| - 1]) + Responses(frames[|frames| - 1])
  }

  /** Measurements since the last complete observation. */
  function Partial(frames: seq<Values>): Values {
    if frames == [] then map[]
    else
      var merged := Partial(frames[..|frames| - 1]) + Actuals(frames[|frames| - 1]);
      if Complete(merged) then map[] else merged
  }

  /** The complete observations, in order: each is gathered from the frames
      after the one before. */
  function Observations(frames: seq<Values>): seq<Values> {
    if frames == [] then []
    else
      var before := Observations(frames[..|frames| - 1]);
      var merged := Partial(frames[..|frames| - 1]) + Actuals(frames[|frames| - 1]);
      if Complete(merged) then before + [merged] else before
  }

  predicate LastThreeAreCalm(observations: seq<Values>) {
    var n := |observations|;
    n >= 3 && ActualIsCalm(observations[n - 1]) && ActualIsCalm(observations[n - 2])
      && ActualIsCalm(observations[n - 3])
  }

  /** The answers up to frame `i` are the acknowledgement. */
  predicate ClearAt(frames: seq<Values>, i: nat, generation: nat)
    requires i < |frames|
  {
    ResponseIsClear(Answered(frames[..i + 1]), generation)
  }

  predicate RefusedAt(frames: seq<Values>, i: nat, generation: nat)
    requires i < |frames|
  {
    Refuses(Answered(frames[..i + 1]), generation)
  }

  ghost predicate FirstAcknowledges(frames: seq<Values>, k: nat, generation: nat) {
    k < |frames| && ClearAt(frames, k, generation) && forall i :: 0 <= i < k ==> !ClearAt(frames, i, generation)
  }

  ghost predicate NeverAcknowledged(frames: seq<Values>, generation: nat) {
    forall i :: 0 <= i < |frames| ==> !ClearAt(frames, i, generation)
  }

  ghost predicate NeverRefused(frames: seq<Values>, generation: nat) {
    forall i :: 0 <= i < |frames| ==> !RefusedAt(frames, i, generation)
  }

  ghost predicate StaysClear(frames: seq<Values>, k: nat, generation: nat) {
    forall i :: k <= i < |frames| ==> ClearAt(frames, i, generation)
  }

  /** Frame `k` is the first to complete the acknowledgement, it holds ever
      after, the generation was never refused, and the last three observations
      complete since, from later frames only, are calm. */
  ghost predicate CalmProofFrom(frames: seq<Values>, k: nat, generation: nat) {
    && FirstAcknowledges(frames, k, generation)
    && NeverRefused(frames, generation)
    && StaysClear(frames, k, generation)
    && LastThreeAreCalm(Observations(frames[k + 1..]))
  }

  ghost predicate CalmProof(frames: seq<Values>, generation: nat) {
    exists k: nat :: CalmProofFrom(frames, k, generation)
  }

  function TrailingCalm(observations: seq<Values>): nat {
    if observations == [] || !ActualIsCalm(observations[|observations| - 1]) then 0
    else TrailingCalm(observations[..|observations| - 1]) + 1
  }

  lemma TrailingCalmCounts(observations: seq<Values>)
    ensures TrailingCalm(observations) >= 3 <==> LastThreeAreCalm(observations)
  {
    hide ActualIsCalm;
    var n := |observations|;
    if n >= 3 {
      var one, two := observations[..n - 1], observations[..n - 2];
      assert one[..n - 2] == two && two[..n - 3] == observations[..n - 3];
      assert TrailingCalm(one) == if ActualIsCalm(one[n - 2]) then TrailingCalm(two) + 1 else 0;
      assert TrailingCalm(two) == if ActualIsCalm(two[n - 3]) then TrailingCalm(observations[..n - 3]) + 1 else 0;
    } else {
      TrailingIsWithin(observations);
    }
  }

  lemma {:induction false} TrailingIsWithin(observations: seq<Values>)
    ensures TrailingCalm(observations) <= |observations|
  {
    if observations != [] {
      TrailingIsWithin(observations[..|observations| - 1]);
    }
  }

  lemma PrefixesAgree(frames: seq<Values>, n: nat, i: nat, generation: nat)
    requires i < n <= |frames|
    ensures ClearAt(frames[..n], i, generation) == ClearAt(frames, i, generation)
    ensures RefusedAt(frames[..n], i, generation) == RefusedAt(frames, i, generation)
  {
    assert frames[..n][..i + 1] == frames[..i + 1];
  }

  // ---- the loop tracks the proof --------------------------------------------

  /** What the loop's variables mean while it waits. */
  ghost predicate Tracks(p: Progress, frames: seq<Values>, generation: nat)
    requires p.Waiting?
  {
    && p.response == Answered(frames)
    && NeverRefused(frames, generation)
    && (if p.acknowledged < 0 then NeverAcknowledged(frames, generation) && p.calm == 0
        else
          && FirstAcknowledges(frames, p.acknowledged, generation)
          && StaysClear(frames, p.acknowledged, generation)
          && p.actual == Partial(frames[p.acknowledged + 1..])
          && p.calm == TrailingCalm(Observations(frames[p.acknowledged + 1..])) < 3)
  }

  lemma FirstAcknowledgesOnce(frames: seq<Values>, j: nat, k: nat, generation: nat)
    requires FirstAcknowledges(frames, j, generation) && FirstAcknowledges(frames, k, generation)
    ensures j == k
  {
    hide ClearAt;
  }

  lemma LastIsWhole(frames: seq<Values>, generation: nat)
    requires frames != []
    ensures ClearAt(frames, |frames| - 1, generation) == ResponseIsClear(Answered(frames), generation)
    ensures RefusedAt(frames, |frames| - 1, generation) == Refuses(Answered(frames), generation)
  {
    assert frames[..|frames| - 1 + 1] == frames;
  }

  // One more frame, in terms of the run.

  lemma NeverExtends(frames: seq<Values>, generation: nat)
    requires frames != []
    ensures var n := |frames| - 1;
      && (NeverRefused(frames, generation) <==>
          NeverRefused(frames[..n], generation) && !RefusedAt(frames, n, generation))
      && (NeverAcknowledged(frames, generation) <==>
          NeverAcknowledged(frames[..n], generation) && !ClearAt(frames, n, generation))
      && (FirstAcknowledges(frames, n, generation) <==>
          NeverAcknowledged(frames[..n], generation) && ClearAt(frames, n, generation))
  {
    hide RefusedAt, ClearAt;
    var n := |frames| - 1;
    forall i | 0 <= i < n
      ensures ClearAt(frames[..n], i, generation) == ClearAt(frames, i, generation)
      ensures RefusedAt(frames[..n], i, generation) == RefusedAt(frames, i, generation)
    {
      PrefixesAgree(frames, n, i, generation);
    }
  }

  lemma AcknowledgementExtends(frames: seq<Values>, k: nat, generation: nat)
    requires k < |frames| - 1
    ensures var n := |frames| - 1;
      && (FirstAcknowledges(frames, k, generation) <==> FirstAcknowledges(frames[..n], k, generation))
      && (StaysClear(frames, k, generation) <==>
          StaysClear(frames[..n], k, generation) && ClearAt(frames, n, generation))
  {
    hide ClearAt;
    var n := |frames| - 1;
    forall i | 0 <= i < n
      ensures ClearAt(frames[..n], i, generation) == ClearAt(frames, i, generation)
    {
      PrefixesAgree(frames, n, i, generation);
    }
  }

  lemma ObservationsExtend(frames: seq<Values>, k: nat)
    requires k < |frames| - 1
    ensures var front := frames[..|frames| - 1][k + 1..];
      var merged := Partial(front) + Actuals(frames[|frames| - 1]);
      && Partial(frames[k + 1..]) == (if Complete(merged) then map[] else merged)
      && Observations(frames[k + 1..]) ==
         (if Complete(merged) then Observations(front) + [merged] else Observations(front))
  {
    var later := frames[k + 1..];
    assert later[..|later| - 1] == frames[..|frames| - 1][k + 1..];
    assert later[|later| - 1] == frames[|frames| - 1];
    hide Complete, Actuals;
  }

  lemma TrailingExtends(observations: seq<Values>, observed: Values)
    ensures TrailingCalm(observations + [observed]) ==
      if ActualIsCalm(observed) then TrailingCalm(observations) + 1 else 0
  {
    assert (observations + [observed])[..|observations|] == observations;
    hide ActualIsCalm;
  }

  /** The observations since the acknowledgement, one frame on. */
  lemma ObservingTurn(p: Progress, frames: seq<Values>, k: nat)
    requires k < |frames| - 1 && p.Waiting?
    requires p.actual == Partial(frames[..|frames| - 1][k + 1..])
    requires p.calm == TrailingCalm(Observations(frames[..|frames| - 1][k + 1..])) < 3
    ensures var merged := p.actual + Actuals(frames[|frames| - 1]);
      var calm := if Complete(merged) then (if ActualIsCalm(merged) then p.calm + 1 else 0) else p.calm;
      && Partial(frames[k + 1..]) == (if Complete(merged) then map[] else merged)
      && TrailingCalm(Observations(frames[k + 1..])) == calm
      && (LastThreeAreCalm(Observations(frames[k + 1..])) <==> calm == 3)
  {
    ObservationsExtend(frames, k);
    TrailingExtends(Observations(frames[..|frames| - 1][k + 1..]), p.actual + Actuals(frames[|frames| - 1]));
    TrailingCalmCounts(Observations(frames[k + 1..]));
    hide *;
  }

  /** A turn after the acknowledgement keeps track of the run, and clears exactly
      when the run becomes a proof. */
  lemma AcknowledgedTurn(p: Progress, frames: seq<Values>, generation: nat)
    requires frames != [] && p.Waiting? && p.acknowledged >= 0
    requires Tracks(p, frames[..|frames| - 1], generation)
    ensures var t := Turn(p, frames[|frames| - 1], |frames| - 1, generation);
      && (t.Waiting? ==> Tracks(t, frames, generation))
      && ((t.Ended? && t.outcome == Cleared) <==> CalmProofFrom(frames, p.acknowledged, generation))
  {
    hide Refuses, ResponseIsClear, Responses, NeverRefused, NeverAcknowledged, StaysClear, ClearAt, RefusedAt, Complete,
         ActualIsCalm, Actuals;
    var n, k := |frames| - 1, p.acknowledged;
    assert k < n && Answered(frames) == p.response + Responses(frames[n]);
    hide FirstAcknowledges, Answered;
    LastIsWhole(frames, generation);
    NeverExtends(frames, generation);
    AcknowledgementExtends(frames, k, generation);
    hide Observations, Partial, TrailingCalm, LastThreeAreCalm;
    ObservingTurn(p, frames, k);
  }

  /** Before the acknowledgement too, and there it never clears. */
  lemma UnacknowledgedTurn(p: Progress, frames: seq<Values>, generation: nat)
    requires frames != [] && p.Waiting? && p.acknowledged < 0
    requires Tracks(p, frames[..|frames| - 1], generation)
    ensures var t := Turn(p, frames[|frames| - 1], |frames| - 1, generation);
      && (t.Waiting? ==> Tracks(t, frames, generation))
      && !(t.Ended? && t.outcome == Cleared) && !CalmProof(frames, generation)
  {
    hide Refuses, ResponseIsClear, Responses, NeverRefused, ClearAt, RefusedAt, Complete, ActualIsCalm, Actuals;
    var n := |frames| - 1;
    LastIsWhole(frames, generation);
    NeverExtends(frames, generation);
    assert Answered(frames) == p.response + Responses(frames[n]);
    assert frames[n + 1..] == [];
    assert ClearAt(frames, n, generation) ==> StaysClear(frames, n, generation);
    hide Answered, StaysClear;
    forall k: nat
      ensures !CalmProofFrom(frames, k, generation)
    {
      NoProofYet(frames, k, generation);
    }
    hide NeverAcknowledged, FirstAcknowledges, CalmProofFrom;
  }

  lemma NoProofYet(frames: seq<Values>, k: nat, generation: nat)
    requires frames != [] && NeverAcknowledged(frames[..|frames| - 1], generation)
    ensures !CalmProofFrom(frames, k, generation)
  {
    hide ClearAt, StaysClear, NeverRefused;
    if k < |frames| - 1 {
      PrefixesAgree(frames, |frames| - 1, k, generation);
      assert !ClearAt(frames[..|frames| - 1], k, generation);
    } else if k == |frames| - 1 {
      assert frames[k + 1..] == [];
    }
  }

  lemma TurnTracks(p: Progress, frames: seq<Values>, generation: nat)
    requires frames != [] && p.Waiting? && Tracks(p, frames[..|frames| - 1], generation)
    ensures var t := Turn(p, frames[|frames| - 1], |frames| - 1, generation);
      && (t.Waiting? ==> Tracks(t, frames, generation))
      && ((t.Ended? && t.outcome == Cleared) <==> CalmProof(frames, generation))
  {
    if p.acknowledged < 0 {
      UnacknowledgedTurn(p, frames, generation);
      hide Turn, Tracks, CalmProof;
    } else {
      AcknowledgedTurn(p, frames, generation);
      AcknowledgementExtends(frames, p.acknowledged, generation);
      forall k: nat | CalmProofFrom(frames, k, generation)
        ensures k == p.acknowledged
      {
        assert FirstAcknowledges(frames, p.acknowledged, generation);
        FirstAcknowledgesOnce(frames, k, p.acknowledged, generation);
      }
      hide Turn, Tracks, CalmProofFrom, FirstAcknowledges, NeverRefused, NeverAcknowledged, StaysClear, ClearAt;
    }
  }

  /** While the loop waits its variables track the run. */
  lemma {:induction false} WaitingTracks(frames: seq<Values>, generation: nat)
    requires After(frames, generation).Waiting?
    ensures Tracks(After(frames, generation), frames, generation)
    decreases |frames|
  {
    if frames != [] {
      var front := frames[..|frames| - 1];
      WaitingTracks(front, generation);
      TurnTracks(After(front, generation), frames, generation);
      hide Turn, Tracks;
    }
  }

  /** A proof is never refused and stays clear, so no prefix of it made the loop
      fail. */
  lemma FailureRulesOutProof(frames: seq<Values>, n: nat, generation: nat)
    requires n <= |frames| && After(frames[..n], generation).Ended? && After(frames[..n], generation).outcome != Cleared
    ensures !CalmProof(frames, generation)
    decreases n
  {
    if n > 0 {
      var front := frames[..n - 1];
      assert frames[..n][..n - 1] == front;
      if After(front, generation).Ended? {
        FailureRulesOutProof(frames, n - 1, generation);
      } else {
        WaitingTracks(front, generation);
        forall k: nat
          ensures !CalmProofFrom(frames, k, generation)
        {
          FailureContradicts(After(front, generation), frames, n, k, generation);
        }
        hide *;
      }
    }
  }

  lemma FailureContradicts(p: Progress, frames: seq<Values>, n: nat, k: nat, generation: nat)
    requires 0 < n <= |frames| && p.Waiting? && Tracks(p, frames[..n - 1], generation)
    requires Turn(p, frames[n - 1], n - 1, generation).Ended?
      && Turn(p, frames[n - 1], n - 1, generation).outcome != Cleared
    ensures !CalmProofFrom(frames, k, generation)
  {
    hide Refuses, ResponseIsClear, Responses, Complete, ActualIsCalm, Actuals, NeverAcknowledged;
    assert frames[..n][..n - 1] == frames[..n - 1];
    assert Answered(frames[..n]) == p.response + Responses(frames[n - 1]);
    assert ClearAt(frames, n - 1, generation) == ResponseIsClear(Answered(frames[..n]), generation);
    assert RefusedAt(frames, n - 1, generation) == Refuses(Answered(frames[..n]), generation);
    hide Answered, ClearAt, RefusedAt;
    assert RefusedAt(frames, n - 1, generation) || (p.acknowledged >= 0 && !ClearAt(frames, n - 1, generation));
    if p.acknowledged >= 0 {
      AcknowledgedEarlier(frames, n, p.acknowledged, k, generation);
    }
  }

  lemma AcknowledgedEarlier(frames: seq<Values>, n: nat, j: nat, k: nat, generation: nat)
    requires 0 < n <= |frames| && FirstAcknowledges(frames[..n - 1], j, generation)
    ensures FirstAcknowledges(frames, k, generation) ==> k <= j
  {
    PrefixesAgree(frames, n - 1, j, generation);
    hide ClearAt;
  }

  // ---- main results ---------------------------------------------------------

  ghost predicate NoProofWithin(frames: seq<Values>, generation: nat) {
    forall m :: 0 <= m <= |frames| ==> !CalmProof(frames[..m], generation)
  }

  ghost predicate FirstProofAt(frames: seq<Values>, generation: nat, n: nat) {
    && n <= |frames| && CalmProof(frames[..n], generation)
    && forall m :: 0 <= m < n ==> !CalmProof(frames[..m], generation)
  }

  lemma PrefixesExtend(frames: seq<Values>, generation: nat)
    requires frames != []
    ensures var front := frames[..|frames| - 1];
      && (NoProofWithin(front, generation) && !CalmProof(frames, generation) ==> NoProofWithin(frames, generation))
      && (NoProofWithin(front, generation) && CalmProof(frames, generation) ==>
          FirstProofAt(frames, generation, |frames|))
      && (forall n: nat :: FirstProofAt(front, generation, n) ==> FirstProofAt(frames, generation, n))
  {
    hide CalmProof;
    var n := |frames| - 1;
    assert forall m :: 0 <= m <= n ==> frames[..n][..m] == frames[..m];
    assert frames[..|frames|] == frames;
  }

  /** What the loop's state says about every prefix of the run. */
  ghost predicate Tells(p: Progress, frames: seq<Values>, generation: nat) {
    if p.Ended? && p.outcome == Cleared then FirstProofAt(frames, generation, p.used)
    else NoProofWithin(frames, generation)
  }

  lemma {:induction false} ProgressTells(frames: seq<Values>, generation: nat)
    ensures Tells(After(frames, generation), frames, generation)
    decreases |frames|
  {
    if frames == [] {
      assert !CalmProof([], generation);
    } else {
      var front := frames[..|frames| - 1];
      hide CalmProof, NoProofWithin, FirstProofAt, Turn;
      ProgressTells(front, generation);
      PrefixesExtend(frames, generation);
      if After(front, generation).Waiting? {
        WaitingTracks(front, generation);
        TurnTracks(After(front, generation), frames, generation);
        TurnUsesAll(After(front, generation), frames[|front|], |front|, generation);
      } else if After(front, generation).outcome != Cleared {
        FailureRulesOutProof(frames, |front|, generation);
      }
    }
  }

  lemma TurnUsesAll(p: Progress, values: Values, index: nat, generation: nat)
    requires p.Waiting?
    ensures Turn(p, values, index, generation).Ended? ==> Turn(p, values, index, generation).used == index + 1
  {
  }

  /** For every stream of frames, the loop returns after `n` frames exactly when
      the first `n` frames are a calm proof and no fewer are. */
  lemma ClearsExactlyAtTheFirstProof(frames: seq<Values>, generation: nat, n: nat)
    ensures OutcomeOf(frames, generation) == (Cleared, n) <==> FirstProofAt(frames, generation, n)
  {
    ProgressTells(frames, generation);
    hide CalmProof, After;
    var p := After(frames, generation);
    if FirstProofAt(frames, generation, n) && p.Ended? && p.outcome == Cleared {
      assert p.used == n;
    }
  }

  /** Three observations at the end of a list: complete, finite and within the
      tolerances. */
  ghost predicate EndsInThreeCalm(observations: seq<Values>) {
    |observations| >= 3 && forall i :: |observations| - 3 <= i < |observations| ==>
      Complete(observations[i]) && ActualIsCalm(observations[i])
  }

  /** A proof holds an acknowledgement followed by at least three frames, and
      those later frames alone make up three complete calm observations. */
  lemma ProofShowsThreeCalmObservations(frames: seq<Values>, generation: nat)
    requires CalmProof(frames, generation)
    ensures exists k: nat ::
      k + 3 < |frames| && ClearAt(frames, k, generation) && EndsInThreeCalm(Observations(frames[k + 1..]))
  {
    var k: nat :| CalmProofFrom(frames, k, generation);
    ObservationsAreComplete(frames[k + 1..]);
    hide Complete, ActualIsCalm, Observations, ClearAt;
  }

  lemma {:induction false} ObservationsAreComplete(frames: seq<Values>)
    ensures |Observations(frames)| <= |frames|
    ensures forall i :: 0 <= i < |Observations(frames)| ==> Complete(Observations(frames)[i])
  {
    if frames != [] {
      ObservationsAreComplete(frames[..|frames| - 1]);
    }
    hide Complete;
  }
}
