/** How a greedy decode moves through time and what it asks of the networks, read off the steps it took:
    the durations the model predicts are the distances between its frames. */
module TdtTiming {
  import opened Index
  import opened Tdt

  /** Where the clock stands after these steps. A positive duration is the distance to the next frame; a zero
      duration stays on the frame, unless the token was blank or the frame now has its fill of tokens. */
  function Clock(cfg: Config, trace: seq<Step>): nat {
    if |trace| == 0 then 0
    else
      var last := trace[|trace| - 1];
      if last.duration > 0 then last.frame + last.duration
      else if last.token == cfg.blank || Count(FramesOf(cfg, trace), last.frame) == cfg.cap then last.frame + 1
      else last.frame
  }

  /** `step` is what the networks make of the clock, the last token and the recurrent state after `before`. */
  ghost predicate StepIs<S(!new)>(cfg: Config, net: Net<S>, frames: nat, start: S, before: seq<Step>, step: Step) {
    var tokens := TokensOf(cfg, before);
    var state := StateAfter(cfg, net, start, tokens);
    && step.frame == Clock(cfg, before) && step.frame < frames
    && step.prev == (if |tokens| == 0 then cfg.blank else tokens[|tokens| - 1])
    && step.token == net.token(step.frame, step.prev, state)
    && step.index == net.duration(step.frame, step.prev, state)
    && step.index < |cfg.durations| && step.duration == cfg.durations[step.index]
  }

  ghost predicate Follows<S(!new)>(cfg: Config, net: Net<S>, frames: nat, start: S, trace: seq<Step>) {
    forall i :: 0 <= i < |trace| ==> StepIs(cfg, net, frames, start, trace[..i], trace[i])
  }

  /** Every step follows from the ones before it, and the last of them ends the recording. */
  ghost predicate Decodes<S(!new)>(cfg: Config, net: Net<S>, frames: nat, start: S, trace: seq<Step>) {
    Follows(cfg, net, frames, start, trace) && Clock(cfg, trace) >= frames
  }

  ghost predicate OnTime<S(!new)>(cfg: Config, net: Net<S>, frames: nat, start: S, d: Decode<S>) {
    Good(cfg, net, frames, start, d) && Follows(cfg, net, frames, start, d.trace) && d.t == Clock(cfg, d.trace)
  }

  lemma {:induction false} FollowsMore<S(!new)>(cfg: Config, net: Net<S>, frames: nat, start: S, trace: seq<Step>,
                                                step: Step)
    requires Follows(cfg, net, frames, start, trace) && StepIs(cfg, net, frames, start, trace, step)
    ensures Follows(cfg, net, frames, start, trace + [step])
  {
    hide StepIs;
    var more := trace + [step];
    forall i | 0 <= i < |more| ensures StepIs(cfg, net, frames, start, more[..i], more[i]) {
      assert more[..i] == trace[..i];
      if i == |trace| { assert trace[..i] == trace; }
    }
  }

  lemma {:induction false} LookFollows<S(!new)>(cfg: Config, net: Net<S>, frames: nat, start: S, d: Decode<S>)
    requires Fits(cfg, net) && OnTime(cfg, net, frames, start, d) && d.t < frames
    ensures StepIs(cfg, net, frames, start, d.trace, Look(cfg, net, d))
  {
    hide Follows, Stamped, TokensOf, StateAfter, FramesOf, Reach, Clock;
  }

  lemma {:induction false} ClockAdvances<S(!new)>(cfg: Config, net: Net<S>, frames: nat, start: S, d: Decode<S>)
    requires Fits(cfg, net) && Good(cfg, net, frames, start, d) && d.t < frames
    ensures Next(cfg, net, d).trace == d.trace + [Look(cfg, net, d)]
    ensures Next(cfg, net, d).t == Clock(cfg, Next(cfg, net, d).trace)
  {
    hide TokensOf, StateAfter, FramesOf, Reach, Count;
    var step := Look(cfg, net, d);
    var c := Commit(cfg, net, d, step);
    CommitIsStamped(cfg, net, frames, d, step);
    CommitRecords(cfg, net, start, d, step);
    assert c.trace == d.trace + [step] && c.t == d.t;
    assert Count(FramesOf(cfg, c.trace), d.t) == c.emitted;
  }

  lemma {:induction false} StepKeepsTime<S(!new)>(cfg: Config, net: Net<S>, frames: nat, start: S, d: Decode<S>)
    requires Fits(cfg, net) && OnTime(cfg, net, frames, start, d) && d.t < frames
    ensures OnTime(cfg, net, frames, start, Next(cfg, net, d))
  {
    hide Good, Follows, StepIs, Clock, Look, Next;
    StepKeepsGood(cfg, net, frames, start, d);
    LookFollows(cfg, net, frames, start, d);
    ClockAdvances(cfg, net, frames, start, d);
    FollowsMore(cfg, net, frames, start, d.trace, Look(cfg, net, d));
  }

  lemma {:induction false} RunKeepsTime<S(!new)>(cfg: Config, net: Net<S>, frames: nat, start: S, d: Decode<S>)
    requires Fits(cfg, net) && OnTime(cfg, net, frames, start, d) && d.emitted < cfg.cap
    ensures OnTime(cfg, net, frames, start, Run(cfg, net, frames, d))
    decreases if d.t < frames then frames - d.t else 0, cfg.cap - d.emitted
  {
    hide OnTime;
    if d.t < frames {
      StepKeepsTime(cfg, net, frames, start, d);
      RunKeepsTime(cfg, net, frames, start, Next(cfg, net, d));
    }
  }

  /** Every run is such a decode, and it stops where its clock does. */
  lemma {:induction false} EveryRunIsTimed<S(!new)>(cfg: Config, net: Net<S>, frames: nat, start: S)
    requires Fits(cfg, net) && 0 < cfg.cap
    ensures var r := Run(cfg, net, frames, Begin(start));
            Decodes(cfg, net, frames, start, r.trace) && r.t == Clock(cfg, r.trace)
  {
    hide Run, Good, Clock;
    NothingYet(cfg, net, frames, start);
    assert OnTime(cfg, net, frames, start, Begin(start)) by { assert Clock(cfg, []) == 0 by { NoTime(cfg); } }
    RunKeepsTime(cfg, net, frames, start, Begin(start));
    RunEnds(cfg, net, frames, start);
  }

  lemma {:induction false} NoTime(cfg: Config)
    ensures Clock(cfg, []) == 0
  {}

  lemma {:induction false} RunEnds<S(!new)>(cfg: Config, net: Net<S>, frames: nat, start: S)
    requires Fits(cfg, net) && 0 < cfg.cap
    ensures Run(cfg, net, frames, Begin(start)).t >= frames
  {}

  lemma {:induction false} SameStep<S(!new)>(cfg: Config, net: Net<S>, frames: nat, start: S, before: seq<Step>,
                                             x: Step, y: Step)
    requires StepIs(cfg, net, frames, start, before, x) && StepIs(cfg, net, frames, start, before, y)
    ensures x == y
  {
    hide Clock, TokensOf, StateAfter;
  }

  lemma {:induction false} SamePrefix<S(!new)>(cfg: Config, net: Net<S>, frames: nat, start: S, a: seq<Step>,
                                               b: seq<Step>, n: nat)
    requires Follows(cfg, net, frames, start, a) && Follows(cfg, net, frames, start, b) && n <= |a| && n <= |b|
    ensures a[..n] == b[..n]
  {
    hide StepIs;
    if n > 0 {
      SamePrefix(cfg, net, frames, start, a, b, n - 1);
      SameStep(cfg, net, frames, start, a[..n - 1], a[n - 1], b[n - 1]);
      assert a[..n] == a[..n - 1] + [a[n - 1]] && b[..n] == b[..n - 1] + [b[n - 1]];
    }
  }

  lemma {:induction false} ClockInside<S(!new)>(cfg: Config, net: Net<S>, frames: nat, start: S, trace: seq<Step>,
                                                n: nat)
    requires Follows(cfg, net, frames, start, trace) && n < |trace|
    ensures Clock(cfg, trace[..n]) < frames
  {
    hide Clock;
    assert StepIs(cfg, net, frames, start, trace[..n], trace[n]);
  }

  /** No decode goes on past another one's end. */
  lemma {:induction false} NotLonger<S(!new)>(cfg: Config, net: Net<S>, frames: nat, start: S, a: seq<Step>,
                                              b: seq<Step>)
    requires Decodes(cfg, net, frames, start, a) && Follows(cfg, net, frames, start, b)
    ensures |b| <= |a|
  {
    hide Clock, Follows;
    if |a| < |b| {
      assert a[..|a|] == a;
      ClockInside(cfg, net, frames, start, b, |a|);
      SamePrefix(cfg, net, frames, start, a, b, |a|);
    }
  }

  /** There is one such decode, so these rules are all there is to know of a run. */
  lemma {:induction false} DecodeIsUnique<S(!new)>(cfg: Config, net: Net<S>, frames: nat, start: S, trace: seq<Step>)
    requires Fits(cfg, net) && 0 < cfg.cap
    ensures Decodes(cfg, net, frames, start, trace) <==> trace == Run(cfg, net, frames, Begin(start)).trace
  {
    hide Run, Clock, Follows;
    var r := Run(cfg, net, frames, Begin(start)).trace;
    EveryRunIsTimed(cfg, net, frames, start);
    if Decodes(cfg, net, frames, start, trace) {
      NotLonger(cfg, net, frames, start, r, trace);
      NotLonger(cfg, net, frames, start, trace, r);
      SamePrefix(cfg, net, frames, start, r, trace, |r|);
      assert r[..|r|] == r && trace[..|r|] == trace;
    }
  }

  /** The prediction network is fed `fed`, one token after another. */
  function Feed<S(!new)>(net: Net<S>, start: S, fed: seq<nat>): S {
    if |fed| == 0 then start else net.next(fed[|fed| - 1], Feed(net, start, fed[..|fed| - 1]))
  }

  /** The state after some tokens: blank has been fed, and then all of them but the last. */
  lemma {:induction false} StateIsFed<S(!new)>(cfg: Config, net: Net<S>, start: S, tokens: seq<nat>)
    ensures StateAfter(cfg, net, start, tokens)
         == if |tokens| == 0 then start else Feed(net, start, [cfg.blank] + tokens[..|tokens| - 1])
  {
    if |tokens| > 0 {
      var before := tokens[..|tokens| - 1];
      StateIsFed(cfg, net, start, before);
      var fed := [cfg.blank] + before;
      if |before| == 0 {
        assert fed == [cfg.blank] && fed[..0] == [];
      } else {
        assert fed[..|fed| - 1] == [cfg.blank] + before[..|before| - 1] && fed[|fed| - 1] == before[|before| - 1];
      }
    }
  }

  // ---- networks that always say the same ----

  /** The frames 0, step, 2 * step, .. with one token each. */
  ghost predicate Strides<S>(d: Decode<S>, token: nat, step: nat) {
    && |d.stamps| == |d.tokens|
    && (forall j :: 0 <= j < |d.stamps| ==> d.stamps[j] == Times(j, step))
    && (forall j :: 0 <= j < |d.tokens| ==> d.tokens[j] == token)
    && d.t == Times(|d.stamps|, step) && d.emitted == 0
  }

  lemma {:induction false} NextStrides<S(!new)>(cfg: Config, net: Net<S>, d: Decode<S>, token: nat, index: nat)
    requires net == Stalling(token, index) && token != cfg.blank && index < |cfg.durations| && 0 < cfg.durations[index]
    requires Strides(d, token, cfg.durations[index])
    ensures Strides(Next(cfg, net, d), token, cfg.durations[index])
  {
    hide Times;
    TimesNext(|d.stamps|, cfg.durations[index]);
  }

  lemma {:induction false} RunStrides<S(!new)>(cfg: Config, net: Net<S>, frames: nat, d: Decode<S>, token: nat,
                                               index: nat)
    requires net == Stalling(token, index) && token != cfg.blank && index < |cfg.durations| && 0 < cfg.durations[index]
    requires Strides(d, token, cfg.durations[index]) && 0 < cfg.cap
    requires |d.stamps| > 0 ==> Times(|d.stamps| - 1, cfg.durations[index]) < frames
    ensures var r := Run(cfg, net, frames, d);
            && Strides(r, token, cfg.durations[index])
            && (|r.stamps| > 0 ==> Times(|r.stamps| - 1, cfg.durations[index]) < frames)
    decreases if d.t < frames then frames - d.t else 0
  {
    hide Times, Next;
    if d.t < frames {
      NextStrides(cfg, net, d, token, index);
      NextEmits(cfg, net, d, token, index);
      RunStrides(cfg, net, frames, Next(cfg, net, d), token, index);
    }
  }

  lemma {:induction false} NextEmits<S(!new)>(cfg: Config, net: Net<S>, d: Decode<S>, token: nat, index: nat)
    requires net == Stalling(token, index) && token != cfg.blank && index < |cfg.durations| && 0 < cfg.durations[index]
    ensures |Next(cfg, net, d).stamps| == |d.stamps| + 1 && Next(cfg, net, d).t == d.t + cfg.durations[index]
  {}

  /** One token and one positive duration for ever: a token every so many frames, as long as there are frames. */
  lemma {:induction false} ConstantStrides<S(!new)>(cfg: Config, net: Net<S>, frames: nat, start: S, token: nat,
                                                    index: nat)
    requires net == Stalling(token, index) && token != cfg.blank && index < |cfg.durations| && 0 < cfg.durations[index]
    requires 0 < cfg.cap
    ensures var r := Run(cfg, net, frames, Begin(start));
            && |r.stamps| == |r.tokens|
            && (forall j :: 0 <= j < |r.stamps| ==> r.stamps[j] == j * cfg.durations[index] && r.tokens[j] == token)
            && (forall j: nat :: j < |r.stamps| <==> j * cfg.durations[index] < frames)
  {
    hide Times, Run;
    var step := cfg.durations[index];
    TimesZero(step);
    RunStrides(cfg, net, frames, Begin(start), token, index);
    RunEnds(cfg, net, frames, start);
    var r := Run(cfg, net, frames, Begin(start));
    forall j: nat ensures Times(j, step) == j * step { TimesIsProduct(j, step); }
    forall j: nat ensures j < |r.stamps| <==> j * step < frames {
      TimesIsProduct(j, step);
      if j < |r.stamps| { TimesMonotone(j, |r.stamps| - 1, step); } else { TimesMonotone(|r.stamps|, j, step); }
    }
  }
}
