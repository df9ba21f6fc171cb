/** Greedy token-and-duration decoding. The reference script and the Rust decoder run the same loop
    under different step limits; both are proved against one unlimited run. */
module Tdt {
  import opened Index

  /** The model's networks: the argmax token and duration of a frame given the previous token and
      the recurrent state, and the state that the previous token leads to. */
  datatype Net<!S> = Net(token: (nat, nat, S) -> nat, duration: (nat, nat, S) -> nat, next: (nat, S) -> S)

  datatype Config = Config(durations: seq<nat>, blank: nat, cap: nat, maxSteps: nat)

  datatype Step = Step(frame: nat, prev: nat, token: nat, index: nat, duration: nat)

  datatype Decode<S> = Decode(t: nat, emitted: nat, tokens: seq<nat>, stamps: seq<nat>, trace: seq<Step>, state: S)

  datatype Outcome<S> = Ok(run: Decode<S>) | Err(message: string)

  /** An argmax over the duration logits is an index into the durations. */
  ghost predicate Fits<S(!new)>(cfg: Config, net: Net<S>) {
    forall t: nat, prev: nat, s :: net.duration(t, prev, s) < |cfg.durations|
  }

  function Begin<S>(start: S): Decode<S> { Decode(0, 0, [], [], [], start) }

  function Prev(cfg: Config, tokens: seq<nat>): nat { if |tokens| == 0 then cfg.blank else tokens[|tokens| - 1] }

  function Look<S(!new)>(cfg: Config, net: Net<S>, d: Decode<S>): Step
    requires Fits(cfg, net)
  {
    var prev := Prev(cfg, d.tokens);
    var i := net.duration(d.t, prev, d.state);
    Step(d.t, prev, net.token(d.t, prev, d.state), i, cfg.durations[i])
  }

  /** Commit the token, its frame and the state, unless the token is blank. */
  function Commit<S(!new)>(cfg: Config, net: Net<S>, d: Decode<S>, step: Step): Decode<S> {
    var d := d.(trace := d.trace + [step]);
    if step.token == cfg.blank then d
    else d.(tokens := d.tokens + [step.token], stamps := d.stamps + [d.t], emitted := d.emitted + 1,
            state := net.next(step.prev, d.state))
  }

  function Advance<S(!new)>(cfg: Config, d: Decode<S>, step: Step): Decode<S> {
    if step.duration > 0 then d.(t := d.t + step.duration, emitted := 0)
    else if step.token == cfg.blank || d.emitted == cfg.cap then d.(t := d.t + 1, emitted := 0)
    else d
  }

  function Next<S(!new)>(cfg: Config, net: Net<S>, d: Decode<S>): Decode<S>
    requires Fits(cfg, net)
  {
    var step := Look(cfg, net, d);
    Advance(cfg, Commit(cfg, net, d, step), step)
  }

  /** The loop without a step limit. It ends because time or the symbol budget moves in every step. */
  function Run<S(!new)>(cfg: Config, net: Net<S>, frames: nat, d: Decode<S>): (r: Decode<S>)
    requires Fits(cfg, net) && d.emitted < cfg.cap
    ensures r.emitted < cfg.cap && r.t >= frames
    decreases if d.t < frames then frames - d.t else 0, cfg.cap - d.emitted
  {
    if d.t >= frames then d else Run(cfg, net, frames, Next(cfg, net, d))
  }

  /** The loop state d is one that the unlimited run passes through. */
  ghost predicate OnRun<S(!new)>(cfg: Config, net: Net<S>, frames: nat, start: S, d: Decode<S>)
    requires Fits(cfg, net) && 0 < cfg.cap
  {
    d.emitted < cfg.cap && Run(cfg, net, frames, d) == Run(cfg, net, frames, Begin(start))
  }

  lemma {:induction false} Starts<S(!new)>(cfg: Config, net: Net<S>, frames: nat, start: S)
    requires Fits(cfg, net) && 0 < cfg.cap
    ensures OnRun(cfg, net, frames, start, Begin(start))
  {}

  lemma {:induction false} StepsOnRun<S(!new)>(cfg: Config, net: Net<S>, frames: nat, start: S, d: Decode<S>)
    requires Fits(cfg, net) && 0 < cfg.cap && OnRun(cfg, net, frames, start, d)
    ensures d.t < frames ==> OnRun(cfg, net, frames, start, Next(cfg, net, d))
    ensures d.t < frames ==> |d.trace| < |Run(cfg, net, frames, Begin(start)).trace|
    ensures |d.trace| <= |Run(cfg, net, frames, Begin(start)).trace|
    ensures d.t >= frames ==> d == Run(cfg, net, frames, Begin(start))
  {
    RunGrows(cfg, net, frames, d);
  }

  // ---- the two loops ----

  /** crates/models: `max_steps` is tested before a step. */
  method GreedyDecode<S(!new)>(cfg: Config, net: Net<S>, frames: nat, start: S) returns (r: Outcome<S>)
    requires Fits(cfg, net)
    ensures cfg.cap == 0 ==> r.Err?
    ensures cfg.cap > 0 && |Run(cfg, net, frames, Begin(start)).trace| <= cfg.maxSteps ==>
              r == Ok(Run(cfg, net, frames, Begin(start)))
    ensures cfg.cap > 0 && |Run(cfg, net, frames, Begin(start)).trace| > cfg.maxSteps ==> r.Err?
  {
    hide OnRun, Run;
    if cfg.cap == 0 { return Err("max_tokens_per_step must be non-zero"); }
    Starts(cfg, net, frames, start);
    var t: nat, emitted: nat := 0, 0;
    var tokens: seq<nat>, stamps: seq<nat>, steps: seq<Step>, state := [], [], [], start;
    while t < frames
      invariant emitted < cfg.cap && |steps| <= cfg.maxSteps
      invariant OnRun(cfg, net, frames, start, Decode(t, emitted, tokens, stamps, steps, state))
      decreases if t < frames then frames - t else 0, cfg.cap - emitted
    {
      StepsOnRun(cfg, net, frames, start, Decode(t, emitted, tokens, stamps, steps, state));
      if |steps| >= cfg.maxSteps { return Err("TDT decode exceeded its steps"); }
      ghost var next := Next(cfg, net, Decode(t, emitted, tokens, stamps, steps, state));
      var prev := if |tokens| == 0 then cfg.blank else tokens[|tokens| - 1];
      var nextState := net.next(prev, state);
      var token := net.token(t, prev, state);
      var index := net.duration(t, prev, state);
      var duration := cfg.durations[index];
      steps := steps + [Step(t, prev, token, index, duration)];
      if token != cfg.blank {
        state := nextState;
        tokens := tokens + [token];
        stamps := stamps + [t];
        emitted := emitted + 1;
      }
      if duration > 0 {
        t := t + duration;
        emitted := 0;
      } else if token == cfg.blank || emitted == cfg.cap {
        t := t + 1;
        emitted := 0;
      }
      assert Decode(t, emitted, tokens, stamps, steps, state) == next;
    }
    StepsOnRun(cfg, net, frames, start, Decode(t, emitted, tokens, stamps, steps, state));
    r := Ok(Decode(t, emitted, tokens, stamps, steps, state));
  }

  /** The reference script: the counter is tested after a step. */
  method ReferenceDecode<S(!new)>(cfg: Config, net: Net<S>, frames: nat, start: S) returns (r: Outcome<S>)
    requires Fits(cfg, net) && cfg.cap > 0
    ensures |Run(cfg, net, frames, Begin(start)).trace| <= cfg.maxSteps ==> r == Ok(Run(cfg, net, frames, Begin(start)))
    ensures |Run(cfg, net, frames, Begin(start)).trace| > cfg.maxSteps ==> r.Err?
  {
    hide OnRun, Run;
    Starts(cfg, net, frames, start);
    var t: nat, emitted: nat, steps: nat := 0, 0, 0;
    var tokens: seq<nat>, stamps: seq<nat>, trace: seq<Step>, state := [], [], [], start;
    while t < frames
      invariant emitted < cfg.cap && steps == |trace| <= cfg.maxSteps
      invariant OnRun(cfg, net, frames, start, Decode(t, emitted, tokens, stamps, trace, state))
      decreases if t < frames then frames - t else 0, cfg.cap - emitted
    {
      ghost var d := Decode(t, emitted, tokens, stamps, trace, state);
      StepsOnRun(cfg, net, frames, start, d);
      ghost var next := Next(cfg, net, d);
      var prev := if |tokens| != 0 then tokens[|tokens| - 1] else cfg.blank;
      var index := net.duration(t, prev, state);
      var token, s, step := net.token(t, prev, state), net.next(prev, state), cfg.durations[index];
      trace := trace + [Step(t, prev, token, index, step)];
      if token != cfg.blank {
        state := s;
        tokens := tokens + [token];
        stamps := stamps + [t];
        emitted := emitted + 1;
      }
      if step > 0 {
        t := t + step;
        emitted := 0;
      } else if token == cfg.blank || emitted == cfg.cap {
        t := t + 1;
        emitted := 0;
      }
      steps := steps + 1;
      assert Decode(t, emitted, tokens, stamps, trace, state) == next;
      if steps > cfg.maxSteps {
        StepsOnRun(cfg, net, frames, start, next);
        return Err("decode did not terminate");
      }
    }
    StepsOnRun(cfg, net, frames, start, Decode(t, emitted, tokens, stamps, trace, state));
    r := Ok(Decode(t, emitted, tokens, stamps, trace, state));
  }

  lemma {:induction false} RunGrows<S(!new)>(cfg: Config, net: Net<S>, frames: nat, d: Decode<S>)
    requires Fits(cfg, net) && d.emitted < cfg.cap
    ensures var r := Run(cfg, net, frames, d); d.trace <= r.trace && d.tokens <= r.tokens && d.stamps <= r.stamps
    ensures d.t < frames ==> |d.trace| < |Run(cfg, net, frames, d).trace|
    decreases if d.t < frames then frames - d.t else 0, cfg.cap - d.emitted
  {
    if d.t < frames { RunGrows(cfg, net, frames, Next(cfg, net, d)); }
  }

  // ---- what every run keeps ----

  function Count(stamps: seq<nat>, f: nat): nat {
    if |stamps| == 0 then 0 else Count(stamps[..|stamps| - 1], f) + if stamps[|stamps| - 1] == f then 1 else 0
  }

  /** The recurrent state after feeding blank and then every token but the last. */
  function StateAfter<S(!new)>(cfg: Config, net: Net<S>, start: S, tokens: seq<nat>): S {
    if |tokens| == 0 then start
    else
      var before := tokens[..|tokens| - 1];
      net.next(Prev(cfg, before), StateAfter(cfg, net, start, before))
  }

  /** The tokens and frames of the non-blank steps, in order. */
  function TokensOf(cfg: Config, trace: seq<Step>): seq<nat> {
    if |trace| == 0 then []
    else
      var step := trace[|trace| - 1];
      TokensOf(cfg, trace[..|trace| - 1]) + if step.token == cfg.blank then [] else [step.token]
  }

  function FramesOf(cfg: Config, trace: seq<Step>): seq<nat> {
    if |trace| == 0 then []
    else
      var step := trace[|trace| - 1];
      FramesOf(cfg, trace[..|trace| - 1]) + if step.token == cfg.blank then [] else [step.frame]
  }

  ghost predicate Stamped(cfg: Config, frames: nat, t: nat, emitted: nat, stamps: seq<nat>) {
    && (forall i :: 0 <= i < |stamps| ==> stamps[i] <= t && stamps[i] < frames)
    && (forall i, j :: 0 <= i < j < |stamps| ==> stamps[i] <= stamps[j])
    && (forall f: nat :: Count(stamps, f) <= cfg.cap) && Count(stamps, t) == emitted
  }

  /** The measure of progress: ten per frame and one per token, of which every step takes at least one. */
  function Reach(cfg: Config, frames: nat, t: nat, emitted: nat): nat {
    if t < frames then Times(t, cfg.cap) + emitted else Times(frames, cfg.cap)
  }

  ghost predicate Good<S(!new)>(cfg: Config, net: Net<S>, frames: nat, start: S, d: Decode<S>) {
    && d.emitted < cfg.cap && Stamped(cfg, frames, d.t, d.emitted, d.stamps)
    && d.tokens == TokensOf(cfg, d.trace) && d.stamps == FramesOf(cfg, d.trace)
    && d.state == StateAfter(cfg, net, start, d.tokens)
    && |d.trace| <= Reach(cfg, frames, d.t, d.emitted)
  }

  lemma {:induction false} NoneAbove(stamps: seq<nat>, f: nat)
    requires forall i :: 0 <= i < |stamps| ==> stamps[i] < f
    ensures Count(stamps, f) == 0
  {
    if |stamps| > 0 { NoneAbove(stamps[..|stamps| - 1], f); }
  }

  lemma {:induction false} Push(stamps: seq<nat>, t: nat)
    ensures forall f: nat :: Count(stamps + [t], f) == Count(stamps, f) + if f == t then 1 else 0
  {
    assert (stamps + [t])[..|stamps|] == stamps;
  }

  lemma {:induction false} CommitIsStamped<S(!new)>(cfg: Config, net: Net<S>, frames: nat, d: Decode<S>, step: Step)
    requires d.t < frames && d.emitted < cfg.cap && Stamped(cfg, frames, d.t, d.emitted, d.stamps)
    ensures var c := Commit(cfg, net, d, step); c.emitted <= cfg.cap && Stamped(cfg, frames, c.t, c.emitted, c.stamps)
  {
    hide Count;
    Push(d.stamps, d.t);
  }

  lemma {:induction false} CommitRecords<S(!new)>(cfg: Config, net: Net<S>, start: S, d: Decode<S>, step: Step)
    requires step.frame == d.t && step.prev == Prev(cfg, d.tokens)
    requires d.tokens == TokensOf(cfg, d.trace) && d.stamps == FramesOf(cfg, d.trace)
    requires d.state == StateAfter(cfg, net, start, d.tokens)
    ensures var c := Commit(cfg, net, d, step);
            && c.tokens == TokensOf(cfg, c.trace) && c.stamps == FramesOf(cfg, c.trace)
            && c.state == StateAfter(cfg, net, start, c.tokens)
  {
    assert (d.trace + [step])[..|d.trace|] == d.trace;
    assert (d.tokens + [step.token])[..|d.tokens|] == d.tokens;
  }

  lemma {:induction false} AdvanceIsStamped<S(!new)>(cfg: Config, frames: nat, d: Decode<S>, step: Step)
    requires d.emitted <= cfg.cap && 0 < cfg.cap && Stamped(cfg, frames, d.t, d.emitted, d.stamps)
    ensures var a := Advance(cfg, d, step); a.emitted < cfg.cap && Stamped(cfg, frames, a.t, a.emitted, a.stamps)
  {
    hide Count;
    var a := Advance(cfg, d, step);
    if a.t > d.t { NoneAbove(d.stamps, a.t); }
  }

  lemma {:induction false} StepReaches<S(!new)>(cfg: Config, net: Net<S>, frames: nat, d: Decode<S>)
    requires Fits(cfg, net) && d.t < frames && d.emitted < cfg.cap
    ensures var n := Next(cfg, net, d); Reach(cfg, frames, n.t, n.emitted) >= Reach(cfg, frames, d.t, d.emitted) + 1
  {
    hide Times, Fits;
    var n := Next(cfg, net, d);
    SlotBound(d.t, frames, cfg.cap);
    if d.t < n.t { SlotBound(d.t, n.t, cfg.cap); }
  }

  lemma {:induction false} StepKeepsGood<S(!new)>(cfg: Config, net: Net<S>, frames: nat, start: S, d: Decode<S>)
    requires Fits(cfg, net) && Good(cfg, net, frames, start, d) && d.t < frames
    ensures Good(cfg, net, frames, start, Next(cfg, net, d))
  {
    hide Stamped, TokensOf, FramesOf, StateAfter, Reach;
    var step := Look(cfg, net, d);
    CommitIsStamped(cfg, net, frames, d, step);
    CommitRecords(cfg, net, start, d, step);
    AdvanceIsStamped(cfg, frames, Commit(cfg, net, d, step), step);
    StepReaches(cfg, net, frames, d);
  }

  lemma {:induction false} RunKeepsGood<S(!new)>(cfg: Config, net: Net<S>, frames: nat, start: S, d: Decode<S>)
    requires Fits(cfg, net) && Good(cfg, net, frames, start, d)
    ensures Good(cfg, net, frames, start, Run(cfg, net, frames, d))
    decreases if d.t < frames then frames - d.t else 0, cfg.cap - d.emitted
  {
    hide Good;
    assert d.emitted < cfg.cap by { GoodEmits(cfg, net, frames, start, d); }
    if d.t < frames {
      StepKeepsGood(cfg, net, frames, start, d);
      RunKeepsGood(cfg, net, frames, start, Next(cfg, net, d));
    }
  }

  lemma {:induction false} GoodEmits<S(!new)>(cfg: Config, net: Net<S>, frames: nat, start: S, d: Decode<S>)
    requires Good(cfg, net, frames, start, d)
    ensures d.emitted < cfg.cap
  {}

  /** Whatever the networks say: the run takes at most `cap` steps a frame, its timestamps never go
      back, lie below `frames` and repeat at most `cap` times, the tokens are the non-blank steps in
      order, and the state is the recurrence over blank and every token but the last. */
  lemma {:induction false} EveryDecode<S(!new)>(cfg: Config, net: Net<S>, frames: nat, start: S)
    requires Fits(cfg, net) && 0 < cfg.cap
    ensures var r := Run(cfg, net, frames, Begin(start));
            && |r.trace| <= Times(frames, cfg.cap)
            && |r.stamps| == |r.tokens|
            && (forall i :: 0 <= i < |r.stamps| ==> r.stamps[i] < frames)
            && (forall i, j :: 0 <= i < j < |r.stamps| ==> r.stamps[i] <= r.stamps[j])
            && (forall f: nat :: Count(r.stamps, f) <= cfg.cap)
            && r.tokens == TokensOf(cfg, r.trace) && r.stamps == FramesOf(cfg, r.trace)
            && r.state == StateAfter(cfg, net, start, r.tokens)
  {
    hide Run, Count, StateAfter;
    assert Good(cfg, net, frames, start, Begin(start)) by { NothingYet(cfg, net, frames, start); }
    RunKeepsGood(cfg, net, frames, start, Begin(start));
    SameLength(cfg, Run(cfg, net, frames, Begin(start)).trace);
  }

  lemma {:induction false} NothingYet<S(!new)>(cfg: Config, net: Net<S>, frames: nat, start: S)
    requires 0 < cfg.cap
    ensures Good(cfg, net, frames, start, Begin(start))
  {}

  lemma {:induction false} SameLength(cfg: Config, trace: seq<Step>)
    ensures |TokensOf(cfg, trace)| == |FramesOf(cfg, trace)|
  {
    if |trace| > 0 { SameLength(cfg, trace[..|trace| - 1]); }
  }

  // ---- when the step limit can fire ----

  /** Networks that never move time on: the same non-blank token with duration 0 for ever. */
  function Stalling<S(!new)>(token: nat, index: nat): Net<S> {
    Net((t, prev, s) => token, (t, prev, s) => index, (prev, s) => s)
  }

  lemma {:induction false} StallTakesEveryStep<S(!new)>(cfg: Config, net: Net<S>, frames: nat, d: Decode<S>, token: nat,
                                                 index: nat)
    requires net == Stalling(token, index) && token != cfg.blank && index < |cfg.durations| && cfg.durations[index] == 0
    requires d.emitted < cfg.cap && d.t <= frames && (d.t == frames ==> d.emitted == 0)
    ensures Fits(cfg, net)
    ensures |Run(cfg, net, frames, d).trace| + d.emitted == |d.trace| + Times(frames - d.t, cfg.cap)
    decreases frames - d.t, cfg.cap - d.emitted
  {
    if d.t < frames {
      var n := Next(cfg, net, d);
      StallTakesEveryStep(cfg, net, frames, n, token, index);
    }
  }

  ghost predicate WithinLimit<S(!new)>(cfg: Config, net: Net<S>, frames: nat, start: S)
    requires 0 < cfg.cap
  {
    Fits(cfg, net) ==> |Run(cfg, net, frames, Begin(start)).trace| <= cfg.maxSteps
  }

  /** No networks can make the step limit fire exactly when it leaves `cap` steps a frame: a stall
      cannot run for ever, as the guards' messages suggest, but a long recording can use up the limit. */
  lemma {:induction false} LimitNeverFiresIff<S(!new)>(cfg: Config, frames: nat, start: S, token: nat, index: nat)
    requires 0 < cfg.cap && token != cfg.blank && index < |cfg.durations| && cfg.durations[index] == 0
    ensures (forall net: Net<S> :: WithinLimit(cfg, net, frames, start)) <==> Times(frames, cfg.cap) <= cfg.maxSteps
  {
    if Times(frames, cfg.cap) <= cfg.maxSteps {
      forall net: Net<S> ensures WithinLimit(cfg, net, frames, start) {
        if Fits(cfg, net) { EveryDecode(cfg, net, frames, start); }
      }
    } else {
      var net: Net<S> := Stalling(token, index);
      StallTakesEveryStep(cfg, net, frames, Begin(start), token, index);
      assert !WithinLimit(cfg, net, frames, start);
    }
  }

  const REFERENCE := Config([0, 1, 2, 3, 4], 8192, 10, 20000)
  const SHIPPED := Config([0, 1, 2, 3, 4], 8192, 10, 100000)

  /** The reference script's 20000-step guard is safe for up to 2000 frames and not beyond; the Rust
      decoder's 100000 for up to 10000. */
  lemma {:induction false} GuardsInFrames<S(!new)>(frames: nat, start: S)
    ensures (forall net: Net<S> :: WithinLimit(REFERENCE, net, frames, start)) <==> frames <= 2000
    ensures (forall net: Net<S> :: WithinLimit(SHIPPED, net, frames, start)) <==> frames <= 10000
  {
    hide WithinLimit, Times;
    TimesIsProduct(frames, 10);
    LimitNeverFiresIff(REFERENCE, frames, start, 0, 0);
    LimitNeverFiresIff(SHIPPED, frames, start, 0, 0);
  }

  // ---- a longer recording continues a shorter one ----

  lemma {:induction false} RunResumes<S(!new)>(cfg: Config, net: Net<S>, short: nat, frames: nat, d: Decode<S>)
    requires Fits(cfg, net) && d.emitted < cfg.cap && short <= frames
    ensures Run(cfg, net, frames, Run(cfg, net, short, d)) == Run(cfg, net, frames, d)
    decreases if d.t < short then short - d.t else 0, cfg.cap - d.emitted
  {
    if d.t < short { RunResumes(cfg, net, short, frames, Next(cfg, net, d)); }
  }

  /** Networks that agree on this frame take the same step. */
  lemma {:induction false} LookIsLocal<S(!new)>(cfg: Config, net: Net<S>, net': Net<S>, d: Decode<S>)
    requires Fits(cfg, net) && Fits(cfg, net') && net.next == net'.next
    requires forall prev: nat, s :: net.token(d.t, prev, s) == net'.token(d.t, prev, s)
    requires forall prev: nat, s :: net.duration(d.t, prev, s) == net'.duration(d.t, prev, s)
    ensures Look(cfg, net, d) == Look(cfg, net', d)
    ensures Next(cfg, net, d) == Next(cfg, net', d)
  {}

  lemma {:induction false} RunIsLocal<S(!new)>(cfg: Config, net: Net<S>, net': Net<S>, frames: nat, d: Decode<S>)
    requires Fits(cfg, net) && Fits(cfg, net') && d.emitted < cfg.cap && net.next == net'.next
    requires forall t: nat, prev: nat, s :: t < frames ==> net.token(t, prev, s) == net'.token(t, prev, s)
    requires forall t: nat, prev: nat, s :: t < frames ==> net.duration(t, prev, s) == net'.duration(t, prev, s)
    ensures Run(cfg, net, frames, d) == Run(cfg, net', frames, d)
    decreases if d.t < frames then frames - d.t else 0, cfg.cap - d.emitted
  {
    hide Look;
    if d.t < frames {
      LookIsLocal(cfg, net, net', d);
      RunIsLocal(cfg, net, net', frames, Next(cfg, net, d));
    }
  }

  /** Frames appended to a recording only append tokens: what was decoded stands. */
  lemma {:induction false} LongerContinues<S(!new)>(cfg: Config, net: Net<S>, net': Net<S>, short: nat, frames: nat,
                                             start: S)
    requires Fits(cfg, net) && Fits(cfg, net') && 0 < cfg.cap && short <= frames && net.next == net'.next
    requires forall t: nat, prev: nat, s :: t < short ==> net.token(t, prev, s) == net'.token(t, prev, s)
    requires forall t: nat, prev: nat, s :: t < short ==> net.duration(t, prev, s) == net'.duration(t, prev, s)
    ensures var a, b := Run(cfg, net, short, Begin(start)), Run(cfg, net', frames, Begin(start));
            a.tokens <= b.tokens && a.stamps <= b.stamps && a.trace <= b.trace
  {
    RunIsLocal(cfg, net, net', short, Begin(start));
    RunResumes(cfg, net', short, frames, Begin(start));
    RunGrows(cfg, net', frames, Run(cfg, net', short, Begin(start)));
  }
}
