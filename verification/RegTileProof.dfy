/** Every reachable state of a workgroup: barriers keep loads and products in different phases, so
    no slot is read and written together, every read sees this chunk's value, and the registers
    hold the left fold so far. */
module RegTileProof {
  import opened Index
  import opened RegTile

  /** Inputs folded into the registers so far. */
  function Folded<F>(job: Job<F>, pc: Pc): nat
    requires job.Valid()
  {
    match pc
    case LoadX(c, _) => Times(c, job.cfg.bk)
    case LoadW(c, _) => Times(c, job.cfg.bk)
    case Loaded(c) => Times(c, job.cfg.bk)
    case ReadX(c, k, _) => Times(c, job.cfg.bk) + k
    case ReadW(c, k, _) => Times(c, job.cfg.bk) + k
    case Computed(c) => Times(c + 1, job.cfg.bk)
    case Store(_) => Times(job.Chunks(), job.cfg.bk)
    case Done => Times(job.Chunks(), job.cfg.bk)
  }

  function Cell<F>(job: Job<F>, tr: nat, tc: nat, t: nat, e: nat, n: nat): F
    requires job.Valid()
  {
    job.Fold(job.Row(tr, t, Quot(e, job.cfg.tn)), job.Col(tc, t, Rem(e, job.cfg.tn)), n)
  }

  ghost predicate AccIs<F>(job: Job<F>, tr: nat, tc: nat, t: nat, acc: seq<F>, n: nat)
    requires job.Valid()
  {
    forall e :: 0 <= e < |acc| ==> acc[e] == Cell(job, tr, tc, t, e, n)
  }

  ghost predicate XrIs<F>(job: Job<F>, tr: nat, t: nat, xr: seq<F>, m: nat, p: nat)
    requires job.Valid()
  {
    m <= |xr| && forall i :: 0 <= i < m ==> xr[i] == job.XAt(job.Row(tr, t, i), p)
  }

  ghost predicate WrIs<F>(job: Job<F>, tc: nat, t: nat, wr: seq<F>, m: nat, p: nat)
    requires job.Valid()
  {
    m <= |wr| && forall j :: 0 <= j < m ==> wr[j] == job.WAt(job.Col(tc, t, j), p)
  }

  ghost predicate ThreadOk<F>(job: Job<F>, tr: nat, tc: nat, t: nat, loc: Local<F>)
    requires job.Valid()
  {
    var p := Folded(job, loc.pc);
    && LocalFits(job, loc) && AccIs(job, tr, tc, t, loc.acc, p)
    && (loc.pc.ReadX? ==> XrIs(job, tr, t, loc.xr, loc.pc.i, p))
    && (loc.pc.ReadW? ==> XrIs(job, tr, t, loc.xr, job.cfg.tm, p) && WrIs(job, tc, t, loc.wr, loc.pc.j, p))
  }

  /** How many chunks the thread has put into its l-th slot of each tile. */
  function XLoads<F>(job: Job<F>, pc: Pc, l: nat): nat
    requires job.Valid()
  {
    match pc
    case LoadX(c, l') => if l < l' then c + 1 else c
    case LoadW(c, _) => c + 1
    case Loaded(c) => c + 1
    case ReadX(c, _, _) => c + 1
    case ReadW(c, _, _) => c + 1
    case Computed(c) => c + 1
    case Store(_) => job.Chunks()
    case Done => job.Chunks()
  }

  function WLoads<F>(job: Job<F>, pc: Pc, l: nat): nat
    requires job.Valid()
  {
    match pc
    case LoadX(c, _) => c
    case LoadW(c, l') => if l < l' then c + 1 else c
    case Loaded(c) => c + 1
    case ReadX(c, _, _) => c + 1
    case ReadW(c, _, _) => c + 1
    case Computed(c) => c + 1
    case Store(_) => job.Chunks()
    case Done => job.Chunks()
  }

  ghost predicate XSlotOk<F>(job: Job<F>, tr: nat, xt: seq<F>, loc: Local<F>, t: nat, l: nat)
    requires job.Valid() && LoadSlot(job.cfg, t, l) < |xt|
  {
    var n := XLoads(job, loc.pc, l);
    n > 0 ==> xt[LoadSlot(job.cfg, t, l)] == job.XCell(tr, n - 1, LoadSlot(job.cfg, t, l))
  }

  ghost predicate WSlotOk<F>(job: Job<F>, tc: nat, wt: seq<F>, loc: Local<F>, t: nat, l: nat)
    requires job.Valid() && LoadSlot(job.cfg, t, l) < |wt|
  {
    var n := WLoads(job, loc.pc, l);
    n > 0 ==> wt[LoadSlot(job.cfg, t, l)] == job.WCell(tc, n - 1, LoadSlot(job.cfg, t, l))
  }

  lemma {:induction false} Slots(cfg: Config, loads: nat)
    ensures forall t, l :: 0 <= t < cfg.Threads() && 0 <= l < loads ==>
        LoadSlot(cfg, t, l) < Times(loads, cfg.Threads())
  {
    forall t, l | 0 <= t < cfg.Threads() && 0 <= l < loads ensures LoadSlot(cfg, t, l) < Times(loads, cfg.Threads()) {
      LoadSlotOwner(cfg, loads, t, l);
    }
  }

  ghost predicate TilesOk<F>(job: Job<F>, tr: nat, tc: nat, g: Group<F>)
    requires job.Valid() && GroupFits(job, g)
  {
    Slots(job.cfg, job.cfg.xLoads);
    Slots(job.cfg, job.cfg.wLoads);
    && (forall t, l :: 0 <= t < |g.threads| && 0 <= l < job.cfg.xLoads ==> XSlotOk(job, tr, g.xt, g.threads[t], t, l))
    && (forall t, l :: 0 <= t < |g.threads| && 0 <= l < job.cfg.wLoads ==> WSlotOk(job, tc, g.wt, g.threads[t], t, l))
  }

  ghost predicate BarrierOk<F>(job: Job<F>, threads: seq<Local<F>>)
    requires job.Valid()
  {
    forall s, t :: 0 <= s < |threads| && 0 <= t < |threads| ==>
      Passed(job, threads[s].pc) <= Arrived(job, threads[t].pc)
  }

  ghost predicate ThreadsOk<F>(job: Job<F>, tr: nat, tc: nat, threads: seq<Local<F>>)
    requires job.Valid()
  {
    forall t :: 0 <= t < |threads| ==> ThreadOk(job, tr, tc, t, threads[t])
  }

  ghost predicate GroupOk<F>(job: Job<F>, tr: nat, tc: nat, g: Group<F>)
    requires job.Valid()
  {
    GroupFits(job, g) && ThreadsOk(job, tr, tc, g.threads) && BarrierOk(job, g.threads) && TilesOk(job, tr, tc, g)
  }

  /** While one thread reads the tiles, every thread of its workgroup is between the same two barriers. */
  lemma {:induction false} ReadersMeetNoWriter<F>(job: Job<F>, g: Group<F>, t: nat, s: nat)
    requires job.Valid() && GroupFits(job, g) && BarrierOk(job, g.threads) && t < |g.threads| && s < |g.threads|
    requires g.threads[t].pc.ReadX? || g.threads[t].pc.ReadW?
    ensures var pc := g.threads[s].pc;
            (pc.Loaded? || pc.ReadX? || pc.ReadW? || pc.Computed?) && pc.c == g.threads[t].pc.c
  {
    var a, b := g.threads[t].pc, g.threads[s].pc;
    assert Passed(job, a) <= Arrived(job, b) && Passed(job, b) <= Arrived(job, a);
    assert InCode(job, a) && InCode(job, b) by {
      assert LocalFits(job, g.threads[t]) && LocalFits(job, g.threads[s]);
    }
  }

  /** A reader of chunk c finds chunk c's value in every slot. */
  lemma {:induction false} Visible<F>(job: Job<F>, tr: nat, tc: nat, g: Group<F>, t: nat)
    requires job.Valid() && GroupOk(job, tr, tc, g) && t < |g.threads|
    requires g.threads[t].pc.ReadX? || g.threads[t].pc.ReadW?
    ensures forall e :: 0 <= e < |g.xt| ==> g.xt[e] == job.XCell(tr, g.threads[t].pc.c, e)
    ensures forall e :: 0 <= e < |g.wt| ==> g.wt[e] == job.WCell(tc, g.threads[t].pc.c, e)
  {
    hide GroupFits, ThreadsOk, BarrierOk, ThreadOk, Times, Quot, Rem;
    var c := g.threads[t].pc.c;
    forall e | 0 <= e < |g.xt| ensures g.xt[e] == job.XCell(tr, c, e) { VisibleX(job, tr, tc, g, t, e); }
    forall e | 0 <= e < |g.wt| ensures g.wt[e] == job.WCell(tc, c, e) { VisibleW(job, tr, tc, g, t, e); }
  }

  lemma {:induction false} VisibleX<F>(job: Job<F>, tr: nat, tc: nat, g: Group<F>, t: nat, e: nat)
    requires job.Valid() && GroupOk(job, tr, tc, g) && t < |g.threads| && e < |g.xt|
    requires g.threads[t].pc.ReadX? || g.threads[t].pc.ReadW?
    ensures g.xt[e] == job.XCell(tr, g.threads[t].pc.c, e)
  {
    hide ThreadsOk, BarrierOk, ThreadOk;
    assert |g.xt| == Times(job.cfg.xLoads, job.cfg.Threads());
    QuotBound(e, job.cfg.xLoads, job.cfg.Threads());
    var s, l := Rem(e, job.cfg.Threads()), Quot(e, job.cfg.Threads());
    ReadersMeetNoWriter(job, g, t, s);
    assert LoadSlot(job.cfg, s, l) == e;
    assert XSlotOk(job, tr, g.xt, g.threads[s], s, l);
  }

  lemma {:induction false} VisibleW<F>(job: Job<F>, tr: nat, tc: nat, g: Group<F>, t: nat, e: nat)
    requires job.Valid() && GroupOk(job, tr, tc, g) && t < |g.threads| && e < |g.wt|
    requires g.threads[t].pc.ReadX? || g.threads[t].pc.ReadW?
    ensures g.wt[e] == job.WCell(tc, g.threads[t].pc.c, e)
  {
    hide ThreadsOk, BarrierOk, ThreadOk;
    assert |g.wt| == Times(job.cfg.wLoads, job.cfg.Threads());
    QuotBound(e, job.cfg.wLoads, job.cfg.Threads());
    var s, l := Rem(e, job.cfg.Threads()), Quot(e, job.cfg.Threads());
    ReadersMeetNoWriter(job, g, t, s);
    assert LoadSlot(job.cfg, s, l) == e;
    assert WSlotOk(job, tc, g.wt, g.threads[s], s, l);
  }

  lemma {:induction false} StartOk<F>(job: Job<F>, tr: nat, tc: nat, t: nat)
    requires job.Valid()
    ensures ThreadOk(job, tr, tc, t, Start(job, tc, t))
  {
    var loc := Start(job, tc, t);
    assert Folded(job, loc.pc) == 0;
  }

  /** The products of one k advance every register by one input of the fold. */
  lemma {:induction false} MacFolds<F>(job: Job<F>, tr: nat, tc: nat, t: nat, loc: Local<F>, p: nat)
    requires job.Valid() && LocalFits(job, loc) && AccIs(job, tr, tc, t, loc.acc, p)
    requires XrIs(job, tr, t, loc.xr, job.cfg.tm, p) && WrIs(job, tc, t, loc.wr, job.cfg.tn, p)
    ensures AccIs(job, tr, tc, t, Mac(job, loc), p + 1)
  {
    hide InCode, Times, Quot, Rem;
    var acc := Mac(job, loc);
    forall e | 0 <= e < |acc| ensures acc[e] == Cell(job, tr, tc, t, e, p + 1) {
      QuotBound(e, job.cfg.tm, job.cfg.tn);
      var i, j := Quot(e, job.cfg.tn), Rem(e, job.cfg.tn);
      assert loc.xr[i] == job.XAt(job.Row(tr, t, i), p) && loc.wr[j] == job.WAt(job.Col(tc, t, j), p);
      assert loc.acc[e] == Cell(job, tr, tc, t, e, p);
    }
  }

  lemma {:induction false} XReadIs<F>(job: Job<F>, tr: nat, t: nat, c: nat, k: nat, i: nat)
    requires job.Valid() && t < job.cfg.Threads() && i < job.cfg.tm && k < job.cfg.bk
    ensures job.XCell(tr, c, XSlot(job.cfg, t, i, k)) == job.XAt(job.Row(tr, t, i), Times(c, job.cfg.bk) + k)
  {
    hide Times, Quot, Rem;
    XSlotInTile(job.cfg, t, i, k);
  }

  lemma {:induction false} WReadIs<F>(job: Job<F>, tc: nat, t: nat, c: nat, k: nat, j: nat)
    requires job.Valid() && t < job.cfg.Threads() && j < job.cfg.tn && k < job.cfg.bk
    ensures job.WCell(tc, c, WSlot(job.cfg, t, j, k)) == job.WAt(job.Col(tc, t, j), Times(c, job.cfg.bk) + k)
  {
    hide Times, Quot, Rem;
    WSlotInTile(job.cfg, t, j, k);
  }

  lemma {:induction false} ReadXOk<F>(job: Job<F>, tr: nat, tc: nat, g: Group<F>, t: nat)
    requires job.Valid() && GroupOk(job, tr, tc, g) && t < |g.threads| && g.threads[t].pc.ReadX?
    ensures ThreadOk(job, tr, tc, t, GroupStep(job, tr, tc, g, t).threads[t])
  {
    hide GroupFits, BarrierOk, TilesOk, Quot, Rem, Times, XSlot;
    var loc := g.threads[t];
    assert LocalFits(job, loc);
    GroupSizes(job, g);
    var c, k, i := loc.pc.c, loc.pc.k, loc.pc.i;
    if i < job.cfg.tm {
      Visible(job, tr, tc, g, t);
      XSlotInTile(job.cfg, t, i, k);
      XReadIs(job, tr, t, c, k, i);
    }
  }

  lemma {:induction false} GroupSizes<F>(job: Job<F>, g: Group<F>)
    requires job.Valid() && GroupFits(job, g)
    ensures TilesFit(job, g.xt, g.wt) && |g.threads| == job.cfg.Threads()
  {
  }

  lemma {:induction false} ReadWNext<F>(job: Job<F>, tr: nat, tc: nat, g: Group<F>, t: nat)
    requires job.Valid() && GroupOk(job, tr, tc, g) && t < |g.threads| && g.threads[t].pc.ReadW?
    requires g.threads[t].pc.j < job.cfg.tn
    ensures ThreadOk(job, tr, tc, t, GroupStep(job, tr, tc, g, t).threads[t])
  {
    hide GroupFits, BarrierOk, TilesOk, Quot, Rem, Times, WSlot, Mac, XrIs, AccIs;
    var loc := g.threads[t];
    assert LocalFits(job, loc);
    GroupSizes(job, g);
    Visible(job, tr, tc, g, t);
    WSlotInTile(job.cfg, t, loc.pc.j, loc.pc.k);
    WReadIs(job, tc, t, loc.pc.c, loc.pc.k, loc.pc.j);
  }

  lemma {:induction false} ReadWMac<F>(job: Job<F>, tr: nat, tc: nat, g: Group<F>, t: nat)
    requires job.Valid() && GroupOk(job, tr, tc, g) && t < |g.threads| && g.threads[t].pc.ReadW?
    requires g.threads[t].pc.j == job.cfg.tn
    ensures ThreadOk(job, tr, tc, t, GroupStep(job, tr, tc, g, t).threads[t])
  {
    hide GroupFits, BarrierOk, TilesOk, Quot, Rem, Times, WSlot, Mac, AccIs, WrIs;
    var loc := g.threads[t];
    assert LocalFits(job, loc);
    GroupSizes(job, g);
    MacFolds(job, tr, tc, t, loc, Folded(job, loc.pc));
    TimesNext(loc.pc.c, job.cfg.bk);
  }

  lemma {:induction false} ReadWOk<F>(job: Job<F>, tr: nat, tc: nat, g: Group<F>, t: nat)
    requires job.Valid() && GroupOk(job, tr, tc, g) && t < |g.threads| && g.threads[t].pc.ReadW?
    ensures ThreadOk(job, tr, tc, t, GroupStep(job, tr, tc, g, t).threads[t])
  {
    hide GroupStep, TilesOk, BarrierOk, AccIs, XrIs, WrIs;
    assert LocalFits(job, g.threads[t]);
    if g.threads[t].pc.j < job.cfg.tn { ReadWNext(job, tr, tc, g, t); } else { ReadWMac(job, tr, tc, g, t); }
  }

  lemma {:induction false} OtherOk<F>(job: Job<F>, tr: nat, tc: nat, g: Group<F>, t: nat)
    requires job.Valid() && GroupOk(job, tr, tc, g) && t < |g.threads| && !g.threads[t].pc.ReadX?
        && !g.threads[t].pc.ReadW?
    ensures ThreadOk(job, tr, tc, t, GroupStep(job, tr, tc, g, t).threads[t])
  {
    hide GroupFits, BarrierOk, TilesOk, Quot, Rem, Times, AccIs;
    GroupSizes(job, g);
    var loc := g.threads[t];
    assert LocalFits(job, loc);
  }

  lemma {:induction false} ThreadStaysOk<F>(job: Job<F>, tr: nat, tc: nat, g: Group<F>, t: nat)
    requires job.Valid() && GroupOk(job, tr, tc, g) && t < |g.threads|
    ensures ThreadOk(job, tr, tc, t, GroupStep(job, tr, tc, g, t).threads[t])
  {
    var pc := g.threads[t].pc;
    if pc.ReadX? {
      ReadXOk(job, tr, tc, g, t);
    } else if pc.ReadW? {
      ReadWOk(job, tr, tc, g, t);
    } else {
      OtherOk(job, tr, tc, g, t);
    }
  }

  /** Where a step leads: the counters that the barriers and the tiles depend on. */
  lemma {:induction false} StepCounts<F>(job: Job<F>, tr: nat, tc: nat, g: Group<F>, t: nat)
    requires job.Valid() && GroupFits(job, g) && t < |g.threads|
    ensures var a, b := g.threads[t].pc, GroupStep(job, tr, tc, g, t).threads[t].pc;
            && Arrived(job, a) <= Arrived(job, b) && Passed(job, b) <= Arrived(job, a)
            && (Passed(job, b) != Passed(job, a) ==> (a.Loaded? || a.Computed?))
            && (forall l :: 0 <= l < job.cfg.xLoads && !(a.LoadX? && a.l == l) ==>
                XLoads(job, b, l) == XLoads(job, a, l))
            && (forall l :: 0 <= l < job.cfg.wLoads && !(a.LoadW? && a.l == l) ==>
                WLoads(job, b, l) == WLoads(job, a, l))
  {
    assert LocalFits(job, g.threads[t]);
  }

  lemma {:induction false} BarriersHold<F>(job: Job<F>, tr: nat, tc: nat, g: Group<F>, t: nat)
    requires job.Valid() && GroupFits(job, g) && BarrierOk(job, g.threads) && t < |g.threads| && Enabled(job, g, t)
    ensures BarrierOk(job, GroupStep(job, tr, tc, g, t).threads)
  {
    hide Passed, ThreadStep;
    StepCounts(job, tr, tc, g, t);
    var after := GroupStep(job, tr, tc, g, t).threads;
    assert forall s :: 0 <= s < |after| ==> s == t || after[s] == g.threads[s];
    forall s, u | 0 <= s < |after| && 0 <= u < |after| ensures Passed(job, after[s].pc) <= Arrived(job, after[u].pc) {
      assert Passed(job, g.threads[s].pc) <= Arrived(job, g.threads[u].pc);
    }
  }

  /** A load changes one slot, and it is the loader's. */
  lemma {:induction false} XTileHolds<F>(job: Job<F>, tr: nat, tc: nat, g: Group<F>, t: nat, s: nat, l: nat)
    requires job.Valid() && GroupOk(job, tr, tc, g) && t < |g.threads| && s < |g.threads| && l < job.cfg.xLoads
    requires LoadSlot(job.cfg, s, l) < |g.xt|
    ensures var g' := GroupStep(job, tr, tc, g, t); XSlotOk(job, tr, g'.xt, g'.threads[s], s, l)
  {
    hide ThreadsOk, BarrierOk, ThreadOk, LoadSlot, LocalFits;
    StepCounts(job, tr, tc, g, t);
    assert XSlotOk(job, tr, g.xt, g.threads[s], s, l);
    LoadSlotOwner(job.cfg, job.cfg.xLoads, s, l);
    var pc := g.threads[t].pc;
    if pc.LoadX? && pc.l < job.cfg.xLoads { LoadSlotOwner(job.cfg, job.cfg.xLoads, t, pc.l); }
  }

  lemma {:induction false} WTileHolds<F>(job: Job<F>, tr: nat, tc: nat, g: Group<F>, t: nat, s: nat, l: nat)
    requires job.Valid() && GroupOk(job, tr, tc, g) && t < |g.threads| && s < |g.threads| && l < job.cfg.wLoads
    requires LoadSlot(job.cfg, s, l) < |g.wt|
    ensures var g' := GroupStep(job, tr, tc, g, t); WSlotOk(job, tc, g'.wt, g'.threads[s], s, l)
  {
    hide ThreadsOk, BarrierOk, ThreadOk, LoadSlot, LocalFits;
    StepCounts(job, tr, tc, g, t);
    assert WSlotOk(job, tc, g.wt, g.threads[s], s, l);
    LoadSlotOwner(job.cfg, job.cfg.wLoads, s, l);
    var pc := g.threads[t].pc;
    if pc.LoadW? && pc.l < job.cfg.wLoads { LoadSlotOwner(job.cfg, job.cfg.wLoads, t, pc.l); }
  }

  /** Every step of every thread keeps the whole invariant. */
  lemma {:induction false} StepKeepsGroup<F>(job: Job<F>, tr: nat, tc: nat, g: Group<F>, t: nat)
    requires job.Valid() && GroupOk(job, tr, tc, g) && t < |g.threads| && Enabled(job, g, t)
    ensures GroupOk(job, tr, tc, GroupStep(job, tr, tc, g, t))
  {
    hide ThreadStep, Enabled, LoadSlot, XSlotOk, WSlotOk, AccIs, XrIs, WrIs, BarrierOk, InCode;
    var g' := GroupStep(job, tr, tc, g, t);
    ThreadStaysOk(job, tr, tc, g, t);
    BarriersHold(job, tr, tc, g, t);
    assert GroupFits(job, g') && ThreadsOk(job, tr, tc, g'.threads);
    Slots(job.cfg, job.cfg.xLoads);
    Slots(job.cfg, job.cfg.wLoads);
    forall s, l | 0 <= s < |g'.threads| && 0 <= l < job.cfg.xLoads
        ensures XSlotOk(job, tr, g'.xt, g'.threads[s], s, l) {
      XTileHolds(job, tr, tc, g, t, s, l);
    }
    forall s, l | 0 <= s < |g'.threads| && 0 <= l < job.cfg.wLoads
        ensures WSlotOk(job, tc, g'.wt, g'.threads[s], s, l) {
      WTileHolds(job, tr, tc, g, t, s, l);
    }
  }
}
