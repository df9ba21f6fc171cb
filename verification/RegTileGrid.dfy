/** The whole launch: workgroups share nothing but the output. Under every schedule no two threads
    race, some thread can always go on, the run is finite, and it ends in the linear layer. */
module RegTileGrid {
  import opened Index
  import opened RegTile
  import opened RegTileProof

  // ---- shared tiles are free of races ----

  ghost predicate WritesX<F>(job: Job<F>, t: nat, pc: Pc, e: nat) {
    pc.LoadX? && pc.l < job.cfg.xLoads && e == LoadSlot(job.cfg, t, pc.l)
  }

  ghost predicate WritesW<F>(job: Job<F>, t: nat, pc: Pc, e: nat) {
    pc.LoadW? && pc.l < job.cfg.wLoads && e == LoadSlot(job.cfg, t, pc.l)
  }

  ghost predicate ReadsX<F>(job: Job<F>, t: nat, pc: Pc, e: nat)
    requires job.Valid()
  {
    pc.ReadX? && pc.i < job.cfg.tm && e == XSlot(job.cfg, t, pc.i, pc.k)
  }

  ghost predicate ReadsW<F>(job: Job<F>, t: nat, pc: Pc, e: nat)
    requires job.Valid()
  {
    pc.ReadW? && pc.j < job.cfg.tn && e == WSlot(job.cfg, t, pc.j, pc.k)
  }

  /** In no reachable state are two threads about to touch one slot with one of them writing it. */
  lemma {:induction false} NoRace<F>(job: Job<F>, tr: nat, tc: nat, g: Group<F>, s: nat, t: nat, e: nat)
    requires job.Valid() && GroupOk(job, tr, tc, g) && s < |g.threads| && t < |g.threads| && s != t
    ensures WritesX(job, s, g.threads[s].pc, e) ==>
              !WritesX(job, t, g.threads[t].pc, e) && !ReadsX(job, t, g.threads[t].pc, e)
    ensures WritesW(job, s, g.threads[s].pc, e) ==>
              !WritesW(job, t, g.threads[t].pc, e) && !ReadsW(job, t, g.threads[t].pc, e)
  {
    hide ThreadsOk, TilesOk, LoadSlot;
    var a, b := g.threads[s].pc, g.threads[t].pc;
    if b.ReadX? || b.ReadW? { ReadersMeetNoWriter(job, g, t, s); }
    if a.LoadX? && b.LoadX? {
      LoadSlotOwner(job.cfg, job.cfg.xLoads, s, a.l);
      LoadSlotOwner(job.cfg, job.cfg.xLoads, t, b.l);
    }
    if a.LoadW? && b.LoadW? {
      LoadSlotOwner(job.cfg, job.cfg.wLoads, s, a.l);
      LoadSlotOwner(job.cfg, job.cfg.wLoads, t, b.l);
    }
  }

  // ---- barriers never deadlock ----

  function Slowest<F>(job: Job<F>, threads: seq<Local<F>>, n: nat): (t: nat)
    requires job.Valid() && 0 < n <= |threads|
    ensures t < n && forall s :: 0 <= s < n ==> Arrived(job, threads[t].pc) <= Arrived(job, threads[s].pc)
  {
    if n == 1 then 0
    else
      var t := Slowest(job, threads, n - 1);
      if Arrived(job, threads[n - 1].pc) < Arrived(job, threads[t].pc) then n - 1 else t
  }

  /** Unless all are done, some thread of the workgroup can step. */
  lemma {:induction false} SomeThreadCanStep<F>(job: Job<F>, g: Group<F>, u: nat) returns (t: nat)
    requires job.Valid() && GroupFits(job, g) && u < |g.threads| && !g.threads[u].pc.Done?
    ensures t < |g.threads| && Enabled(job, g, t)
  {
    t := Slowest(job, g.threads, |g.threads|);
    if g.threads[t].pc.Done? {
      assert LocalFits(job, g.threads[u]);
      t := u;
    }
  }

  // ---- every run is finite ----

  function PerInput(cfg: Config): nat { cfg.tm + cfg.tn + 2 }

  function PerChunk(cfg: Config): nat { cfg.xLoads + cfg.wLoads + 4 + Times(cfg.bk, PerInput(cfg)) }

  function ChunksLeft<F>(job: Job<F>, c: nat): nat
    requires job.Valid() && c <= job.Chunks()
  {
    Times(job.Chunks() - c, PerChunk(job.cfg)) + job.cfg.Cells() + 1
  }

  /** Steps the thread still has to take. */
  ghost function Remaining<F>(job: Job<F>, pc: Pc): nat
    requires job.Valid() && InCode(job, pc)
  {
    var cfg := job.cfg;
    match pc
    case LoadX(c, l) => cfg.xLoads - l + cfg.wLoads + 4 + Times(cfg.bk, PerInput(cfg)) + ChunksLeft(job, c + 1)
    case LoadW(c, l) => cfg.wLoads - l + 3 + Times(cfg.bk, PerInput(cfg)) + ChunksLeft(job, c + 1)
    case Loaded(c) => 2 + Times(cfg.bk, PerInput(cfg)) + ChunksLeft(job, c + 1)
    case ReadX(c, k, i) => cfg.tm - i + 1 + cfg.tn + 1 + Times(cfg.bk - 1 - k, PerInput(cfg)) + 1
        + ChunksLeft(job, c + 1)
    case ReadW(c, k, j) => cfg.tn - j + 1 + Times(cfg.bk - 1 - k, PerInput(cfg)) + 1 + ChunksLeft(job, c + 1)
    case Computed(c) => 1 + ChunksLeft(job, c + 1)
    case Store(e) => cfg.Cells() - e + 1
    case Done => 0
  }

  ghost predicate OneLess<F>(job: Job<F>, tr: nat, tc: nat, g: Group<F>, t: nat)
    requires job.Valid() && GroupFits(job, g) && t < |g.threads|
  {
    var a, b := g.threads[t].pc, GroupStep(job, tr, tc, g, t).threads[t].pc;
    InCode(job, a) && InCode(job, b) && Remaining(job, b) + 1 == Remaining(job, a)
  }

  lemma {:induction false} LoadCountsDown<F>(job: Job<F>, tr: nat, tc: nat, g: Group<F>, t: nat)
    requires job.Valid() && GroupFits(job, g) && t < |g.threads|
    requires g.threads[t].pc.LoadX? || g.threads[t].pc.LoadW? || g.threads[t].pc.Loaded?
    ensures OneLess(job, tr, tc, g, t)
  {
    hide Mac, Quot, Rem, Times, TilesFit, LoadSlot, XSlot, WSlot, Job.XCell, Job.WCell, Job.Chunks;
    assert LocalFits(job, g.threads[t]);
    if g.threads[t].pc.Loaded? { TimesNext(job.cfg.bk - 1, PerInput(job.cfg)); }
  }

  lemma {:induction false} ReadCountsDown<F>(job: Job<F>, tr: nat, tc: nat, g: Group<F>, t: nat)
    requires job.Valid() && GroupFits(job, g) && t < |g.threads| && (g.threads[t].pc.ReadX? || g.threads[t].pc.ReadW?)
    ensures OneLess(job, tr, tc, g, t)
  {
    hide Mac, Quot, Rem, Times, TilesFit, LoadSlot, XSlot, WSlot, Job.XCell, Job.WCell, Job.Chunks;
    assert LocalFits(job, g.threads[t]);
    var pc := g.threads[t].pc;
    TimesZero(PerInput(job.cfg));
    if pc.k + 1 < job.cfg.bk { TimesNext(job.cfg.bk - 2 - pc.k, PerInput(job.cfg)); }
  }

  lemma {:induction false} LastCountsDown<F>(job: Job<F>, tr: nat, tc: nat, g: Group<F>, t: nat)
    requires job.Valid() && GroupFits(job, g) && t < |g.threads|
        && (g.threads[t].pc.Computed? || g.threads[t].pc.Store?)
    ensures OneLess(job, tr, tc, g, t)
  {
    hide Mac, Quot, Rem, Times, TilesFit, LoadSlot, XSlot, WSlot, Job.XCell, Job.WCell, Job.Chunks;
    assert LocalFits(job, g.threads[t]);
    var pc := g.threads[t].pc;
    TimesZero(PerChunk(job.cfg));
    if pc.Computed? && pc.c + 1 < job.Chunks() { TimesNext(job.Chunks() - pc.c - 2, PerChunk(job.cfg)); }
  }

  /** Every step of a thread is one of those it had left. */
  lemma {:induction false} StepCountsDown<F>(job: Job<F>, tr: nat, tc: nat, g: Group<F>, t: nat)
    requires job.Valid() && GroupFits(job, g) && t < |g.threads| && !g.threads[t].pc.Done?
    ensures OneLess(job, tr, tc, g, t)
  {
    hide OneLess;
    var pc := g.threads[t].pc;
    if pc.LoadX? || pc.LoadW? || pc.Loaded? { LoadCountsDown(job, tr, tc, g, t); }
    else if pc.ReadX? || pc.ReadW? { ReadCountsDown(job, tr, tc, g, t); }
    else { LastCountsDown(job, tr, tc, g, t); }
  }

  // ---- the grid of workgroups ----

  datatype Grid<F> = Grid(groups: seq<Group<F>>, out: seq<F>)

  datatype Pick = Pick(g: nat, t: nat)

  /** div_ceil(n, block).max(1) */
  function CubeCount(n: nat, block: nat): nat
    requires 0 < block
  {
    if n == 0 then 1 else DivCeil(n, block)
  }

  lemma {:induction false} Covers(n: nat, block: nat)
    requires 0 < block
    ensures n <= Times(CubeCount(n, block), block)
    ensures n > 0 ==> DivCeil(n, block) > 0
  {
    if n > 0 { QuotRem(n + block - 1, block); }
  }

  lemma {:induction false} BlockSides(cfg: Config)
    requires cfg.Valid()
    ensures 0 < cfg.Bm() && 0 < cfg.Bn() && 0 < cfg.Threads() && 0 < cfg.Cells()
  {
    TimesPositive(cfg.tys, cfg.tm);
    TimesPositive(cfg.txs, cfg.tn);
    TimesPositive(cfg.tys, cfg.txs);
    TimesPositive(cfg.tm, cfg.tn);
  }

  function Across<F>(job: Job<F>): (n: nat)
    requires job.Valid()
    ensures 0 < n
  {
    BlockSides(job.cfg);
    Covers(job.layer.outs, job.cfg.Bn());
    CubeCount(job.layer.outs, job.cfg.Bn())
  }

  function Down<F>(job: Job<F>): (n: nat)
    requires job.Valid()
    ensures 0 < n
  {
    BlockSides(job.cfg);
    Covers(job.rows, job.cfg.Bm());
    CubeCount(job.rows, job.cfg.Bm())
  }

  function TileRow<F>(job: Job<F>, g: nat): nat
    requires job.Valid()
  {
    Quot(g, Across(job))
  }

  function TileCol<F>(job: Job<F>, g: nat): nat
    requires job.Valid()
  {
    Rem(g, Across(job))
  }

  /** The output cell that register e of a thread goes to. */
  function RowOf<F>(job: Job<F>, g: nat, t: nat, e: nat): nat
    requires job.Valid()
  {
    job.Row(TileRow(job, g), t, Quot(e, job.cfg.tn))
  }

  function ColOf<F>(job: Job<F>, g: nat, t: nat, e: nat): nat
    requires job.Valid()
  {
    job.Col(TileCol(job, g), t, Rem(e, job.cfg.tn))
  }

  ghost predicate InRange<F>(job: Job<F>, row: nat, col: nat) { row < job.rows && col < job.layer.outs }

  function CellAt<F>(job: Job<F>, row: nat, col: nat): nat { Times(row, job.layer.outs) + col }

  lemma {:induction false} CellInOutput<F>(job: Job<F>, row: nat, col: nat)
    requires InRange(job, row, col)
    ensures CellAt(job, row, col) < Times(job.rows, job.layer.outs)
  {
    SlotBound(row, job.rows, job.layer.outs);
  }

  /** Every in-range output cell is the business of one thread of one workgroup, and of one register. */
  lemma {:induction false} WriterExists<F>(job: Job<F>, row: nat, col: nat) returns (g: nat, t: nat, e: nat)
    requires job.Valid() && InRange(job, row, col)
    ensures g < Times(Down(job), Across(job)) && t < job.cfg.Threads() && e < job.cfg.Cells()
    ensures RowOf(job, g, t, e) == row && ColOf(job, g, t, e) == col
  {
    hide Times, Quot, Rem;
    var cfg := job.cfg;
    BlockSides(cfg);
    Covers(job.rows, cfg.Bm());
    Covers(job.layer.outs, cfg.Bn());
    QuotBound(row, Down(job), cfg.Bm());
    QuotBound(col, Across(job), cfg.Bn());
    var tr, tc := Quot(row, cfg.Bm()), Quot(col, cfg.Bn());
    var r, c := Rem(row, cfg.Bm()), Rem(col, cfg.Bn());
    QuotBound(r, cfg.tys, cfg.tm);
    QuotBound(c, cfg.txs, cfg.tn);
    g := Times(tr, Across(job)) + tc;
    t := Times(Quot(r, cfg.tm), cfg.txs) + Quot(c, cfg.tn);
    e := Times(Rem(r, cfg.tm), cfg.tn) + Rem(c, cfg.tn);
    SlotBound(tr, Down(job), Across(job));
    SlotBound(Quot(r, cfg.tm), cfg.tys, cfg.txs);
    SlotBound(Rem(r, cfg.tm), cfg.tm, cfg.tn);
    QuotJoin(tr, tc, Across(job));
    QuotJoin(Quot(r, cfg.tm), Quot(c, cfg.tn), cfg.txs);
    QuotJoin(Rem(r, cfg.tm), Rem(c, cfg.tn), cfg.tn);
  }

  lemma {:induction false} Split(a: nat, b: nat, i: nat, a': nat, b': nat, i': nat, tiles: nat, size: nat)
    requires b < tiles && b' < tiles && i < size && i' < size
    requires Times(a, Times(tiles, size)) + Times(b, size) + i == Times(a', Times(tiles, size)) + Times(b', size) + i'
    ensures a == a' && b == b' && i == i'
  {
    hide Times, Quot, Rem;
    SlotBound(b, tiles, size);
    SlotBound(b', tiles, size);
    QuotJoin(a, Times(b, size) + i, Times(tiles, size));
    QuotJoin(a', Times(b', size) + i', Times(tiles, size));
    QuotJoin(b, i, size);
    QuotJoin(b', i', size);
  }

  lemma {:induction false} WriterIsUnique<F>(job: Job<F>, g: nat, t: nat, e: nat, g': nat, t': nat, e': nat)
    requires job.Valid() && t < job.cfg.Threads() && t' < job.cfg.Threads() && e < job.cfg.Cells()
        && e' < job.cfg.Cells()
    requires RowOf(job, g, t, e) == RowOf(job, g', t', e') && ColOf(job, g, t, e) == ColOf(job, g', t', e')
    ensures g == g' && t == t' && e == e'
  {
    hide Times, Quot, Rem;
    var cfg := job.cfg;
    BlockSides(cfg);
    QuotBound(t, cfg.tys, cfg.txs);
    QuotBound(t', cfg.tys, cfg.txs);
    QuotBound(e, cfg.tm, cfg.tn);
    QuotBound(e', cfg.tm, cfg.tn);
    QuotRem(g, Across(job));
    QuotRem(g', Across(job));
    Split(TileRow(job, g), Quot(t, cfg.txs), Quot(e, cfg.tn), TileRow(job, g'), Quot(t', cfg.txs), Quot(e', cfg.tn),
        cfg.tys, cfg.tm);
    Split(TileCol(job, g), Rem(t, cfg.txs), Rem(e, cfg.tn), TileCol(job, g'), Rem(t', cfg.txs), Rem(e', cfg.tn),
        cfg.txs, cfg.tn);
  }

  ghost predicate Stored(pc: Pc, e: nat) { pc.Done? || (pc.Store? && e < pc.e) }

  /** A cell whose writer has passed it holds the whole fold; any other is as it was. */
  ghost predicate CellOk<F>(job: Job<F>, pc: Pc, g: nat, t: nat, e: nat, out: seq<F>, out0: seq<F>)
    requires job.Valid()
  {
    var row, col := RowOf(job, g, t, e), ColOf(job, g, t, e);
    InRange(job, row, col) && CellAt(job, row, col) < |out| == |out0| ==>
      out[CellAt(job, row, col)] ==
        if Stored(pc, e) then job.Fold(row, col, Times(job.Chunks(), job.cfg.bk)) else out0[CellAt(job, row, col)]
  }

  ghost predicate OutOk<F>(job: Job<F>, grid: Grid<F>, out0: seq<F>)
    requires job.Valid() && GridFits(job, grid)
  {
    && |grid.out| == |out0|
    && forall g, t, e :: 0 <= g < |grid.groups| && 0 <= t < job.cfg.Threads() && 0 <= e < job.cfg.Cells() ==>
         CellOk(job, grid.groups[g].threads[t].pc, g, t, e, grid.out, out0)
  }

  ghost predicate GridFits<F>(job: Job<F>, grid: Grid<F>)
    requires job.Valid()
  {
    && |grid.groups| == Times(Down(job), Across(job)) && |grid.out| == Times(job.rows, job.layer.outs)
    && forall g :: 0 <= g < |grid.groups| ==> GroupFits(job, grid.groups[g])
  }

  ghost predicate GridOk<F>(job: Job<F>, grid: Grid<F>, out0: seq<F>)
    requires job.Valid()
  {
    && GridFits(job, grid)
    && (forall g :: 0 <= g < |grid.groups| ==> GroupOk(job, TileRow(job, g), TileCol(job, g), grid.groups[g]))
    && OutOk(job, grid, out0)
  }

  ghost predicate CanStep<F>(job: Job<F>, grid: Grid<F>, p: Pick)
    requires job.Valid() && GridFits(job, grid)
  {
    p.g < |grid.groups| && p.t < job.cfg.Threads() && Enabled(job, grid.groups[p.g], p.t)
  }

  function WriteOut<F>(job: Job<F>, out: seq<F>, g: nat, t: nat, loc: Local<F>): (r: seq<F>)
    requires job.Valid() && |out| == Times(job.rows, job.layer.outs) && LocalFits(job, loc)
    ensures |r| == |out|
  {
    if loc.pc.Store? && loc.pc.e < job.cfg.Cells() then
      var row, col := RowOf(job, g, t, loc.pc.e), ColOf(job, g, t, loc.pc.e);
      if row < job.rows && col < job.layer.outs then
        CellInOutput(job, row, col);
        out[CellAt(job, row, col) := loc.acc[loc.pc.e]]
      else out
    else out
  }

  ghost function GridStep<F>(job: Job<F>, grid: Grid<F>, p: Pick): Grid<F>
    requires job.Valid() && GridFits(job, grid) && CanStep(job, grid, p)
  {
    var g := grid.groups[p.g];
    Grid(grid.groups[p.g := GroupStep(job, TileRow(job, p.g), TileCol(job, p.g), g, p.t)],
         WriteOut(job, grid.out, p.g, p.t, g.threads[p.t]))
  }
}
