/** Every run of the register-tiled launch, and what it leaves in the output. */
module RegTileRun {
  import opened Index
  import opened Arithmetic
  import opened LinearSpec
  import opened RegTile
  import opened RegTileProof
  import opened RegTileGrid

  /** A step from pc to pc' stores register pc.e, if pc is a store, and no other. */
  ghost predicate Moves(pc: Pc, pc': Pc, cells: nat) {
    forall e :: 0 <= e < cells ==> (Stored(pc', e) <==> Stored(pc, e) || (pc.Store? && pc.e == e))
  }

  /** The step of thread (g, t) and what it means for the cell of register e' of thread (g', t'). */
  lemma {:induction false} StoreKeepsCell<F>(job: Job<F>, out: seq<F>, out0: seq<F>, g: nat, t: nat, loc: Local<F>,
                                             g': nat, t': nat, e': nat, pc: Pc, pc': Pc)
    requires job.Valid() && |out| == |out0| == Times(job.rows, job.layer.outs)
    requires t < job.cfg.Threads() && t' < job.cfg.Threads() && e' < job.cfg.Cells()
    requires ThreadOk(job, TileRow(job, g), TileCol(job, g), t, loc)
    requires CellOk(job, pc, g', t', e', out, out0)
    requires if (g, t) == (g', t') then pc == loc.pc && Moves(pc, pc', job.cfg.Cells()) else pc' == pc
    ensures CellOk(job, pc', g', t', e', WriteOut(job, out, g, t, loc), out0)
  {
    hide Times, Quot, Rem, InCode;
    var row', col' := RowOf(job, g', t', e'), ColOf(job, g', t', e');
    if InRange(job, row', col') {
      CellInOutput(job, row', col');
      if loc.pc.Store? && loc.pc.e < job.cfg.Cells() {
        var e := loc.pc.e;
        var row, col := RowOf(job, g, t, e), ColOf(job, g, t, e);
        if InRange(job, row, col) {
          CellInOutput(job, row, col);
          assert loc.acc[e] == job.Fold(row, col, Times(job.Chunks(), job.cfg.bk));
          QuotJoin(row, col, job.layer.outs);
          QuotJoin(row', col', job.layer.outs);
          if CellAt(job, row, col) == CellAt(job, row', col') { WriterIsUnique(job, g, t, e, g', t', e'); }
        }
      }
    }
  }

  lemma {:induction false} StepMoves<F>(job: Job<F>, tr: nat, tc: nat, g: Group<F>, t: nat)
    requires job.Valid() && GroupFits(job, g) && t < |g.threads|
    ensures Moves(g.threads[t].pc, GroupStep(job, tr, tc, g, t).threads[t].pc, job.cfg.Cells())
    ensures forall s :: 0 <= s < |g.threads| && s != t ==> GroupStep(job, tr, tc, g, t).threads[s] == g.threads[s]
  {
    hide Times, Quot, Rem;
    assert LocalFits(job, g.threads[t]);
  }

  lemma {:induction false} StepKeepsOut<F>(job: Job<F>, grid: Grid<F>, out0: seq<F>, p: Pick)
    requires job.Valid() && GridOk(job, grid, out0) && CanStep(job, grid, p)
    requires GridFits(job, GridStep(job, grid, p))
    ensures OutOk(job, GridStep(job, grid, p), out0)
  {
    hide GroupOk, ThreadOk, Moves, CellOk, Enabled, GroupStep, WriteOut, Down, Across;
    var grid' := GridStep(job, grid, p);
    var group := grid.groups[p.g];
    var tr, tc := TileRow(job, p.g), TileCol(job, p.g);
    GroupIsOk(job, tr, tc, group, p.t);
    StepMoves(job, tr, tc, group, p.t);
    forall g, t, e | 0 <= g < |grid'.groups| && 0 <= t < job.cfg.Threads() && 0 <= e < job.cfg.Cells()
      ensures CellOk(job, grid'.groups[g].threads[t].pc, g, t, e, grid'.out, out0)
    {
      var pc, pc' := grid.groups[g].threads[t].pc, grid'.groups[g].threads[t].pc;
      assert CellOk(job, pc, g, t, e, grid.out, out0);
      StoreKeepsCell(job, grid.out, out0, p.g, p.t, group.threads[p.t], g, t, e, pc, pc');
    }
  }

  lemma {:induction false} GroupIsOk<F>(job: Job<F>, tr: nat, tc: nat, g: Group<F>, t: nat)
    requires job.Valid() && GroupOk(job, tr, tc, g) && t < |g.threads|
    ensures ThreadOk(job, tr, tc, t, g.threads[t])
  {}

  lemma {:induction false} StepFits<F>(job: Job<F>, grid: Grid<F>, out0: seq<F>, p: Pick)
    requires job.Valid() && GridOk(job, grid, out0) && CanStep(job, grid, p)
    ensures GridFits(job, GridStep(job, grid, p))
    ensures forall g :: 0 <= g < |grid.groups| ==>
              GroupOk(job, TileRow(job, g), TileCol(job, g), GridStep(job, grid, p).groups[g])
  {
    hide GroupStep, WriteOut, Down, Across, GroupFits, Enabled;
    StepKeepsGroup(job, TileRow(job, p.g), TileCol(job, p.g), grid.groups[p.g],
        p.t) by { SizeOf(job, grid.groups[p.g]); }
  }

  lemma {:induction false} SizeOf<F>(job: Job<F>, g: Group<F>)
    requires job.Valid() && GroupFits(job, g)
    ensures |g.threads| == job.cfg.Threads()
  {}

  /** Every step of every thread of every workgroup keeps the invariant of the whole launch. */
  lemma {:induction false} StepKeepsGrid<F>(job: Job<F>, grid: Grid<F>, out0: seq<F>, p: Pick)
    requires job.Valid() && GridOk(job, grid, out0) && CanStep(job, grid, p)
    ensures GridOk(job, GridStep(job, grid, p), out0)
  {
    hide GridStep, OutOk, GroupOk, CanStep, GridFits;
    StepFits(job, grid, out0, p);
    StepKeepsOut(job, grid, out0, p);
    SameCount(job, grid, p);
  }

  lemma {:induction false} SameCount<F>(job: Job<F>, grid: Grid<F>, p: Pick)
    requires job.Valid() && GridFits(job, grid) && CanStep(job, grid, p)
    ensures |GridStep(job, grid, p).groups| == |grid.groups|
  {}

  // ---- runs ----

  /** At launch: registers hold the bias, shared memory and output hold anything. */
  ghost predicate Launched<F>(job: Job<F>, grid: Grid<F>)
    requires job.Valid()
  {
    && GridFits(job, grid)
    && forall g, t :: 0 <= g < |grid.groups| && 0 <= t < job.cfg.Threads() ==>
         grid.groups[g].threads[t] == Start(job, TileCol(job, g), t)
  }

  lemma {:induction false} LaunchedGroup<F>(job: Job<F>, grid: Grid<F>, g: nat)
    requires job.Valid() && Launched(job, grid) && g < |grid.groups|
    ensures GroupOk(job, TileRow(job, g), TileCol(job, g), grid.groups[g])
  {
    hide Quot, Rem, Times, Down, Across, TileRow, TileCol;
    var group := grid.groups[g];
    assert GroupFits(job, group);
    forall t | 0 <= t < |group.threads| ensures ThreadOk(job, TileRow(job, g), TileCol(job, g), t, group.threads[t]) {
      StartOk(job, TileRow(job, g), TileCol(job, g), t);
      assert group.threads[t] == Start(job, TileCol(job, g), t);
    }
    forall t | 0 <= t < |group.threads| ensures group.threads[t].pc == BeginChunk(job, 0) {
      assert group.threads[t] == Start(job, TileCol(job, g), t);
    }
    Slots(job.cfg, job.cfg.xLoads);
    Slots(job.cfg, job.cfg.wLoads);
  }

  lemma {:induction false} LaunchedOk<F>(job: Job<F>, grid: Grid<F>)
    requires job.Valid() && Launched(job, grid)
    ensures GridOk(job, grid, grid.out)
  {
    hide Quot, Rem, Times, Down, Across, TileRow, TileCol, GroupFits, GroupOk;
    forall g | 0 <= g < |grid.groups| ensures GroupOk(job, TileRow(job, g), TileCol(job, g), grid.groups[g]) {
      LaunchedGroup(job, grid, g);
    }
  }

  /** A run: the scheduler picks threads; a pick that is finished or held at a barrier changes nothing. */
  ghost function Exec<F>(job: Job<F>, grid: Grid<F>, sched: seq<Pick>): (r: Grid<F>)
    requires job.Valid() && Launched(job, grid)
    ensures GridOk(job, r, grid.out)
  {
    if |sched| == 0 then LaunchedOk(job, grid); grid
    else
      var before, p := Exec(job, grid, sched[..|sched| - 1]), sched[|sched| - 1];
      if CanStep(job, before, p) then StepKeepsGrid(job, before, grid.out, p); GridStep(job, before, p) else before
  }

  /** How many picks of the schedule were steps. */
  ghost function Taken<F>(job: Job<F>, grid: Grid<F>, sched: seq<Pick>): nat
    requires job.Valid() && Launched(job, grid)
  {
    if |sched| == 0 then 0
    else
      var front, p := sched[..|sched| - 1], sched[|sched| - 1];
      Taken(job, grid, front) + if CanStep(job, Exec(job, grid, front), p) then 1 else 0
  }

  ghost function ThreadsLeft<F>(job: Job<F>, threads: seq<Local<F>>, n: nat): nat
    requires job.Valid() && n <= |threads| && forall t :: 0 <= t < |threads| ==> LocalFits(job, threads[t])
  {
    if n == 0 then 0 else ThreadsLeft(job, threads, n - 1) + Remaining(job, threads[n - 1].pc)
  }

  ghost function GroupsLeft<F>(job: Job<F>, groups: seq<Group<F>>, n: nat): nat
    requires job.Valid() && n <= |groups| && forall g :: 0 <= g < |groups| ==> GroupFits(job, groups[g])
  {
    if n == 0 then 0
    else GroupsLeft(job, groups, n - 1) + ThreadsLeft(job, groups[n - 1].threads, |groups[n - 1].threads|)
  }

  /** Steps the whole launch still has to take. */
  ghost function Left<F>(job: Job<F>, grid: Grid<F>): nat
    requires job.Valid() && GridFits(job, grid)
  {
    GroupsLeft(job, grid.groups, |grid.groups|)
  }

  lemma {:induction false} ThreadsCountDown<F>(job: Job<F>, a: seq<Local<F>>, b: seq<Local<F>>, t: nat, n: nat)
    requires job.Valid() && t < |a| == |b| && n <= |a|
    requires forall s :: 0 <= s < |a| ==> LocalFits(job, a[s])
    requires forall s :: 0 <= s < |b| ==> LocalFits(job, b[s])
    requires forall s :: 0 <= s < |a| && s != t ==> b[s] == a[s]
    requires LocalFits(job, a[t]) && LocalFits(job, b[t]) && Remaining(job, b[t].pc) + 1 == Remaining(job, a[t].pc)
    ensures ThreadsLeft(job, b, n) + (if t < n then 1 else 0) == ThreadsLeft(job, a, n)
  {
    hide Remaining, InCode;
    if n > 0 { ThreadsCountDown(job, a, b, t, n - 1); }
  }

  lemma {:induction false} GroupsCountDown<F>(job: Job<F>, a: seq<Group<F>>, b: seq<Group<F>>, g: nat, n: nat)
    requires job.Valid() && g < |a| == |b| && n <= |a|
    requires forall s :: 0 <= s < |a| ==> GroupFits(job, a[s])
    requires forall s :: 0 <= s < |b| ==> GroupFits(job, b[s])
    requires forall s :: 0 <= s < |a| && s != g ==> b[s] == a[s]
    requires GroupFits(job, a[g]) && GroupFits(job, b[g])
    requires ThreadsLeft(job, b[g].threads, |b[g].threads|) + 1 == ThreadsLeft(job, a[g].threads, |a[g].threads|)
    ensures GroupsLeft(job, b, n) + (if g < n then 1 else 0) == GroupsLeft(job, a, n)
  {
    hide ThreadsLeft;
    if n > 0 { GroupsCountDown(job, a, b, g, n - 1); }
  }

  lemma {:induction false} StepTakesOne<F>(job: Job<F>, grid: Grid<F>, out0: seq<F>, p: Pick)
    requires job.Valid() && GridOk(job, grid, out0) && CanStep(job, grid, p)
    requires GridFits(job, GridStep(job, grid, p))
    ensures Left(job, GridStep(job, grid, p)) + 1 == Left(job, grid)
  {
    hide GroupStep, WriteOut, Down, Across, ThreadsLeft, GroupsLeft, OutOk, GroupOk, LocalFits;
    var g, g' := grid.groups[p.g], GridStep(job, grid, p).groups[p.g];
    assert GroupFits(job, g) && GroupFits(job, g');
    StepCountsDown(job, TileRow(job, p.g), TileCol(job, p.g), g, p.t);
    StepMoves(job, TileRow(job, p.g), TileCol(job, p.g), g, p.t);
    ThreadsCountDown(job, g.threads, g'.threads, p.t, |g.threads|);
    GroupsCountDown(job, grid.groups, GridStep(job, grid, p).groups, p.g, |grid.groups|);
  }

  lemma {:induction false} NoneLeft<F>(job: Job<F>, threads: seq<Local<F>>, n: nat)
    requires job.Valid() && n <= |threads| && forall t :: 0 <= t < |threads| ==> LocalFits(job, threads[t])
    ensures ThreadsLeft(job, threads, n) == 0 <==> forall t :: 0 <= t < n ==> threads[t].pc.Done?
  {
    if n > 0 {
      NoneLeft(job, threads, n - 1);
      assert LocalFits(job, threads[n - 1]);
    }
  }

  ghost predicate AllDone<F>(job: Job<F>, grid: Grid<F>) {
    forall g, t :: 0 <= g < |grid.groups| && 0 <= t < |grid.groups[g].threads| ==> grid.groups[g].threads[t].pc.Done?
  }

  lemma {:induction false} NoGroupLeft<F>(job: Job<F>, groups: seq<Group<F>>, n: nat)
    requires job.Valid() && n <= |groups| && forall g :: 0 <= g < |groups| ==> GroupFits(job, groups[g])
    ensures GroupsLeft(job, groups, n) == 0
       <==> forall g, t :: 0 <= g < n && 0 <= t < |groups[g].threads| ==> groups[g].threads[t].pc.Done?
  {
    hide ThreadsLeft, LocalFits;
    if n > 0 {
      NoGroupLeft(job, groups, n - 1);
      assert GroupFits(job, groups[n - 1]);
      NoneLeft(job, groups[n - 1].threads, |groups[n - 1].threads|);
    }
  }

  lemma {:induction false} TakenCountsDown<F>(job: Job<F>, grid: Grid<F>, sched: seq<Pick>)
    requires job.Valid() && Launched(job, grid)
    ensures Left(job, Exec(job, grid, sched)) + Taken(job, grid, sched) == Left(job, grid)
  {
    hide GridStep, Left, CanStep, Launched, OutOk, GroupOk, GroupFits;
    if |sched| > 0 {
      TakenCountsDown(job, grid, sched[..|sched| - 1]);
      var before, p := Exec(job, grid, sched[..|sched| - 1]), sched[|sched| - 1];
      if CanStep(job, before, p) {
        StepKeepsGrid(job, before, grid.out, p);
        StepTakesOne(job, before, grid.out, p);
      }
    }
  }

  lemma {:induction false} OutputIsFold<F>(job: Job<F>, grid: Grid<F>, out0: seq<F>, row: nat, col: nat)
    requires job.Valid() && GridOk(job, grid, out0) && AllDone(job, grid) && InRange(job, row, col)
    ensures CellAt(job, row, col) < |grid.out|
    ensures grid.out[CellAt(job, row, col)] == job.Fold(row, col, Times(job.Chunks(), job.cfg.bk))
  {
    hide Quot, Rem, Times, GroupOk, GroupFits;
    CellInOutput(job, row, col);
    var g, t, e := WriterExists(job, row, col);
    assert |grid.groups[g].threads| == job.cfg.Threads() by { SizeOf(job, grid.groups[g]); }
    assert CellOk(job, grid.groups[g].threads[t].pc, g, t, e, grid.out, out0);
  }

  /** Unless the run is over, some pick is a step: the barriers cannot deadlock. */
  lemma {:induction false} NeverStuck<F>(job: Job<F>, grid: Grid<F>, out0: seq<F>) returns (p: Pick)
    requires job.Valid() && GridOk(job, grid, out0) && !AllDone(job, grid)
    ensures CanStep(job, grid, p)
  {
    hide Quot, Rem, Times, GroupOk, OutOk, Enabled;
    var g, u :| 0 <= g < |grid.groups| && 0 <= u < |grid.groups[g].threads| && !grid.groups[g].threads[u].pc.Done?;
    assert GroupFits(job, grid.groups[g]);
    var t := SomeThreadCanStep(job, grid.groups[g], u);
    p := Pick(g, t);
  }

  /** Every run of the launch, whatever the schedule: the steps taken are those that were there to
      take, so no run goes on for ever; a run that has not taken them all can go on; and when it
      has, every output cell holds the fold of its row and column. */
  lemma {:induction false} EveryRunFoldsEveryCell<F>(job: Job<F>, grid: Grid<F>, sched: seq<Pick>)
    requires job.Valid() && Launched(job, grid)
    ensures var r := Exec(job, grid, sched);
            && Taken(job, grid, sched) <= Left(job, grid)
            && (Taken(job, grid, sched) < Left(job, grid) <==> exists p :: CanStep(job, r, p))
            && (Taken(job, grid, sched) == Left(job, grid) ==>
                 forall row, col :: 0 <= row < job.rows && 0 <= col < job.layer.outs ==>
                   && CellAt(job, row, col) < |r.out|
                   && r.out[CellAt(job, row, col)] == job.Fold(row, col, Times(job.Chunks(), job.cfg.bk)))
  {
    hide Exec, Taken, GroupsLeft, ThreadsLeft, Launched, OutOk, GroupOk, GroupFits, LocalFits, Enabled, CellAt, Times,
        Quot, Rem, Down, Across;
    var r := Exec(job, grid, sched);
    TakenCountsDown(job, grid, sched);
    NoGroupLeft(job, r.groups, |r.groups|);
    if AllDone(job, r) {
      forall row, col | 0 <= row < job.rows && 0 <= col < job.layer.outs
        ensures CellAt(job, row, col) < |r.out|
        ensures r.out[CellAt(job, row, col)] == job.Fold(row, col, Times(job.Chunks(), job.cfg.bk))
      {
        OutputIsFold(job, r, grid.out, row, col);
      }
      forall p: Pick ensures !CanStep(job, r, p) { DoneCannotStep(job, r, p); }
    } else {
      var p := NeverStuck(job, r, grid.out);
    }
  }

  lemma {:induction false} DoneCannotStep<F>(job: Job<F>, grid: Grid<F>, p: Pick)
    requires job.Valid() && GridFits(job, grid) && AllDone(job, grid)
    ensures !CanStep(job, grid, p)
  {
    if p.g < |grid.groups| { SizeOf(job, grid.groups[p.g]); }
  }

  // ---- the fold is the layer ----

  /** Adding a padded product changes nothing. True of the reals; of floats, except that -0 becomes +0. */
  ghost predicate PaddingIsNeutral<F(!new)>(ops: Ops<F>) {
    forall a :: ops.add(a, ops.mul(ops.zero, ops.zero)) == a
  }

  lemma {:induction false} FoldInside<F>(job: Job<F>, row: nat, col: nat, n: nat)
    requires job.Valid() && InRange(job, row, col) && n <= job.layer.ins
    ensures job.Fold(row, col, n)
         == DotFrom(job.ops, BiasAt(job.ops, job.layer.bias, col), Input(job.x, job.rows, job.layer.ins, row),
                    job.layer.Weights(col), n)
  {
    hide Times, BiasAt, Quot, Rem;
    if n > 0 {
      FoldInside(job, row, col, n - 1);
      SlotBound(row, job.rows, job.layer.ins);
      SlotBound(col, job.layer.outs, job.layer.ins);
      assert job.XAt(row, n - 1) == Input(job.x, job.rows, job.layer.ins, row)[n - 1];
      assert job.WAt(col, n - 1) == job.layer.Weights(col)[n - 1];
    }
  }

  lemma {:induction false} FoldPast<F(!new)>(job: Job<F>, row: nat, col: nat, n: nat)
    requires job.Valid() && job.layer.ins <= n && (n == job.layer.ins || PaddingIsNeutral(job.ops))
    ensures job.Fold(row, col, n) == job.Fold(row, col, job.layer.ins)
  {
    if n > job.layer.ins { FoldPast(job, row, col, n - 1); }
  }

  lemma {:induction false} ChunksCover<F>(job: Job<F>)
    requires job.Valid()
    ensures job.layer.ins <= Times(job.Chunks(), job.cfg.bk)
    ensures Rem(job.layer.ins, job.cfg.bk) == 0 ==> Times(job.Chunks(), job.cfg.bk) == job.layer.ins
  {
    var bk, ins := job.cfg.bk, job.layer.ins;
    QuotRem(ins + bk - 1, bk);
    if Rem(ins, bk) == 0 {
      QuotRem(ins, bk);
      QuotJoin(Quot(ins, bk), bk - 1, bk);
    }
  }

  /** A finished run leaves the scalar kernel's result: bit for bit when the chunks divide the
      inputs, and whenever padding adds nothing. */
  lemma {:induction false} EveryRunIsScalar<F(!new)>(job: Job<F>, grid: Grid<F>, sched: seq<Pick>, row: nat, col: nat)
    requires job.Valid() && Launched(job, grid) && Taken(job, grid, sched) == Left(job, grid)
    requires row < job.rows && col < job.layer.outs
    requires Rem(job.layer.ins, job.cfg.bk) == 0 || PaddingIsNeutral(job.ops)
    ensures CellAt(job, row, col) < |Exec(job, grid, sched).out|
    ensures Exec(job, grid, sched).out[CellAt(job, row, col)]
         == ScalarCell(job.ops, Input(job.x, job.rows, job.layer.ins, row), job.layer, col)
  {
    hide Exec, Taken, Left, Launched, CellAt, Times, Quot, Rem;
    EveryRunFoldsEveryCell(job, grid, sched);
    ChunksCover(job);
    FoldPast(job, row, col, Times(job.Chunks(), job.cfg.bk));
    FoldInside(job, row, col, job.layer.ins);
  }

  // ---- the shipped configuration ----

  /** The kernel's counts, as the source derives them from its comptime parameters. */
  function FromTiles(bm: nat, bn: nat, bk: nat, tm: nat, tn: nat): Config
    requires 0 < tm && 0 < tn
  {
    var txs, tys := Quot(bn, tn), Quot(bm, tm);
    var threads := Times(txs, tys);
    if threads == 0 then Config(tys, txs, bk, tm, tn, 0, 0)
    else Config(tys, txs, bk, tm, tn, Quot(Times(bm, bk), threads), Quot(Times(bn, bk), threads))
  }

  /** The stated divisibility is exactly what the proofs ask of the tile parameters. */
  lemma {:induction false} DivisibilityIsValid(bm: nat, bn: nat, bk: nat, tm: nat, tn: nat)
    requires 0 < tm <= bm && 0 < tn <= bn && 0 < bk && Rem(bm, tm) == 0 && Rem(bn, tn) == 0
    ensures var cfg := FromTiles(bm, bn, bk, tm, tn);
            && cfg.Bm() == bm && cfg.Bn() == bn && cfg.Threads() == Times(Quot(bn, tn), Quot(bm, tm)) > 0
            && (cfg.Valid() <==> Rem(Times(bm, bk), cfg.Threads()) == 0 && Rem(Times(bn, bk), cfg.Threads()) == 0)
  {
    hide Times, Quot, Rem;
    var txs, tys := Quot(bn, tn), Quot(bm, tm);
    QuotRem(bm, tm);
    QuotRem(bn, tn);
    TimesComm(tys, txs);
    NotZero(tys, tm);
    NotZero(txs, tn);
    TimesPositive(txs, tys);
    QuotRem(Times(bm, bk), Times(txs, tys));
    QuotRem(Times(bn, bk), Times(txs, tys));
  }

  lemma {:induction false} NotZero(a: nat, b: nat)
    requires 0 < Times(a, b)
    ensures 0 < a
  {}

  lemma {:induction false} ShippedTiles()
    ensures FromTiles(64, 64, 8, 4, 4) == Config(16, 16, 8, 4, 4, 2, 2)
    ensures FromTiles(64, 64, 8, 4, 4).Valid()
  {
    hide Times, Quot, Rem;
    TimesIsProduct(16, 16);
    TimesIsProduct(64, 8);
    QuotIsDivision(64, 4);
    QuotIsDivision(512, 256);
    DivisibilityIsValid(64, 64, 8, 4, 4);
  }
}
