/** When the register-tiled product is the scalar kernel bit for bit, and what it is over the reals. */
module RegTileExact {
  import opened Index
  import opened Arithmetic
  import opened LinearSpec
  import opened RegTile
  import opened RegTileGrid
  import opened RegTileRun

  // ---- finished runs exist ----

  /** A launch: every thread at its start, the tiles holding anything. */
  function NewGrid<F>(job: Job<F>, out: seq<F>): (grid: Grid<F>)
    requires job.Valid() && |out| == Times(job.rows, job.layer.outs)
  {
    var cfg := job.cfg;
    Grid(seq(Times(Down(job), Across(job)), g requires 0 <= g =>
           Group(seq(Times(cfg.Bm(), cfg.bk), _ => job.ops.zero), seq(Times(cfg.Bn(), cfg.bk), _ => job.ops.zero),
                 seq(cfg.Threads(), t requires 0 <= t => Start(job, TileCol(job, g), t)))),
         out)
  }

  lemma {:induction false} NewGridLaunched<F>(job: Job<F>, out: seq<F>)
    requires job.Valid() && |out| == Times(job.rows, job.layer.outs)
    ensures Launched(job, NewGrid(job, out))
  {
    hide Times, Quot, Rem, TileCol, Down, Across;
    var grid := NewGrid(job, out);
    forall g | 0 <= g < |grid.groups| ensures GroupFits(job, grid.groups[g]) {
      forall t | 0 <= t < job.cfg.Threads() ensures LocalFits(job, grid.groups[g].threads[t]) {
        StartFits(job, TileCol(job, g), t);
      }
    }
  }

  lemma {:induction false} StartFits<F>(job: Job<F>, tc: nat, t: nat)
    requires job.Valid()
    ensures LocalFits(job, Start(job, tc, t))
  {}

  /** Some schedule uses up the steps. */
  lemma {:induction false} FinishingRun<F>(job: Job<F>, grid: Grid<F>, begun: seq<Pick>) returns (sched: seq<Pick>)
    requires job.Valid() && Launched(job, grid)
    ensures Taken(job, grid, sched) == Left(job, grid)
    decreases Left(job, grid) - Taken(job, grid, begun)
  {
    hide CanStep, Left;
    EveryRunFoldsEveryCell(job, grid, begun);
    sched := begun;
    if Taken(job, grid, begun) < Left(job, grid) {
      var p :| CanStep(job, Exec(job, grid, begun), p);
      assert (begun + [p])[..|begun|] == begun;
      EveryRunFoldsEveryCell(job, grid, begun + [p]);
      sched := FinishingRun(job, grid, begun + [p]);
    }
  }

  // ---- exactly when ----

  ghost predicate Finished<F>(job: Job<F>, grid: Grid<F>, sched: seq<Pick>) {
    job.Valid() && Launched(job, grid) && Taken(job, grid, sched) == Left(job, grid)
  }

  /** Every output cell is the scalar kernel's. */
  ghost predicate LeavesScalar<F>(job: Job<F>, grid: Grid<F>, sched: seq<Pick>)
    requires Finished(job, grid, sched)
  {
    forall row, col :: InRange(job, row, col) ==> CellIsScalar(job, Exec(job, grid, sched).out, row, col)
  }

  ghost predicate CellIsScalar<F>(job: Job<F>, out: seq<F>, row: nat, col: nat)
    requires job.Valid() && InRange(job, row, col)
  {
    CellAt(job, row, col) < |out|
    && out[CellAt(job, row, col)] == ScalarCell(job.ops, Input(job.x, job.rows, job.layer.ins, row), job.layer, col)
  }

  ghost predicate Shaped<F>(job: Job<F>, cfg: Config, rows: nat, ins: nat, outs: nat) {
    job.Valid() && job.cfg == cfg && job.rows == rows && job.layer.ins == ins && job.layer.outs == outs
  }

  /** Every finished run of every product of this shape is the scalar kernel's, bit for bit, whatever the
      operations on these floats do. */
  ghost predicate AlwaysScalar(cfg: Config, rows: nat, ins: nat, outs: nat) {
    forall job: Job<Zero>, grid: Grid<Zero>, sched: seq<Pick> ::
      Shaped(job, cfg, rows, ins, outs) && Finished(job, grid, sched) ==> LeavesScalar(job, grid, sched)
  }

  lemma {:induction false} DividedIsScalar<F(!new)>(job: Job<F>, grid: Grid<F>, sched: seq<Pick>)
    requires Finished(job, grid, sched) && Rem(job.layer.ins, job.cfg.bk) == 0
    ensures LeavesScalar(job, grid, sched)
  {
    hide Exec, Taken, Left, Launched, CellAt, Times, Quot, Rem, ScalarCell;
    forall row, col | InRange(job, row, col) ensures CellIsScalar(job, Exec(job, grid, sched).out, row, col) {
      EveryRunIsScalar(job, grid, sched, row, col);
    }
  }

  lemma {:induction false} PaddedPast<F>(job: Job<F>)
    requires job.Valid() && Rem(job.layer.ins, job.cfg.bk) != 0
    ensures job.layer.ins < Times(job.Chunks(), job.cfg.bk)
  {
    hide Times, Quot, Rem;
    ChunksCover(job);
    QuotJoin(job.Chunks(), 0, job.cfg.bk);
  }

  // ---- signed zeros ----

  /** The two zeros of a float, closed under its addition and multiplication. */
  datatype Zero = Minus | Plus

  function ZeroOps(): Ops<Zero> {
    Ops(Plus, Plus,
        (a, b) => if a == Minus && b == Minus then Minus else Plus,
        (a, b) => if a == Minus && b == Plus then Minus else Plus,
        (a, b) => if a == b then Plus else Minus,
        (a, b) => if a == b then Plus else Minus,
        (a, b, c) => if a != b && c == Minus then Minus else Plus,
        (a, b) => a, (a, b) => false, a => a)
  }

  /** Inputs +0, weights -0, bias -0. */
  function ZeroJob(cfg: Config, rows: nat, ins: nat, outs: nat): (job: Job<Zero>)
    requires cfg.Valid()
    ensures Shaped(job, cfg, rows, ins, outs)
  {
    Job(ZeroOps(), cfg, seq(Times(rows, ins), _ => Plus),
        Layer(seq(Times(outs, ins), _ => Minus), seq(outs, _ => Minus), ins, outs), rows)
  }

  /** A sum of negative zeros is one, until a padded product, which is a positive zero, is added. */
  lemma {:induction false} ZeroFold(cfg: Config, rows: nat, ins: nat, outs: nat, row: nat, col: nat, n: nat)
    requires cfg.Valid() && row < rows && col < outs
    ensures ZeroJob(cfg, rows, ins, outs).Fold(row, col, n) == if n <= ins then Minus else Plus
  {
    hide Times;
    var job := ZeroJob(cfg, rows, ins, outs);
    if n == 0 {
      assert job.Fold(row, col, 0) == Minus;
    } else {
      ZeroFold(cfg, rows, ins, outs, row, col, n - 1);
      if n <= ins {
        SlotBound(row, rows, ins);
        SlotBound(col, outs, ins);
        assert job.XAt(row, n - 1) == Plus && job.WAt(col, n - 1) == Minus;
      } else {
        assert job.XAt(row, n - 1) == Plus && job.WAt(col, n - 1) == Plus;
      }
    }
  }

  /** For every shape whose chunks do not divide the inputs: the scalar kernel leaves -0 in every cell, and
      every finished run leaves +0. */
  lemma {:induction false} SignedZeroDiffers(cfg: Config, rows: nat, ins: nat, outs: nat, grid: Grid<Zero>,
                                             sched: seq<Pick>, row: nat, col: nat)
    requires cfg.Valid() && row < rows && col < outs && Rem(ins, cfg.bk) != 0
    requires Finished(ZeroJob(cfg, rows, ins, outs), grid, sched)
    ensures var job := ZeroJob(cfg, rows, ins, outs);
            && CellAt(job, row, col) < |Exec(job, grid, sched).out|
            && Exec(job, grid, sched).out[CellAt(job, row, col)] == Plus
            && ScalarCell(job.ops, Input(job.x, rows, ins, row), job.layer, col) == Minus
  {
    hide Exec, Taken, Left, Launched, CellAt, Times, Quot, Rem, ZeroJob;
    var job := ZeroJob(cfg, rows, ins, outs);
    EveryRunFoldsEveryCell(job, grid, sched);
    PaddedPast(job);
    ZeroFold(cfg, rows, ins, outs, row, col, Times(job.Chunks(), cfg.bk));
    ZeroFold(cfg, rows, ins, outs, row, col, ins);
    FoldInside(job, row, col, ins);
  }

  /** The register-tiled product is the scalar kernel bit for bit, for all operations, inputs and
      schedules, if and only if its chunks divide the inputs. `DividedIsScalar` is one half, on any type;
      the zeros of a float are enough for the other. */
  lemma {:induction false} BitForBitIff(cfg: Config, rows: nat, ins: nat, outs: nat)
    requires cfg.Valid() && 0 < rows && 0 < outs
    ensures AlwaysScalar(cfg, rows, ins, outs) <==> Rem(ins, cfg.bk) == 0
  {
    hide Finished, LeavesScalar, ZeroJob, Times, Quot, Rem;
    if Rem(ins, cfg.bk) == 0 {
      forall job: Job<Zero>, grid: Grid<Zero>, sched: seq<Pick> | Shaped(job, cfg, rows, ins, outs)
        && Finished(job, grid, sched)
        ensures LeavesScalar(job, grid, sched)
      {
        DividedIsScalar(job, grid, sched);
      }
    } else {
      var grid, sched := FinishedZeroes(cfg, rows, ins, outs);
      ZeroesDiffer(cfg, rows, ins, outs, grid, sched);
      assert !AlwaysScalar(cfg, rows, ins, outs);
    }
  }

  lemma {:induction false} ZeroesDiffer(cfg: Config, rows: nat, ins: nat, outs: nat, grid: Grid<Zero>, sched: seq<Pick>)
    requires cfg.Valid() && 0 < rows && 0 < outs && Rem(ins, cfg.bk) != 0
    requires Finished(ZeroJob(cfg, rows, ins, outs), grid, sched)
    ensures !LeavesScalar(ZeroJob(cfg, rows, ins, outs), grid, sched)
  {
    hide Exec, Taken, Left, Launched, CellAt, Times, Quot, Rem, ZeroJob, ScalarCell;
    var job := ZeroJob(cfg, rows, ins, outs);
    SignedZeroDiffers(cfg, rows, ins, outs, grid, sched, 0, 0);
    assert InRange(job, 0, 0) && !CellIsScalar(job, Exec(job, grid, sched).out, 0, 0);
  }

  lemma {:induction false} FinishedZeroes(cfg: Config, rows: nat, ins: nat, outs: nat)
    returns (grid: Grid<Zero>, sched: seq<Pick>)
    requires cfg.Valid()
    ensures Finished(ZeroJob(cfg, rows, ins, outs), grid, sched)
  {
    hide Launched, Taken, Left, NewGrid, ZeroJob, Times;
    var job := ZeroJob(cfg, rows, ins, outs);
    var out := seq(Times(rows, outs), _ => Plus);
    grid := NewGrid(job, out);
    NewGridLaunched(job, out);
    sched := FinishingRun(job, grid, []);
  }

  // ---- over the reals ----

  lemma {:induction false} RealPaddingIsNeutral(exp: real -> real)
    ensures PaddingIsNeutral(RealOps(exp))
  {}

  /** Over the reals every finished run leaves the bias plus the dot product, padded or not. */
  lemma {:induction false} EveryRunIsPlain(exp: real -> real, job: Job<real>, grid: Grid<real>, sched: seq<Pick>,
                                           row: nat, col: nat)
    requires Finished(job, grid, sched) && job.ops == RealOps(exp) && InRange(job, row, col)
    ensures CellAt(job, row, col) < |Exec(job, grid, sched).out|
    ensures Exec(job, grid, sched).out[CellAt(job, row, col)]
         == BiasAt(job.ops, job.layer.bias, col)
            + Plain(Input(job.x, job.rows, job.layer.ins, row), job.layer.Weights(col), job.layer.ins)
  {
    hide Exec, Taken, Left, Launched, CellAt, Times, Quot, Rem, RealOps, PaddingIsNeutral;
    RealPaddingIsNeutral(exp);
    EveryRunIsScalar(job, grid, sched, row, col);
    DotIsPlain(exp, BiasAt(job.ops, job.layer.bias, col), Input(job.x, job.rows, job.layer.ins, row),
               job.layer.Weights(col), job.layer.ins);
  }
}
