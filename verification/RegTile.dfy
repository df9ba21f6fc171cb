/** The register-blocked GPU product as a machine: every thread of every workgroup steps on its own,
    one shared access at a time, and only the two barriers of each chunk hold a thread back. */
module RegTile {
  import opened Index
  import opened Arithmetic
  import opened LinearSpec

  /** `tys * tm = bm` rows and `txs * tn = bn` columns a workgroup; whole cooperative loads a thread. */
  datatype Config = Config(tys: nat, txs: nat, bk: nat, tm: nat, tn: nat, xLoads: nat, wLoads: nat) {
    function Bm(): nat { Times(tys, tm) }

    function Bn(): nat { Times(txs, tn) }

    function Threads(): nat { Times(tys, txs) }

    function Cells(): nat { Times(tm, tn) }

    ghost predicate Valid() {
      && 0 < tys && 0 < txs && 0 < bk && 0 < tm && 0 < tn
      && Times(Bm(), bk) == Times(xLoads, Threads())
      && Times(Bn(), bk) == Times(wLoads, Threads())
    }
  }

  datatype Job<!F> = Job(ops: Ops<F>, cfg: Config, x: seq<F>, layer: Layer<F>, rows: nat) {
    ghost predicate Valid() {
      cfg.Valid() && layer.Valid() && |x| == Times(rows, layer.ins)
    }

    /** in_features.div_ceil(bk) */
    function Chunks(): nat
      requires 0 < cfg.bk
    {
      DivCeil(layer.ins, cfg.bk)
    }

    /** A staged input: zero past the matrix's edge. */
    function XAt(row: nat, k: nat): F
      requires Valid()
    {
      if row < rows && k < layer.ins then SlotBound(row, rows, layer.ins); x[Times(row, layer.ins) + k] else ops.zero
    }

    function WAt(col: nat, k: nat): F
      requires Valid()
    {
      if col < layer.outs && k < layer.ins then
          SlotBound(col, layer.outs, layer.ins); layer.w[Times(col, layer.ins) + k]
      else ops.zero
    }

    function Row(tr: nat, t: nat, i: nat): nat
      requires Valid()
    {
      Times(tr, cfg.Bm()) + Times(Quot(t, cfg.txs), cfg.tm) + i
    }

    function Col(tc: nat, t: nat, j: nat): nat
      requires Valid()
    {
      Times(tc, cfg.Bn()) + Times(Rem(t, cfg.txs), cfg.tn) + j
    }

    /** What slot e of the tiles must hold for chunk c. */
    function XCell(tr: nat, c: nat, e: nat): F
      requires Valid()
    {
      XAt(Times(tr, cfg.Bm()) + Quot(e, cfg.bk), Times(c, cfg.bk) + Rem(e, cfg.bk))
    }

    function WCell(tc: nat, c: nat, e: nat): F
      requires Valid()
    {
      WAt(Times(tc, cfg.Bn()) + Quot(e, cfg.bk), Times(c, cfg.bk) + Rem(e, cfg.bk))
    }

    /** The left fold of one output cell over the first n padded inputs. */
    function Fold(row: nat, col: nat, n: nat): F
      requires Valid()
    {
      if n == 0 then BiasAt(ops, layer.bias, col)
      else ops.add(Fold(row, col, n - 1), ops.mul(XAt(row, n - 1), WAt(col, n - 1)))
    }
  }

  datatype Pc =
    | LoadX(c: nat, l: nat)            // x_tile[tid + l * threads] = x[gr, gk]
    | LoadW(c: nat, l: nat)            // w_tile[tid + l * threads] = weight[gc, gk]
    | Loaded(c: nat)                   // waits at the first barrier
    | ReadX(c: nat, k: nat, i: nat)    // xr[i] = x_tile[(ty * tm + i) * bk + k]
    | ReadW(c: nat, k: nat, j: nat)    // wr[j] = w_tile[(tx * tn + j) * bk + k]; at j = tn, the tm * tn products
    | Computed(c: nat)                 // waits at the second barrier
    | Store(e: nat)                    // output[gr, gc] = acc[e]
    | Done

  datatype Local<F> = Local(pc: Pc, xr: seq<F>, wr: seq<F>, acc: seq<F>)

  datatype Group<F> = Group(xt: seq<F>, wt: seq<F>, threads: seq<Local<F>>)

  ghost predicate InCode<F>(job: Job<F>, pc: Pc)
    requires job.Valid()
  {
    match pc
    case LoadX(c, l) => c < job.Chunks() && l <= job.cfg.xLoads
    case LoadW(c, l) => c < job.Chunks() && l <= job.cfg.wLoads
    case Loaded(c) => c < job.Chunks()
    case ReadX(c, k, i) => c < job.Chunks() && k < job.cfg.bk && i <= job.cfg.tm
    case ReadW(c, k, j) => c < job.Chunks() && k < job.cfg.bk && j <= job.cfg.tn
    case Computed(c) => c < job.Chunks()
    case Store(e) => e <= job.cfg.Cells()
    case Done => true
  }

  ghost predicate LocalFits<F>(job: Job<F>, loc: Local<F>)
    requires job.Valid()
  {
    InCode(job, loc.pc) && |loc.xr| == job.cfg.tm && |loc.wr| == job.cfg.tn && |loc.acc| == job.cfg.Cells()
  }

  ghost predicate TilesFit<F>(job: Job<F>, xt: seq<F>, wt: seq<F>) {
    |xt| == Times(job.cfg.Bm(), job.cfg.bk) && |wt| == Times(job.cfg.Bn(), job.cfg.bk)
  }

  ghost predicate GroupFits<F>(job: Job<F>, g: Group<F>)
    requires job.Valid()
  {
    && TilesFit(job, g.xt, g.wt) && |g.threads| == job.cfg.Threads()
    && forall t :: 0 <= t < |g.threads| ==> LocalFits(job, g.threads[t])
  }

  function BeginChunk<F>(job: Job<F>, c: nat): Pc
    requires job.Valid()
  {
    if c < job.Chunks() then LoadX(c, 0) else Store(0)
  }

  function Start<F>(job: Job<F>, tc: nat, t: nat): (loc: Local<F>)
    requires job.Valid()
  {
    Local(BeginChunk(job, 0), seq(job.cfg.tm, _ => job.ops.zero), seq(job.cfg.tn, _ => job.ops.zero),
          seq(job.cfg.Cells(), e requires 0 <= e => BiasAt(job.ops, job.layer.bias,
              job.Col(tc, t, Rem(e, job.cfg.tn)))))
  }

  /** acc[i * tn + j] += xr[i] * wr[j] over the micro-tile. */
  function Mac<F>(job: Job<F>, loc: Local<F>): (acc: seq<F>)
    requires job.Valid() && LocalFits(job, loc)
    ensures |acc| == job.cfg.Cells()
  {
    seq(job.cfg.Cells(), e requires 0 <= e < job.cfg.Cells() =>
      QuotBound(e, job.cfg.tm, job.cfg.tn);
      job.ops.add(loc.acc[e], job.ops.mul(loc.xr[Quot(e, job.cfg.tn)], loc.wr[Rem(e, job.cfg.tn)])))
  }

  /** The tile slot a thread's l-th cooperative load fills. */
  function LoadSlot(cfg: Config, t: nat, l: nat): nat { Times(l, cfg.Threads()) + t }

  function XSlot(cfg: Config, t: nat, i: nat, k: nat): nat
    requires 0 < cfg.txs
  {
    Times(Times(Quot(t, cfg.txs), cfg.tm) + i, cfg.bk) + k
  }

  function WSlot(cfg: Config, t: nat, j: nat, k: nat): nat
    requires 0 < cfg.txs
  {
    Times(Times(Rem(t, cfg.txs), cfg.tn) + j, cfg.bk) + k
  }

  lemma {:induction false} XSlotInTile(cfg: Config, t: nat, i: nat, k: nat)
    requires cfg.Valid() && t < cfg.Threads() && i < cfg.tm && k < cfg.bk
    ensures XSlot(cfg, t, i, k) < Times(cfg.Bm(), cfg.bk)
    ensures Quot(XSlot(cfg, t, i, k), cfg.bk) == Times(Quot(t, cfg.txs), cfg.tm) + i
    ensures Rem(XSlot(cfg, t, i, k), cfg.bk) == k
  {
    QuotBound(t, cfg.tys, cfg.txs);
    SlotBound(Quot(t, cfg.txs), cfg.tys, cfg.tm);
    SlotBound(Times(Quot(t, cfg.txs), cfg.tm) + i, cfg.Bm(), cfg.bk);
    QuotJoin(Times(Quot(t, cfg.txs), cfg.tm) + i, k, cfg.bk);
  }

  lemma {:induction false} WSlotInTile(cfg: Config, t: nat, j: nat, k: nat)
    requires cfg.Valid() && t < cfg.Threads() && j < cfg.tn && k < cfg.bk
    ensures WSlot(cfg, t, j, k) < Times(cfg.Bn(), cfg.bk)
    ensures Quot(WSlot(cfg, t, j, k), cfg.bk) == Times(Rem(t, cfg.txs), cfg.tn) + j
    ensures Rem(WSlot(cfg, t, j, k), cfg.bk) == k
  {
    QuotBound(t, cfg.tys, cfg.txs);
    SlotBound(Rem(t, cfg.txs), cfg.txs, cfg.tn);
    SlotBound(Times(Rem(t, cfg.txs), cfg.tn) + j, cfg.Bn(), cfg.bk);
    QuotJoin(Times(Rem(t, cfg.txs), cfg.tn) + j, k, cfg.bk);
  }

  /** Cooperative loads fill every slot exactly once: slot e belongs to one thread and one load. */
  lemma {:induction false} LoadSlotOwner(cfg: Config, loads: nat, t: nat, l: nat)
    requires t < cfg.Threads()
    ensures Quot(LoadSlot(cfg, t, l), cfg.Threads()) == l && Rem(LoadSlot(cfg, t, l), cfg.Threads()) == t
    ensures LoadSlot(cfg, t, l) < Times(loads, cfg.Threads()) <==> l < loads
  {
    QuotJoin(l, t, cfg.Threads());
    if l < loads { SlotBound(l, loads, cfg.Threads()); } else { TimesMonotone(loads, l, cfg.Threads()); }
  }

  /** One step of thread t of workgroup (tr, tc), output aside. A waiting thread steps over its barrier. */
  function ThreadStep<F>(job: Job<F>, tr: nat, tc: nat, t: nat, xt: seq<F>, wt: seq<F>, loc: Local<F>)
    : (r: (seq<F>, seq<F>, Local<F>))
    requires job.Valid() && TilesFit(job, xt, wt) && LocalFits(job, loc) && t < job.cfg.Threads()
    ensures |r.0| == |xt| && |r.1| == |wt|
  {
    var cfg := job.cfg;
    match loc.pc
    case LoadX(c, l) =>
      if l < cfg.xLoads then
        LoadSlotOwner(cfg, cfg.xLoads, t, l);
        var e := LoadSlot(cfg, t, l);
        (xt[e := job.XCell(tr, c, e)], wt, loc.(pc := LoadX(c, l + 1)))
      else (xt, wt, loc.(pc := LoadW(c, 0)))
    case LoadW(c, l) =>
      if l < cfg.wLoads then
        LoadSlotOwner(cfg, cfg.wLoads, t, l);
        var e := LoadSlot(cfg, t, l);
        (xt, wt[e := job.WCell(tc, c, e)], loc.(pc := LoadW(c, l + 1)))
      else (xt, wt, loc.(pc := Loaded(c)))
    case Loaded(c) => (xt, wt, loc.(pc := ReadX(c, 0, 0)))
    case ReadX(c, k, i) =>
      if i < cfg.tm then
        XSlotInTile(cfg, t, i, k);
        (xt, wt, loc.(xr := loc.xr[i := xt[XSlot(cfg, t, i, k)]], pc := ReadX(c, k, i + 1)))
      else (xt, wt, loc.(pc := ReadW(c, k, 0)))
    case ReadW(c, k, j) =>
      if j < cfg.tn then
        WSlotInTile(cfg, t, j, k);
        (xt, wt, loc.(wr := loc.wr[j := wt[WSlot(cfg, t, j, k)]], pc := ReadW(c, k, j + 1)))
      else (xt, wt, loc.(acc := Mac(job, loc), pc := if k + 1 < cfg.bk then ReadX(c, k + 1, 0) else Computed(c)))
    case Computed(c) => (xt, wt, loc.(pc := BeginChunk(job, c + 1)))
    case Store(e) => (xt, wt, loc.(pc := if e < cfg.Cells() then Store(e + 1) else Done))
    case Done => (xt, wt, loc)
  }

  /** How many barriers the thread has reached, and how many it has left behind. */
  function Arrived<F>(job: Job<F>, pc: Pc): nat
    requires job.Valid()
  {
    match pc
    case LoadX(c, _) => 2 * c
    case LoadW(c, _) => 2 * c
    case Loaded(c) => 2 * c + 1
    case ReadX(c, _, _) => 2 * c + 1
    case ReadW(c, _, _) => 2 * c + 1
    case Computed(c) => 2 * c + 2
    case Store(_) => 2 * job.Chunks()
    case Done => 2 * job.Chunks()
  }

  function Passed<F>(job: Job<F>, pc: Pc): nat
    requires job.Valid()
  {
    if pc.Loaded? || pc.Computed? then Arrived(job, pc) - 1 else Arrived(job, pc)
  }

  /** sync_cube: a waiting thread goes on once every thread of its workgroup has arrived. */
  ghost predicate Enabled<F>(job: Job<F>, g: Group<F>, t: nat)
    requires job.Valid() && t < |g.threads|
  {
    var pc := g.threads[t].pc;
    !pc.Done? && (pc.Loaded? || pc.Computed? ==>
      forall s :: 0 <= s < |g.threads| ==> Arrived(job, pc) <= Arrived(job, g.threads[s].pc))
  }

  function GroupStep<F>(job: Job<F>, tr: nat, tc: nat, g: Group<F>, t: nat): Group<F>
    requires job.Valid() && GroupFits(job, g) && t < job.cfg.Threads()
  {
    var r := ThreadStep(job, tr, tc, t, g.xt, g.wt, g.threads[t]);
    Group(r.0, r.1, g.threads[t := r.2])
  }
}
