/** The fused cache-append kernel as an interleaved machine: one thread per head, and a step is a
    single access to shared memory by any thread. Threads append to the caches while others already
    read them; no order of steps can be told from another. */
module AppendRace {
  import opened Index
  import opened Arithmetic
  import opened HeadAttention
  import opened Layout

  datatype Pc =
    | CopyK(d: nat)           // key_cache[append_base + d] = new_k[q_base + d]
    | CopyV(d: nat)           // value_cache[append_base + d] = new_v[q_base + d]
    | DotK(j: nat, d: nat)    // s += q[q_base + d] * key_cache[k_base + d]
    | LoadSeed(d: nat)        // reads value_cache[k_base_0 + d]
    | SeedAcc(d: nat)         // acc[acc_base + d] = p0 * that
    | LoadAcc(j: nat, d: nat) // reads acc[acc_base + d]
    | LoadV(j: nat, d: nat)   // reads value_cache[v_base + d]
    | Mix(j: nat, d: nat)     // acc[acc_base + d] = the one * alpha + p * the other
    | LoadOut(d: nat)         // reads acc[acc_base + d]
    | Store(d: nat)           // output[out_base + d] = that / l
    | Done

  /** A thread's registers; x and y hold what it has read for its next write. */
  datatype Local<F> = Local(pc: Pc, s: F, m: F, l: F, alpha: F, p: F, x: F, y: F)

  /** Shared memory: both caches, the output and the accumulator slabs. The slab of workgroup w
      starts at w * ENC_ATTN_WG * dim, so lane by lane head h owns slot h. */
  datatype Mem<F> = Mem(k: seq<F>, v: seq<F>, out: seq<F>, acc: seq<F>)

  datatype Job<!F> = Job(ops: Ops<F>, q: seq<F>, newK: seq<F>, newV: seq<F>, past: nat, capacity: nat, heads: nat,
      dim: nat,
                         scale: F) {
    ghost predicate Valid() {
      past < capacity && |q| == |newK| == |newV| == Times(heads, dim)
    }

    ghost predicate Fits(mem: Mem<F>) {
      && Tensor(mem.k, capacity, heads, dim) && Tensor(mem.v, capacity, heads, dim)
      && |mem.out| == |mem.acc| == Times(heads, dim)
    }

    function At(h: nat, j: nat, d: nat): nat { RowBase(heads, dim, h, j) + d }

    function Slot(h: nat, d: nat): nat { Times(h, dim) + d }

    lemma {:induction false} Bounds(h: nat, j: nat, d: nat)
      requires h < heads && j < capacity && d < dim
      ensures At(h, j, d) < Times(Times(capacity, heads), dim) && Slot(h, d) < Times(heads, dim)
    {
      RowBaseIs(capacity, heads, dim, h, j);
      SlotBound(h, heads, dim);
    }
  }

  function NextKey<F>(job: Job<F>, loc: Local<F>, j: nat): Local<F> {
    if j < job.past + 1 then loc.(pc := DotK(j, 0), s := job.ops.zero) else loc.(pc := LoadOut(0))
  }

  /** The score of key j is complete: seed from the first key, rescale for the others. */
  function Scored<F>(job: Job<F>, loc: Local<F>, j: nat): Local<F> {
    var s := job.ops.mul(loc.s, job.scale);
    if j == 0 then loc.(pc := LoadSeed(0), m := s, l := job.ops.one)
    else
      var m := job.ops.max(loc.m, s);
      var alpha := job.ops.exp(job.ops.sub(loc.m, m));
      var p := job.ops.exp(job.ops.sub(s, m));
      loc.(pc := LoadAcc(j, 0), m := m, l := job.ops.add(job.ops.mul(loc.l, alpha), p), alpha := alpha, p := p)
  }

  ghost predicate InCode<F>(job: Job<F>, pc: Pc) {
    match pc
    case CopyK(d) => d <= job.dim
    case CopyV(d) => d < job.dim
    case DotK(j, d) => j <= job.past && d <= job.dim
    case LoadSeed(d) => d <= job.dim
    case SeedAcc(d) => d < job.dim
    case LoadAcc(j, d) => 0 < j <= job.past && d <= job.dim
    case LoadV(j, d) => 0 < j <= job.past && d < job.dim
    case Mix(j, d) => 0 < j <= job.past && d < job.dim
    case LoadOut(d) => d <= job.dim
    case Store(d) => d < job.dim
    case Done => true
  }

  /** One step of thread `h`, in the flat offsets of the kernel. */
  function Step<F>(job: Job<F>, h: nat, mem: Mem<F>, loc: Local<F>): (r: (Mem<F>, Local<F>))
    requires job.Valid() && job.Fits(mem) && h < job.heads && InCode(job, loc.pc)
    ensures job.Fits(r.0) && InCode(job, r.1.pc)
  {
    var ops := job.ops;
    match loc.pc
    case CopyK(d) =>
      if d < job.dim then
        job.Bounds(h, job.past, d);
        (mem.(k := mem.k[job.At(h, job.past, d) := job.newK[job.Slot(h, d)]]), loc.(pc := CopyV(d)))
      else (mem, NextKey(job, loc, 0))
    case CopyV(d) =>
      job.Bounds(h, job.past, d);
      (mem.(v := mem.v[job.At(h, job.past, d) := job.newV[job.Slot(h, d)]]), loc.(pc := CopyK(d + 1)))
    case DotK(j, d) =>
      if d < job.dim then
        job.Bounds(h, j, d);
        (mem, loc.(pc := DotK(j, d + 1), s := ops.add(loc.s, ops.mul(job.q[job.Slot(h, d)], mem.k[job.At(h, j, d)]))))
      else (mem, Scored(job, loc, j))
    case Done => (mem, loc)
    case _ => CombineStep(job, h, mem, loc)
  }

  predicate Combining(pc: Pc) {
    pc.LoadSeed? || pc.SeedAcc? || pc.LoadAcc? || pc.LoadV? || pc.Mix? || pc.LoadOut? || pc.Store?
  }

  /** The accesses to the accumulator slab, the value cache and the output. */
  function CombineStep<F>(job: Job<F>, h: nat, mem: Mem<F>, loc: Local<F>): (r: (Mem<F>, Local<F>))
    requires job.Valid() && job.Fits(mem) && h < job.heads && InCode(job, loc.pc) && Combining(loc.pc)
    ensures job.Fits(r.0) && InCode(job, r.1.pc)
  {
    var ops := job.ops;
    match loc.pc
    case LoadSeed(d) =>
      if d < job.dim then
        job.Bounds(h, 0, d);
        (mem, loc.(pc := SeedAcc(d), x := mem.v[job.At(h, 0, d)]))
      else (mem, NextKey(job, loc, 1))
    case SeedAcc(d) =>
      job.Bounds(h, 0, d);
      (mem.(acc := mem.acc[job.Slot(h, d) := ops.mul(ops.one, loc.x)]), loc.(pc := LoadSeed(d + 1)))
    case LoadAcc(j, d) =>
      if d < job.dim then
        job.Bounds(h, j, d);
        (mem, loc.(pc := LoadV(j, d), x := mem.acc[job.Slot(h, d)]))
      else (mem, NextKey(job, loc, j + 1))
    case LoadV(j, d) =>
      job.Bounds(h, j, d);
      (mem, loc.(pc := Mix(j, d), y := mem.v[job.At(h, j, d)]))
    case Mix(j, d) =>
      job.Bounds(h, j, d);
      (mem.(acc := mem.acc[job.Slot(h, d) := ops.add(ops.mul(loc.x, loc.alpha), ops.mul(loc.p, loc.y))]),
       loc.(pc := LoadAcc(j, d + 1)))
    case LoadOut(d) =>
      if d < job.dim then
        job.Bounds(h, 0, d);
        (mem, loc.(pc := Store(d), x := mem.acc[job.Slot(h, d)]))
      else (mem, loc.(pc := Done))
    case Store(d) =>
      job.Bounds(h, 0, d);
      (mem.(out := mem.out[job.Slot(h, d) := ops.div(loc.x, loc.l)]), loc.(pc := LoadOut(d + 1)))
  }

  /** All that head h's thread reads or writes: its slice of the visible cache rows and its slots. */
  datatype View<F> = View(k: seq<seq<F>>, v: seq<seq<F>>, out: seq<F>, acc: seq<F>) {
    predicate Sized(rows: nat, dim: nat) { Matrix(k, rows, dim) && Matrix(v, rows, dim) && |out| == |acc| == dim }
  }

  function ViewOf<F>(job: Job<F>, mem: Mem<F>, h: nat): (w: View<F>)
    requires job.Valid() && job.Fits(mem) && h < job.heads
    ensures w.Sized(job.past + 1, job.dim)
  {
    SlotBound(h, job.heads, job.dim);
    View(HeadRows(mem.k, job.capacity, job.heads, job.dim, h, 0, job.past + 1),
         HeadRows(mem.v, job.capacity, job.heads, job.dim, h, 0, job.past + 1),
         Block(mem.out, h, job.dim), Block(mem.acc, h, job.dim))
  }

  /** The same step, seen from inside the thread's own cells. */
  function ViewStep<F>(job: Job<F>, q: seq<F>, newK: seq<F>, newV: seq<F>, w: View<F>,
                       loc: Local<F>): (r: (View<F>, Local<F>))
    requires w.Sized(job.past + 1, job.dim) && |q| == |newK| == |newV| == job.dim && InCode(job, loc.pc)
    ensures r.0.Sized(job.past + 1, job.dim) && InCode(job, r.1.pc)
  {
    var ops := job.ops;
    match loc.pc
    case CopyK(d) =>
      if d < job.dim then (w.(k := w.k[job.past := w.k[job.past][d := newK[d]]]), loc.(pc := CopyV(d)))
      else (w, NextKey(job, loc, 0))
    case CopyV(d) => (w.(v := w.v[job.past := w.v[job.past][d := newV[d]]]), loc.(pc := CopyK(d + 1)))
    case DotK(j, d) =>
      if d < job.dim then (w, loc.(pc := DotK(j, d + 1), s := ops.add(loc.s, ops.mul(q[d], w.k[j][d]))))
      else (w, Scored(job, loc, j))
    case Done => (w, loc)
    case _ => ViewCombine(job, w, loc)
  }

  function ViewCombine<F>(job: Job<F>, w: View<F>, loc: Local<F>): (r: (View<F>, Local<F>))
    requires w.Sized(job.past + 1, job.dim) && InCode(job, loc.pc) && Combining(loc.pc)
    ensures r.0.Sized(job.past + 1, job.dim) && InCode(job, r.1.pc)
  {
    var ops := job.ops;
    match loc.pc
    case LoadSeed(d) =>
      if d < job.dim then (w, loc.(pc := SeedAcc(d), x := w.v[0][d])) else (w, NextKey(job, loc, 1))
    case SeedAcc(d) => (w.(acc := w.acc[d := ops.mul(ops.one, loc.x)]), loc.(pc := LoadSeed(d + 1)))
    case LoadAcc(j, d) =>
      if d < job.dim then (w, loc.(pc := LoadV(j, d), x := w.acc[d])) else (w, NextKey(job, loc, j + 1))
    case LoadV(j, d) => (w, loc.(pc := Mix(j, d), y := w.v[j][d]))
    case Mix(j, d) =>
      (w.(acc := w.acc[d := ops.add(ops.mul(loc.x, loc.alpha), ops.mul(loc.p, loc.y))]), loc.(pc := LoadAcc(j, d + 1)))
    case LoadOut(d) =>
      if d < job.dim then (w, loc.(pc := Store(d), x := w.acc[d])) else (w, loc.(pc := Done))
    case Store(d) => (w.(out := w.out[d := ops.div(loc.x, loc.l)]), loc.(pc := LoadOut(d + 1)))
  }

  /** A write into one head row is invisible in every other head row. */
  lemma {:induction false} RowWrite<F>(s: seq<F>, rows: nat, heads: nat, dim: nat, h: nat, r: nat, d: nat, x: F,
                                       h': nat, r': nat)
    requires Tensor(s, rows, heads, dim) && h < heads && r < rows && d < dim && h' < heads && r' < rows
    requires RowBase(heads, dim, h, r) + d < |s|
    ensures HeadRow(s[RowBase(heads, dim, h, r) + d := x], rows, heads, dim, h', r')
         == if h == h' && r == r' then HeadRow(s, rows, heads, dim, h, r)[d := x]
             else HeadRow(s, rows, heads, dim, h', r')
  {
    hide Times, HeadRow, RowBase;
    RowBaseIs(rows, heads, dim, h, r);
    RowBaseIs(rows, heads, dim, h', r');
    if h != h' || r != r' {
      PosApart(r, h, r', h', heads);
      SlotsApart(Times(r, heads) + h, Times(r', heads) + h', dim);
    }
  }

  lemma {:induction false} CacheWrite<F>(s: seq<F>, rows: nat, heads: nat, dim: nat, h: nat, past: nat, d: nat, x: F,
                                         h': nat)
    requires Tensor(s, rows, heads, dim) && h < heads && past < rows && d < dim && h' < heads
    requires RowBase(heads, dim, h, past) + d < |s|
    ensures var a := HeadRows(s[RowBase(heads, dim, h, past) + d := x], rows, heads, dim, h', 0, past + 1);
            var b := HeadRows(s, rows, heads, dim, h', 0, past + 1);
            a == if h == h' then b[past := b[past][d := x]] else b
  {
    hide HeadRow;
    var t := s[RowBase(heads, dim, h, past) + d := x];
    var a, b := HeadRows(t, rows, heads, dim, h', 0, past + 1), HeadRows(s, rows, heads, dim, h', 0, past + 1);
    forall j | 0 <= j <= past
      ensures a[j] == if h == h' && j == past then b[past][d := x] else b[j]
    {
      RowWrite(s, rows, heads, dim, h, past, d, x, h', j);
    }
  }

  lemma {:induction false} SlotWrite<F>(s: seq<F>, heads: nat, dim: nat, h: nat, d: nat, x: F, h': nat)
    requires |s| == Times(heads, dim) && h < heads && d < dim && h' < heads && Times(h, dim) + d < |s|
    ensures Times(h', dim) + dim <= |s|
    ensures Block(s[Times(h, dim) + d := x], h', dim) == if h == h' then Block(s, h, dim)[d := x] else Block(s, h', dim)
  {
    SlotBound(h, heads, dim);
    SlotBound(h', heads, dim);
    if h != h' { SlotsApart(h, h', dim); }
  }

  /** What a thread sees of its own inputs. */
  function Mine<F>(job: Job<F>, s: seq<F>, h: nat): (b: seq<F>)
    requires |s| == Times(job.heads, job.dim) && h < job.heads
    ensures |b| == job.dim
  {
    SlotBound(h, job.heads, job.dim);
    Block(s, h, job.dim)
  }

  lemma {:induction false} MineAt<F>(job: Job<F>, s: seq<F>, h: nat, d: nat)
    requires |s| == Times(job.heads, job.dim) && h < job.heads && d < job.dim
    ensures job.Slot(h, d) < |s| && s[job.Slot(h, d)] == Mine(job, s, h)[d]
  {
    SlotBound(h, job.heads, job.dim);
  }

  lemma {:induction false} CacheAt<F>(job: Job<F>, s: seq<F>, h: nat, j: nat, d: nat)
    requires Tensor(s, job.capacity, job.heads, job.dim) && h < job.heads && j <= job.past < job.capacity && d < job.dim
    ensures job.At(h, j, d) < |s|
    ensures s[job.At(h, j, d)] == HeadRows(s, job.capacity, job.heads, job.dim, h, 0, job.past + 1)[j][d]
  {
    var row := HeadRow(s, job.capacity, job.heads, job.dim, h, j);
    assert HeadRows(s, job.capacity, job.heads, job.dim, h, 0, job.past + 1)[j] == row;
  }

  lemma {:induction false} AccAt<F>(job: Job<F>, s: seq<F>, h: nat, d: nat)
    requires |s| == Times(job.heads, job.dim) && h < job.heads && d < job.dim
    ensures Times(h, job.dim) + job.dim <= |s| && s[job.Slot(h, d)] == Block(s, h, job.dim)[d]
  {
    SlotBound(h, job.heads, job.dim);
  }

  ghost predicate LocalStep<F>(job: Job<F>, h: nat, mem: Mem<F>, loc: Local<F>, h': nat)
    requires job.Valid() && job.Fits(mem) && h < job.heads && h' < job.heads && InCode(job, loc.pc)
  {
    var a := Step(job, h, mem, loc);
    var b := ViewStep(job, Mine(job, job.q, h), Mine(job, job.newK, h), Mine(job, job.newV, h), ViewOf(job, mem, h),
        loc);
    a.1 == b.1 && ViewOf(job, a.0, h') == if h == h' then b.0 else ViewOf(job, mem, h')
  }

  lemma {:induction false} CopyKIsLocal<F>(job: Job<F>, h: nat, mem: Mem<F>, loc: Local<F>, h': nat)
    requires job.Valid() && job.Fits(mem) && h < job.heads && h' < job.heads && InCode(job, loc.pc)
    requires loc.pc.CopyK?
    ensures LocalStep(job, h, mem, loc, h')
  {
    hide HeadRows, Mine, Block, Times, RowBase;
    var d := loc.pc.d;
    if d < job.dim {
      job.Bounds(h, job.past, d);
      MineAt(job, job.newK, h, d);
      CacheWrite(mem.k, job.capacity, job.heads, job.dim, h, job.past, d, job.newK[job.Slot(h, d)], h');
    }
  }

  lemma {:induction false} CopyVIsLocal<F>(job: Job<F>, h: nat, mem: Mem<F>, loc: Local<F>, h': nat)
    requires job.Valid() && job.Fits(mem) && h < job.heads && h' < job.heads && InCode(job, loc.pc)
    requires loc.pc.CopyV?
    ensures LocalStep(job, h, mem, loc, h')
  {
    hide HeadRows, Mine, Block, Times, RowBase;
    var d := loc.pc.d;
    job.Bounds(h, job.past, d);
    MineAt(job, job.newV, h, d);
    CacheWrite(mem.v, job.capacity, job.heads, job.dim, h, job.past, d, job.newV[job.Slot(h, d)], h');
  }

  lemma {:induction false} DotIsLocal<F>(job: Job<F>, h: nat, mem: Mem<F>, loc: Local<F>, h': nat)
    requires job.Valid() && job.Fits(mem) && h < job.heads && h' < job.heads && InCode(job, loc.pc)
    requires loc.pc.DotK?
    ensures LocalStep(job, h, mem, loc, h')
  {
    hide HeadRows, Mine, Block, Times, RowBase;
    if loc.pc.d < job.dim {
      MineAt(job, job.q, h, loc.pc.d);
      CacheAt(job, mem.k, h, loc.pc.j, loc.pc.d);
    }
  }

  lemma {:induction false} LoadIsLocal<F>(job: Job<F>, h: nat, mem: Mem<F>, loc: Local<F>, h': nat)
    requires job.Valid() && job.Fits(mem) && h < job.heads && h' < job.heads && InCode(job, loc.pc)
    requires loc.pc.LoadSeed? || loc.pc.LoadAcc? || loc.pc.LoadV? || loc.pc.LoadOut?
    ensures LocalStep(job, h, mem, loc, h')
  {
    hide HeadRows, Mine, Block, Times, RowBase;
    var d := loc.pc.d;
    if d < job.dim {
      AccAt(job, mem.acc, h, d);
      CacheAt(job, mem.v, h, if loc.pc.LoadV? then loc.pc.j else 0, d);
    }
  }

  lemma {:induction false} AccIsLocal<F>(job: Job<F>, h: nat, mem: Mem<F>, loc: Local<F>, h': nat)
    requires job.Valid() && job.Fits(mem) && h < job.heads && h' < job.heads && InCode(job, loc.pc)
    requires loc.pc.SeedAcc? || loc.pc.Mix?
    ensures LocalStep(job, h, mem, loc, h')
  {
    hide HeadRows, Mine, Block, Times, RowBase;
    var d := loc.pc.d;
    job.Bounds(h, 0, d);
    var x := if loc.pc.SeedAcc? then job.ops.mul(job.ops.one, loc.x)
             else job.ops.add(job.ops.mul(loc.x, loc.alpha), job.ops.mul(loc.p, loc.y));
    SlotWrite(mem.acc, job.heads, job.dim, h, d, x, h');
  }

  lemma {:induction false} StoreIsLocal<F>(job: Job<F>, h: nat, mem: Mem<F>, loc: Local<F>, h': nat)
    requires job.Valid() && job.Fits(mem) && h < job.heads && h' < job.heads && InCode(job, loc.pc)
    requires loc.pc.Store?
    ensures LocalStep(job, h, mem, loc, h')
  {
    hide HeadRows, Mine, Block, Times, RowBase;
    job.Bounds(h, 0, loc.pc.d);
    SlotWrite(mem.out, job.heads, job.dim, h, loc.pc.d, job.ops.div(loc.x, loc.l), h');
  }

  /** A thread's step is a function of its own view, and no other thread's view changes: the cells
      it touches are disjoint from all cells any other thread reads or writes. */
  lemma {:induction false} StepIsLocal<F>(job: Job<F>, h: nat, mem: Mem<F>, loc: Local<F>, h': nat)
    requires job.Valid() && job.Fits(mem) && h < job.heads && h' < job.heads && InCode(job, loc.pc)
    ensures LocalStep(job, h, mem, loc, h')
  {
    match loc.pc
    case CopyK(_) => CopyKIsLocal(job, h, mem, loc, h');
    case CopyV(_) => CopyVIsLocal(job, h, mem, loc, h');
    case DotK(_, _) => DotIsLocal(job, h, mem, loc, h');
    case LoadSeed(_) => LoadIsLocal(job, h, mem, loc, h');
    case SeedAcc(_) => AccIsLocal(job, h, mem, loc, h');
    case LoadAcc(_, _) => LoadIsLocal(job, h, mem, loc, h');
    case LoadV(_, _) => LoadIsLocal(job, h, mem, loc, h');
    case Mix(_, _) => AccIsLocal(job, h, mem, loc, h');
    case LoadOut(_) => LoadIsLocal(job, h, mem, loc, h');
    case Store(_) => StoreIsLocal(job, h, mem, loc, h');
    case Done =>
  }
}
