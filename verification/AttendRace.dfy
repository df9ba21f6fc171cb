/** The cache kernel that does not append, as the same machine started at its first dot product, and
    the fused kernel against copying the new row first and attending afterwards. */
module AttendRace {
  import opened Index
  import opened Arithmetic
  import opened HeadAttention
  import opened Layout
  import opened CacheDecode
  import opened AppendRace
  import opened AppendRaceProof

  /** Row `past` of a cache, all heads. */
  function LastRow<F>(job: Job<F>, s: seq<F>): (row: seq<F>)
    requires job.Valid() && Tensor(s, job.capacity, job.heads, job.dim)
    ensures |row| == Times(job.heads, job.dim)
  {
    var state := Times(job.heads, job.dim);
    TimesAssoc(job.capacity, job.heads, job.dim);
    SlotBound(job.past, job.capacity, state);
    s[Times(job.past, state)..Times(job.past, state) + state]
  }

  /** The kernel attends rows 0 ..= past as they are: the machine's new row is the row already there,
      and it is never copied. */
  function Attending<F>(job: Job<F>, mem: Mem<F>): (j: Job<F>)
    requires job.Valid() && job.Fits(mem)
    ensures j.Valid() && j.Fits(mem)
  {
    job.(newK := LastRow(job, mem.k), newV := LastRow(job, mem.v))
  }

  lemma {:induction false} LastRowIs<F>(job: Job<F>, s: seq<F>, h: nat)
    requires job.Valid() && Tensor(s, job.capacity, job.heads, job.dim) && h < job.heads
    ensures Times(h, job.dim) + job.dim <= |LastRow(job, s)|
    ensures Block(LastRow(job, s), h, job.dim) == HeadRow(s, job.capacity, job.heads, job.dim, h, job.past)
  {
    hide Times, HeadRow;
    var state := Times(job.heads, job.dim);
    TimesAssoc(job.capacity, job.heads, job.dim);
    SlotBound(job.past, job.capacity, state);
    SlotBound(h, job.heads, job.dim);
    SliceOfSlice(s, Times(job.past, state), state, Times(h, job.dim), job.dim);
  }

  /** What the threads attend is the cache as it stands. */
  lemma {:induction false} AttendsCache<F>(job: Job<F>, mem: Mem<F>, h: nat)
    requires job.Valid() && job.Fits(mem) && h < job.heads
    ensures var j := Attending(job, mem);
            Final(j, OwnOf(j, mem, h)) == HeadOf(mem.k, mem.v, job.capacity, job.heads, job.dim, h, 0, job.past + 1)
  {
    hide Times, HeadRow, Block, LastRow;
    LastRowIs(job, mem.k, h);
    LastRowIs(job, mem.v, h);
    var g := HeadOf(mem.k, mem.v, job.capacity, job.heads, job.dim, h, 0, job.past + 1);
    var o := OwnOf(Attending(job, mem), mem, h);
    assert o.k0[job.past := o.newK] == g.k;
    assert o.v0[job.past := o.newV] == g.v;
  }

  ghost predicate Begun<F>(job: Job<F>, loc: Local<F>) { loc.pc == DotK(0, 0) && loc.s == job.ops.zero }

  /** Turns one thread of the cache kernel takes in all. */
  function AttendBudget<F>(job: Job<F>): nat { FirstKeyTurns(job) }

  /** attention_decoder_incremental_cache_f32: under every interleaving a thread has finished exactly when
      it has had its turns, and then its slot is one-pass attention over the cache. */
  lemma {:induction false} EveryScheduleAttends<F>(job: Job<F>, mem: Mem<F>, locs: seq<Local<F>>, sched: seq<nat>,
                                                   h: nat)
    requires job.Valid() && job.Fits(mem) && Ready(Attending(job, mem), mem, locs)
    requires h < job.heads && Begun(job, locs[h])
    ensures var (mem', locs') := Exec(Attending(job, mem), mem, locs, sched);
            var g := HeadOf(mem.k, mem.v, job.capacity, job.heads, job.dim, h, 0, job.past + 1);
            && (locs'[h].pc.Done? <==> Turns(sched, h) >= AttendBudget(job))
            && (locs'[h].pc.Done? ==>
                 ViewOf(job, mem', h).out == Flash(job.ops, Mine(job, job.q, h), g, job.scale))
  {
    hide Exec, Turns, ViewOf, Flash, Alone, HeadOf, LastRow, Online, Times;
    var j := Attending(job, mem);
    var o, w := OwnOf(j, mem, h), ViewOf(j, mem, h);
    AttendsCache(job, mem, h);
    ViewIsCache(j, mem, h);
    ExecIsAlone(j, mem, locs, sched, h);
    AloneRuns(j, o, w, locs[h], Turns(sched, h));
    DoneIsZero(j, Exec(j, mem, locs, sched).1[h].pc);
    SameView(job, j, Exec(j, mem, locs, sched).0, h);
  }

  lemma {:induction false} ViewIsCache<F>(job: Job<F>, mem: Mem<F>, h: nat)
    requires job.Valid() && job.Fits(mem) && h < job.heads
    ensures var g := HeadOf(mem.k, mem.v, job.capacity, job.heads, job.dim, h, 0, job.past + 1);
            ViewOf(job, mem, h).k == g.k && ViewOf(job, mem, h).v == g.v
  {
    hide HeadRows, Block, Times;
  }

  lemma {:induction false} SameView<F>(a: Job<F>, b: Job<F>, mem: Mem<F>, h: nat)
    requires a.Valid() && b.Valid() && a.Fits(mem) && b.Fits(mem) && h < a.heads
    requires a.heads == b.heads && a.dim == b.dim && a.past == b.past && a.capacity == b.capacity
    ensures ViewOf(a, mem, h) == ViewOf(b, mem, h)
  {
    hide HeadRows, Block, Times;
  }

  /** The fused kernel, however its threads interleave, leaves what copying the new row and then running
      the cache kernel leaves, however that one's threads interleave: bit for bit. */
  lemma {:induction false} FusedIsCopyThenAttend<F>(job: Job<F>, mem: Mem<F>, locs: seq<Local<F>>, sched: seq<nat>,
                                                    copied: Mem<F>, locs': seq<Local<F>>, sched': seq<nat>, h: nat)
    requires Ready(job, mem, locs) && h < job.heads && locs[h].pc == CopyK(0) && Turns(sched, h) >= Budget(job)
    requires Appended(mem.k, copied.k, job.newK, job.past, Times(job.heads, job.dim))
    requires Appended(mem.v, copied.v, job.newV, job.past, Times(job.heads, job.dim))
    requires job.Fits(copied) && Ready(Attending(job, copied), copied, locs')
    requires Begun(job, locs'[h]) && Turns(sched', h) >= AttendBudget(job)
    ensures ViewOf(job, Exec(job, mem, locs, sched).0, h).out
         == ViewOf(job, Exec(Attending(job, copied), copied, locs', sched').0, h).out
  {
    hide Exec, Turns, ViewOf, Flash, HeadOf, Final, Budget, AttendBudget, Attending, Times, Appended;
    EveryScheduleAppendsThenAttends(job, mem, locs, sched, h);
    EveryScheduleAttends(job, copied, locs', sched', h);
    FinalIsAppended(job, mem, copied.k, copied.v, h);
  }
}
