/** Every interleaving of the cache-append kernel gives the append-then-attend result. */
module AppendRaceProof {
  import opened Index
  import opened Arithmetic
  import opened HeadAttention
  import opened Layout
  import opened FlashExact
  import opened CacheDecode
  import opened AppendRace

  /** A thread's inputs: its slices of q and of the new row, and what its cache rows held at the start. */
  datatype Own<F> = Own(q: seq<F>, newK: seq<F>, newV: seq<F>, k0: seq<seq<F>>, v0: seq<seq<F>>)

  ghost predicate OwnFits<F>(job: Job<F>, o: Own<F>) {
    && |o.q| == |o.newK| == |o.newV| == job.dim
    && Matrix(o.k0, job.past + 1, job.dim) && Matrix(o.v0, job.past + 1, job.dim)
  }

  function Overwritten<F>(rows: seq<seq<F>>, past: nat, row: seq<F>, d: nat): seq<seq<F>>
    requires past < |rows| && d <= |row| && d <= |rows[past]|
  {
    rows[past := row[..d] + rows[past][d..]]
  }

  /** The rows the thread must attend: the cache with the new row appended. */
  function Final<F>(job: Job<F>, o: Own<F>): (g: Head<F>)
    requires OwnFits(job, o)
    ensures g.Valid() && g.n == job.past + 1 && g.dim == job.dim
  {
    Head(o.k0[job.past := o.newK], o.v0[job.past := o.newV], job.past + 1, job.dim)
  }

  ghost predicate Copied<F>(job: Job<F>, o: Own<F>, w: View<F>, dk: nat, dv: nat)
    requires OwnFits(job, o)
  {
    && dk <= job.dim && dv <= job.dim
    && w.k == Overwritten(o.k0, job.past, o.newK, dk) && w.v == Overwritten(o.v0, job.past, o.newV, dv)
  }

  ghost predicate Streamed<F>(job: Job<F>, o: Own<F>, w: View<F>, loc: Local<F>, n: nat)
    requires OwnFits(job, o) && 0 < n <= job.past + 1
  {
    Run(loc.m, loc.l, w.acc) == Online(job.ops, o.q, Final(job, o), job.scale, n)
  }

  /** Mid-way through `acc = acc * alpha + p * v`: the first d cells are new, the rest old. */
  ghost predicate Mixing<F>(job: Job<F>, o: Own<F>, w: View<F>, loc: Local<F>, j: nat, d: nat)
    requires OwnFits(job, o) && 0 < j <= job.past && d <= job.dim && |w.acc| == job.dim
  {
    var r := Online(job.ops, o.q, Final(job, o), job.scale, j);
    var r' := Online(job.ops, o.q, Final(job, o), job.scale, j + 1);
    && loc.m == r'.m && loc.l == r'.l
    && (forall i :: 0 <= i < d ==> w.acc[i] == r'.acc[i])
    && (forall i :: d <= i < job.dim ==>
         w.acc[i] == r.acc[i] && r'.acc[i]
             == job.ops.add(job.ops.mul(r.acc[i], loc.alpha), job.ops.mul(loc.p, Final(job, o).v[j][i])))
  }

  ghost predicate Seeding<F>(job: Job<F>, o: Own<F>, w: View<F>, loc: Local<F>, d: nat)
    requires OwnFits(job, o) && d <= job.dim && |w.acc| == job.dim
  {
    var r := Online(job.ops, o.q, Final(job, o), job.scale, 1);
    && loc.m == r.m && loc.l == r.l
    && (forall i :: 0 <= i < d ==> w.acc[i] == r.acc[i])
    && (forall i :: 0 <= i < job.dim ==> r.acc[i] == job.ops.mul(job.ops.one, Final(job, o).v[0][i]))
  }

  ghost predicate Storing<F>(job: Job<F>, o: Own<F>, w: View<F>, loc: Local<F>, d: nat)
    requires OwnFits(job, o) && d <= job.dim && |w.out| == job.dim
  {
    var g := Final(job, o);
    && w.k == g.k && w.v == g.v && Streamed(job, o, w, loc, job.past + 1)
    && forall i :: 0 <= i < d ==> w.out[i] == Flash(job.ops, o.q, g, job.scale)[i]
  }

  /** What holds of one thread at every one of its program points, whatever the others do. */
  ghost predicate Inv<F>(job: Job<F>, o: Own<F>, w: View<F>, loc: Local<F>)
    requires OwnFits(job, o)
  {
    var g := Final(job, o);
    && w.Sized(job.past + 1, job.dim) && InCode(job, loc.pc)
    && match loc.pc
       case CopyK(d) => Copied(job, o, w, d, d)
       case CopyV(d) => Copied(job, o, w, d + 1, d)
       case DotK(j, d) => w.k == g.k && w.v == g.v && loc.s == DotFrom(job.ops, job.ops.zero, o.q, g.k[j], d)
                          && (j > 0 ==> Streamed(job, o, w, loc, j))
       case LoadSeed(d) => w.k == g.k && w.v == g.v && Seeding(job, o, w, loc, d)
       case SeedAcc(d) => w.k == g.k && w.v == g.v && Seeding(job, o, w, loc, d) && loc.x == g.v[0][d]
       case LoadAcc(j, d) => w.k == g.k && w.v == g.v && Mixing(job, o, w, loc, j, d)
       case LoadV(j, d) => w.k == g.k && w.v == g.v && Mixing(job, o, w, loc, j, d) && loc.x == w.acc[d]
       case Mix(j, d) => w.k == g.k && w.v == g.v && Mixing(job, o, w, loc, j, d) && loc.x == w.acc[d]
           && loc.y == g.v[j][d]
       case LoadOut(d) => Storing(job, o, w, loc, d)
       case Store(d) => Storing(job, o, w, loc, d) && loc.x == w.acc[d]
       case Done => w.k == g.k && w.v == g.v && w.out == Flash(job.ops, o.q, g, job.scale)
  }

  function Next<F>(job: Job<F>, o: Own<F>, w: View<F>, loc: Local<F>): (r: (View<F>, Local<F>))
    requires OwnFits(job, o) && w.Sized(job.past + 1, job.dim) && InCode(job, loc.pc)
    ensures r.0.Sized(job.past + 1, job.dim) && InCode(job, r.1.pc)
  {
    ViewStep(job, o.q, o.newK, o.newV, w, loc)
  }

  lemma {:induction false} CopyStep<F>(job: Job<F>, o: Own<F>, w: View<F>, loc: Local<F>)
    requires OwnFits(job, o) && Inv(job, o, w, loc) && (loc.pc.CopyK? || loc.pc.CopyV?)
    ensures Inv(job, o, Next(job, o, w, loc).0, Next(job, o, w, loc).1)
  {
    hide Online, Flash;
    var w' := Next(job, o, w, loc).0;
    var d := loc.pc.d;
    if loc.pc.CopyV? {
      assert w'.v[job.past] == o.newV[..d + 1] + o.v0[job.past][d + 1..];
    } else if d < job.dim {
      assert w'.k[job.past] == o.newK[..d + 1] + o.k0[job.past][d + 1..];
    } else {
      assert o.newK[..d] + o.k0[job.past][d..] == o.newK && o.newV[..d] + o.v0[job.past][d..] == o.newV;
    }
  }

  lemma {:induction false} DotStep<F>(job: Job<F>, o: Own<F>, w: View<F>, loc: Local<F>)
    requires OwnFits(job, o) && Inv(job, o, w, loc) && loc.pc.DotK?
    ensures Inv(job, o, Next(job, o, w, loc).0, Next(job, o, w, loc).1)
  {
    hide Online, Flash;
    var j, d := loc.pc.j, loc.pc.d;
    var g := Final(job, o);
    if d == job.dim {
      var s := job.ops.mul(loc.s, job.scale);
      assert s == Score(job.ops, o.q, g.k[j], job.scale);
      OnlineNext(job.ops, o.q, g, job.scale, j + 1);
    }
  }

  lemma {:induction false} AccStep<F>(job: Job<F>, o: Own<F>, w: View<F>, loc: Local<F>)
    requires OwnFits(job, o) && Inv(job, o, w, loc)
        && (loc.pc.LoadSeed? || loc.pc.SeedAcc? || loc.pc.LoadAcc? || loc.pc.LoadV? || loc.pc.Mix?)
    ensures Inv(job, o, Next(job, o, w, loc).0, Next(job, o, w, loc).1)
  {
    hide Online, Flash;
    if loc.pc.d == job.dim {
      var n := if loc.pc.LoadSeed? then 1 else loc.pc.j + 1;
      assert w.acc == Online(job.ops, o.q, Final(job, o), job.scale, n).acc;
    }
  }

  lemma {:induction false} StoreStep<F>(job: Job<F>, o: Own<F>, w: View<F>, loc: Local<F>)
    requires OwnFits(job, o) && Inv(job, o, w, loc) && (loc.pc.LoadOut? || loc.pc.Store?)
    ensures Inv(job, o, Next(job, o, w, loc).0, Next(job, o, w, loc).1)
  {
    hide Online, Flash;
    FlashIs(job.ops, o.q, Final(job, o), job.scale);
    if loc.pc.d == job.dim {
      assert w.out == Flash(job.ops, o.q, Final(job, o), job.scale);
    }
  }

  lemma {:induction false} StepKeepsInv<F>(job: Job<F>, o: Own<F>, w: View<F>, loc: Local<F>)
    requires OwnFits(job, o) && Inv(job, o, w, loc)
    ensures Inv(job, o, Next(job, o, w, loc).0, Next(job, o, w, loc).1)
  {
    hide Inv, ViewStep;
    assert InCode(job, loc.pc) by { StepIsInCode(job, o, w, loc); }
    match loc.pc
    case CopyK(_) => CopyStep(job, o, w, loc);
    case CopyV(_) => CopyStep(job, o, w, loc);
    case DotK(_, _) => DotStep(job, o, w, loc);
    case LoadSeed(_) => AccStep(job, o, w, loc);
    case SeedAcc(_) => AccStep(job, o, w, loc);
    case LoadAcc(_, _) => AccStep(job, o, w, loc);
    case LoadV(_, _) => AccStep(job, o, w, loc);
    case Mix(_, _) => AccStep(job, o, w, loc);
    case LoadOut(_) => StoreStep(job, o, w, loc);
    case Store(_) => StoreStep(job, o, w, loc);
    case Done => DoneStep(job, o, w, loc);
  }

  lemma {:induction false} StepIsInCode<F>(job: Job<F>, o: Own<F>, w: View<F>, loc: Local<F>)
    requires OwnFits(job, o) && Inv(job, o, w, loc)
    ensures InCode(job, loc.pc) && w.Sized(job.past + 1, job.dim)
  {}

  lemma {:induction false} DoneStep<F>(job: Job<F>, o: Own<F>, w: View<F>, loc: Local<F>)
    requires OwnFits(job, o) && Inv(job, o, w, loc) && loc.pc.Done?
    ensures Next(job, o, w, loc) == (w, loc)
  {}

  ghost predicate Ready<F>(job: Job<F>, mem: Mem<F>, locs: seq<Local<F>>) {
    job.Valid() && job.Fits(mem) && |locs| == job.heads && forall h :: 0 <= h < job.heads ==> InCode(job, locs[h].pc)
  }

  /** The machine under a schedule: entry i is the thread that takes step i. Threads beyond the
      head count terminate at once. */
  function Exec<F>(job: Job<F>, mem: Mem<F>, locs: seq<Local<F>>, sched: seq<nat>): (r: (Mem<F>, seq<Local<F>>))
    requires Ready(job, mem, locs)
    ensures Ready(job, r.0, r.1)
  {
    if |sched| == 0 then (mem, locs)
    else
      var r := Exec(job, mem, locs, sched[..|sched| - 1]);
      var h := sched[|sched| - 1];
      if h >= job.heads then r
      else
        var n := Step(job, h, r.0, r.1[h]);
        (n.0, r.1[h := n.1])
  }

  function Turns(sched: seq<nat>, h: nat): nat {
    if |sched| == 0 then 0 else Turns(sched[..|sched| - 1], h) + if sched[|sched| - 1] == h then 1 else 0
  }

  lemma {:induction false} TurnsNext(sched: seq<nat>, h: nat)
    requires |sched| > 0
    ensures Turns(sched, h) == Turns(sched[..|sched| - 1], h) + if sched[|sched| - 1] == h then 1 else 0
  {}

  function OwnOf<F>(job: Job<F>, mem: Mem<F>, h: nat): (o: Own<F>)
    requires job.Valid() && job.Fits(mem) && h < job.heads
    ensures OwnFits(job, o)
  {
    var w := ViewOf(job, mem, h);
    Own(Mine(job, job.q, h), Mine(job, job.newK, h), Mine(job, job.newV, h), w.k, w.v)
  }

  /** Thread h running with nobody else, for n steps. */
  function Alone<F>(job: Job<F>, o: Own<F>, w: View<F>, loc: Local<F>, n: nat): (r: (View<F>, Local<F>))
    requires OwnFits(job, o) && w.Sized(job.past + 1, job.dim) && InCode(job, loc.pc)
    ensures r.0.Sized(job.past + 1, job.dim) && InCode(job, r.1.pc)
  {
    if n == 0 then (w, loc)
    else
      var r := Alone(job, o, w, loc, n - 1);
      Next(job, o, r.0, r.1)
  }

  /** Under every schedule, a thread's cells and registers are what it alone would have made of
      them in as many turns: no interleaving can be observed by any thread. */
  lemma {:induction false} ExecIsAlone<F>(job: Job<F>, mem: Mem<F>, locs: seq<Local<F>>, sched: seq<nat>, h: nat)
    requires Ready(job, mem, locs) && h < job.heads
    ensures var r := Exec(job, mem, locs, sched);
            (ViewOf(job, r.0, h), r.1[h])
                == Alone(job, OwnOf(job, mem, h), ViewOf(job, mem, h), locs[h], Turns(sched, h))
  {
    hide ViewOf, ViewStep, Step, InCode, Mine;
    if |sched| > 0 {
      var front, g := sched[..|sched| - 1], sched[|sched| - 1];
      var before := Exec(job, mem, locs, front);
      ExecIsAlone(job, mem, locs, front, h);
      if g < job.heads { StepIsLocal(job, g, before.0, before.1[g], h); }
      TurnsNext(sched, h);
    }
  }

  /** Two schedules that give every thread the same number of turns are indistinguishable. */
  lemma {:induction false} SchedulesAgree<F>(job: Job<F>, mem: Mem<F>, locs: seq<Local<F>>, a: seq<nat>, b: seq<nat>,
                                             h: nat)
    requires Ready(job, mem, locs) && h < job.heads && Turns(a, h) == Turns(b, h)
    ensures ViewOf(job, Exec(job, mem, locs, a).0, h) == ViewOf(job, Exec(job, mem, locs, b).0, h)
    ensures Exec(job, mem, locs, a).1[h] == Exec(job, mem, locs, b).1[h]
  {
    hide ViewOf, Exec, Turns;
    ExecIsAlone(job, mem, locs, a, h);
    ExecIsAlone(job, mem, locs, b, h);
  }

  /** Turns a thread still needs. */
  function Remaining<F>(job: Job<F>, pc: Pc): nat
    requires InCode(job, pc)
  {
    var dim, last := job.dim, job.past;
    match pc
    case CopyK(d) => 2 * (dim - d) + 1 + FirstKeyTurns(job)
    case CopyV(d) => 2 * (dim - d) + FirstKeyTurns(job)
    case DotK(j, d) => (dim - d) + 1 + (if j == 0 then 2 * dim + 1 else 3 * dim + 1) + KeyTurns(job, j + 1)
    case LoadSeed(d) => 2 * (dim - d) + 1 + KeyTurns(job, 1)
    case SeedAcc(d) => 2 * (dim - d) + KeyTurns(job, 1)
    case LoadAcc(j, d) => 3 * (dim - d) + 1 + KeyTurns(job, j + 1)
    case LoadV(j, d) => 3 * (dim - d) + KeyTurns(job, j + 1)
    case Mix(j, d) => 3 * (dim - d) - 1 + KeyTurns(job, j + 1)
    case LoadOut(d) => 2 * (dim - d) + 1
    case Store(d) => 2 * (dim - d)
    case Done => 0
  }

  /** Turns for keys j .. past, each a dot product and a mix, and for the final store. */
  function KeyTurns<F>(job: Job<F>, j: nat): nat
    requires 0 < j <= job.past + 1
  {
    Times(job.past + 1 - j, 4 * job.dim + 2) + 2 * job.dim + 1
  }

  /** The first key's dot product and seed, and everything after. */
  function FirstKeyTurns<F>(job: Job<F>): nat {
    3 * job.dim + 2 + KeyTurns(job, 1)
  }

  /** Where a step leads: the control flow does not look at the values. */
  function After<F>(job: Job<F>, pc: Pc): Pc
    requires InCode(job, pc)
  {
    match pc
    case CopyK(d) => if d < job.dim then CopyV(d) else DotK(0, 0)
    case CopyV(d) => CopyK(d + 1)
    case DotK(j, d) => if d < job.dim then DotK(j, d + 1) else if j == 0 then LoadSeed(0) else LoadAcc(j, 0)
    case LoadSeed(d) => if d < job.dim then SeedAcc(d) else KeyOrStore(job, 1)
    case SeedAcc(d) => LoadSeed(d + 1)
    case LoadAcc(j, d) => if d < job.dim then LoadV(j, d) else KeyOrStore(job, j + 1)
    case LoadV(j, d) => Mix(j, d)
    case Mix(j, d) => LoadAcc(j, d + 1)
    case LoadOut(d) => if d < job.dim then Store(d) else Done
    case Store(d) => LoadOut(d + 1)
    case Done => Done
  }

  function KeyOrStore<F>(job: Job<F>, j: nat): Pc { if j <= job.past then DotK(j, 0) else LoadOut(0) }

  lemma {:induction false} StepGoes<F>(job: Job<F>, o: Own<F>, w: View<F>, loc: Local<F>)
    requires OwnFits(job, o) && w.Sized(job.past + 1, job.dim) && InCode(job, loc.pc)
    ensures Next(job, o, w, loc).1.pc == After(job, loc.pc)
    ensures loc.pc.Done? ==> Next(job, o, w, loc) == (w, loc)
  {
  }

  lemma {:induction false} AfterCounts<F>(job: Job<F>, pc: Pc)
    requires InCode(job, pc) && InCode(job, After(job, pc))
    ensures !pc.Done? ==> Remaining(job, After(job, pc)) == Remaining(job, pc) - 1
  {
    hide Times;
    TimesZero(4 * job.dim + 2);
    if pc.LoadSeed? && job.past > 0 { TimesNext(job.past - 1, 4 * job.dim + 2); }
    if pc.LoadAcc? && pc.j < job.past { TimesNext(job.past - pc.j - 1, 4 * job.dim + 2); }
  }

  lemma {:induction false} StepProgress<F>(job: Job<F>, o: Own<F>, w: View<F>, loc: Local<F>)
    requires OwnFits(job, o) && w.Sized(job.past + 1, job.dim) && InCode(job, loc.pc)
    ensures loc.pc.Done? ==> Next(job, o, w, loc) == (w, loc)
    ensures !loc.pc.Done? ==> Remaining(job, Next(job, o, w, loc).1.pc) == Remaining(job, loc.pc) - 1
  {
    hide Next, After, Remaining, InCode;
    StepGoes(job, o, w, loc);
    AfterCounts(job, loc.pc);
  }

  lemma {:induction false} AloneRuns<F>(job: Job<F>, o: Own<F>, w: View<F>, loc: Local<F>, n: nat)
    requires OwnFits(job, o) && Inv(job, o, w, loc) && InCode(job, loc.pc)
    ensures var r := Alone(job, o, w, loc, n);
            && Inv(job, o, r.0, r.1)
            && Remaining(job, r.1.pc) == if n <= Remaining(job, loc.pc) then Remaining(job, loc.pc) - n else 0
  {
    hide Inv, Next, Remaining;
    StepIsInCode(job, o, w, loc);
    if n > 0 {
      AloneRuns(job, o, w, loc, n - 1);
      var r := Alone(job, o, w, loc, n - 1);
      StepKeepsInv(job, o, r.0, r.1);
      StepProgress(job, o, r.0, r.1);
      DoneIsZero(job, r.1.pc);
    }
  }

  lemma {:induction false} DoneIsZero<F>(job: Job<F>, pc: Pc)
    requires InCode(job, pc)
    ensures Remaining(job, pc) == 0 <==> pc.Done?
  {}

  /** How many turns one thread takes in all. */
  function Budget<F>(job: Job<F>): nat {
    2 * job.dim + 1 + FirstKeyTurns(job)
  }

  /** The kernel's result does not depend on the schedule. For every interleaving, a thread has
      finished exactly when it has had its budget of turns, and then its output slot holds
      attention over the cache with the new row appended, and its cache rows are that cache. */
  lemma {:induction false} EveryScheduleAppendsThenAttends<F>(job: Job<F>, mem: Mem<F>, locs: seq<Local<F>>,
                                                              sched: seq<nat>, h: nat)
    requires Ready(job, mem, locs) && h < job.heads && locs[h].pc == CopyK(0)
    ensures var (mem', locs') := Exec(job, mem, locs, sched);
            var g := Final(job, OwnOf(job, mem, h));
            var w := ViewOf(job, mem', h);
            && (locs'[h].pc.Done? <==> Turns(sched, h) >= Budget(job))
            && (locs'[h].pc.Done? ==>
                 w.k == g.k && w.v == g.v && w.out == Flash(job.ops, OwnOf(job, mem, h).q, g, job.scale))
  {
    hide Exec, Turns, ViewOf, Flash, Alone;
    var o, w := OwnOf(job, mem, h), ViewOf(job, mem, h);
    assert Inv(job, o, w, locs[h]) by {
      assert o.k0 == w.k && o.v0 == w.v;
      assert o.newK[..0] + o.k0[job.past][0..] == o.k0[job.past] && o.newV[..0] + o.v0[job.past][0..] == o.v0[job.past];
    }
    ExecIsAlone(job, mem, locs, sched, h);
    AloneRuns(job, o, w, locs[h], Turns(sched, h));
    DoneIsZero(job, Exec(job, mem, locs, sched).1[h].pc);
  }

  /** No step of any thread touches a cache row other than the appended one. */
  lemma {:induction false} ExecKeepsOtherRows<F>(job: Job<F>, mem: Mem<F>, locs: seq<Local<F>>, sched: seq<nat>)
    requires Ready(job, mem, locs)
    ensures var state := Times(job.heads, job.dim);
            var mem' := Exec(job, mem, locs, sched).0;
            SameOutside(mem'.k, mem.k, Times(job.past, state), state)
                && SameOutside(mem'.v, mem.v, Times(job.past, state), state)
  {
    if |sched| > 0 {
      hide Step;
      ExecKeepsOtherRows(job, mem, locs, sched[..|sched| - 1]);
      var before := Exec(job, mem, locs, sched[..|sched| - 1]);
      var h := sched[|sched| - 1];
      if h < job.heads { StepKeepsOtherRows(job, h, before.0, before.1[h]); }
    }
  }

  lemma {:induction false} StepKeepsOtherRows<F>(job: Job<F>, h: nat, mem: Mem<F>, loc: Local<F>)
    requires job.Valid() && job.Fits(mem) && h < job.heads && InCode(job, loc.pc)
    ensures var state := Times(job.heads, job.dim);
            var mem' := Step(job, h, mem, loc).0;
            SameOutside(mem'.k, mem.k, Times(job.past, state), state)
                && SameOutside(mem'.v, mem.v, Times(job.past, state), state)
  {
    if (loc.pc.CopyK? && loc.pc.d < job.dim) || loc.pc.CopyV? {
      job.Bounds(h, job.past, loc.pc.d);
      SlotBound(h, job.heads, job.dim);
    }
  }

  /** The rows a thread attends are those of the cache after `copy_into_d` of the new row. */
  lemma {:induction false} FinalIsAppended<F>(job: Job<F>, mem: Mem<F>, k': seq<F>, v': seq<F>, h: nat)
    requires job.Valid() && job.Fits(mem) && h < job.heads
    requires Appended(mem.k, k', job.newK, job.past, Times(job.heads, job.dim))
    requires Appended(mem.v, v', job.newV, job.past, Times(job.heads, job.dim))
    ensures Tensor(k', job.capacity, job.heads, job.dim) && Tensor(v', job.capacity, job.heads, job.dim)
    ensures Final(job, OwnOf(job, mem, h)) == HeadOf(k', v', job.capacity, job.heads, job.dim, h, 0, job.past + 1)
  {
    AppendedRows(mem.k, k', job.newK, job.past, job.capacity, job.heads, job.dim, h);
    AppendedRows(mem.v, v', job.newV, job.past, job.capacity, job.heads, job.dim, h);
  }

  lemma {:induction false} AppendedRows<F>(s: seq<F>, s': seq<F>, row: seq<F>, past: nat, rows: nat, heads: nat,
                                           dim: nat, h: nat)
    requires Tensor(s, rows, heads, dim) && h < heads && past < rows && |row| == Times(heads, dim)
    requires Appended(s, s', row, past, Times(heads, dim))
    ensures Times(h, dim) + dim <= |row|
    ensures HeadRows(s', rows, heads, dim, h, 0, past + 1)
         == HeadRows(s, rows, heads, dim, h, 0, past + 1)[past := Block(row, h, dim)]
  {
    hide HeadRow;
    SlotBound(h, heads, dim);
    var a, b := HeadRows(s', rows, heads, dim, h, 0, past + 1), HeadRows(s, rows, heads, dim, h, 0, past + 1);
    forall j | 0 <= j <= past ensures a[j] == if j == past then Block(row, h, dim) else b[j] {
      AppendedRow(s, s', row, past, rows, heads, dim, h, j);
    }
  }

  lemma {:induction false} AppendedRow<F>(s: seq<F>, s': seq<F>, row: seq<F>, past: nat, rows: nat, heads: nat,
                                          dim: nat, h: nat, j: nat)
    requires Tensor(s, rows, heads, dim) && h < heads && past < rows && j <= past && |row| == Times(heads, dim)
    requires Appended(s, s', row, past, Times(heads, dim))
    ensures Times(h, dim) + dim <= |row|
    ensures HeadRow(s', rows, heads, dim, h, j) == if j == past then Block(row, h, dim)
        else HeadRow(s, rows, heads, dim, h, j)
  {
    var state := Times(heads, dim);
    hide Times, Block;
    SlotBound(h, heads, dim);
    var a, b := HeadRow(s', rows, heads, dim, h, j), HeadRow(s, rows, heads, dim, h, j);
    var base := RowBase(heads, dim, h, j);
    if j < past {
      SlotBound(j, past, state);
    } else {
      SliceOfSlice(s', Times(past, state), state, Times(h, dim), dim);
      BlockIsSlice(row, h, dim);
    }
  }

  lemma {:induction false} BlockIsSlice<F>(row: seq<F>, h: nat, dim: nat)
    requires Times(h, dim) + dim <= |row|
    ensures Block(row, h, dim) == row[Times(h, dim)..Times(h, dim) + dim]
  {}

  /** Over the reals: whatever the interleaving, each finished thread's output is the two-pass
      oracle over the appended cache. */
  lemma {:induction false} EveryScheduleIsOracle(job: Job<real>, exp: real -> real, mem: Mem<real>,
                                                 locs: seq<Local<real>>, sched: seq<nat>, h: nat, k': seq<real>,
                                                 v': seq<real>)
    requires ExpLaws(exp) && job.ops == RealOps(exp) && Ready(job, mem, locs) && h < job.heads && locs[h].pc == CopyK(0)
    requires Appended(mem.k, k', job.newK, job.past, Times(job.heads, job.dim))
    requires Appended(mem.v, v', job.newV, job.past, Times(job.heads, job.dim))
    requires Turns(sched, h) >= Budget(job)
    ensures Tensor(k', job.capacity, job.heads, job.dim) && Tensor(v', job.capacity, job.heads, job.dim)
    ensures ViewOf(job, Exec(job, mem, locs, sched).0, h).out
         == TwoPass(job.ops, Mine(job, job.q, h), HeadOf(k', v', job.capacity, job.heads, job.dim, h, 0, job.past + 1),
             job.scale)
  {
    hide Exec, Turns, ViewOf, Flash, TwoPass, HeadOf, Final, RealOps, Budget;
    EveryScheduleAppendsThenAttends(job, mem, locs, sched, h);
    FinalIsAppended(job, mem, k', v', h);
    FlashIsTwoPass(exp, Mine(job, job.q, h), Final(job, OwnOf(job, mem, h)), job.scale);
  }
}
