/** The two caches as the runtime's classes. */
module KvStores {
  import opened Index
  import opened Checked
  import opened KvLayout
  import opened KvCache

  class ContiguousKvCache<F> {
    const layout: Layout
    var keys: array<F>
    var values: array<F>
    var len: nat
    var released: bool

    ghost predicate Valid()
      reads this, keys, values
    {
      && layout.Valid() && layout.cpuF32 && layout.ValuesPerAllKeyTensors().Ok? && keys != values
      && (!released ==> Holds(keys[..], layout.layers, layout.capacity, layout.Width()))
      && (!released ==> Holds(values[..], layout.layers, layout.capacity, layout.Width()))
    }

    ghost function View(): (s: Store<F>)
      requires Valid()
      reads this, keys, values
      ensures Sized(layout, s)
    {
      if released then Store([], [], len, true)
      else
        Store(Rows(keys[..], layout.layers, layout.capacity, layout.capacity, layout.Width()),
              Rows(values[..], layout.layers, layout.capacity, layout.capacity, layout.Width()), len, false)
    }

    constructor (layout: Layout, n: nat, zero: F)
      requires layout.Valid() && layout.cpuF32 && layout.ValuesPerAllKeyTensors() == Ok(n)
      ensures Valid() && this.layout == layout && fresh(keys) && fresh(values) && len == 0 && !released
      ensures View() == Zeroes(layout, zero)
    {
      this.layout := layout;
      keys := new F[n](_ => zero);
      values := new F[n](_ => zero);
      len, released := 0, false;
      new;
      AllTensors(layout);
      ZeroRows(keys[..], layout, layout.capacity, zero);
      ZeroRows(values[..], layout, layout.capacity, zero);
    }

    method Release()
      requires Valid()
      modifies this
      ensures Valid() && View() == Store([], [], 0, true)
      ensures fresh(keys) && fresh(values)
    {
      keys := new F[0];
      values := new F[0];
      len, released := 0, true;
    }

    method SetLenTokens(n: nat) returns (ok: bool)
      requires Valid()
      modifies this`len
      ensures Valid() && ok == (!old(released) && n <= layout.capacity)
      ensures View() == if ok then old(View()).(len := n) else old(View())
    {
      ok := !released && n <= layout.capacity;
      if ok { len := n; }
    }

    method WriteLayerKv(layer: nat, position: nat, key: seq<F>, value: seq<F>) returns (ok: bool)
      requires Valid()
      modifies keys, values
      ensures Valid() && ok == WriteOk(layout, old(View()), layer, position, key, value)
      ensures !ok ==> View() == old(View())
      ensures ok ==> View() == old(View()).(keys := Written(old(View()).keys, layer, position, key),
                                            values := Written(old(View()).values, layer, position, value))
    {
      hide Times, Rows, Replaced, Flat, Written;
      ok := false;
      if released { return; }
      WidthIsOk(layout);
      AllTensors(layout);
      RepresentableNeverErrs(layout, layer, position);
      var width := layout.ValuesPerPosition();
      if width.Err? || |key| != width.value || |value| != width.value { return; }
      var start := layout.LayerPositionOffset(layer, position);
      if start.Err? { return; }
      LayersFit(layout);
      OffsetExact(layout, layer, position);
      FlatInside(layout.layers, layer, layout.capacity, position, layout.Width());
      RowsReplaced(keys[..], layout.layers, layout.capacity, layout.capacity, layout.Width(), layer, position, key);
      RowsReplaced(values[..], layout.layers, layout.capacity, layout.capacity, layout.Width(), layer, position, value);
      CopyFromSlice(keys, start.value, key);
      CopyFromSlice(values, start.value, value);
      ok := true;
    }

    method ReadLayerKeys(layer: nat, n: nat, out: array<F>) returns (ok: bool)
      requires Valid() && out != keys && out != values
      modifies out
      ensures ok == ReadOk(layout, View(), layer, n, out.Length)
      ensures ok ==> ReadsBack(View().keys, layer, n, layout.Width(), out[..])
      ensures !ok ==> out[..] == old(out[..])
    {
      hide Rows, ReadsBack;
      if released { return false; }
      ok := CopyContiguousLayer(layout, keys[..], layer, n, out);
    }

    method ReadLayerValues(layer: nat, n: nat, out: array<F>) returns (ok: bool)
      requires Valid() && out != keys && out != values
      modifies out
      ensures ok == ReadOk(layout, View(), layer, n, out.Length)
      ensures ok ==> ReadsBack(View().values, layer, n, layout.Width(), out[..])
      ensures !ok ==> out[..] == old(out[..])
    {
      hide Rows, ReadsBack;
      if released { return false; }
      ok := CopyContiguousLayer(layout, values[..], layer, n, out);
    }
  }

  /** The visible rows of one layer, gathered into `out`. */
  method CopyContiguousLayer<F>(y: Layout, src: seq<F>, layer: nat, n: nat, out: array<F>) returns (ok: bool)
    requires y.Valid() && y.ValuesPerAllKeyTensors().Ok? && Holds(src, y.layers, y.capacity, y.Width())
    modifies out
    ensures ok == ReadFits(y, layer, n, out.Length)
    ensures ok ==> ReadsBack(Rows(src, y.layers, y.capacity, y.capacity, y.Width()), layer, n, y.Width(), out[..])
    ensures !ok ==> out[..] == old(out[..])
  {
    hide Times, Rows, Flat, Holds, CheckedProduct, ReadsBack, Replaced;
    ok := false;
    if n > y.capacity { return; }
    AllTensors(y);
    WidthIsOk(y);
    var width := y.ValuesPerPosition().value;
    ReadSize(y, n);
    var expected := CheckedProduct([n, width]);
    if expected.Err? || out.Length != expected.value { return; }
    ghost var rows := Rows(src, y.layers, y.capacity, y.capacity, width);
    NothingRead(rows, layer, width, out[..]);
    for position := 0 to n
      invariant position > 0 ==> layer < y.layers
      invariant position == 0 ==> out[..] == old(out[..])
      invariant ReadsBack(rows, layer, position, width, out[..])
    {
      RepresentableNeverErrs(y, layer, position);
      var at := y.LayerPositionOffset(layer, position);
      if at.Err? { return; }
      RowAt(y, src, layer, position);
      SlotBound(position, n, width);
      ReadsOneMore(rows, layer, position, width, out[..]);
      CopyFromSlice(out, Times(position, width), src[at.value..at.value + width]);
    }
    ok := true;
  }

  lemma {:induction false} NothingRead<F>(rows: seq<seq<seq<F>>>, layer: nat, width: nat, out: seq<F>)
    ensures ReadsBack(rows, layer, 0, width, out)
  {}

  lemma {:induction false} WidthIsOk(y: Layout)
    requires y.Valid() && y.ValuesPerAllKeyTensors().Ok?
    ensures y.ValuesPerPosition() == Ok(y.Width()) && 0 < y.Width()
  {
    hide CheckedProduct;
    PerPosition(y);
    AllTensors(y);
    WidthFits(y);
    FlatInside(y.layers, 0, y.capacity, 0, y.Width());
  }

  /** The size of a read never overflows: it is at most a layer. */
  lemma {:induction false} ReadSize(y: Layout, n: nat)
    requires y.Valid() && y.Total() < LIMIT && n <= y.capacity
    ensures CheckedProduct([n, y.Width()]) == Ok(Times(n, y.Width()))
  {
    hide CheckedProduct;
    FlatInside(y.layers, 0, y.capacity, 0, y.Width());
    TimesMonotone(n, y.capacity, y.Width());
    CapacityFits(y);
    Two(n, y.Width());
  }

  lemma {:induction false} RowAt<F>(y: Layout, buf: seq<F>, layer: nat, position: nat)
    requires y.Valid() && y.ValuesPerAllKeyTensors().Ok? && Holds(buf, y.layers, y.capacity, y.Width())
    requires layer < y.layers && position < y.capacity
    ensures var at := y.LayerPositionOffset(layer, position);
            && at.Ok? && at.value + y.Width() <= |buf|
            && buf[at.value..at.value + y.Width()]
                == Rows(buf, y.layers, y.capacity, y.capacity, y.Width())[layer][position]
  {
    hide Times, Flat, CheckedProduct;
    AllTensors(y);
    LayersFit(y);
    OffsetExact(y, layer, position);
    FlatInside(y.layers, layer, y.capacity, position, y.Width());
  }
}
