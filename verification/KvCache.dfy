/** The contiguous and the paged KV cache. Both are one abstract store of rows under different
    offsets, so no script of calls can tell them apart. */
module KvCache {
  import opened Index
  import opened KvLayout

  /** What a cache holds: a key and a value row for every layer and position. */
  datatype Store<F> = Store(keys: seq<seq<seq<F>>>, values: seq<seq<seq<F>>>, len: nat, released: bool)

  function RowOf<F>(buf: seq<F>, layer: nat, slots: nat, position: nat, width: nat): (row: seq<F>)
    requires Flat(layer, slots, position, width) + width <= |buf|
    ensures |row| == width
  {
    buf[Flat(layer, slots, position, width)..Flat(layer, slots, position, width) + width]
  }

  ghost predicate Holds<F>(buf: seq<F>, layers: nat, slots: nat,
                           width: nat) { |buf| == Times(Times(layers, slots), width) }

  /** The first `capacity` rows of each layer; a paged tensor has slots to spare past them. */
  function Rows<F>(buf: seq<F>, layers: nat, capacity: nat, slots: nat, width: nat): (rows: seq<seq<seq<F>>>)
    requires Holds(buf, layers, slots, width) && capacity <= slots
    ensures |rows| == layers && forall l :: 0 <= l < layers ==> |rows[l]| == capacity
  {
    seq(layers, l requires 0 <= l < layers =>
      seq(capacity, p requires 0 <= p < capacity =>
        FlatInside(layers, l, slots, p, width);
        RowOf(buf, l, slots, p, width)))
  }

  /** The three calls of the store, on what it holds. */
  predicate WriteOk<F>(y: Layout, s: Store<F>, layer: nat, position: nat, key: seq<F>, value: seq<F>) {
    !s.released && |key| == |value| == y.Width() && layer < y.layers && position < y.capacity
  }

  function Written<F>(rows: seq<seq<seq<F>>>, layer: nat, position: nat, row: seq<F>): seq<seq<seq<F>>>
    requires layer < |rows| && position < |rows[layer]|
  {
    rows[layer := rows[layer][position := row]]
  }

  /** An absent layer is refused only if a row of it would be read. */
  predicate ReadFits(y: Layout, layer: nat, n: nat, outLen: nat) {
    n <= y.capacity && outLen == Times(n, y.Width()) && (layer < y.layers || n == 0)
  }

  predicate ReadOk<F>(y: Layout, s: Store<F>, layer: nat, n: nat, outLen: nat) {
    !s.released && ReadFits(y, layer, n, outLen)
  }

  ghost predicate Sized<F>(y: Layout, s: Store<F>) {
    && |s.keys| == |s.values| == (if s.released then 0 else y.layers)
    && forall l :: 0 <= l < |s.keys| ==> |s.keys[l]| == |s.values[l]| == y.capacity
  }

  /** `out` starts with rows 0 .. n-1 of the layer, one after another. */
  ghost predicate ReadsBack<F>(rows: seq<seq<seq<F>>>, layer: nat, n: nat, width: nat, out: seq<F>) {
    && (n == 0 || (layer < |rows| && n <= |rows[layer]|))
    && forall p :: 0 <= p < n ==> OutRow(out, p, width) == rows[layer][p]
  }

  function OutRow<F>(out: seq<F>, p: nat, width: nat): seq<F> {
    if Times(p, width) + width <= |out| then out[Times(p, width)..Times(p, width) + width] else []
  }

  method CopyFromSlice<F>(a: array<F>, at: nat, src: seq<F>)
    requires at + |src| <= a.Length
    modifies a
    ensures a[..] == Replaced(old(a[..]), at, src)
  {
    for i := 0 to |src|
      invariant a[..] == Replaced(old(a[..]), at, src[..i])
    {
      a[at + i] := src[i];
      assert src[..i + 1] == src[..i] + [src[i]];
    }
    assert src[..|src|] == src;
  }

  function Replaced<F>(s: seq<F>, at: nat, src: seq<F>): (r: seq<F>)
    requires at + |src| <= |s|
    ensures |r| == |s|
  {
    s[..at] + src + s[at + |src|..]
  }

  lemma {:induction false} RowReplaced<F>(buf: seq<F>, layers: nat, slots: nat, width: nat, layer: nat, position: nat,
                                          row: seq<F>, l: nat, p: nat)
    requires Holds(buf, layers, slots, width) && layer < layers && position < slots && l < layers && p < slots
        && |row| == width
    requires Flat(layer, slots, position, width) + width <= |buf| && Flat(l, slots, p, width) + width <= |buf|
    ensures RowOf(Replaced(buf, Flat(layer, slots, position, width), row), l, slots, p, width)
         == if (l, p) == (layer, position) then row else RowOf(buf, l, slots, p, width)
  {
    hide Times, Flat;
    if (l, p) != (layer, position) { FlatApart(layer, position, l, p, slots, width); }
  }

  lemma {:induction false} RowsReplaced<F>(buf: seq<F>, layers: nat, capacity: nat, slots: nat, width: nat, layer: nat,
                                           position: nat, row: seq<F>)
    requires Holds(buf, layers, slots, width) && capacity <= slots && layer < layers && position < capacity
        && |row| == width
    requires Flat(layer, slots, position, width) + width <= |buf|
    ensures Rows(Replaced(buf, Flat(layer, slots, position, width), row), layers, capacity, slots, width)
         == Written(Rows(buf, layers, capacity, slots, width), layer, position, row)
  {
    hide Times, Flat, Replaced, RowOf;
    var buf' := Replaced(buf, Flat(layer, slots, position, width), row);
    var a, b := Rows(buf', layers, capacity, slots, width),
        Written(Rows(buf, layers, capacity, slots, width), layer, position, row);
    forall l | 0 <= l < layers ensures a[l] == b[l] {
      forall p | 0 <= p < capacity ensures a[l][p] == b[l][p] {
        FlatInside(layers, l, slots, p, width);
        RowReplaced(buf, layers, slots, width, layer, position, row, l, p);
      }
    }
  }

  /** Copying row n of the layer behind the rows already read. */
  lemma {:induction false} ReadsOneMore<F>(rows: seq<seq<seq<F>>>, layer: nat, n: nat, width: nat, out: seq<F>)
    requires layer < |rows| && n < |rows[layer]| && ReadsBack(rows, layer, n, width, out) && |rows[layer][n]| == width
    requires Times(n, width) + width <= |out|
    ensures ReadsBack(rows, layer, n + 1, width, Replaced(out, Times(n, width), rows[layer][n]))
  {
    hide Times;
    var out' := Replaced(out, Times(n, width), rows[layer][n]);
    assert Times(n + 1, width) == Times(n, width) + width by { TimesNext(n, width); }
    forall p | 0 <= p < n + 1 ensures OutRow(out', p, width) == rows[layer][p] {
      if p < n {
        SlotBound(p, n, width);
        assert OutRow(out, p, width) == rows[layer][p];
      }
    }
  }

  /** A new cache: zero rows everywhere. */
  function Zeroes<F>(y: Layout, zero: F): Store<F> {
    var rows := seq(y.layers, _ => seq(y.capacity, _ => seq(y.Width(), _ => zero)));
    Store(rows, rows, 0, false)
  }

  lemma {:induction false} ZeroRows<F>(buf: seq<F>, y: Layout, slots: nat, zero: F)
    requires Holds(buf, y.layers, slots, y.Width()) && y.capacity <= slots && forall i :: 0 <= i < |buf| ==>
        buf[i] == zero
    ensures Rows(buf, y.layers, y.capacity, slots, y.Width()) == Zeroes(y, zero).keys
  {
    hide Times, Flat;
    var a, b := Rows(buf, y.layers, y.capacity, slots, y.Width()), Zeroes(y, zero).keys;
    forall l | 0 <= l < y.layers ensures a[l] == b[l] {
      forall p | 0 <= p < y.capacity ensures a[l][p] == b[l][p] { FlatInside(y.layers, l, slots, p, y.Width()); }
    }
  }

  /** What was read is determined by the store: there is one buffer that reads back n rows. */
  lemma {:induction false} ReadIsDetermined<F>(rows: seq<seq<seq<F>>>, layer: nat, n: nat, width: nat, a: seq<F>,
                                               b: seq<F>)
    requires |a| == |b| == Times(n, width)
    requires ReadsBack(rows, layer, n, width, a) && ReadsBack(rows, layer, n, width, b)
    ensures a == b
  {
    hide Times, Quot, Rem;
    forall i | 0 <= i < |a| ensures a[i] == b[i] {
      QuotBound(i, n, width);
      var p, d := Quot(i, width), Rem(i, width);
      SlotBound(p, n, width);
      assert OutRow(a, p, width) == rows[layer][p] == OutRow(b, p, width);
      assert OutRow(a, p, width)[d] == a[i] && OutRow(b, p, width)[d] == b[i];
    }
  }
}
