/** The paged cache. Its own storage is addressed by logical page, so under any accepted table the
    checked offset is the flat one of a contiguous cache with whole pages to spare. */
module KvPaged {
  import opened Index
  import opened Checked
  import opened KvLayout
  import opened KvCache
  import opened KvStores

  function StorageOffset(y: Paged, tableLen: nat, layer: nat, position: nat): Result<nat>
    requires 0 < y.page
  {
    if layer >= y.base.layers then Err
    else
      match y.LogicalPageAndOffset(position)
      case Err => Err
      case Ok(at) =>
        if at.0 >= tableLen then Err
        else
          match y.ValuesPerPageTensor()
          case Err => Err
          case Ok(pageValues) =>
            match CheckedProduct([layer, tableLen, pageValues])
            case Err => Err
            case Ok(layerBase) =>
              match CheckedProduct([at.0, pageValues])
              case Err => Err
              case Ok(pageBase) =>
                match y.base.ValuesPerPosition()
                case Err => Err
                case Ok(width) =>
                  match CheckedProduct([at.1, width])
                  case Err => Err
                  case Ok(tokenBase) =>
                    match CheckedAdd(layerBase, pageBase)
                    case Err => Err
                    case Ok(v) => CheckedAdd(v, tokenBase)
  }

  /** `checked_product` of the page tensor and of the whole tensor, as the constructor asks for them. */
  function TensorValues(y: Paged, tableLen: nat): Result<nat> {
    match y.ValuesPerPageTensor()
    case Err => Err
    case Ok(pageValues) => CheckedProduct([y.base.layers, tableLen, pageValues])
  }

  function Slots(y: Paged, tableLen: nat): nat { Times(tableLen, y.page) }

  function PagedTotal(y: Paged, tableLen: nat): nat { Times(Times(y.base.layers, Slots(y, tableLen)), y.base.Width()) }

  /** layer * (n * (page * width)) == (layer * (n * page)) * width */
  lemma {:induction false} Regroup(layer: nat, n: nat, page: nat, width: nat)
    ensures Times(Times(layer, n), Times(page, width)) == Times(Times(layer, Times(n, page)), width)
  {
    hide Times;
    TimesAssoc(Times(layer, n), page, width);
    TimesAssoc(layer, n, page);
  }

  lemma {:induction false} FactorFits(a: nat, b: nat)
    requires 0 < a && 0 < b
    ensures a <= Times(a, b) && b <= Times(a, b)
  {
    TimesMonotone(1, a, b);
    TimesOne(b);
    TimesComm(a, b);
    TimesMonotone(1, b, a);
    TimesOne(a);
  }

  /** The factors of a product that fits: none of the partial products overflows. */
  lemma {:induction false} PartsFit(y: Paged, n: nat)
    requires y.Valid() && 0 < n
    ensures y.base.Width() <= Times(y.page, y.base.Width()) <= PagedTotal(y, n)
    ensures y.base.layers <= Times(y.base.layers, n) <= PagedTotal(y, n)
    ensures Slots(y, n) <= PagedTotal(y, n) && y.page <= Slots(y, n) && n <= Slots(y, n)
    ensures PagedTotal(y, n) == Times(Times(y.base.layers, n), Times(y.page, y.base.Width()))
  {
    hide Times;
    PerPosition(y.base);
    Regroup(y.base.layers, n, y.page, y.base.Width());
    FactorFits(y.page, y.base.Width());
    FactorFits(y.base.layers, n);
    FactorFits(n, y.page);
    FactorFits(Times(y.base.layers, n), Times(y.page, y.base.Width()));
    FactorFits(y.base.layers, Slots(y, n));
    FactorFits(Times(y.base.layers, Slots(y, n)), y.base.Width());
  }

  /** The constructor's sizes are refused exactly when the whole tensor does not fit a usize. */
  lemma {:induction false} TensorValuesExact(y: Paged, n: nat)
    requires y.Valid() && 0 < n
    ensures TensorValues(y, n) == if PagedTotal(y, n) < LIMIT then Ok(PagedTotal(y, n)) else Err
  {
    hide Times, PagedTotal, CheckedProduct, Product;
    PartsFit(y, n);
    PerPosition(y.base);
    var width := y.base.Width();
    if width < LIMIT {
      ProductOverflowIff([y.page, width]);
      ProductOfTwo(y.page, width);
      if Times(y.page, width) < LIMIT {
        var dims := [y.base.layers, n, Times(y.page, width)];
        assert AllPositive(dims);
        ProductOverflowIff(dims);
        ProductOfThree(y.base.layers, n, Times(y.page, width));
        TimesOne(y.base.layers);
      }
    }
  }

  /** The paged offset of a row is its flat offset among `table.len() * page` slots a layer. */
  lemma {:induction false} StorageOffsetIs(y: Paged, n: nat, layer: nat, position: nat)
    requires y.Valid() && 0 < n && PagedTotal(y, n) < LIMIT && y.base.capacity <= Slots(y, n)
    requires layer < y.base.layers && position < y.base.capacity
    ensures StorageOffset(y, n, layer, position) == Ok(Flat(layer, Slots(y, n), position, y.base.Width()))
    ensures Flat(layer, Slots(y, n), position, y.base.Width()) + y.base.Width() <= PagedTotal(y, n)
  {
    hide Times, Quot, Rem, CheckedProduct, Product;
    var width := y.base.Width();
    var pageValues := Times(y.page, width);
    PartsFit(y, n);
    PerPosition(y.base);
    Two(y.page, width);
    QuotBound(position, n, y.page);
    var page, offset := Quot(position, y.page), Rem(position, y.page);
    FlatInside(y.base.layers, layer, Slots(y, n), position, width);
    SplitFlat(layer, n, y.page, page, offset, width, Times(layer, Slots(y, n)), Times(page, y.page));
    SlotBound(layer, y.base.layers, n);
    Three(layer, n, pageValues);
    Two(page, pageValues);
    Two(offset, width);
  }

  lemma {:induction false} AddThree(a: nat, b: nat, c: nat, width: nat)
    ensures Times(a + (b + c), width) == Times(a, width) + Times(b, width) + Times(c, width)
  {
    hide Times;
    TimesAdd(a + b, c, width);
    TimesAdd(a, b, width);
    assert a + (b + c) == a + b + c;
  }

  lemma {:induction false} SplitTerms(layer: nat, n: nat, page: nat, logical: nat, width: nat, base: nat, at: nat)
    requires base == Times(layer, Times(n, page)) && at == Times(logical, page)
    ensures Times(base, width) == Times(Times(layer, n), Times(page, width))
    ensures Times(at, width) == Times(logical, Times(page, width))
  {
    hide Times;
    Regroup(layer, n, page, width);
    TimesAssoc(logical, page, width);
  }

  lemma {:induction false} SplitFlat(layer: nat, n: nat, page: nat, logical: nat, offset: nat, width: nat, base: nat,
                                     at: nat)
    requires base == Times(layer, Times(n, page)) && at == Times(logical, page)
    ensures Times(base + (at + offset), width)
         == Times(Times(layer, n), Times(page, width)) + Times(logical, Times(page, width)) + Times(offset, width)
  {
    hide Times;
    AddThree(base, at, offset, width);
    SplitTerms(layer, n, page, logical, width, base, at);
  }

  lemma {:induction false} TableCovers(y: Paged, table: seq<nat>)
    requires y.Valid() && Accepted(y, table)
    ensures 0 < |table| && y.base.capacity <= Slots(y, |table|)
  {
    PagesCover(y, y.base.capacity);
  }

  lemma {:induction false} PagedWidth(y: Paged, n: nat)
    requires y.Valid() && 0 < n && PagedTotal(y, n) < LIMIT
    ensures y.base.ValuesPerPosition() == Ok(y.base.Width()) && 0 < y.base.Width()
  {
    hide CheckedProduct;
    PerPosition(y.base);
    PartsFit(y, n);
  }

  lemma {:induction false} PagedReadSize(y: Paged, n: nat, rows: nat)
    requires y.Valid() && 0 < n && PagedTotal(y, n) < LIMIT && rows <= y.base.capacity <= Slots(y, n)
    ensures CheckedProduct([rows, y.base.Width()]) == Ok(Times(rows, y.base.Width()))
  {
    hide CheckedProduct;
    FlatInside(y.base.layers, 0, Slots(y, n), 0, y.base.Width());
    TimesMonotone(rows, Slots(y, n), y.base.Width());
    PartsFit(y, n);
    Two(rows, y.base.Width());
  }

  lemma {:induction false} PagedRowAt<F>(y: Paged, n: nat, buf: seq<F>, layer: nat, position: nat)
    requires y.Valid() && 0 < n && PagedTotal(y, n) < LIMIT && y.base.capacity <= Slots(y, n)
    requires Holds(buf, y.base.layers, Slots(y, n), y.base.Width())
    requires layer < y.base.layers && position < y.base.capacity
    ensures var at := StorageOffset(y, n, layer, position);
            && at.Ok? && at.value + y.base.Width() <= |buf|
            && buf[at.value..at.value + y.base.Width()]
               == Rows(buf, y.base.layers, y.base.capacity, Slots(y, n), y.base.Width())[layer][position]
  {
    hide Times, Flat, StorageOffset;
    StorageOffsetIs(y, n, layer, position);
  }

  /** copy_paged_layer */
  method CopyPagedLayer<F>(y: Paged, n: nat, src: seq<F>, layer: nat, rows: nat, out: array<F>) returns (ok: bool)
    requires y.Valid() && 0 < n && PagedTotal(y, n) < LIMIT && y.base.capacity <= Slots(y, n)
    requires Holds(src, y.base.layers, Slots(y, n), y.base.Width())
    modifies out
    ensures ok == ReadFits(y.base, layer, rows, out.Length)
    ensures ok ==> ReadsBack(Rows(src, y.base.layers, y.base.capacity, Slots(y, n), y.base.Width()), layer, rows,
        y.base.Width(), out[..])
    ensures !ok ==> out[..] == old(out[..])
  {
    hide Times, Rows, Flat, Holds, CheckedProduct, ReadsBack, Replaced, StorageOffset, PagedTotal, Slots;
    ok := false;
    if rows > y.base.capacity { return; }
    PagedWidth(y, n);
    var width := y.base.ValuesPerPosition().value;
    PagedReadSize(y, n, rows);
    var expected := CheckedProduct([rows, width]);
    if expected.Err? || out.Length != expected.value { return; }
    ghost var view := Rows(src, y.base.layers, y.base.capacity, Slots(y, n), width);
    NothingRead(view, layer, width, out[..]);
    for position := 0 to rows
      invariant position > 0 ==> layer < y.base.layers
      invariant position == 0 ==> out[..] == old(out[..])
      invariant ReadsBack(view, layer, position, width, out[..])
    {
      var at := StorageOffset(y, n, layer, position);
      if layer >= y.base.layers { NoLayer(y, n, layer, position); }
      else { PagedRowAt(y, n, src, layer, position); }
      if at.Err? { return; }
      SlotBound(position, rows, width);
      ReadsOneMore(view, layer, position, width, out[..]);
      CopyFromSlice(out, Times(position, width), src[at.value..at.value + width]);
    }
    ok := true;
  }

  lemma {:induction false} NoLayer(y: Paged, n: nat, layer: nat, position: nat)
    requires 0 < y.page && (layer >= y.base.layers || position >= y.base.capacity)
    ensures StorageOffset(y, n, layer, position).Err?
  {}

  lemma {:induction false} ErrsOnlyOutside(y: Paged, n: nat, layer: nat, position: nat)
    requires y.Valid() && 0 < n && PagedTotal(y, n) < LIMIT && y.base.capacity <= Slots(y, n)
    requires StorageOffset(y, n, layer, position).Err?
    ensures layer >= y.base.layers || position >= y.base.capacity
  {
    hide StorageOffset, PagedTotal, Slots, Times, Flat;
    if layer < y.base.layers && position < y.base.capacity { StorageOffsetIs(y, n, layer, position); }
  }

  class PagedKvCache<F> {
    const layout: Paged
    var table: seq<nat>
    var keys: array<F>
    var values: array<F>
    var len: nat
    var released: bool

    ghost predicate Valid()
      reads this, keys, values
    {
      && layout.Valid() && layout.base.cpuF32 && keys != values && (released ==> table == [])
      && (!released ==>
           && Accepted(layout, table) && |table| > 0 && PagedTotal(layout, |table|) < LIMIT
           && layout.base.capacity <= Slots(layout, |table|)
           && Holds(keys[..], layout.base.layers, Slots(layout, |table|), layout.base.Width())
           && Holds(values[..], layout.base.layers, Slots(layout, |table|), layout.base.Width()))
    }

    ghost function View(): (s: Store<F>)
      requires Valid()
      reads this, keys, values
      ensures Sized(layout.base, s)
    {
      if released then Store([], [], len, true)
      else
        Store(Rows(keys[..], layout.base.layers, layout.base.capacity, Slots(layout, |table|), layout.base.Width()),
              Rows(values[..], layout.base.layers, layout.base.capacity, Slots(layout, |table|), layout.base.Width()),
                  len, false)
    }

    constructor (layout: Paged, table: seq<nat>, n: nat, zero: F)
      requires layout.Valid() && layout.base.cpuF32 && Accepted(layout, table) && TensorValues(layout, |table|) == Ok(n)
      ensures Valid() && this.layout == layout && this.table == table && fresh(keys) && fresh(values) && len == 0
          && !released
      ensures View() == Zeroes(layout.base, zero)
    {
      this.layout, this.table := layout, table;
      keys := new F[n](_ => zero);
      values := new F[n](_ => zero);
      len, released := 0, false;
      new;
      TableCovers(layout, table);
      TensorValuesExact(layout, |table|);
      ZeroRows(keys[..], layout.base, Slots(layout, |table|), zero);
      ZeroRows(values[..], layout.base, Slots(layout, |table|), zero);
    }

    /** Gives the page table back and forgets the rows. */
    method Release() returns (pages: seq<nat>)
      requires Valid()
      modifies this
      ensures Valid() && View() == Store([], [], 0, true) && pages == old(table) && table == []
      ensures fresh(keys) && fresh(values)
    {
      keys := new F[0];
      values := new F[0];
      len, released, pages, table := 0, true, table, [];
    }

    method SetLenTokens(n: nat) returns (ok: bool)
      requires Valid()
      modifies this`len
      ensures Valid() && ok == (!old(released) && n <= layout.base.capacity)
      ensures View() == if ok then old(View()).(len := n) else old(View())
    {
      hide Times, Rows;
      ok := !released && n <= layout.base.capacity;
      if ok { len := n; }
    }

    method WriteLayerKv(layer: nat, position: nat, key: seq<F>, value: seq<F>) returns (ok: bool)
      requires Valid()
      modifies keys, values
      ensures Valid() && ok == WriteOk(layout.base, old(View()), layer, position, key, value)
      ensures !ok ==> View() == old(View())
      ensures ok ==> View() == old(View()).(keys := Written(old(View()).keys, layer, position, key),
                                            values := Written(old(View()).values, layer, position, value))
    {
      hide Times, Rows, Replaced, Flat, Written, StorageOffset, PagedTotal, Slots, Accepted, CheckedProduct;
      ok := false;
      if released { return; }
      var n := |table|;
      PagedWidth(layout, n);
      var width := layout.base.ValuesPerPosition().value;
      if |key| != width || |value| != width { return; }
      var start := StorageOffset(layout, n, layer, position);
      if layer >= layout.base.layers || position >= layout.base.capacity { NoLayer(layout, n, layer, position); }
      if start.Err? { ErrsOnlyOutside(layout, n, layer, position); return; }
      StorageOffsetIs(layout, n, layer, position);
      FlatInside(layout.base.layers, layer, Slots(layout, n), position, width);
      RowsReplaced(keys[..], layout.base.layers, layout.base.capacity, Slots(layout, n), width, layer, position, key);
      RowsReplaced(values[..], layout.base.layers, layout.base.capacity, Slots(layout, n), width, layer, position,
          value);
      CopyFromSlice(keys, start.value, key);
      CopyFromSlice(values, start.value, value);
      ok := true;
    }

    method ReadLayerKeys(layer: nat, n: nat, out: array<F>) returns (ok: bool)
      requires Valid() && out != keys && out != values
      modifies out
      ensures ok == ReadOk(layout.base, View(), layer, n, out.Length)
      ensures ok ==> ReadsBack(View().keys, layer, n, layout.base.Width(), out[..])
      ensures !ok ==> out[..] == old(out[..])
    {
      hide Times, Rows, ReadsBack, Accepted, Holds;
      if released { return false; }
      ok := CopyPagedLayer(layout, |table|, keys[..], layer, n, out);
    }

    method ReadLayerValues(layer: nat, n: nat, out: array<F>) returns (ok: bool)
      requires Valid() && out != keys && out != values
      modifies out
      ensures ok == ReadOk(layout.base, View(), layer, n, out.Length)
      ensures ok ==> ReadsBack(View().values, layer, n, layout.base.Width(), out[..])
      ensures !ok ==> out[..] == old(out[..])
    {
      hide Times, Rows, ReadsBack, Accepted, Holds;
      if released { return false; }
      ok := CopyPagedLayer(layout, |table|, values[..], layer, n, out);
    }
  }
}
