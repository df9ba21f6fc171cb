/** Sizes, offsets and page tables of the KV caches, in 64-bit checked arithmetic. */
module KvLayout {
  import opened Index
  import opened Checked

  /** The contiguous layout `[layers, capacity, heads, dim]`. */
  datatype Layout = Layout(layers: nat, heads: nat, capacity: nat, dim: nat, cpuF32: bool) {
    predicate Valid() { 0 < layers && 0 < heads && 0 < capacity && 0 < dim }

    function ValuesPerPosition(): Result<nat> { CheckedProduct([heads, dim]) }

    function ValuesPerLayerTensor(): Result<nat> { CheckedProduct([capacity, heads, dim]) }

    function ValuesPerAllKeyTensors(): Result<nat> { CheckedProduct([layers, capacity, heads, dim]) }

    function Width(): nat { Times(heads, dim) }

    function Total(): nat { Times(Times(layers, capacity), Width()) }

    function LayerPositionOffset(layer: nat, position: nat): Result<nat> {
      if layer >= layers || position >= capacity then Err
      else
        match ValuesPerLayerTensor()
        case Err => Err
        case Ok(perLayer) =>
          match CheckedProduct([layer, perLayer])
          case Err => Err
          case Ok(layerBase) =>
            match ValuesPerPosition()
            case Err => Err
            case Ok(width) =>
              match CheckedProduct([position, width])
              case Err => Err
              case Ok(positionBase) => CheckedAdd(layerBase, positionBase)
    }
  }

  lemma {:induction false} PerPosition(y: Layout)
    requires y.Valid()
    ensures y.ValuesPerPosition() == if y.Width() < LIMIT then Ok(y.Width()) else Err
    ensures 0 < y.Width()
  {
    ProductOverflowIff([y.heads, y.dim]);
    ProductOfTwo(y.heads, y.dim);
    TimesPositive(y.heads, y.dim);
  }

  lemma {:induction false} PerLayer(y: Layout)
    requires y.Valid()
    ensures y.ValuesPerLayerTensor() == if Times(y.capacity, y.Width()) < LIMIT then Ok(Times(y.capacity, y.Width()))
        else Err
  {
    hide Times;
    var dims := [y.capacity, y.heads, y.dim];
    assert AllPositive(dims);
    ProductOverflowIff(dims);
    assert dims[..2] == [y.capacity, y.heads];
    ProductOfTwo(y.capacity, y.heads);
    TimesAssoc(y.capacity, y.heads, y.dim);
  }

  lemma {:induction false} AllTensors(y: Layout)
    requires y.Valid()
    ensures y.ValuesPerAllKeyTensors() == if y.Total() < LIMIT then Ok(y.Total()) else Err
  {
    hide Times;
    var dims := [y.layers, y.capacity, y.heads, y.dim];
    assert AllPositive(dims);
    ProductOverflowIff(dims);
    assert dims[..3] == [y.layers, y.capacity, y.heads] && dims[..3][..2] == [y.layers, y.capacity];
    ProductOfTwo(y.layers, y.capacity);
    TimesAssoc(Times(y.layers, y.capacity), y.heads, y.dim);
  }

  /** (layer * capacity + position) * width */
  function Flat(layer: nat, slots: nat, position: nat, width: nat): nat { Times(Times(layer, slots) + position, width) }

  lemma {:induction false} FlatIs(layer: nat, slots: nat, position: nat, width: nat)
    ensures Flat(layer, slots, position, width) == Times(layer, Times(slots, width)) + Times(position, width)
  {
    hide Times;
    TimesAdd(Times(layer, slots), position, width);
    TimesAssoc(layer, slots, width);
  }

  lemma {:induction false} FlatInside(layers: nat, layer: nat, slots: nat, position: nat, width: nat)
    requires layer < layers && position < slots
    ensures Flat(layer, slots, position, width) + width <= Times(Times(layers, slots), width)
    ensures Times(slots, width) <= Times(Times(layers, slots), width)
    ensures Times(position, width) + width <= Times(slots, width)
  {
    SlotBound(layer, layers, slots);
    SlotBound(Times(layer, slots) + position, Times(layers, slots), width);
    TimesMonotone(slots, Times(layers, slots), width);
    SlotBound(position, slots, width);
  }

  /** An offset is reported exactly when layer and position exist and both the layer tensor and the
      offset itself fit a usize; then it is the flat position of the row. */
  lemma {:induction false} OffsetExact(y: Layout, layer: nat, position: nat)
    requires y.Valid() && layer < LIMIT
    ensures y.LayerPositionOffset(layer, position) ==
      if layer < y.layers && position < y.capacity && Times(y.capacity, y.Width()) < LIMIT
          && Flat(layer, y.capacity, position, y.Width()) < LIMIT
      then Ok(Flat(layer, y.capacity, position, y.Width())) else Err
  {
    hide Times, CheckedProduct;
    PerLayer(y);
    PerPosition(y);
    FlatIs(layer, y.capacity, position, y.Width());
    if layer < y.layers && position < y.capacity && Times(y.capacity, y.Width()) < LIMIT {
      FlatInside(y.layers, layer, y.capacity, position, y.Width());
      WidthFits(y);
      Two(layer, Times(y.capacity, y.Width()));
      CapacityFits(y);
      Two(position, y.Width());
    }
  }

  lemma {:induction false} WidthFits(y: Layout)
    requires y.Valid()
    ensures y.Width() <= Times(y.capacity, y.Width())
  {
    TimesMonotone(1, y.capacity, y.Width());
    TimesOne(y.Width());
  }

  lemma {:induction false} CapacityFits(y: Layout)
    requires y.Valid()
    ensures y.capacity <= Times(y.capacity, y.Width())
  {
    PerPosition(y);
    TimesMonotone(1, y.Width(), y.capacity);
    TimesOne(y.capacity);
    TimesComm(y.capacity, y.Width());
  }

  /** A layout whose key tensors fit reports an offset for every layer and position. */
  lemma {:induction false} RepresentableNeverErrs(y: Layout, layer: nat, position: nat)
    requires y.Valid() && y.ValuesPerAllKeyTensors().Ok?
    ensures y.LayerPositionOffset(layer, position).Ok? <==> layer < y.layers && position < y.capacity
    ensures y.LayerPositionOffset(layer, position).Ok? ==>
              y.LayerPositionOffset(layer, position).value + y.Width() <= y.ValuesPerAllKeyTensors().value
  {
    hide Times, CheckedProduct;
    AllTensors(y);
    PerPosition(y);
    LayersFit(y);
    if layer < y.layers && position < y.capacity {
      OffsetExact(y, layer, position);
      FlatInside(y.layers, layer, y.capacity, position, y.Width());
    }
  }

  lemma {:induction false} FlatApart(layer: nat, position: nat, layer': nat, position': nat, slots: nat, width: nat)
    requires position < slots && position' < slots && (layer, position) != (layer', position')
    ensures Flat(layer, slots, position, width) + width <= Flat(layer', slots, position', width)
         || Flat(layer', slots, position', width) + width <= Flat(layer, slots, position, width)
  {
    PosApart(layer, position, layer', position', slots);
    SlotsApart(Times(layer, slots) + position, Times(layer', slots) + position', width);
  }

  /** The blocks of all (layer, position) tile the tensor: every cell lies in exactly one. */
  lemma {:induction false} BlocksTile(y: Layout, i: nat) returns (layer: nat, position: nat)
    requires y.Valid() && y.ValuesPerAllKeyTensors().Ok? && i < y.ValuesPerAllKeyTensors().value
    ensures layer < y.layers && position < y.capacity && y.LayerPositionOffset(layer, position).Ok?
    ensures y.LayerPositionOffset(layer, position).value <= i < y.LayerPositionOffset(layer, position).value + y.Width()
    ensures forall l, p :: 0 <= l < y.layers && 0 <= p < y.capacity && (l, p) != (layer, position) ==>
              y.LayerPositionOffset(l, p).Ok?
                  && !(y.LayerPositionOffset(l, p).value <= i < y.LayerPositionOffset(l, p).value + y.Width())
  {
    hide Times, Quot, Rem, CheckedProduct;
    AllTensors(y);
    QuotBound(i, Times(y.layers, y.capacity), y.Width());
    var row := Quot(i, y.Width());
    QuotBound(row, y.layers, y.capacity);
    layer, position := Quot(row, y.capacity), Rem(row, y.capacity);
    LayersFit(y);
    RepresentableNeverErrs(y, layer, position);
    OffsetExact(y, layer, position);
    forall l, p | 0 <= l < y.layers && 0 <= p < y.capacity && (l, p) != (layer, position)
      ensures y.LayerPositionOffset(l, p).Ok?
          && !(y.LayerPositionOffset(l, p).value <= i < y.LayerPositionOffset(l, p).value + y.Width())
    {
      RepresentableNeverErrs(y, l, p);
      OffsetExact(y, l, p);
      FlatApart(layer, position, l, p, y.capacity, y.Width());
    }
  }

  lemma {:induction false} LayersFit(y: Layout)
    requires y.Valid() && y.Total() < LIMIT
    ensures y.layers < LIMIT
  {
    PerPosition(y);
    TimesPositive(y.capacity, y.Width());
    TimesAssoc(y.layers, y.capacity, y.Width());
    TimesComm(y.layers, Times(y.capacity, y.Width()));
    TimesMonotone(1, Times(y.capacity, y.Width()), y.layers);
    TimesOne(y.layers);
  }

  // ---- pages ----

  datatype Paged = Paged(base: Layout, page: nat, pages: nat) {
    predicate Valid() {
      base.Valid() && 0 < page && 0 < pages && RequiredPages(base.capacity).Ok?
          && RequiredPages(base.capacity).value <= pages
    }

    function RequiredPages(tokens: nat): Result<nat>
      requires 0 < page
    {
      if tokens == 0 then Ok(0)
      else
        match CheckedAdd(tokens, page - 1)
        case Ok(v) => Ok(Quot(v, page))
        case Err => Err
    }

    function LogicalPageAndOffset(position: nat): Result<(nat, nat)>
      requires 0 < page
    {
      if position >= base.capacity then Err else Ok((Quot(position, page), Rem(position, page)))
    }

    function ValuesPerPageTensor(): Result<nat> {
      match base.ValuesPerPosition()
      case Ok(width) => CheckedProduct([page, width])
      case Err => Err
    }
  }

  function NewPaged(base: Layout, page: nat, pages: nat): (r: Result<Paged>)
    requires base.Valid()
    ensures r.Ok? ==> r.value.Valid()
  {
    if page == 0 || pages == 0 then Err
    else
      var layout := Paged(base, page, pages);
      match layout.RequiredPages(base.capacity)
      case Err => Err
      case Ok(required) => if required > pages then Err else Ok(layout)
  }

  /** The page count is the least that covers the tokens. */
  lemma {:induction false} PagesCover(y: Paged, tokens: nat)
    requires 0 < y.page
    ensures y.RequiredPages(tokens).Ok? <==> tokens == 0 || tokens + y.page - 1 < LIMIT
    ensures y.RequiredPages(tokens).Ok? ==>
              forall n: nat :: tokens <= Times(n, y.page) <==> y.RequiredPages(tokens).value <= n
  {
    if tokens == 0 {
    } else if tokens + y.page - 1 < LIMIT {
      QuotRem(tokens + y.page - 1, y.page);
      var required := Quot(tokens + y.page - 1, y.page);
      forall n: nat ensures tokens <= Times(n, y.page) <==> required <= n {
        if required <= n { TimesMonotone(required, n, y.page); } else { TimesMonotone(n + 1, required, y.page); }
      }
    }
  }

  ghost predicate Accepted(y: Paged, table: seq<nat>)
    requires y.Valid()
  {
    && y.RequiredPages(y.base.capacity).value <= |table|
    && (forall i :: 0 <= i < |table| ==> table[i] < y.pages)
    && (forall i, j :: 0 <= i < j < |table| ==> table[i] != table[j])
  }

  /** A table passes exactly when it is long enough, in range, and names no page twice. */
  method ValidatePageTable(y: Paged, table: seq<nat>) returns (ok: bool)
    requires y.Valid()
    ensures ok <==> Accepted(y, table)
  {
    var required := y.RequiredPages(y.base.capacity).value;
    if |table| < required { return false; }
    var seen := {};
    for k := 0 to |table|
      invariant forall p :: p in seen <==> p in table[..k]
      invariant forall i :: 0 <= i < k ==> table[i] < y.pages
      invariant forall i, j :: 0 <= i < j < k ==> table[i] != table[j]
    {
      var page := table[k];
      if page >= y.pages { return false; }
      if page in seen {
        assert exists i :: 0 <= i < k && table[i] == page;
        return false;
      }
      seen := seen + {page};
    }
    return true;
  }

  /** Where a position lies in the physical pages. */
  function Physical(y: Paged, table: seq<nat>, position: nat): (r: Result<nat>)
    requires 0 < y.page
  {
    match y.LogicalPageAndOffset(position)
    case Err => Err
    case Ok(at) => if at.0 < |table| then Ok(Times(table[at.0], y.page) + at.1) else Err
  }

  lemma {:induction false} PhysicalIs(y: Paged, table: seq<nat>, position: nat)
    requires y.Valid() && Accepted(y, table) && position < y.base.capacity
    ensures Quot(position, y.page) < |table| && Rem(position, y.page) < y.page
    ensures Physical(y, table, position) == Ok(Times(table[Quot(position, y.page)], y.page) + Rem(position, y.page))
  {
    hide Times, Quot, Rem;
    PagesCover(y, y.base.capacity);
    QuotRem(position, y.page);
    assert Times(Quot(position, y.page), y.page) < y.base.capacity;
  }

  /** Under an accepted table every position has a physical slot of its own, inside the pool. */
  lemma {:induction false} PhysicalIsInjective(y: Paged, table: seq<nat>, p: nat, q: nat)
    requires y.Valid() && Accepted(y, table) && p < y.base.capacity && q < y.base.capacity
    ensures Physical(y, table, p).Ok? && Physical(y, table, p).value < Times(y.pages, y.page)
    ensures Physical(y, table, p) == Physical(y, table, q) ==> p == q
  {
    hide Times, Quot, Rem;
    PhysicalIs(y, table, p);
    PhysicalIs(y, table, q);
    var i, j := Quot(p, y.page), Quot(q, y.page);
    SlotBound(table[i], y.pages, y.page);
    QuotRem(p, y.page);
    QuotRem(q, y.page);
    if Physical(y, table, p) == Physical(y, table, q) {
      QuotJoin(table[i], Rem(p, y.page), y.page);
      QuotJoin(table[j], Rem(q, y.page), y.page);
      assert i == j;
    }
  }
}
