// What `getProductDetails` reads from the product page. The HTML parse is
// abstracted to its output: the two hidden inputs `anid` and `cnid`, and the
// `a.selectSize` anchors in document order, each with its `id` attribute, its
// `data-size-us` label (as the property key it becomes) and its parent's
// `class` attribute.
module ProductPage {

  import opened Wrappers
  import opened JsString

  datatype Anchor = Anchor(id: Option<string>, sizeLabel: string, parentClass: Option<string>)

  datatype Page = Page(anid: Option<string>, cnid: Option<string>, anchors: seq<Anchor>)

  /** One entry of the size map: `{inStock, id}`. */
  datatype Variant = Variant(inStock: bool, id: Option<string>)

  /** The result of the anchor loop: the size map and the in-stock counter it logs. */
  datatype SizeScan = SizeScan(sizes: map<string, Variant>, inStockCount: nat)

  const InactiveMarker := "inactive"

  /** Every anchor's parent carries a `class` attribute; otherwise reading
      `.indexOf` of it throws a TypeError. */
  predicate HasParentClasses(anchors: seq<Anchor>)
  {
    forall i :: 0 <= i < |anchors| ==> anchors[i].parentClass.Some?
  }

  /** The stock test on the parent's class string: `indexOf('inactive') === -1`. */
  function ParentActive(cls: string): (r: bool)
    ensures r <==> !Contains(cls, InactiveMarker)
  {
    IndexOf(cls, InactiveMarker) == -1
  }

  /** The size-map entry one anchor produces. */
  function VariantOf(a: Anchor): Variant
    requires a.parentClass.Some?
  {
    Variant(ParentActive(a.parentClass.value), a.id)
  }

  /** The size map after the anchors in order: each anchor (re)assigns its label. */
  function SizeMap(anchors: seq<Anchor>): map<string, Variant>
    requires HasParentClasses(anchors)
  {
    if |anchors| == 0 then map[]
    else
      var n := |anchors| - 1;
      SizeMap(anchors[..n])[anchors[n].sizeLabel := VariantOf(anchors[n])]
  }

  /** The counter after the anchors in order: one per anchor whose parent is active. */
  function CountInStock(anchors: seq<Anchor>): nat
    requires HasParentClasses(anchors)
  {
    if |anchors| == 0 then 0
    else
      var n := |anchors| - 1;
      CountInStock(anchors[..n]) + if VariantOf(anchors[n]).inStock then 1 else 0
  }

  /** The anchor at index `i` is in stock. */
  predicate InStockAt(anchors: seq<Anchor>, i: int)
  {
    0 <= i < |anchors| && anchors[i].parentClass.Some? && ParentActive(anchors[i].parentClass.value)
  }

  /** The positions of the in-stock anchors. */
  function InStockIndices(anchors: seq<Anchor>): set<int>
  {
    set i | 0 <= i < |anchors| && InStockAt(anchors, i)
  }

  /** No two anchors share a size label. */
  predicate DistinctLabels(anchors: seq<Anchor>)
  {
    forall i, j :: 0 <= i < j < |anchors| ==> anchors[i].sizeLabel != anchors[j].sizeLabel
  }

  /** The keys of the size map are exactly the labels of the anchors. */
  lemma {:induction false} SizeMapKeys(anchors: seq<Anchor>, k: string)
    requires HasParentClasses(anchors)
    ensures k in SizeMap(anchors) <==> exists i :: 0 <= i < |anchors| && anchors[i].sizeLabel == k
  {
    if |anchors| > 0 {
      var n := |anchors| - 1;
      SizeMapKeys(anchors[..n], k);
      if k in SizeMap(anchors[..n]) {
        var i :| 0 <= i < n && anchors[..n][i].sizeLabel == k;
        assert anchors[i].sizeLabel == k;
      }
      if exists i :: 0 <= i < |anchors| && anchors[i].sizeLabel == k {
        var i :| 0 <= i < |anchors| && anchors[i].sizeLabel == k;
        if i < n {
          assert anchors[..n][i].sizeLabel == k;
        }
      }
    }
  }

  /** When labels repeat, the last anchor with a label decides its entry. */
  lemma {:induction false} SizeMapLastWins(anchors: seq<Anchor>, i: int)
    requires HasParentClasses(anchors)
    requires 0 <= i < |anchors|
    requires forall j :: i < j < |anchors| ==> anchors[j].sizeLabel != anchors[i].sizeLabel
    ensures anchors[i].sizeLabel in SizeMap(anchors)
    ensures SizeMap(anchors)[anchors[i].sizeLabel] == VariantOf(anchors[i])
    ensures SizeMap(anchors)[anchors[i].sizeLabel].inStock <==> !Contains(anchors[i].parentClass.value, InactiveMarker)
  {
    var n := |anchors| - 1;
    if i < n {
      assert anchors[n].sizeLabel != anchors[i].sizeLabel;
      SizeMapLastWins(anchors[..n], i);
    }
  }

  /** The map has at most one entry per anchor, and exactly one when no label repeats. */
  lemma {:induction false} SizeMapCardinality(anchors: seq<Anchor>)
    requires HasParentClasses(anchors)
    ensures |SizeMap(anchors)| <= |anchors|
    ensures DistinctLabels(anchors) ==> |SizeMap(anchors)| == |anchors|
  {
    if |anchors| > 0 {
      var n := |anchors| - 1;
      SizeMapCardinality(anchors[..n]);
      if DistinctLabels(anchors) {
        assert DistinctLabels(anchors[..n]);
        SizeMapKeys(anchors[..n], anchors[n].sizeLabel);
        assert anchors[n].sizeLabel !in SizeMap(anchors[..n]);
      }
    }
  }

  /** Appending an anchor adds its own index to the in-stock positions, or nothing. */
  lemma InStockIndicesSnoc(anchors: seq<Anchor>)
    requires |anchors| > 0
    ensures var n := |anchors| - 1;
      && n !in InStockIndices(anchors[..n])
      && InStockIndices(anchors) == InStockIndices(anchors[..n]) + if InStockAt(anchors, n) then {n} else {}
  {
  }

  /** The counter counts anchors, not keys: it is the number of in-stock anchors. */
  lemma {:induction false} CountInStockCountsAnchors(anchors: seq<Anchor>)
    requires HasParentClasses(anchors)
    ensures CountInStock(anchors) == |InStockIndices(anchors)|
    ensures CountInStock(anchors) <= |anchors|
  {
    if |anchors| == 0 {
      assert InStockIndices(anchors) == {};
    } else {
      var n := |anchors| - 1;
      CountInStockCountsAnchors(anchors[..n]);
      InStockIndicesSnoc(anchors);
    }
  }

  /** Two in-stock anchors labelled "42" give one map entry and a count of two. */
  lemma RepeatedLabelCountedTwice(first: Option<string>, second: Option<string>)
    ensures var anchors := [Anchor(first, "42", Some("size")), Anchor(second, "42", Some("size"))];
      && SizeMap(anchors) == map["42" := Variant(true, second)]
      && CountInStock(anchors) == 2
  {
    var anchors := [Anchor(first, "42", Some("size")), Anchor(second, "42", Some("size"))];
    assert !Contains("size", InactiveMarker) by {
      forall i | 0 <= i <= 4 ensures !OccursAt("size", InactiveMarker, i) {
      }
    }
    assert ParentActive("size");
    assert anchors[..1] == [anchors[0]] && anchors[..1][..0] == [];
    assert SizeMap(anchors[..1]) == map["42" := Variant(true, first)];
    assert CountInStock(anchors[..1]) == 1;
  }

  /** The anchor loop of `getProductDetails`: fill the size map and count the
      in-stock anchors, or stop at the first anchor whose parent has no class. */
  method ExtractSizes(anchors: seq<Anchor>) returns (r: Result<SizeScan, nat>)
    ensures r.Ok? <==> HasParentClasses(anchors)
    ensures r.Ok? ==> r.value.sizes == SizeMap(anchors) && r.value.inStockCount == CountInStock(anchors)
    ensures r.Err? ==> r.error < |anchors| && anchors[r.error].parentClass.None?
    ensures r.Err? ==> HasParentClasses(anchors[..r.error])
  {
    var sizes: map<string, Variant> := map[];
    var inStockCount: nat := 0;
    var i := 0;
    while i < |anchors|
      invariant 0 <= i <= |anchors|
      invariant HasParentClasses(anchors[..i])
      invariant sizes == SizeMap(anchors[..i])
      invariant inStockCount == CountInStock(anchors[..i])
    {
      var a := anchors[i];
      if a.parentClass.None? {
        return Err(i);
      }
      var inStock := IndexOf(a.parentClass.value, InactiveMarker) == -1;
      if inStock {
        inStockCount := inStockCount + 1;
      }
      sizes := sizes[a.sizeLabel := Variant(inStock, a.id)];
      assert anchors[..i + 1][..i] == anchors[..i];
      i := i + 1;
    }
    assert anchors[..i] == anchors;
    return Ok(SizeScan(sizes, inStockCount));
  }
}
