/** One whole-robot row, cut into the declared parts by the Python layer and by the Rust core. */
module Layout {
  import opened Wrappers

  /** A declared part and its width. */
  datatype Part = Part(name: string, width: nat)

  /** A part of a declared space; an opaque one has no width. */
  datatype Space = Space(name: string, dims: Option<nat>)

  datatype Block = Block(name: string, values: seq<real>)

  function Total(parts: seq<Part>): nat {
    if parts == [] then 0 else Total(parts[..|parts| - 1]) + parts[|parts| - 1].width
  }

  function Joined(blocks: seq<Block>): seq<real> {
    if blocks == [] then [] else Joined(blocks[..|blocks| - 1]) + blocks[|blocks| - 1].values
  }

  /** One block per part, in declaration order, each as wide as declared, which together are the row. */
  ghost predicate IsSplit(parts: seq<Part>, values: seq<real>, blocks: seq<Block>) {
    && |blocks| == |parts|
    && (forall i :: 0 <= i < |parts| ==> blocks[i].name == parts[i].name && |blocks[i].values| == parts[i].width)
    && Joined(blocks) == values
  }

  lemma JoinedAppend(blocks: seq<Block>, b: Block)
    ensures Joined(blocks + [b]) == Joined(blocks) + b.values
  {
    assert (blocks + [b])[..|blocks|] == blocks;
  }

  lemma TotalAppend(parts: seq<Part>, i: nat)
    requires i < |parts|
    ensures Total(parts[..i + 1]) == Total(parts[..i]) + parts[i].width
  {
    assert parts[..i + 1][..i] == parts[..i];
  }

  lemma {:induction false} TotalMonotone(parts: seq<Part>, i: nat, j: nat)
    requires i <= j <= |parts|
    ensures Total(parts[..i]) <= Total(parts[..j])
  {
    if i < j {
      TotalMonotone(parts, i, j - 1);
      TotalAppend(parts, j - 1);
    }
  }

  /** `split_by_part`: the widths are summed first, and a row of any other width is refused. */
  method SplitByPart(parts: seq<Part>, values: seq<real>) returns (rows: Option<seq<Block>>)
    ensures rows.Some? <==> |values| == Total(parts)
    ensures rows.Some? ==> IsSplit(parts, values, rows.value)
  {
    var total := 0;
    for i := 0 to |parts|
      invariant total == Total(parts[..i])
    {
      TotalAppend(parts, i);
      total := total + parts[i].width;
    }
    assert parts[..|parts|] == parts;
    if |values| != total {
      return None;
    }
    var blocks := Cut(parts, values);
    return Some(blocks);
  }

  /** Both splitters advance one offset over the row. */
  method Cut(parts: seq<Part>, values: seq<real>) returns (blocks: seq<Block>)
    requires |values| == Total(parts)
    ensures IsSplit(parts, values, blocks)
  {
    blocks := [];
    var offset := 0;
    for i := 0 to |parts|
      invariant offset == Total(parts[..i]) <= |values| && |blocks| == i
      invariant forall k :: 0 <= k < i ==> blocks[k].name == parts[k].name && |blocks[k].values| == parts[k].width
      invariant Joined(blocks) == values[..offset]
    {
      TotalAppend(parts, i);
      TotalMonotone(parts, i + 1, |parts|);
      assert parts[..|parts|] == parts;
      var block := Block(parts[i].name, values[offset..offset + parts[i].width]);
      JoinedAppend(blocks, block);
      assert values[..offset] + block.values == values[..offset + parts[i].width];
      blocks := blocks + [block];
      offset := offset + parts[i].width;
    }
    assert parts[..|parts|] == parts && values[..|values|] == values;
  }

  /** What `PartsLayout::of` keeps of a declared space: nothing when some part has no width. */
  datatype PartsLayout = PartsLayout(parts: seq<Part>, total: nat)

  predicate Widths(spaces: seq<Space>, parts: seq<Part>) {
    && |spaces| == |parts|
    && forall i :: 0 <= i < |spaces| ==> spaces[i].name == parts[i].name && spaces[i].dims == Some(parts[i].width)
  }

  method LayoutOf(spaces: seq<Space>) returns (r: Option<PartsLayout>)
    ensures r.None? <==> exists i :: 0 <= i < |spaces| && spaces[i].dims.None?
    ensures r.Some? ==> Widths(spaces, r.value.parts) && r.value.total == Total(r.value.parts)
  {
    var layout, total := [], 0;
    for i := 0 to |spaces|
      invariant Widths(spaces[..i], layout) && total == Total(layout)
      invariant forall k :: 0 <= k < i ==> spaces[k].dims.Some?
    {
      if spaces[i].dims.None? {
        return None;
      }
      var part := Part(spaces[i].name, spaces[i].dims.value);
      assert (layout + [part])[..i] == layout;
      assert spaces[..i + 1] == spaces[..i] + [spaces[i]];
      total := total + part.width;
      layout := layout + [part];
    }
    assert spaces[..|spaces|] == spaces;
    return Some(PartsLayout(layout, total));
  }

  /** `PartsLayout::split` */
  method Split(layout: PartsLayout, values: seq<real>) returns (out: Option<seq<Block>>)
    requires layout.total == Total(layout.parts)
    ensures out.Some? <==> |values| == Total(layout.parts)
    ensures out.Some? ==> IsSplit(layout.parts, values, out.value)
  {
    if |values| != layout.total {
      return None;
    }
    var blocks := Cut(layout.parts, values);
    return Some(blocks);
  }

  lemma {:induction false} JoinedLength(parts: seq<Part>, blocks: seq<Block>)
    requires |blocks| == |parts| && forall i :: 0 <= i < |parts| ==> |blocks[i].values| == parts[i].width
    ensures |Joined(blocks)| == Total(parts)
  {
    if parts != [] {
      JoinedLength(parts[..|parts| - 1], blocks[..|blocks| - 1]);
    }
  }

  /** There is only one way to cut a row: the two splitters cannot disagree. */
  lemma {:induction false} SplitUnique(parts: seq<Part>, values: seq<real>, a: seq<Block>, b: seq<Block>)
    requires IsSplit(parts, values, a) && IsSplit(parts, values, b)
    ensures a == b
  {
    if parts != [] {
      var n := |parts| - 1;
      var init := parts[..n];
      JoinedLength(init, a[..n]);
      JoinedLength(init, b[..n]);
      var k := Total(init);
      assert Joined(a[..n]) == values[..k] && Joined(b[..n]) == values[..k];
      assert a[n].values == values[k..] && b[n].values == values[k..];
      SplitUnique(init, values[..k], a[..n], b[..n]);
      assert a == a[..n] + [a[n]] && b == b[..n] + [b[n]];
    }
  }
}
