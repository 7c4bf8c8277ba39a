/**
  The layout arithmetic of the DXIL reflection path: the element stride of an
  array variable and the size of a struct member, both in bytes, from the rows,
  columns and element count the D3D12 type description gives.
 */
module DxilReflection {

  /** An array's elements start on 16-byte rows: `rows * 16` bytes apart; a non-array has stride 0. */
  function ElementStride(rows: nat, elements: nat): (r: nat)
    ensures r % 16 == 0
    ensures elements == 0 ==> r == 0
    ensures elements > 0 ==> r == rows * 16
  {
    if elements > 0 then 16 * rows else 0
  }

  /**
    A member's size: every array element but the last takes a full stride, and
    the last (or only) element takes `rows * columns` four-byte components.
   */
  function MemberSize(rows: nat, columns: nat, elements: nat): (r: nat)
    ensures r % 4 == 0
    ensures r >= rows * columns * 4
    ensures elements <= 1 ==> r == rows * columns * 4
  {
    var components := 4 * (rows * columns);
    if elements == 0 then components
    else
      var others: nat := elements - 1;
      var stride := ElementStride(rows, elements);
      assert others * stride + components == 4 * (others * (4 * rows) + rows * columns) by {
        assert others * stride == others * (16 * rows) == 4 * (others * (4 * rows));
      }
      others * stride + components
  }

  /**
    A non-array member is its components; an array member is its padded
    footprint less the padding after the last element, and never more than
    the footprint.
   */
  lemma MemberSizeLayout(rows: nat, columns: nat, elements: nat)
    requires columns <= 4
    ensures elements == 0 ==> MemberSize(rows, columns, elements) == rows * columns * 4
    ensures elements > 0 ==>
      MemberSize(rows, columns, elements) + rows * (4 - columns) * 4 == elements * ElementStride(rows, elements)
    ensures MemberSize(rows, columns, elements) <= (if elements == 0 then 1 else elements) * rows * 16
  {
    if elements > 0 {
      calc {
        MemberSize(rows, columns, elements) + rows * (4 - columns) * 4;
        (elements - 1) * (rows * 16) + rows * columns * 4 + rows * (4 - columns) * 4;
        { assert rows * columns * 4 + rows * (4 - columns) * 4 == rows * 16; }
        (elements - 1) * (rows * 16) + rows * 16;
        elements * (rows * 16);
      }
    }
    assert rows * columns * 4 <= rows * 16 by {
      assert rows * columns <= rows * 4;
    }
  }

  /** The sizes the reflection tests expect: `float` 4, `float4` 16, `float3[4]` 60 with stride 16. */
  lemma MemberSizeExamples()
    ensures MemberSize(1, 1, 0) == 4 && ElementStride(1, 0) == 0
    ensures MemberSize(1, 4, 0) == 16
    ensures MemberSize(1, 3, 4) == 60 && ElementStride(1, 4) == 16
  {
  }
}
