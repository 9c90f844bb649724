/** XGL::Object (src/Object/Object.h, src/Core/Object/Object.cpp): model data
    kept as four lists, the attached textures with their units, the world
    transform state, and genBuffer, which validates the model data and builds an
    interleaved vertex buffer (position, then optional normal, then optional
    texture coordinate per vertex) and a copy of the index list.
    The vertex buffer is modelled as a sequence of floats (one real per float);
    byte strides and byte offsets are FLOAT_BYTES times the float counts. */
module ObjectModel {
  import opened Vectors
  import opened Matrices
  import opened Outcomes
  import opened BufferObject
  import TextureUnits

  /** sizeof(float) */
  const FLOAT_BYTES: nat := 4

  /** Object::ERROR */
  datatype ObjectError = ModelDataMismatch

  /** Object::textureInfo; the Texture* is modelled by an identifier. */
  datatype TextureInfo = TextureInfo(texture: nat, name: string, unit: nat)

  function Units(ts: seq<TextureInfo>): (us: seq<nat>)
    ensures |us| == |ts|
    ensures forall i :: 0 <= i < |ts| ==> us[i] == ts[i].unit
  {
    seq(|ts|, i requires 0 <= i < |ts| => ts[i].unit)
  }

  /** A C++ bool converted to an integer. */
  function Ind(b: bool): nat {
    if b then 1 else 0
  }

  /** vertexSize / sizeof(float): 3 floats of position, 3 of normal, 2 of
      texture coordinate, each counted only when its list is non-empty. */
  function VertexFloats(positions: nat, normals: nat, texcoords: nat): nat {
    3 * Ind(positions > 0) + 3 * Ind(normals > 0) + 2 * Ind(texcoords > 0)
  }

  /** Where the texture coordinate starts in a vertex, in floats. */
  function TexcoordOffset(hasNormals: bool): nat {
    if hasNormals then 6 else 3
  }

  /** genBuffer's validation: a non-empty normal or texture-coordinate list must
      have one entry per position. */
  predicate ModelDataMatches(nPositions: nat, nNormals: nat, nTexcoords: nat) {
    (nNormals == 0 || nNormals == nPositions) && (nTexcoords == 0 || nTexcoords == nPositions)
  }

  // ---- interleaved layout ----

  /** The float index of component `component` of vertex `vertex` in a buffer
      of n vertices of `stride` floats each. */
  function Slot(stride: nat, n: nat, vertex: nat, component: nat): (k: nat)
    requires vertex < n && component < stride
    ensures k < stride * n
  {
    MulStep(stride, vertex, n);
    stride * vertex + component
  }

  lemma {:induction false} MulStep(s: nat, a: nat, b: nat)
    requires a < b
    ensures s * a + s <= s * b
    decreases b - a
  {
    assert s * (a + 1) == s * a + s;
    if a + 1 < b {
      MulStep(s, a + 1, b);
    }
  }

  /** Slots of an earlier vertex come before every slot of a later one. */
  lemma SlotOrder(s: nat, n: nat, i: nat, x: nat, j: nat, y: nat)
    requires x < s && y < s && i < j < n
    ensures Slot(s, n, i, x) < Slot(s, n, j, y)
  {
    MulStep(s, i, j);
  }

  /** De-interleaving: the `width` floats at `offset` of each of the n vertices. */
  function Attribute(data: seq<real>, stride: nat, offset: nat, width: nat, n: nat): (r: seq<seq<real>>)
    requires offset + width <= stride && |data| == stride * n
    ensures |r| == n && forall i :: 0 <= i < n ==> |r[i]| == width
  {
    seq(n, i requires 0 <= i < n =>
      seq(width, c requires 0 <= c < width =>
        data[Slot(stride, n, i, offset + c)]))
  }

  /** memcpy of one vertex attribute: v goes to a[base .. base + |v|] and
      nothing else changes. */
  method MemCopy(a: array<real>, base: nat, v: seq<real>)
    requires base + |v| <= a.Length
    modifies a
    ensures forall c :: 0 <= c < |v| ==> a[base + c] == v[c]
    ensures forall k :: 0 <= k < a.Length && !(base <= k < base + |v|) ==> a[k] == old(a[k])
  {
    var c := 0;
    while c < |v|
      invariant 0 <= c <= |v|
      invariant forall d :: 0 <= d < c ==> a[base + d] == v[d]
      invariant forall k :: 0 <= k < a.Length && !(base <= k < base + c) ==> a[k] == old(a[k])
    {
      a[base + c] := v[c];
      c := c + 1;
    }
  }

  /** One of genBuffer's copy loops: component c of vals[i] goes to float
      stride * i + offset + c; the other slots of every vertex are untouched. */
  method CopyAttribute(a: array<real>, stride: nat, offset: nat, width: nat, vals: seq<seq<real>>)
    requires 0 < width && offset + width <= stride
    requires a.Length == stride * |vals|
    requires forall i :: 0 <= i < |vals| ==> |vals[i]| == width
    modifies a
    ensures forall i, c :: 0 <= i < |vals| && 0 <= c < width ==>
      a[Slot(stride, |vals|, i, offset + c)] == vals[i][c]
    ensures forall i, c :: 0 <= i < |vals| && 0 <= c < stride && !(offset <= c < offset + width) ==>
      a[Slot(stride, |vals|, i, c)] == old(a[Slot(stride, |vals|, i, c)])
  {
    var n := |vals|;
    var i := 0;
    while i < n
      invariant 0 <= i <= n
      invariant forall j, c :: 0 <= j < i && 0 <= c < width ==>
        a[Slot(stride, n, j, offset + c)] == vals[j][c]
      invariant forall j, c :: 0 <= j < n && 0 <= c < stride && !(offset <= c < offset + width) ==>
        a[Slot(stride, n, j, c)] == old(a[Slot(stride, n, j, c)])
    {
      var base := Slot(stride, n, i, offset);
      assert base + width - 1 == Slot(stride, n, i, offset + width - 1);
      forall j, d | 0 <= j < n && j != i && 0 <= d < stride
        ensures Slot(stride, n, j, d) < base || base + width <= Slot(stride, n, j, d)
      {
        if j < i {
          SlotOrder(stride, n, j, d, i, offset);
        } else {
          SlotOrder(stride, n, i, offset + width - 1, j, d);
        }
      }
      ghost var pre := a[..];
      MemCopy(a, base, vals[i]);
      forall j, c | 0 <= j <= i && 0 <= c < width
        ensures a[Slot(stride, n, j, offset + c)] == vals[j][c]
      {
        if j < i {
          assert pre[Slot(stride, n, j, offset + c)] == vals[j][c];
        } else {
          assert Slot(stride, n, j, offset + c) == base + c;
        }
      }
      forall j, c | 0 <= j < n && 0 <= c < stride && !(offset <= c < offset + width)
        ensures a[Slot(stride, n, j, c)] == old(a[Slot(stride, n, j, c)])
      {
        if j != i {
          assert a[Slot(stride, n, j, c)] == pre[Slot(stride, n, j, c)];
        } else {
          assert Slot(stride, n, j, c) == base + c - offset;
        }
      }
      i := i + 1;
    }
  }

  /** The layout part of genBuffer (after validation): the attribute table and
      the interleaved vertex data. Attribute 0 (position, 3 floats) sits at byte 0,
      attribute 1 (normal, 3 floats) at byte 12, attribute 2 (texture coordinate,
      2 floats) at byte 12 or 24; reading each attribute back from the data at
      its offset yields the input list. */
  method BuildVertexData(positions: seq<Vec3>, normals: seq<Vec3>, texcoords: seq<Vec2>)
    returns (format: seq<FormatDetail>, data: seq<real>)
    requires ModelDataMatches(|positions|, |normals|, |texcoords|)
    ensures var stride := VertexFloats(|positions|, |normals|, |texcoords|);
      && |data| == stride * |positions|
      && |format| == 1 + Ind(|normals| > 0) + Ind(|texcoords| > 0)
      && format[0] == FormatDetail(0, 3, GL_FLOAT, false, FLOAT_BYTES * stride, 0)
      && (|normals| > 0 ==>
            format[1] == FormatDetail(1, 3, GL_FLOAT, true, FLOAT_BYTES * stride, FLOAT_BYTES * 3))
      && (|texcoords| > 0 ==>
            format[|format| - 1] == FormatDetail(2, 2, GL_FLOAT, false, FLOAT_BYTES * stride,
                                                 FLOAT_BYTES * TexcoordOffset(|normals| > 0)))
      && IndicesAscending(format)
      && (|positions| > 0 ==> Attribute(data, stride, 0, 3, |positions|) == positions)
      && (|normals| > 0 ==> Attribute(data, stride, 3, 3, |positions|) == normals)
      && (|texcoords| > 0 ==>
            Attribute(data, stride, TexcoordOffset(|normals| > 0), 2, |positions|) == texcoords)
  {
    var n := |positions|;
    var stride := VertexFloats(n, |normals|, |texcoords|);
    var vboData := new real[stride * n];
    var offset := 0;

    format := [FormatDetail(0, 3, GL_FLOAT, false, FLOAT_BYTES * stride, FLOAT_BYTES * offset)];
    if n > 0 {
      CopyAttribute(vboData, stride, offset, 3, positions);
    }
    offset := offset + 3;

    if |normals| > 0 {
      format := format + [FormatDetail(1, 3, GL_FLOAT, true, FLOAT_BYTES * stride, FLOAT_BYTES * offset)];
      CopyAttribute(vboData, stride, offset, 3, normals);
      offset := offset + 3;
    }

    if |texcoords| > 0 {
      format := format + [FormatDetail(2, 2, GL_FLOAT, false, FLOAT_BYTES * stride, FLOAT_BYTES * offset)];
      CopyAttribute(vboData, stride, offset, 2, texcoords);
    }

    data := vboData[..];
    if n > 0 {
      AttributeRecovers(data, stride, 0, 3, positions);
    }
    if |normals| > 0 {
      AttributeRecovers(data, stride, 3, 3, normals);
    }
    if |texcoords| > 0 {
      AttributeRecovers(data, stride, TexcoordOffset(|normals| > 0), 2, texcoords);
    }
  }

  /** The slot-wise description of a copied attribute is the same as reading it
      back with Attribute. */
  lemma AttributeRecovers(data: seq<real>, stride: nat, offset: nat, width: nat, vals: seq<seq<real>>)
    requires offset + width <= stride && |data| == stride * |vals|
    requires forall i :: 0 <= i < |vals| ==> |vals[i]| == width
    requires forall i, c :: 0 <= i < |vals| && 0 <= c < width ==>
      data[Slot(stride, |vals|, i, offset + c)] == vals[i][c]
    ensures Attribute(data, stride, offset, width, |vals|) == vals
  {
    var r := Attribute(data, stride, offset, width, |vals|);
    forall i | 0 <= i < |vals| ensures r[i] == vals[i] {
      forall c | 0 <= c < width ensures r[i][c] == vals[i][c] {
        assert r[i][c] == data[Slot(stride, |vals|, i, offset + c)];
      }
    }
  }

  /** The EBOData loop: an element-wise copy of the index list. */
  method CopyIndices(indices: seq<nat>) returns (data: seq<nat>)
    ensures data == indices
  {
    var eboData := new nat[|indices|];
    var i := 0;
    while i < |indices|
      invariant 0 <= i <= |indices|
      invariant eboData[..i] == indices[..i]
    {
      eboData[i] := indices[i];
      i := i + 1;
    }
    data := eboData[..];
  }

  /** A table ascending by index never collides with itself when added, in order,
      to a table whose indices are all smaller. */
  lemma {:induction false} AscendingNeverCollides(used: set<nat>, ds: seq<FormatDetail>)
    requires IndicesAscending(ds)
    requires ds != [] ==> forall x :: x in used ==> x < ds[0].index
    ensures FirstCollision(used, ds) == |ds|
    decreases |ds|
  {
    if ds != [] {
      AscendingNeverCollides(used + {ds[0].index}, ds[1..]);
    }
  }

  class Object {
    // --- model data ---
    var positions: seq<Vec3>
    var normals: seq<Vec3>
    var texcoords: seq<Vec2>
    var indices: seq<nat>
    // --- texture ---
    var textures: seq<TextureInfo>
    // --- world data ---
    var position: Vec3
    var rotateMat: Mat4
    var scaleX: real
    var scaleY: real
    var scaleZ: real

    /** Object(): identity rotation, unit scale, no model data, no texture. The
        default-constructed position vector is a parameter. */
    constructor (initialPosition: Vec3)
      ensures rotateMat == Identity()
      ensures scaleX == 1.0 && scaleY == 1.0 && scaleZ == 1.0
      ensures positions == [] && normals == [] && texcoords == [] && indices == []
      ensures textures == [] && position == initialPosition
    {
      positions, normals, texcoords, indices := [], [], [], [];
      textures := [];
      position := initialPosition;
      rotateMat := Identity();
      scaleX, scaleY, scaleZ := 1.0, 1.0, 1.0;
    }

    method SetModelPositions(ps: seq<Vec3>)
      modifies this`positions
      ensures positions == ps
    {
      positions := ps;
    }

    method SetModelNormals(ns: seq<Vec3>)
      modifies this`normals
      ensures normals == ns
    {
      normals := ns;
    }

    method SetModelTexcoords(ts: seq<Vec2>)
      modifies this`texcoords
      ensures texcoords == ts
    {
      texcoords := ts;
    }

    method SetModelIndices(newIndices: seq<nat>)
      modifies this`indices
      ensures indices == newIndices
    {
      indices := newIndices;
    }

    method AddModelPosition(p: Vec3)
      modifies this`positions
      ensures positions == old(positions) + [p]
    {
      positions := positions + [p];
    }

    method AddModelNormal(nv: Vec3)
      modifies this`normals
      ensures normals == old(normals) + [nv]
    {
      normals := normals + [nv];
    }

    method AddModelTexcoord(t: Vec2)
      modifies this`texcoords
      ensures texcoords == old(texcoords) + [t]
    {
      texcoords := texcoords + [t];
    }

    method AddModelIndex(index: nat)
      modifies this`indices
      ensures indices == old(indices) + [index]
    {
      indices := indices + [index];
    }

    method SetPosition(p: Vec3)
      modifies this`position
      ensures position == p
    {
      position := p;
    }

    /** setScaling(x, y, z): each axis independently. */
    method SetScaling(x: real, y: real, z: real)
      modifies this`scaleX, this`scaleY, this`scaleZ
      ensures scaleX == x && scaleY == y && scaleZ == z
    {
      scaleX, scaleY, scaleZ := x, y, z;
    }

    /** setScaling(f): the same factor on all three axes. */
    method SetScalingUniform(f: real)
      modifies this`scaleX, this`scaleY, this`scaleZ
      ensures scaleX == f && scaleY == f && scaleZ == f
    {
      SetScaling(f, f, f);
    }

    /** getVertexNum: the number of indices (what glDrawElements draws), not the
        number of positions. */
    function GetVertexNum(): (count: nat)
      reads this
      ensures count == |indices|
    {
      |indices|
    }

    /** addTexture(tex, name, unit): appends exactly one entry with the given unit. */
    method AddTextureWithUnit(tex: nat, name: string, unit: nat)
      modifies this`textures
      ensures textures == old(textures) + [TextureInfo(tex, name, unit)]
    {
      textures := textures + [TextureInfo(tex, name, unit)];
    }

    /** addTexture(tex, name): appends one entry whose unit is the smallest one no
        attached texture uses (0 when there is none). */
    method AddTexture(tex: nat, name: string) returns (unit: nat)
      modifies this`textures
      ensures unit <= |old(textures)|
      ensures unit !in Units(old(textures))
      ensures forall k :: 0 <= k < unit ==> k in Units(old(textures))
      ensures textures == old(textures) + [TextureInfo(tex, name, unit)]
    {
      unit := TextureUnits.ChooseUnit(Units(textures));
      AddTextureWithUnit(tex, name, unit);
    }

    /** genBuffer: MODEL_DATA_MISMATCH exactly when a non-empty normal or
        texture-coordinate list does not match the positions; otherwise a new
        Buffer holding the layout's attribute table, one VBO and one EBO, with
        the interleaved vertex data and the copied indices handed to GL. */
    method GenBuffer(vao: Handle, vbo: Handle, ebo: Handle)
      returns (outcome: Outcome<ObjectError>, buffer: Buffer?, vertexData: seq<real>, indexData: seq<nat>)
      ensures outcome.Fail? <==> !ModelDataMatches(|positions|, |normals|, |texcoords|)
      ensures outcome.Fail? ==> outcome.error == ModelDataMismatch && buffer == null
      ensures outcome.Pass? ==>
        var stride := VertexFloats(|positions|, |normals|, |texcoords|);
        && buffer != null && fresh(buffer) && buffer.Valid()
        && buffer.vaoHandle == vao && buffer.vboHandles == [vbo] && buffer.eboHandle == ebo
        && |buffer.format| == 1 + Ind(|normals| > 0) + Ind(|texcoords| > 0)
        && buffer.format[0] == FormatDetail(0, 3, GL_FLOAT, false, FLOAT_BYTES * stride, 0)
        && (|normals| > 0 ==>
              buffer.format[1] == FormatDetail(1, 3, GL_FLOAT, true, FLOAT_BYTES * stride, FLOAT_BYTES * 3))
        && (|texcoords| > 0 ==>
              buffer.format[|buffer.format| - 1]
                == FormatDetail(2, 2, GL_FLOAT, false, FLOAT_BYTES * stride,
                                FLOAT_BYTES * TexcoordOffset(|normals| > 0)))
        && |vertexData| == stride * |positions|
        && (|positions| > 0 ==> Attribute(vertexData, stride, 0, 3, |positions|) == positions)
        && (|normals| > 0 ==> Attribute(vertexData, stride, 3, 3, |positions|) == normals)
        && (|texcoords| > 0 ==>
              Attribute(vertexData, stride, TexcoordOffset(|normals| > 0), 2, |positions|) == texcoords)
        && indexData == indices
    {
      if !ModelDataMatches(|positions|, |normals|, |texcoords|) {
        return Fail(ModelDataMismatch), null, [], [];
      }
      var format;
      format, vertexData := BuildVertexData(positions, normals, texcoords);
      indexData := CopyIndices(indices);

      buffer := NewBuffer(vao, vbo, ebo, format);
      outcome := Pass;
    }
  }

  /** The Buffer genBuffer builds: a fresh buffer on vao whose attribute table
      is exactly the layout's ascending table, with one VBO and one EBO. */
  method NewBuffer(vao: Handle, vbo: Handle, ebo: Handle, format: seq<FormatDetail>)
    returns (buffer: Buffer)
    requires IndicesAscending(format)
    ensures fresh(buffer) && buffer.Valid()
    ensures buffer.vaoHandle == vao && buffer.vboHandles == [vbo] && buffer.eboHandle == ebo
    ensures buffer.format == format
  {
    buffer := new Buffer(vao);
    assert Indices(buffer.format) == {};
    AscendingNeverCollides({}, format);
    var added := buffer.AddDataDetailed(vbo, format);
    assert format[..|format|] == format;
    AscendingUnique(buffer.format, format);
    var indexed := buffer.AddIndex(ebo);
    assert added.Pass? && indexed.Pass?;
  }
}
