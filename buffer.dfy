/** The CPU-side bookkeeping of XGL::Buffer (src/Object/Object.h,
    src/Core/Object/Object.cpp): the vertex-attribute table kept sorted by
    attribute index, the byte layout computed from a list of attribute formats,
    the list of vertex-buffer handles and the single element-buffer handle.
    The GL calls themselves (generating, binding, uploading) are not modelled;
    the handles GL would generate are parameters. */
module BufferObject {
  import opened Outcomes

  /** A handle GL generates: never 0. */
  type Handle = h: nat | h > 0 witness 1

  /** The largest size_t; the source's `return -1` from getTypeSize is this value. */
  const SIZE_MAX: nat := 0xFFFF_FFFF_FFFF_FFFF

  // ---- GL enumerants (values from the OpenGL headers) ----
  const GL_FALSE: nat := 0
  const GL_BYTE: nat := 0x1400
  const GL_UNSIGNED_BYTE: nat := 0x1401
  const GL_SHORT: nat := 0x1402
  const GL_UNSIGNED_SHORT: nat := 0x1403
  const GL_INT: nat := 0x1404
  const GL_UNSIGNED_INT: nat := 0x1405
  const GL_FLOAT: nat := 0x1406

  /** Buffer::Type */
  datatype ElemType = Byte | UnsignedByte | Short | UnsignedShort | Int | UnsignedInt | Float

  /** Buffer::ERROR */
  datatype BufferError = IndexCollision | NoSuchType | IndicesExisted

  /** Buffer::Format: one vertex attribute as the caller describes it. */
  datatype Format = Format(index: nat, size: int, elemType: ElemType, normalized: bool)

  /** Buffer::FormatDetail: one vertex attribute as glVertexAttribPointer takes it. */
  datatype FormatDetail = FormatDetail(
    index: nat, size: int, glType: nat, normalized: bool, structSize: int, offset: int)

  /** getTypeSize: sizeof(char) = 1, sizeof(short) = 2, sizeof(int) = sizeof(float) = 4.
      Every enumerator is handled, so the `-1` (NO_SUCH_TYPE) result is unreachable. */
  function GetTypeSize(t: ElemType): (bytes: nat)
    ensures bytes != SIZE_MAX
    ensures bytes == 1 <==> t == Byte || t == UnsignedByte
    ensures bytes == 2 <==> t == Short || t == UnsignedShort
    ensures bytes == 4 <==> t == Int || t == UnsignedInt || t == Float
  {
    match t
    case Byte | UnsignedByte => 1
    case Short | UnsignedShort => 2
    case Int | UnsignedInt | Float => 4
  }

  /** getTypeGL: the GL enumerant for each type; GL_FALSE is never returned. */
  function GetTypeGL(t: ElemType): (e: nat)
    ensures e != GL_FALSE
    ensures GL_BYTE <= e <= GL_FLOAT
  {
    match t
    case Byte => GL_BYTE
    case UnsignedByte => GL_UNSIGNED_BYTE
    case Short => GL_SHORT
    case UnsignedShort => GL_UNSIGNED_SHORT
    case Int => GL_INT
    case UnsignedInt => GL_UNSIGNED_INT
    case Float => GL_FLOAT
  }

  /** The width in bytes OpenGL gives each of its scalar type enumerants. */
  function GLTypeWidth(e: nat): nat {
    if e == GL_BYTE || e == GL_UNSIGNED_BYTE then 1
    else if e == GL_SHORT || e == GL_UNSIGNED_SHORT then 2
    else if e == GL_INT || e == GL_UNSIGNED_INT || e == GL_FLOAT then 4
    else 0
  }

  /** The two switch tables agree: the size used for the layout is the width of
      the type handed to GL, and distinct types get distinct enumerants. */
  lemma TypeTablesAgree(t: ElemType, u: ElemType)
    ensures GetTypeSize(t) == GLTypeWidth(GetTypeGL(t))
    ensures GetTypeGL(t) == GetTypeGL(u) ==> t == u
  {
  }

  // ---- the attribute table ----

  /** The attribute table is strictly ascending by index (so indices are unique). */
  ghost predicate IndicesAscending(fs: seq<FormatDetail>) {
    forall i, j :: 0 <= i < j < |fs| ==> fs[i].index < fs[j].index
  }

  ghost function Indices(fs: seq<FormatDetail>): set<nat> {
    set e | e in fs :: e.index
  }

  /** Inserting f at pos adds f to the entries and its index to the indices. */
  lemma InsertAdds(fs: seq<FormatDetail>, f: FormatDetail, pos: nat)
    requires pos <= |fs|
    ensures multiset(fs[..pos] + [f] + fs[pos..]) == multiset(fs) + multiset{f}
    ensures Indices(fs[..pos] + [f] + fs[pos..]) == Indices(fs) + {f.index}
  {
    var r := fs[..pos] + [f] + fs[pos..];
    assert fs == fs[..pos] + fs[pos..];
    assert forall e :: e in r <==> e in fs || e == f by {
      assert forall e :: e in r <==> e in fs[..pos] || e == f || e in fs[pos..];
    }
  }

  /** An ascending table is determined by its entries: whatever order entries
      are added in, the table they end up in is the same. */
  lemma {:induction false} AscendingUnique(a: seq<FormatDetail>, b: seq<FormatDetail>)
    requires IndicesAscending(a) && IndicesAscending(b)
    requires multiset(a) == multiset(b)
    ensures a == b
  {
    if a == [] {
      assert |b| == |multiset(b)| == 0;
    } else {
      assert |b| == |multiset(b)| == |multiset(a)| == |a|;
      HeadsAgree(a, b);
      TailMultiset(a);
      TailMultiset(b);
      AscendingTail(a);
      AscendingTail(b);
      AscendingUnique(a[1..], b[1..]);
      assert a == [a[0]] + a[1..] && b == [b[0]] + b[1..];
    }
  }

  /** Two ascending tables with the same entries start with the same entry. */
  lemma HeadsAgree(a: seq<FormatDetail>, b: seq<FormatDetail>)
    requires IndicesAscending(a) && IndicesAscending(b)
    requires multiset(a) == multiset(b) && a != [] && b != []
    ensures a[0] == b[0]
  {
    assert a[0] in multiset(b) && b[0] in multiset(a);
    var k :| 0 <= k < |b| && b[k] == a[0];
    var m :| 0 <= m < |a| && a[m] == b[0];
    assert a[0].index <= a[m].index;
    assert b[0].index <= b[k].index;
  }

  lemma TailMultiset(s: seq<FormatDetail>)
    requires s != []
    ensures multiset(s[1..]) == multiset(s) - multiset{s[0]}
  {
    assert s == [s[0]] + s[1..];
  }

  lemma AscendingTail(s: seq<FormatDetail>)
    requires s != [] && IndicesAscending(s)
    ensures IndicesAscending(s[1..])
  {
    forall i, j | 0 <= i < j < |s| - 1 ensures s[1..][i].index < s[1..][j].index {
      assert s[1..][i] == s[i + 1] && s[1..][j] == s[j + 1];
    }
  }

  /** The iterator scan of addFormat: walk while the entries' indices are below
      `index`; stop on an equal index (found) or on the first greater one. */
  method ScanFormat(fs: seq<FormatDetail>, index: nat) returns (found: bool, pos: nat)
    ensures pos <= |fs|
    ensures forall j :: 0 <= j < pos ==> fs[j].index < index
    ensures found ==> pos < |fs| && fs[pos].index == index
    ensures !found ==> pos == |fs| || index < fs[pos].index
  {
    pos := 0;
    while pos < |fs|
      invariant pos <= |fs|
      invariant forall j :: 0 <= j < pos ==> fs[j].index < index
    {
      if index == fs[pos].index {
        return true, pos;
      } else if index < fs[pos].index {
        break;
      }
      pos := pos + 1;
    }
    found := false;
  }

  /** On an ascending table the scan finds the index exactly when it is present,
      and inserting at the position it stops at keeps the table ascending. */
  lemma ScanOnAscending(fs: seq<FormatDetail>, f: FormatDetail, found: bool, pos: nat)
    requires IndicesAscending(fs)
    requires pos <= |fs|
    requires forall j :: 0 <= j < pos ==> fs[j].index < f.index
    requires found ==> pos < |fs| && fs[pos].index == f.index
    requires !found ==> pos == |fs| || f.index < fs[pos].index
    ensures found <==> f.index in Indices(fs)
    ensures !found ==> IndicesAscending(fs[..pos] + [f] + fs[pos..])
  {
    if found {
      assert fs[pos] in fs;
    } else {
      forall j | 0 <= j < |fs| ensures fs[j].index != f.index {
        if j > pos {
          assert fs[pos].index < fs[j].index;
        }
      }
    }
  }

  /** The index at which the batch `ds`, added in order to a table that already
      uses the indices `used`, first collides (|ds| if it never does). */
  function FirstCollision(used: set<nat>, ds: seq<FormatDetail>): (k: nat)
    ensures k <= |ds|
    decreases |ds|
  {
    if ds == [] then 0
    else if ds[0].index in used then 0
    else 1 + FirstCollision(used + {ds[0].index}, ds[1..])
  }

  lemma IndicesAppend(a: seq<FormatDetail>, b: seq<FormatDetail>)
    ensures Indices(a + b) == Indices(a) + Indices(b)
  {
    assert forall e :: e in a + b <==> e in a || e in b;
  }

  lemma IndicesShift(ds: seq<FormatDetail>, j: nat)
    requires j < |ds|
    ensures Indices(ds[..j + 1]) == {ds[0].index} + Indices(ds[1..][..j])
  {
    assert ds[..j + 1] == [ds[0]] + ds[1..][..j];
    IndicesAppend([ds[0]], ds[1..][..j]);
    assert Indices([ds[0]]) == {ds[0].index};
  }

  /** One more entry of a batch: its prefix grows by that entry and its index. */
  lemma PrefixStep(ds: seq<FormatDetail>, i: nat)
    requires i < |ds|
    ensures multiset(ds[..i + 1]) == multiset(ds[..i]) + multiset{ds[i]}
    ensures Indices(ds[..i + 1]) == Indices(ds[..i]) + {ds[i].index}
  {
    assert ds[..i + 1] == ds[..i] + [ds[i]];
    IndicesAppend(ds[..i], [ds[i]]);
    assert Indices([ds[i]]) == {ds[i].index};
  }

  /** FirstCollision is the first entry whose index is already used, either by
      the table or by an earlier entry of the same batch. */
  lemma {:induction false} FirstCollisionSpec(used: set<nat>, ds: seq<FormatDetail>)
    ensures var k := FirstCollision(used, ds);
      && (forall j :: 0 <= j < k ==> ds[j].index !in used + Indices(ds[..j]))
      && (k < |ds| ==> ds[k].index in used + Indices(ds[..k]))
    decreases |ds|
  {
    if ds != [] && ds[0].index !in used {
      var used' := used + {ds[0].index};
      var k' := FirstCollision(used', ds[1..]);
      FirstCollisionSpec(used', ds[1..]);
      forall j | 1 <= j <= k' && j < |ds|
        ensures Indices(ds[..j]) == {ds[0].index} + Indices(ds[1..][..j - 1])
        ensures ds[j] == ds[1..][j - 1]
      {
        IndicesShift(ds, j - 1);
      }
      assert ds[..0] == [];
    }
  }

  /** Prefix sums of size * typeSize: the byte length of the attributes fs. */
  function StructSize(fs: seq<Format>): int {
    if fs == [] then 0
    else StructSize(fs[..|fs| - 1]) + fs[|fs| - 1].size * GetTypeSize(fs[|fs| - 1].elemType)
  }

  /** The offsets loop of addData(Format): elemOffset[0] = 0 and
      elemOffset[i + 1] = elemOffset[i] + size_i * typeSize_i. */
  method ComputeOffsets(fs: seq<Format>) returns (offsets: seq<int>)
    ensures |offsets| == |fs| + 1
    ensures offsets[0] == 0
    ensures forall i :: 0 <= i < |fs| ==>
      offsets[i + 1] == offsets[i] + fs[i].size * GetTypeSize(fs[i].elemType)
    ensures forall i :: 0 <= i <= |fs| ==> offsets[i] == StructSize(fs[..i])
  {
    var elemOffset := new int[|fs| + 1];
    elemOffset[0] := 0;
    assert fs[..0] == [];
    var i := 0;
    while i < |fs|
      invariant 0 <= i <= |fs|
      invariant forall j :: 0 <= j <= i ==> elemOffset[j] == StructSize(fs[..j])
    {
      var typeSize := GetTypeSize(fs[i].elemType);
      StructSizeStep(fs, i);
      elemOffset[i + 1] := elemOffset[i] + fs[i].size * typeSize;
      i := i + 1;
    }
    offsets := elemOffset[..];
    forall j | 0 <= j < |fs|
      ensures offsets[j + 1] == offsets[j] + fs[j].size * GetTypeSize(fs[j].elemType)
    {
      StructSizeStep(fs, j);
    }
  }

  /** One step of the prefix sums. */
  lemma StructSizeStep(fs: seq<Format>, i: nat)
    requires i < |fs|
    ensures StructSize(fs[..i + 1]) == StructSize(fs[..i]) + fs[i].size * GetTypeSize(fs[i].elemType)
  {
    assert fs[..i + 1][..i] == fs[..i];
  }

  /** With non-negative component counts every attribute lies inside the stride:
      its offset plus its own length is at most StructSize of the whole list. */
  lemma {:induction false} AttributeWithinStride(fs: seq<Format>, i: nat)
    requires i < |fs|
    requires forall j :: 0 <= j < |fs| ==> fs[j].size >= 0
    ensures 0 <= StructSize(fs[..i])
    ensures StructSize(fs[..i]) + fs[i].size * GetTypeSize(fs[i].elemType) <= StructSize(fs)
    decreases |fs|
  {
    var n := |fs|;
    assert fs[..n] == fs;
    if i == n - 1 {
      StructSizeNonNegative(fs[..i]);
    } else {
      AttributeWithinStride(fs[..n - 1], i);
      assert fs[..n - 1][..i] == fs[..i];
    }
  }

  lemma {:induction false} StructSizeNonNegative(fs: seq<Format>)
    requires forall j :: 0 <= j < |fs| ==> fs[j].size >= 0
    ensures StructSize(fs) >= 0
    decreases |fs|
  {
    if fs != [] {
      StructSizeNonNegative(fs[..|fs| - 1]);
    }
  }

  /** The FormatDetail list addData(Format) hands to addFormat, one per entry:
      GL type, the total stride and the entry's own offset. */
  function Details(fs: seq<Format>, offsets: seq<int>): (ds: seq<FormatDetail>)
    requires |offsets| == |fs| + 1
    ensures |ds| == |fs|
    ensures forall i :: 0 <= i < |fs| ==>
      ds[i].index == fs[i].index && ds[i].size == fs[i].size &&
      ds[i].glType == GetTypeGL(fs[i].elemType) && ds[i].normalized == fs[i].normalized &&
      ds[i].structSize == offsets[|fs|] && ds[i].offset == offsets[i]
  {
    seq(|fs|, i requires 0 <= i < |fs| =>
      FormatDetail(fs[i].index, fs[i].size, GetTypeGL(fs[i].elemType), fs[i].normalized,
                   offsets[|fs|], offsets[i]))
  }

  class Buffer {
    const vaoHandle: Handle
    var vboHandles: seq<Handle>
    var eboHandle: nat
    var format: seq<FormatDetail>

    ghost predicate Valid()
      reads this
    {
      IndicesAscending(format)
    }

    /** Buffer(): EBOHandle starts at 0, no VBO and no attribute yet. */
    constructor (vao: Handle)
      ensures Valid()
      ensures vaoHandle == vao && vboHandles == [] && eboHandle == 0 && format == []
    {
      vaoHandle := vao;
      vboHandles := [];
      eboHandle := 0;
      format := [];
    }

    /** addFormat: rejects a duplicate index, otherwise inserts keeping the table sorted. */
    method AddFormat(f: FormatDetail) returns (added: bool)
      requires Valid()
      modifies this`format
      ensures Valid()
      ensures added <==> f.index !in Indices(old(format))
      ensures !added ==> format == old(format)
      ensures added ==> multiset(format) == multiset(old(format)) + multiset{f}
      ensures added ==> Indices(format) == Indices(old(format)) + {f.index}
    {
      var found, pos := ScanFormat(format, f.index);
      ScanOnAscending(format, f, found, pos);
      if found {
        return false;
      }
      InsertAdds(format, f, pos);
      format := format[..pos] + [f] + format[pos..];
      added := true;
    }

    /** The addFormat loop shared by both addData overloads: entries are added in
        order and the first collision throws INDEX_COLLISION, leaving the entries
        added before it in place. */
    method AddFormatsInOrder(ds: seq<FormatDetail>) returns (r: Outcome<BufferError>)
      requires Valid()
      modifies this`format
      ensures Valid()
      ensures var k := FirstCollision(Indices(old(format)), ds);
        && multiset(format) == multiset(old(format)) + multiset(ds[..k])
        && r == if k == |ds| then Pass else Fail(IndexCollision)
    {
      ghost var used := Indices(format);
      ghost var k := FirstCollision(used, ds);
      FirstCollisionSpec(used, ds);
      assert ds[..0] == [];
      var i := 0;
      while i < |ds|
        invariant 0 <= i <= k
        invariant Valid()
        invariant multiset(format) == multiset(old(format)) + multiset(ds[..i])
        invariant Indices(format) == used + Indices(ds[..i])
      {
        if i < k {
          assert ds[i].index !in Indices(format);
        } else {
          assert ds[i].index in Indices(format);
        }
        var added := AddFormat(ds[i]);
        if !added {
          assert i == k < |ds|;
          assert multiset(format) == multiset(old(format)) + multiset(ds[..k]);
          return Fail(IndexCollision);
        }
        PrefixStep(ds, i);
        i := i + 1;
      }
      assert i == k == |ds| && ds[..i] == ds;
      assert multiset(format) == multiset(old(format)) + multiset(ds[..k]);
      r := Pass;
    }

    /** addData(data, size, usage, std::vector<Format>): records the new VBO handle,
        computes offsets and stride, then adds one FormatDetail per entry. */
    method AddData(vbo: Handle, fs: seq<Format>) returns (r: Outcome<BufferError>)
      requires Valid()
      modifies this`vboHandles, this`format
      ensures Valid()
      ensures vboHandles == old(vboHandles) + [vbo]
      ensures forall i :: 0 <= i < |fs| ==>
        StructSize(fs[..i + 1]) == StructSize(fs[..i]) + fs[i].size * GetTypeSize(fs[i].elemType)
      ensures var ds := Details(fs, seq(|fs| + 1, i requires 0 <= i <= |fs| => StructSize(fs[..i])));
        var k := FirstCollision(Indices(old(format)), ds);
        && multiset(format) == multiset(old(format)) + multiset(ds[..k])
        && r == if k == |ds| then Pass else Fail(IndexCollision)
    {
      vboHandles := vboHandles + [vbo];
      var offsets := ComputeOffsets(fs);
      assert offsets == seq(|fs| + 1, i requires 0 <= i <= |fs| => StructSize(fs[..i]));
      r := AddFormatsInOrder(Details(fs, offsets));
    }

    /** addData(data, size, usage, std::vector<FormatDetail>): the caller supplies
        stride and offsets; the entries are added as given. */
    method AddDataDetailed(vbo: Handle, ds: seq<FormatDetail>) returns (r: Outcome<BufferError>)
      requires Valid()
      modifies this`vboHandles, this`format
      ensures Valid()
      ensures vboHandles == old(vboHandles) + [vbo]
      ensures var k := FirstCollision(Indices(old(format)), ds);
        && multiset(format) == multiset(old(format)) + multiset(ds[..k])
        && r == if k == |ds| then Pass else Fail(IndexCollision)
    {
      vboHandles := vboHandles + [vbo];
      r := AddFormatsInOrder(ds);
    }

    /** addIndex: only one element buffer; a second one throws INDICES_EXISTED. */
    method AddIndex(ebo: Handle) returns (r: Outcome<BufferError>)
      modifies this`eboHandle
      ensures old(eboHandle) != 0 ==> r == Fail(IndicesExisted) && eboHandle == old(eboHandle)
      ensures old(eboHandle) == 0 ==> r == Pass && eboHandle == ebo
    {
      if eboHandle != 0 {
        return Fail(IndicesExisted);
      }
      eboHandle := ebo;
      r := Pass;
    }
  }

  /** A new Buffer accepts its first element buffer and refuses the second. */
  method FreshBufferTakesOneIndexBuffer(vao: Handle, first: Handle, second: Handle)
    returns (r1: Outcome<BufferError>, r2: Outcome<BufferError>)
    ensures r1 == Pass
    ensures r2 == Fail(IndicesExisted)
  {
    var b := new Buffer(vao);
    r1 := b.AddIndex(first);
    r2 := b.AddIndex(second);
  }
}
