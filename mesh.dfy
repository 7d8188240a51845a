/**
 The mesh: geometry, textures, the three GPU object names made from them
 (vertex buffer, index buffer, vertex array) and a use count.

 Construction uploads the geometry and starts the count at 1. `IncRef` and
 `Release` move the count; the release that brings it to exactly 0 deletes
 every non-zero name and zeroes all three. Copy-assignment releases the
 target, counts one more use on the source and copies the source's names
 and count. The count lives in each mesh, not in storage the copies share.
 */
module Meshes {
  import opened Gl
  import opened Uniforms
  import opened DrawCommands

  /** One interleaved vertex record; its contents are uploaded but never inspected. */
  datatype Vertex = Vertex(position: (real, real, real), normal: (real, real, real), texCoords: (real, real))

  /** Obtaining a buffer name and uploading `vertexCount` vertices to it as the array buffer. */
  function VertexUpload(vbo: nat, vertexCount: nat): seq<Command>
  {
    [GenBuffer(vbo), BindArrayBuffer(vbo), ArrayBufferData(vertexCount), BindArrayBuffer(0)]
  }

  function IndexUpload(ebo: nat, indexCount: nat): seq<Command>
  {
    [GenBuffer(ebo), BindElementBuffer(ebo), ElementBufferData(indexCount), BindElementBuffer(0)]
  }

  /** Position (3 components), normal (3) and texture coordinate (2) at attribute slots 0, 1, 2. */
  function AttributeLayout(): seq<Command>
  {
    [VertexAttribPointer(0, 3), EnableVertexAttribArray(0),
     VertexAttribPointer(1, 3), EnableVertexAttribArray(1),
     VertexAttribPointer(2, 2), EnableVertexAttribArray(2)]
  }

  /** Obtaining a vertex-array name and recording in it the vertex buffer and its layout. */
  function ArraySetup(vao: nat, vbo: nat): seq<Command>
  {
    [GenVertexArray(vao), BindVertexArray(vao), BindArrayBuffer(vbo)] + AttributeLayout() + [BindVertexArray(0)]
  }

  /** The commands `setupMesh` issues once it has been handed the three names. */
  function SetupTrace(vbo: nat, ebo: nat, vao: nat, vertexCount: nat, indexCount: nat): (r: seq<Command>)
    ensures |r| == 18
  {
    VertexUpload(vbo, vertexCount) + IndexUpload(ebo, indexCount) + ArraySetup(vao, vbo)
  }

  /** The set-up makes the three names, in the order vertex buffer, index buffer, vertex array, and deletes nothing. */
  lemma SetupTraceShape(vbo: nat, ebo: nat, vao: nat, vertexCount: nat, indexCount: nat)
    ensures var r := SetupTrace(vbo, ebo, vao, vertexCount, indexCount);
      |r| == 18 && r[0] == GenBuffer(vbo) && r[4] == GenBuffer(ebo) && r[8] == GenVertexArray(vao) &&
      forall i :: 0 <= i < |r| ==> !r[i].DeleteBuffer? && !r[i].DeleteVertexArray?
  {
    var r := SetupTrace(vbo, ebo, vao, vertexCount, indexCount);
    assert r == [GenBuffer(vbo), BindArrayBuffer(vbo), ArrayBufferData(vertexCount), BindArrayBuffer(0),
                 GenBuffer(ebo), BindElementBuffer(ebo), ElementBufferData(indexCount), BindElementBuffer(0),
                 GenVertexArray(vao), BindVertexArray(vao), BindArrayBuffer(vbo),
                 VertexAttribPointer(0, 3), EnableVertexAttribArray(0),
                 VertexAttribPointer(1, 3), EnableVertexAttribArray(1),
                 VertexAttribPointer(2, 2), EnableVertexAttribArray(2), BindVertexArray(0)];
  }

  /** `[c]` when `present`, otherwise nothing. */
  function Optional(present: bool, c: Command): (r: seq<Command>)
    ensures |r| <= 1
    ensures forall x :: x in r <==> present && x == c
  {
    if present then [c] else []
  }

  lemma OptionalCount(present: bool, c: Command, x: Command)
    ensures multiset(Optional(present, c))[x] == if present && x == c then 1 else 0
  {
  }

  /** The deletions a release that reaches 0 issues: each non-zero name, in field order. */
  function ReleaseDeletions(vbo: nat, ebo: nat, vao: nat): (r: seq<Command>)
    ensures |r| == (if vbo != 0 then 1 else 0) + (if ebo != 0 then 1 else 0) + (if vao != 0 then 1 else 0)
  {
    Optional(vbo != 0, DeleteBuffer(vbo)) +
    Optional(ebo != 0, DeleteBuffer(ebo)) +
    Optional(vao != 0, DeleteVertexArray(vao))
  }

  lemma ReleaseDeletionsCount(vbo: nat, ebo: nat, vao: nat, x: Command)
    ensures multiset(ReleaseDeletions(vbo, ebo, vao))[x] ==
      (if vbo != 0 && x == DeleteBuffer(vbo) then 1 else 0) +
      (if ebo != 0 && x == DeleteBuffer(ebo) then 1 else 0) +
      (if vao != 0 && x == DeleteVertexArray(vao) then 1 else 0)
  {
    var a, b, c := Optional(vbo != 0, DeleteBuffer(vbo)), Optional(ebo != 0, DeleteBuffer(ebo)),
      Optional(vao != 0, DeleteVertexArray(vao));
    assert multiset(a + b + c) == multiset(a) + multiset(b) + multiset(c);
    OptionalCount(vbo != 0, DeleteBuffer(vbo), x);
    OptionalCount(ebo != 0, DeleteBuffer(ebo), x);
    OptionalCount(vao != 0, DeleteVertexArray(vao), x);
  }

  /**
   A final release deletes every non-zero name exactly once (a name held in
   both buffer fields is deleted once per field) and never deletes name 0.
   */
  lemma ReleaseDeletesEachNameOnce(vbo: nat, ebo: nat, vao: nat)
    ensures forall c :: c in ReleaseDeletions(vbo, ebo, vao) ==> c.DeleteBuffer? || c.DeleteVertexArray?
    ensures forall h :: (multiset(ReleaseDeletions(vbo, ebo, vao))[DeleteBuffer(h)] ==
      (if h != 0 && h == vbo then 1 else 0) + (if h != 0 && h == ebo then 1 else 0))
    ensures forall h :: (multiset(ReleaseDeletions(vbo, ebo, vao))[DeleteVertexArray(h)] ==
      if h != 0 && h == vao then 1 else 0)
  {
    var a, b, c := Optional(vbo != 0, DeleteBuffer(vbo)), Optional(ebo != 0, DeleteBuffer(ebo)),
      Optional(vao != 0, DeleteVertexArray(vao));
    forall x | x in ReleaseDeletions(vbo, ebo, vao)
      ensures x.DeleteBuffer? || x.DeleteVertexArray?
    {
      assert x in a + b + c;
    }
    forall h
      ensures multiset(ReleaseDeletions(vbo, ebo, vao))[DeleteBuffer(h)] ==
        (if h != 0 && h == vbo then 1 else 0) + (if h != 0 && h == ebo then 1 else 0)
    {
      ReleaseDeletionsCount(vbo, ebo, vao, DeleteBuffer(h));
    }
    forall h
      ensures multiset(ReleaseDeletions(vbo, ebo, vao))[DeleteVertexArray(h)] == if h != 0 && h == vao then 1 else 0
    {
      ReleaseDeletionsCount(vbo, ebo, vao, DeleteVertexArray(h));
    }
  }

  class Mesh {
    var vertices: seq<Vertex>
    var indices: seq<nat>
    var textures: seq<Texture>
    var vao: nat
    var vbo: nat
    var ebo: nat
    var useCount: int

    /** The three names are all zero (never made, or deleted) or all non-zero. */
    ghost predicate Valid()
      reads this
    {
      (vbo == 0 <==> ebo == 0) && (ebo == 0 <==> vao == 0)
    }

    constructor (vertices: seq<Vertex>, indices: seq<nat>, textures: seq<Texture>, gl: Context)
      requires gl.Valid()
      modifies gl
      ensures Valid() && gl.Valid()
      ensures this.vertices == vertices && this.indices == indices && this.textures == textures
      ensures useCount == 1
      ensures old(gl.nextName) <= vbo < ebo < vao < gl.nextName
      ensures gl.trace == old(gl.trace) + SetupTrace(vbo, ebo, vao, |vertices|, |indices|)
    {
      this.vertices := vertices;
      this.indices := indices;
      this.textures := textures;
      useCount := 1;
      new;
      SetupMesh(gl);
    }

    /** Obtains the three names and uploads the geometry. */
    method SetupMesh(gl: Context)
      requires gl.Valid()
      modifies this`vbo, this`ebo, this`vao, gl
      ensures Valid() && gl.Valid()
      ensures old(gl.nextName) <= vbo < ebo < vao < gl.nextName
      ensures gl.trace == old(gl.trace) + SetupTrace(vbo, ebo, vao, |vertices|, |indices|)
    {
      UploadVertices(gl);
      UploadIndices(gl);
      SetupVertexArray(gl);
      Associate(old(gl.trace), VertexUpload(vbo, |vertices|), IndexUpload(ebo, |indices|));
      Associate(old(gl.trace) + VertexUpload(vbo, |vertices|), IndexUpload(ebo, |indices|), ArraySetup(vao, vbo));
      Associate(old(gl.trace), VertexUpload(vbo, |vertices|) + IndexUpload(ebo, |indices|), ArraySetup(vao, vbo));
    }

    /** A fresh buffer name holding the vertices. */
    method UploadVertices(gl: Context)
      requires gl.Valid()
      modifies this`vbo, gl
      ensures gl.Valid() && vbo == old(gl.nextName) && gl.nextName == vbo + 1
      ensures gl.trace == old(gl.trace) + VertexUpload(vbo, |vertices|)
    {
      vbo := gl.GenBuffer();
      gl.Issue(BindArrayBuffer(vbo));
      gl.Issue(ArrayBufferData(|vertices|));
      gl.Issue(BindArrayBuffer(0));
    }

    /** A fresh buffer name holding the indices. */
    method UploadIndices(gl: Context)
      requires gl.Valid()
      modifies this`ebo, gl
      ensures gl.Valid() && ebo == old(gl.nextName) && gl.nextName == ebo + 1
      ensures gl.trace == old(gl.trace) + IndexUpload(ebo, |indices|)
    {
      ebo := gl.GenBuffer();
      gl.Issue(BindElementBuffer(ebo));
      gl.Issue(ElementBufferData(|indices|));
      gl.Issue(BindElementBuffer(0));
    }

    /** A fresh vertex-array name recording the vertex buffer and the three attribute slots. */
    method SetupVertexArray(gl: Context)
      requires gl.Valid()
      modifies this`vao, gl
      ensures gl.Valid() && vao == old(gl.nextName) && gl.nextName == vao + 1
      ensures gl.trace == old(gl.trace) + ArraySetup(vao, vbo)
    {
      vao := gl.GenVertexArray();
      gl.Issue(BindVertexArray(vao));
      gl.Issue(BindArrayBuffer(vbo));
      ghost var bound := gl.trace;
      gl.Issue(VertexAttribPointer(0, 3));
      gl.Issue(EnableVertexAttribArray(0));
      gl.Issue(VertexAttribPointer(1, 3));
      gl.Issue(EnableVertexAttribArray(1));
      gl.Issue(VertexAttribPointer(2, 2));
      gl.Issue(EnableVertexAttribArray(2));
      assert gl.trace == bound + AttributeLayout();
      gl.Issue(BindVertexArray(0));
    }

    /** One more use of this mesh's names. */
    method IncRef()
      modifies this`useCount
      ensures useCount == old(useCount) + 1
    {
      useCount := useCount + 1;
    }

    /**
     One use fewer. Only the release that brings the count to exactly 0
     deletes the names; a count already at 0 or below just goes further down.
     */
    method Release(gl: Context)
      requires Valid() && gl.Valid()
      modifies this`vbo, this`ebo, this`vao, this`useCount, gl`trace
      ensures Valid() && gl.Valid()
      ensures old(useCount) == 1 ==>
        useCount == 0 && vbo == 0 && ebo == 0 && vao == 0 &&
        gl.trace == old(gl.trace) + ReleaseDeletions(old(vbo), old(ebo), old(vao))
      ensures old(useCount) != 1 ==>
        useCount == old(useCount) - 1 && vbo == old(vbo) && ebo == old(ebo) && vao == old(vao) &&
        gl.trace == old(gl.trace)
    {
      useCount := useCount - 1;
      if useCount == 0 {
        if vbo != 0 {
          gl.Issue(DeleteBuffer(vbo));
          vbo := 0;
        }
        if ebo != 0 {
          gl.Issue(DeleteBuffer(ebo));
          ebo := 0;
        }
        if vao != 0 {
          gl.Issue(DeleteVertexArray(vao));
          vao := 0;
        }
        useCount := 0;
      }
    }

    /**
     Copy-assignment. Assigning a mesh to itself changes nothing; otherwise
     this mesh is released, the source counts one more use, and this mesh
     takes the source's data, names and (new) count.
     */
    method Assign(src: Mesh, gl: Context)
      requires Valid() && src.Valid() && gl.Valid()
      modifies this, src`useCount, gl`trace
      ensures Valid() && gl.Valid()
      ensures src == this ==> unchanged(this) && gl.trace == old(gl.trace)
      ensures src != this ==>
        src.useCount == old(src.useCount) + 1 && useCount == src.useCount &&
        vbo == old(src.vbo) && ebo == old(src.ebo) && vao == old(src.vao) &&
        vertices == old(src.vertices) && indices == old(src.indices) && textures == old(src.textures) &&
        gl.trace == old(gl.trace) +
          (if old(useCount) == 1 then ReleaseDeletions(old(vbo), old(ebo), old(vao)) else [])
    {
      if src == this {
        return;
      }
      Release(gl);
      src.IncRef();
      vertices := src.vertices;
      indices := src.indices;
      textures := src.textures;
      vbo := src.vbo;
      ebo := src.ebo;
      vao := src.vao;
      useCount := src.useCount;
    }

    /**
     Binds texture `i` to unit `i` with its sampler uniform set to `i`,
     numbering diffuse and specular textures with two running counters, then
     draws all indices with this mesh's vertex array and index buffer.
     */
    method Draw(gl: Context)
      requires gl.Valid()
      modifies gl`trace
      ensures gl.Valid()
      ensures gl.trace == old(gl.trace) + DrawTrace(textures, vao, ebo, |indices|)
    {
      var ts := textures;
      var diffuseNr: nat := 1;
      var specularNr: nat := 1;
      for i := 0 to |ts|
        invariant gl.Valid()
        invariant gl.trace == old(gl.trace) + TextureSetup(ts, i)
        invariant diffuseNr == CountKind(ts[..i], Diffuse) + 1
        invariant specularNr == CountKind(ts[..i], Specular) + 1
      {
        ghost var done := gl.trace;
        CountersGiveNumbers(ts, i, diffuseNr, specularNr);
        gl.Issue(ActiveTexture(i));
        var number := "";
        var kind := ts[i].kind;
        if kind == Diffuse {
          number := NatToString(diffuseNr);
          diffuseNr := diffuseNr + 1;
        } else if kind == Specular {
          number := NatToString(specularNr);
          specularNr := specularNr + 1;
        }
        var name := Prefix + kind + number;
        gl.Issue(SetInt(name, i));
        gl.Issue(BindTexture2D(ts[i].id));
        AppendThree(done, ActiveTexture(i), SetInt(name, i), BindTexture2D(ts[i].id));
        Associate(old(gl.trace), TextureSetup(ts, i), TextureCommands(ts, i));
      }
      SubmitDraw(gl);
      Associate(old(gl.trace), TextureSetup(ts, |ts|), Submit(vao, ebo, |indices|));
    }

    /** Resets the active unit, draws all indices with this mesh's objects bound, then unbinds them. */
    method SubmitDraw(gl: Context)
      requires gl.Valid()
      modifies gl`trace
      ensures gl.Valid()
      ensures gl.trace == old(gl.trace) + Submit(vao, ebo, |indices|)
    {
      gl.Issue(ActiveTexture(0));
      gl.Issue(BindVertexArray(vao));
      gl.Issue(BindElementBuffer(ebo));
      AppendThree(old(gl.trace), ActiveTexture(0), BindVertexArray(vao), BindElementBuffer(ebo));
      ghost var bound := gl.trace;
      gl.Issue(DrawTriangles(|indices|));
      gl.Issue(BindElementBuffer(0));
      gl.Issue(BindVertexArray(0));
      AppendThree(bound, DrawTriangles(|indices|), BindElementBuffer(0), BindVertexArray(0));
      Associate(old(gl.trace), [ActiveTexture(0), BindVertexArray(vao), BindElementBuffer(ebo)],
        [DrawTriangles(|indices|), BindElementBuffer(0), BindVertexArray(0)]);
    }
  }

  /**
   Releasing a fresh mesh twice: the first release deletes its three names
   once, the second issues nothing, and the count ends at -1 rather than 0.
   */
  method ReleasedTwice(vs: seq<Vertex>, ixs: seq<nat>, ts: seq<Texture>, gl: Context)
    returns (m: Mesh, vbo: nat, ebo: nat, vao: nat)
    requires gl.Valid()
    modifies gl
    ensures m.vbo == 0 && m.ebo == 0 && m.vao == 0 && m.useCount == -1
    ensures 0 < vbo < ebo < vao
    ensures gl.trace == old(gl.trace) + SetupTrace(vbo, ebo, vao, |vs|, |ixs|) + ReleaseDeletions(vbo, ebo, vao)
  {
    m := new Mesh(vs, ixs, ts, gl);
    vbo, ebo, vao := m.vbo, m.ebo, m.vao;
    m.Release(gl);
    m.Release(gl);
  }

  /**
   Copy-assign one fresh mesh to another, then destroy both (the destructor
   is a release): the source's names are never deleted, because the two
   counts end at 1 each instead of sharing one count that reaches 0.
   */
  method AssignedCopiesLeak(vs: seq<Vertex>, ixs: seq<nat>, ts: seq<Texture>, gl: Context)
    returns (vbo: nat, ebo: nat, vao: nat)
    requires gl.Valid()
    modifies gl
    ensures 0 < vbo && 0 < ebo && 0 < vao
    ensures |old(gl.trace)| <= |gl.trace|
    ensures var issued := gl.trace[|old(gl.trace)|..];
      GenBuffer(vbo) in issued && GenBuffer(ebo) in issued && GenVertexArray(vao) in issued &&
      DeleteBuffer(vbo) !in issued && DeleteBuffer(ebo) !in issued && DeleteVertexArray(vao) !in issued
  {
    var b := new Mesh(vs, ixs, ts, gl);
    vbo, ebo, vao := b.vbo, b.ebo, b.vao;
    var a := new Mesh(vs, ixs, ts, gl);
    ghost var t0, va, ea, aa := old(gl.trace), a.vbo, a.ebo, a.vao;
    a.Assign(b, gl);
    a.Release(gl);
    b.Release(gl);
    ghost var setupB, setupA := SetupTrace(vbo, ebo, vao, |vs|, |ixs|), SetupTrace(va, ea, aa, |vs|, |ixs|);
    ghost var deleted := ReleaseDeletions(va, ea, aa);
    assert gl.trace == t0 + setupB + setupA + deleted;
    SetupTraceShape(vbo, ebo, vao, |vs|, |ixs|);
    SetupTraceShape(va, ea, aa, |vs|, |ixs|);
    ReleaseDeletionsCount(va, ea, aa, DeleteBuffer(vbo));
    ReleaseDeletionsCount(va, ea, aa, DeleteBuffer(ebo));
    ReleaseDeletionsCount(va, ea, aa, DeleteVertexArray(vao));
    LeakedNames(t0, setupB, setupA, deleted, vbo, ebo, vao);
  }

  /**
   A mesh's set-up followed by any trace without deletions and then deletions
   that do not name the mesh's objects: the mesh's names are made and never deleted.
   */
  lemma LeakedNames(t0: seq<Command>, setup: seq<Command>, other: seq<Command>, deleted: seq<Command>,
                    vbo: nat, ebo: nat, vao: nat)
    requires 8 < |setup| && setup[0] == GenBuffer(vbo) && setup[4] == GenBuffer(ebo) && setup[8] == GenVertexArray(vao)
    requires forall i :: 0 <= i < |setup| ==> !setup[i].DeleteBuffer? && !setup[i].DeleteVertexArray?
    requires forall i :: 0 <= i < |other| ==> !other[i].DeleteBuffer? && !other[i].DeleteVertexArray?
    requires multiset(deleted)[DeleteBuffer(vbo)] == 0 && multiset(deleted)[DeleteBuffer(ebo)] == 0
    requires multiset(deleted)[DeleteVertexArray(vao)] == 0
    ensures var t := t0 + setup + other + deleted;
      var issued := t[|t0|..];
      GenBuffer(vbo) in issued && GenBuffer(ebo) in issued && GenVertexArray(vao) in issued &&
      DeleteBuffer(vbo) !in issued && DeleteBuffer(ebo) !in issued && DeleteVertexArray(vao) !in issued
  {
    var issued := (t0 + setup + other + deleted)[|t0|..];
    assert issued == setup + other + deleted;
    assert issued[0] == GenBuffer(vbo) && issued[4] == GenBuffer(ebo) && issued[8] == GenVertexArray(vao);
    forall i | 0 <= i < |setup| + |other|
      ensures !issued[i].DeleteBuffer? && !issued[i].DeleteVertexArray?
    {
      if i < |setup| { assert issued[i] == setup[i]; } else { assert issued[i] == other[i - |setup|]; }
    }
    assert issued[|setup| + |other|..] == deleted;
  }
}
