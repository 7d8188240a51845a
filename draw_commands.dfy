/**
 The commands one call of `Mesh::draw` issues, and what they do to the
 binding state of the graphics context.

 For each texture `k` in order: make unit `k` active, set the texture's
 sampler uniform to `k`, bind the texture to the active unit. Then reset the
 active unit to 0, bind the mesh's vertex array and index buffer, draw all of
 its indices as triangles, and unbind both.
 */
module DrawCommands {
  import opened Gl
  import opened Uniforms

  /** The three commands issued for texture `k`. */
  function TextureCommands(ts: seq<Texture>, k: nat): seq<Command>
    requires k < |ts|
  {
    [ActiveTexture(k), SetInt(UniformName(ts, k), k), BindTexture2D(ts[k].id)]
  }

  /** The commands issued for the first `n` textures. */
  function TextureSetup(ts: seq<Texture>, n: nat): (r: seq<Command>)
    requires n <= |ts|
    ensures |r| == 3 * n
  {
    if n == 0 then [] else TextureSetup(ts, n - 1) + TextureCommands(ts, n - 1)
  }

  /** The commands issued after the texture loop. */
  function Submit(vao: nat, ebo: nat, count: nat): (r: seq<Command>)
    ensures |r| == 6 && r[3] == DrawTriangles(count)
  {
    [ActiveTexture(0), BindVertexArray(vao), BindElementBuffer(ebo), DrawTriangles(count),
     BindElementBuffer(0), BindVertexArray(0)]
  }

  /** Everything one draw issues, for a mesh with these textures, handles and index count. */
  function DrawTrace(ts: seq<Texture>, vao: nat, ebo: nat, count: nat): (r: seq<Command>)
    ensures |r| == 3 * |ts| + 6
    ensures r[3 * |ts| + 3] == DrawTriangles(count)
  {
    TextureSetup(ts, |ts|) + Submit(vao, ebo, count)
  }

  /** Which texture the first `n` textures leave bound on which unit. */
  function TextureBindings(ts: seq<Texture>, n: nat): map<nat, nat>
    requires n <= |ts|
  {
    if n == 0 then map[] else TextureBindings(ts, n - 1)[n - 1 := ts[n - 1].id]
  }

  /** Which value the first `n` textures leave in which sampler uniform. */
  function UniformValues(ts: seq<Texture>, n: nat): map<string, int>
    requires n <= |ts|
  {
    if n == 0 then map[] else UniformValues(ts, n - 1)[UniformName(ts, n - 1) := n - 1]
  }

  /** No texture after `k` (among the first `n`) reuses texture `k`'s uniform name. */
  ghost predicate LastOfName(ts: seq<Texture>, n: nat, k: nat)
    requires k < n <= |ts|
  {
    forall j :: k < j < n ==> UniformName(ts, j) != UniformName(ts, k)
  }

  /** The texture loop issues exactly three commands per texture, in list order. */
  lemma {:induction false} TextureSetupShape(ts: seq<Texture>, n: nat)
    requires n <= |ts|
    ensures |TextureSetup(ts, n)| == 3 * n
    ensures forall k :: 0 <= k < n ==> TextureSetup(ts, n)[3 * k .. 3 * k + 3] == TextureCommands(ts, k)
  {
    if n > 0 {
      TextureSetupShape(ts, n - 1);
      var prev, last := TextureSetup(ts, n - 1), TextureCommands(ts, n - 1);
      forall k | 0 <= k < n
        ensures (prev + last)[3 * k .. 3 * k + 3] == TextureCommands(ts, k)
      {
        if k < n - 1 {
          SliceOfAppend(prev, last, 3 * k, 3 * k + 3);
        } else {
          SliceOfAppend(prev, last, 0, 0);
        }
      }
    }
  }

  /** The three commands for one texture: one uniform set, one texture bind, no draw. */
  lemma TextureCommandsCounts(ts: seq<Texture>, k: nat)
    requires k < |ts|
    ensures CountIf(TextureCommands(ts, k), IsSetInt) == 1
    ensures CountIf(TextureCommands(ts, k), IsBindTexture) == 1
    ensures CountIf(TextureCommands(ts, k), IsDraw) == 0
  {
    var tc := TextureCommands(ts, k);
    assert tc == [tc[0], tc[1], tc[2]];
    CountIfThree(tc[0], tc[1], tc[2], IsSetInt);
    CountIfThree(tc[0], tc[1], tc[2], IsBindTexture);
    CountIfThree(tc[0], tc[1], tc[2], IsDraw);
    CountIfSingleton(tc[0], IsSetInt);
    CountIfSingleton(tc[1], IsSetInt);
    CountIfSingleton(tc[2], IsSetInt);
    CountIfSingleton(tc[0], IsBindTexture);
    CountIfSingleton(tc[1], IsBindTexture);
    CountIfSingleton(tc[2], IsBindTexture);
    CountIfSingleton(tc[0], IsDraw);
    CountIfSingleton(tc[1], IsDraw);
    CountIfSingleton(tc[2], IsDraw);
  }

  /** When each texture's commands hold `m` commands satisfying `p`, the first `n` textures' hold `m * n`. */
  lemma {:induction false} TextureSetupCountIf(ts: seq<Texture>, n: nat, p: Command -> bool, m: nat)
    requires n <= |ts|
    requires forall k :: 0 <= k < |ts| ==> CountIf(TextureCommands(ts, k), p) == m
    ensures CountIf(TextureSetup(ts, n), p) == m * n
  {
    if n > 0 {
      TextureSetupCountIf(ts, n - 1, p, m);
      CountIfAppend(TextureSetup(ts, n - 1), TextureCommands(ts, n - 1), p);
      assert m * (n - 1) + m == m * n;
    }
  }

  /** The texture loop issues one `setInt` and one texture bind per texture, and no draw. */
  lemma TextureSetupCounts(ts: seq<Texture>, n: nat)
    requires n <= |ts|
    ensures CountIf(TextureSetup(ts, n), IsSetInt) == n
    ensures CountIf(TextureSetup(ts, n), IsBindTexture) == n
    ensures CountIf(TextureSetup(ts, n), IsDraw) == 0
  {
    forall k | 0 <= k < |ts|
      ensures CountIf(TextureCommands(ts, k), IsSetInt) == 1
      ensures CountIf(TextureCommands(ts, k), IsBindTexture) == 1
      ensures CountIf(TextureCommands(ts, k), IsDraw) == 0
    {
      TextureCommandsCounts(ts, k);
    }
    TextureSetupCountIf(ts, n, IsSetInt, 1);
    TextureSetupCountIf(ts, n, IsBindTexture, 1);
    TextureSetupCountIf(ts, n, IsDraw, 0);
  }

  /**
   A draw sets one uniform and binds one texture per texture of the mesh and
   submits exactly one draw; with no textures it sets and binds nothing and
   still draws once.
   */
  lemma DrawCommandCounts(ts: seq<Texture>, vao: nat, ebo: nat, count: nat)
    ensures CountIf(DrawTrace(ts, vao, ebo, count), IsSetInt) == |ts|
    ensures CountIf(DrawTrace(ts, vao, ebo, count), IsBindTexture) == |ts|
    ensures CountIf(DrawTrace(ts, vao, ebo, count), IsDraw) == 1
  {
    var sub := Submit(vao, ebo, count);
    TextureSetupCounts(ts, |ts|);
    SubmitCounts(vao, ebo, count);
    CountIfAppend(TextureSetup(ts, |ts|), sub, IsSetInt);
    CountIfAppend(TextureSetup(ts, |ts|), sub, IsBindTexture);
    CountIfAppend(TextureSetup(ts, |ts|), sub, IsDraw);
  }

  /** The submission binds no texture, sets no uniform and draws once. */
  lemma SubmitCounts(vao: nat, ebo: nat, count: nat)
    ensures CountIf(Submit(vao, ebo, count), IsSetInt) == 0
    ensures CountIf(Submit(vao, ebo, count), IsBindTexture) == 0
    ensures CountIf(Submit(vao, ebo, count), IsDraw) == 1
  {
    var sub := Submit(vao, ebo, count);
    var front, back := [sub[0], sub[1], sub[2]], [sub[3], sub[4], sub[5]];
    assert sub == front + back;
    forall p: Command -> bool
      ensures CountIf(sub, p) == CountIf([sub[0]], p) + CountIf([sub[1]], p) + CountIf([sub[2]], p)
        + CountIf([sub[3]], p) + CountIf([sub[4]], p) + CountIf([sub[5]], p)
    {
      CountIfAppend(front, back, p);
      CountIfThree(sub[0], sub[1], sub[2], p);
      CountIfThree(sub[3], sub[4], sub[5], p);
    }
    forall i | 0 <= i < 6
      ensures CountIf([sub[i]], IsSetInt) == 0 && CountIf([sub[i]], IsBindTexture) == 0
      ensures CountIf([sub[i]], IsDraw) == if i == 3 then 1 else 0
    {
      CountIfSingleton(sub[i], IsSetInt);
      CountIfSingleton(sub[i], IsBindTexture);
      CountIfSingleton(sub[i], IsDraw);
    }
  }

  /** Texture unit `k` ends up holding texture `k`, and no other unit is touched. */
  lemma {:induction false} TextureBindingsAt(ts: seq<Texture>, n: nat)
    requires n <= |ts|
    ensures forall u: nat :: u in TextureBindings(ts, n) <==> u < n
    ensures forall k :: 0 <= k < n ==> TextureBindings(ts, n)[k] == ts[k].id
  {
    if n == 0 {
      assert TextureBindings(ts, n) == map[];
    } else {
      TextureBindingsAt(ts, n - 1);
      forall u: nat
        ensures u in TextureBindings(ts, n) <==> u < n
      {
        assert u in TextureBindings(ts, n - 1) <==> u < n - 1;
      }
    }
  }

  /** Every texture's uniform name is set. */
  lemma {:induction false} UniformValuesKeys(ts: seq<Texture>, n: nat)
    requires n <= |ts|
    ensures forall k :: 0 <= k < n ==> UniformName(ts, k) in UniformValues(ts, n)
  {
    if n > 0 {
      UniformValuesKeys(ts, n - 1);
    }
  }

  /**
   Only textures' uniform names are set, and each holds the unit of a texture
   bearing that name.
   */
  lemma {:induction false} UniformValuesFromTextures(ts: seq<Texture>, n: nat)
    requires n <= |ts|
    ensures forall name :: name in UniformValues(ts, n) ==>
      0 <= UniformValues(ts, n)[name] < n && UniformName(ts, UniformValues(ts, n)[name]) == name
  {
    if n > 0 {
      UniformValuesFromTextures(ts, n - 1);
    }
  }

  /** The value a name ends with is the unit of the last texture bearing it. */
  lemma {:induction false} UniformValuesLast(ts: seq<Texture>, n: nat)
    requires n <= |ts|
    ensures forall k :: 0 <= k < n && LastOfName(ts, n, k) ==>
      UniformName(ts, k) in UniformValues(ts, n) && UniformValues(ts, n)[UniformName(ts, k)] == k
  {
    if n > 0 {
      UniformValuesLast(ts, n - 1);
      forall k | 0 <= k < n && LastOfName(ts, n, k)
        ensures UniformName(ts, k) in UniformValues(ts, n) && UniformValues(ts, n)[UniformName(ts, k)] == k
      {
        if k < n - 1 {
          assert UniformName(ts, n - 1) != UniformName(ts, k);
          assert LastOfName(ts, n - 1, k);
        }
      }
    }
  }

  /** When every texture is diffuse or specular, sampler `material.<type><number>` holds that texture's unit. */
  lemma NumberedUniformsHoldUnits(ts: seq<Texture>)
    requires forall k :: 0 <= k < |ts| ==> Numbered(ts[k].kind)
    ensures forall k :: 0 <= k < |ts| ==>
      UniformName(ts, k) in UniformValues(ts, |ts|) && UniformValues(ts, |ts|)[UniformName(ts, k)] == k
  {
    UniformValuesLast(ts, |ts|);
    forall k | 0 <= k < |ts|
      ensures LastOfName(ts, |ts|, k)
    {
      forall j | k < j < |ts|
        ensures UniformName(ts, j) != UniformName(ts, k)
      {
        NumberedNamesDistinct(ts, j, k);
      }
    }
  }

  /** The three commands for texture `k`, read by the interpreter. */
  lemma RunTextureCommands(s: State, ts: seq<Texture>, k: nat)
    requires k < |ts|
    ensures Run(s, TextureCommands(ts, k)) == s.(
      activeUnit := k,
      units := s.units[k := ts[k].id],
      uniforms := s.uniforms[UniformName(ts, k) := k])
  {
    RunBindUnit(s, k, UniformName(ts, k), ts[k].id);
  }

  lemma RunBindUnit(s: State, k: nat, name: string, id: nat)
    ensures Run(s, [ActiveTexture(k), SetInt(name, k), BindTexture2D(id)]) ==
      s.(activeUnit := k, units := s.units[k := id], uniforms := s.uniforms[name := k])
  {
    Run3(s, ActiveTexture(k), SetInt(name, k), BindTexture2D(id));
  }

  /** The texture loop, read by the interpreter, binds the textures and sets their uniforms. */
  lemma {:induction false} RunTextureSetup(s: State, ts: seq<Texture>, n: nat)
    requires n <= |ts|
    ensures Run(s, TextureSetup(ts, n)) == s.(
      activeUnit := if n == 0 then s.activeUnit else n - 1,
      units := s.units + TextureBindings(ts, n),
      uniforms := s.uniforms + UniformValues(ts, n))
  {
    if n == 0 {
      assert s.units + map[] == s.units;
      assert s.uniforms + map[] == s.uniforms;
    } else {
      var k := n - 1;
      RunTextureSetup(s, ts, k);
      RunAppend(s, TextureSetup(ts, k), TextureCommands(ts, k));
      RunTextureCommands(Run(s, TextureSetup(ts, k)), ts, k);
      MergeUpdate(s.units, TextureBindings(ts, k), k, ts[k].id);
      MergeUpdate(s.uniforms, UniformValues(ts, k), UniformName(ts, k), k);
    }
  }

  /** The commands after the texture loop, read by the interpreter. */
  lemma RunSubmit(s: State, vao: nat, ebo: nat, count: nat)
    ensures Run(s, Submit(vao, ebo, count)) == s.(
      activeUnit := 0,
      vertexArray := 0,
      elementBuffer := 0,
      draws := s.draws + [DrawCall(vao, ebo, count)])
  {
    var first := [ActiveTexture(0), BindVertexArray(vao), BindElementBuffer(ebo)];
    var second := [DrawTriangles(count), BindElementBuffer(0), BindVertexArray(0)];
    assert Submit(vao, ebo, count) == first + second;
    RunAppend(s, first, second);
    Run3(s, first[0], first[1], first[2]);
    Run3(Run(s, first), second[0], second[1], second[2]);
  }

  /**
   One draw leaves texture unit 0 active and nothing bound as vertex array or
   index buffer, records one draw of `count` indices made with the mesh's
   vertex array and index buffer bound, binds texture `k` to unit `k`, and
   sets the textures' uniforms; nothing else changes.
   */
  lemma DrawEffect(s: State, ts: seq<Texture>, vao: nat, ebo: nat, count: nat)
    ensures Run(s, DrawTrace(ts, vao, ebo, count)) == s.(
      activeUnit := 0,
      vertexArray := 0,
      elementBuffer := 0,
      units := s.units + TextureBindings(ts, |ts|),
      uniforms := s.uniforms + UniformValues(ts, |ts|),
      draws := s.draws + [DrawCall(vao, ebo, count)])
  {
    RunTextureSetup(s, ts, |ts|);
    RunAppend(s, TextureSetup(ts, |ts|), Submit(vao, ebo, count));
    RunSubmit(Run(s, TextureSetup(ts, |ts|)), vao, ebo, count);
  }

  /**
   Drawing twice leaves the context as drawing once does, except for the
   second draw submission.
   */
  lemma DrawTwice(s: State, ts: seq<Texture>, vao: nat, ebo: nat, count: nat)
    ensures var once := Run(s, DrawTrace(ts, vao, ebo, count));
      Run(s, DrawTrace(ts, vao, ebo, count) + DrawTrace(ts, vao, ebo, count))
        == once.(draws := once.draws + [DrawCall(vao, ebo, count)])
  {
    var d := DrawTrace(ts, vao, ebo, count);
    var once := Run(s, d);
    RunAppend(s, d, d);
    DrawEffect(s, ts, vao, ebo, count);
    DrawEffect(once, ts, vao, ebo, count);
    var tb, uv := TextureBindings(ts, |ts|), UniformValues(ts, |ts|);
    assert (s.units + tb) + tb == s.units + tb;
    assert (s.uniforms + uv) + uv == s.uniforms + uv;
  }
}
