/**
 The naming rule `Mesh::draw` uses for texture samplers.

 Texture `i` of a mesh is exposed to the shader as the integer uniform
 `"material." + type + number`. For the two recognised types, diffuse and
 specular, `number` is the texture's 1-based position among the textures of
 the same type (two independent counters); any other type gets an empty
 number. Here the number is stated directly, as a count over the textures
 before `i`, rather than as the running counters of the draw loop.
 */
module Uniforms {

  /** A texture as the mesh sees it: its type tag and its GPU texture name. */
  datatype Texture = Texture(kind: string, id: nat)

  const Diffuse: string := "texture_diffuse"
  const Specular: string := "texture_specular"
  const Prefix: string := "material."

  /** The types that carry a number in their uniform name. */
  predicate Numbered(kind: string)
  {
    kind == Diffuse || kind == Specular
  }

  /** How many textures of `ts` have type `kind`. */
  function CountKind(ts: seq<Texture>, kind: string): (r: nat)
    ensures r <= |ts|
  {
    if ts == [] then 0
    else CountKind(ts[..|ts| - 1], kind) + (if ts[|ts| - 1].kind == kind then 1 else 0)
  }

  function Digit(d: nat): (c: char)
    requires d < 10
    ensures '0' <= c <= '9'
  {
    ('0' as int + d) as char
  }

  /** The decimal rendering of `n`, as `std::to_string` gives it for an unsigned value. */
  function NatToString(n: nat): (r: string)
    ensures 0 < |r|
    ensures |r| == 1 <==> n < 10
    ensures forall i :: 0 <= i < |r| ==> '0' <= r[i] <= '9'
  {
    if n < 10 then [Digit(n)] else NatToString(n / 10) + [Digit(n % 10)]
  }

  /** Different numbers render differently. */
  lemma {:induction false} NatToStringInjective(a: nat, b: nat)
    requires NatToString(a) == NatToString(b)
    ensures a == b
  {
    if a < 10 {
      assert |NatToString(b)| == 1;
      assert Digit(a) == NatToString(a)[0] == NatToString(b)[0] == Digit(b);
    } else {
      assert 10 <= b;
      var sa, sb := NatToString(a), NatToString(b);
      assert sa == NatToString(a / 10) + [Digit(a % 10)];
      assert sb == NatToString(b / 10) + [Digit(b % 10)];
      assert Digit(a % 10) == sa[|sa| - 1] == sb[|sb| - 1] == Digit(b % 10);
      assert NatToString(a / 10) == sa[..|sa| - 1] == sb[..|sb| - 1] == NatToString(b / 10);
      NatToStringInjective(a / 10, b / 10);
    }
  }

  /** The 1-based position of texture `i` among the textures of its own type. */
  function TextureNumber(ts: seq<Texture>, i: nat): (r: nat)
    requires i < |ts|
    ensures 1 <= r <= i + 1
  {
    CountKind(ts[..i], ts[i].kind) + 1
  }

  /** The number part of texture `i`'s uniform name. */
  function Suffix(ts: seq<Texture>, i: nat): string
    requires i < |ts|
  {
    if Numbered(ts[i].kind) then NatToString(TextureNumber(ts, i)) else ""
  }

  /** The name of the sampler uniform that receives texture `i`'s unit. */
  function UniformName(ts: seq<Texture>, i: nat): (r: string)
    requires i < |ts|
    ensures Prefix + ts[i].kind <= r
    ensures Numbered(ts[i].kind) ==> |Prefix + ts[i].kind| < |r|
  {
    Prefix + ts[i].kind + Suffix(ts, i)
  }

  lemma CountKindSnoc(ts: seq<Texture>, t: Texture, kind: string)
    ensures CountKind(ts + [t], kind) == CountKind(ts, kind) + (if t.kind == kind then 1 else 0)
  {
    assert (ts + [t])[..|ts|] == ts;
  }

  /**
   The draw loop's two running counters, started at 1 and advanced past each
   texture of their type, give exactly the numbers above.
   */
  lemma CountersGiveNumbers(ts: seq<Texture>, i: nat, diffuseNr: nat, specularNr: nat)
    requires i < |ts|
    requires diffuseNr == CountKind(ts[..i], Diffuse) + 1
    requires specularNr == CountKind(ts[..i], Specular) + 1
    ensures UniformName(ts, i) == Prefix + ts[i].kind +
      (if ts[i].kind == Diffuse then NatToString(diffuseNr)
       else if ts[i].kind == Specular then NatToString(specularNr)
       else "")
    ensures CountKind(ts[..i + 1], Diffuse) + 1 == diffuseNr + (if ts[i].kind == Diffuse then 1 else 0)
    ensures CountKind(ts[..i + 1], Specular) + 1 == specularNr + (if ts[i].kind == Specular then 1 else 0)
  {
    assert ts[..i + 1] == ts[..i] + [ts[i]];
    CountKindSnoc(ts[..i], ts[i], Diffuse);
    CountKindSnoc(ts[..i], ts[i], Specular);
  }

  /**
   Counting over a longer prefix never gives less, and gives strictly more
   when the longer prefix takes in a texture of that type.
   */
  lemma {:induction false} CountKindGrows(ts: seq<Texture>, i: nat, j: nat, kind: string)
    requires i <= j <= |ts|
    ensures CountKind(ts[..i], kind) <= CountKind(ts[..j], kind)
    ensures i < j && ts[i].kind == kind ==> CountKind(ts[..i], kind) < CountKind(ts[..j], kind)
    decreases j
  {
    if i < j {
      CountKindGrows(ts, i, j - 1, kind);
      assert ts[..j] == ts[..j - 1] + [ts[j - 1]];
      CountKindSnoc(ts[..j - 1], ts[j - 1], kind);
    }
  }

  /** The numbers of one type go up in the order the textures appear. */
  lemma NumbersIncreaseInOrder(ts: seq<Texture>, i: nat, j: nat)
    requires i < j < |ts|
    requires ts[i].kind == ts[j].kind
    ensures TextureNumber(ts, i) < TextureNumber(ts, j)
  {
    CountKindGrows(ts, i, j, ts[i].kind);
  }

  /** Every number from 1 to the count of a type is given to some texture of that type. */
  lemma {:induction false} NumbersCoverKind(ts: seq<Texture>, kind: string, n: nat)
    requires 1 <= n <= CountKind(ts, kind)
    ensures exists i :: 0 <= i < |ts| && ts[i].kind == kind && TextureNumber(ts, i) == n
    decreases |ts|
  {
    var last := |ts| - 1;
    var init := ts[..last];
    assert ts[..last] == init;
    if n <= CountKind(init, kind) {
      NumbersCoverKind(init, kind, n);
      var i :| 0 <= i < |init| && init[i].kind == kind && TextureNumber(init, i) == n;
      assert init[..i] == ts[..i];
      assert ts[i].kind == kind && TextureNumber(ts, i) == n;
    } else {
      assert ts[last].kind == kind && TextureNumber(ts, last) == n;
    }
  }

  /** A number never exceeds the count of its type. */
  lemma NumberWithinKind(ts: seq<Texture>, i: nat)
    requires i < |ts|
    ensures TextureNumber(ts, i) <= CountKind(ts, ts[i].kind)
  {
    CountKindGrows(ts, i, |ts|, ts[i].kind);
    assert ts[..|ts|] == ts;
  }

  /** Two different textures of the recognised types never share a uniform name. */
  lemma NumberedNamesDistinct(ts: seq<Texture>, i: nat, j: nat)
    requires i < |ts| && j < |ts| && i != j
    requires Numbered(ts[i].kind) && Numbered(ts[j].kind)
    ensures UniformName(ts, i) != UniformName(ts, j)
  {
    var a, b := ts[i].kind, ts[j].kind;
    if a == b {
      if i < j { NumbersIncreaseInOrder(ts, i, j); } else { NumbersIncreaseInOrder(ts, j, i); }
      if UniformName(ts, i) == UniformName(ts, j) {
        var p := Prefix + a;
        assert UniformName(ts, i)[|p|..] == Suffix(ts, i);
        assert UniformName(ts, j)[|p|..] == Suffix(ts, j);
        NatToStringInjective(TextureNumber(ts, i), TextureNumber(ts, j));
      }
    } else {
      // "material.texture_" is common; the next character is 'd' or 's'
      assert UniformName(ts, i)[17] == a[8];
      assert UniformName(ts, j)[17] == b[8];
    }
  }

  /**
   A texture of any other type is named `"material." + type`, and leaves
   both counters where they were.
   */
  lemma UnnumberedName(ts: seq<Texture>, i: nat)
    requires i < |ts|
    requires !Numbered(ts[i].kind)
    ensures UniformName(ts, i) == Prefix + ts[i].kind
    ensures CountKind(ts[..i + 1], Diffuse) == CountKind(ts[..i], Diffuse)
    ensures CountKind(ts[..i + 1], Specular) == CountKind(ts[..i], Specular)
  {
    assert ts[..i + 1] == ts[..i] + [ts[i]];
    CountKindSnoc(ts[..i], ts[i], Diffuse);
    CountKindSnoc(ts[..i], ts[i], Specular);
  }

  /**
   Diffuse, specular, diffuse: the two counters run independently, giving
   "material.texture_diffuse1", "material.texture_specular1" and
   "material.texture_diffuse2".
   */
  lemma DiffuseSpecularDiffuse(ts: seq<Texture>)
    requires |ts| == 3 && ts[0].kind == Diffuse && ts[1].kind == Specular && ts[2].kind == Diffuse
    ensures UniformName(ts, 0) == Prefix + Diffuse + "1"
    ensures UniformName(ts, 1) == Prefix + Specular + "1"
    ensures UniformName(ts, 2) == Prefix + Diffuse + "2"
  {
    assert Diffuse != Specular by { assert |Diffuse| != |Specular|; }
    assert ts[..0] == [];
    CountersGiveNumbers(ts, 0, 1, 1);
    CountersGiveNumbers(ts, 1, 2, 1);
    CountersGiveNumbers(ts, 2, 2, 2);
    assert NatToString(1) == "1" && NatToString(2) == "2";
  }

  /**
   Type matching is by string equality, so an unrecognised type can still
   produce the name of a numbered texture: a texture of type
   "texture_diffuse1" shadows the first diffuse texture's uniform.
   */
  lemma UnrecognisedTypeCanCollide(d: nat, e: nat)
    ensures var ts := [Texture(Diffuse, d), Texture("texture_diffuse1", e)];
      !Numbered(ts[1].kind) && UniformName(ts, 0) == UniformName(ts, 1)
  {
    var ts := [Texture(Diffuse, d), Texture("texture_diffuse1", e)];
    assert ts[..0] == [];
  }
}
