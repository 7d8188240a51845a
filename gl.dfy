/**
 The part of the OpenGL API that a mesh uses, as a vocabulary of commands.

 Every call into the graphics API is an event appended to the trace of a
 `Context`; the commands have no behaviour of their own. `Run` is a small
 interpreter of the binding state those commands change (which buffer, array
 and texture is bound where, which uniform holds which value, which draws were
 submitted), used as an independent reading of what a command sequence does.
 */
module Gl {

  datatype Command =
    | GenBuffer(name: nat)
    | GenVertexArray(name: nat)
    | BindArrayBuffer(buffer: nat)
    | BindElementBuffer(buffer: nat)
    | BindVertexArray(vertexArray: nat)
    | ArrayBufferData(elements: nat)
    | ElementBufferData(elements: nat)
    | VertexAttribPointer(index: nat, components: nat)
    | EnableVertexAttribArray(index: nat)
    | ActiveTexture(unit: nat)
    | BindTexture2D(texture: nat)
    | SetInt(uniform: string, value: int)
    | DrawTriangles(count: nat)
    | DeleteBuffer(buffer: nat)
    | DeleteVertexArray(vertexArray: nat)

  /** One submitted indexed draw: the vertex array and index buffer bound at the time, and the index count. */
  datatype DrawCall = DrawCall(vertexArray: nat, elementBuffer: nat, count: nat)

  /** The binding state of a context; a texture unit absent from `units` has nothing bound. */
  datatype State = State(
    arrayBuffer: nat,
    elementBuffer: nat,
    vertexArray: nat,
    activeUnit: nat,
    units: map<nat, nat>,
    uniforms: map<string, int>,
    draws: seq<DrawCall>)

  function Step(s: State, c: Command): State
  {
    match c
    case BindArrayBuffer(b) => s.(arrayBuffer := b)
    case BindElementBuffer(b) => s.(elementBuffer := b)
    case BindVertexArray(a) => s.(vertexArray := a)
    case ActiveTexture(u) => s.(activeUnit := u)
    case BindTexture2D(t) => s.(units := s.units[s.activeUnit := t])
    case SetInt(name, v) => s.(uniforms := s.uniforms[name := v])
    case DrawTriangles(n) => s.(draws := s.draws + [DrawCall(s.vertexArray, s.elementBuffer, n)])
    case _ => s
  }

  function Run(s: State, trace: seq<Command>): State
    decreases |trace|
  {
    if trace == [] then s else Run(Step(s, trace[0]), trace[1..])
  }

  /** Running two command sequences one after the other is running their concatenation. */
  lemma {:induction false} RunAppend(s: State, a: seq<Command>, b: seq<Command>)
    ensures Run(s, a + b) == Run(Run(s, a), b)
    decreases |a|
  {
    if a == [] {
      assert a + b == b;
    } else {
      assert (a + b)[0] == a[0];
      assert (a + b)[1..] == a[1..] + b;
      RunAppend(Step(s, a[0]), a[1..], b);
    }
  }

  lemma Run3(s: State, a: Command, b: Command, c: Command)
    ensures Run(s, [a, b, c]) == Step(Step(Step(s, a), b), c)
  {
    var s1, s2 := Step(s, a), Step(Step(s, a), b);
    assert [a, b, c][1..] == [b, c] && [b, c][1..] == [c] && [c][1..] == [];
    assert Run(s, [a, b, c]) == Run(s1, [b, c]);
    assert Run(s1, [b, c]) == Run(s2, [c]);
    assert Run(s2, [c]) == Run(Step(s2, c), []);
  }

  /** Updating a map after merging it into another is merging the updated map. */
  lemma MergeUpdate<K, V>(m: map<K, V>, b: map<K, V>, k: K, v: V)
    ensures m + b[k := v] == (m + b)[k := v]
  {
  }

  lemma Associate(a: seq<Command>, b: seq<Command>, c: seq<Command>)
    ensures a + (b + c) == a + b + c
  {
  }

  lemma SliceOfAppend(a: seq<Command>, b: seq<Command>, i: nat, j: nat)
    requires i <= j <= |a|
    ensures (a + b)[i..j] == a[i..j]
    ensures (a + b)[|a|..] == b
  {
  }

  lemma AppendThree(t: seq<Command>, a: Command, b: Command, c: Command)
    ensures t + [a] + [b] + [c] == t + [a, b, c]
  {
  }

  /** The number of commands in `trace` that satisfy `p`. */
  function CountIf(trace: seq<Command>, p: Command -> bool): (r: nat)
    ensures r <= |trace|
  {
    if trace == [] then 0
    else CountIf(trace[..|trace| - 1], p) + (if p(trace[|trace| - 1]) then 1 else 0)
  }

  lemma {:induction false} CountIfAppend(a: seq<Command>, b: seq<Command>, p: Command -> bool)
    ensures CountIf(a + b, p) == CountIf(a, p) + CountIf(b, p)
    decreases |b|
  {
    if b == [] {
      assert a + b == a;
    } else {
      var b' := b[..|b| - 1];
      assert (a + b)[..|a + b| - 1] == a + b';
      CountIfAppend(a, b', p);
    }
  }

  lemma CountIfSingleton(c: Command, p: Command -> bool)
    ensures CountIf([c], p) == if p(c) then 1 else 0
  {
    assert [c][..0] == [];
  }

  lemma CountIfThree(a: Command, b: Command, c: Command, p: Command -> bool)
    ensures CountIf([a, b, c], p) == CountIf([a], p) + CountIf([b], p) + CountIf([c], p)
  {
    assert [a, b, c] == [a] + [b] + [c];
    CountIfAppend([a] + [b], [c], p);
    CountIfAppend([a], [b], p);
  }

  predicate IsSetInt(c: Command) { c.SetInt? }
  predicate IsBindTexture(c: Command) { c.BindTexture2D? }
  predicate IsDraw(c: Command) { c.DrawTriangles? }

  /**
   The current graphics context: the trace of every command issued to it so
   far, and the next object name it will hand out. Names are handed out in
   increasing order starting above 0, so none is 0, and `Valid` keeps every
   name already in the trace below the next one, so none is handed out twice.
   */
  class Context {
    ghost var trace: seq<Command>
    var nextName: nat

    /** Every name handed out so far lies below the next one, which is never 0. */
    ghost predicate Valid()
      reads this
    {
      0 < nextName &&
      forall c :: c in trace && (c.GenBuffer? || c.GenVertexArray?) ==> c.name < nextName
    }

    constructor ()
      ensures Valid() && trace == [] && nextName == 1
    {
      trace := [];
      nextName := 1;
    }

    method GenBuffer() returns (name: nat)
      requires Valid()
      modifies this
      ensures Valid()
      ensures name == old(nextName) && nextName == name + 1
      ensures trace == old(trace) + [Command.GenBuffer(name)]
      ensures forall c :: c in old(trace) && (c.GenBuffer? || c.GenVertexArray?) ==> c.name != name
    {
      name := nextName;
      nextName := nextName + 1;
      trace := trace + [Command.GenBuffer(name)];
    }

    method GenVertexArray() returns (name: nat)
      requires Valid()
      modifies this
      ensures Valid()
      ensures name == old(nextName) && nextName == name + 1
      ensures trace == old(trace) + [Command.GenVertexArray(name)]
      ensures forall c :: c in old(trace) && (c.GenBuffer? || c.GenVertexArray?) ==> c.name != name
    {
      name := nextName;
      nextName := nextName + 1;
      trace := trace + [Command.GenVertexArray(name)];
    }

    /** Records a command that hands out no name. */
    method Issue(c: Command)
      requires Valid()
      requires !c.GenBuffer? && !c.GenVertexArray?
      modifies this`trace
      ensures Valid()
      ensures trace == old(trace) + [c]
    {
      trace := trace + [c];
    }
  }
}
