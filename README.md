# Mesh: texture-uniform numbering and the use-count state machine

A model of the `Mesh` class of LearnOpenGL's `sample25/mesh.h`. The class
holds a mesh's vertices, indices and textures. It also holds the three
OpenGL object names made from them (vertex buffer, index buffer, vertex
array) and a use count.

Every OpenGL call is an event appended to the ghost trace of a `Gl.Context`.
The events have no behaviour of their own. `Gl.Run` interprets the binding
state that events change: bound buffers and arrays, the active texture unit,
texture units, integer uniforms and submitted draws. It is an independent
reading of what a trace does. The model has four modules:

- `Gl`: the command vocabulary, the interpreter, and the `Context` class
  that records commands and hands out fresh object names.
- `Uniforms`: the rule `Mesh::draw` uses to name each texture's sampler
  uniform, `"material." + type + number`. The number is stated directly:
  the texture's 1-based position among textures of the same type, counted
  over the textures before it.
- `DrawCommands`: the command sequence one draw issues, and what it does
  to the binding state.
- `Meshes`: the `Mesh` class. Its construction, `incRef`, `release`,
  copy-assignment and `draw` are methods that update the fields in place
  and append to the trace. The draw loop uses the source's two running
  counters and is proved to issue exactly the specified sequence.

Two points where the code differs from what a reader might expect. The model
follows the code in both.

- A texture of any type other than `texture_diffuse` or `texture_specular`
  gets an empty number, not `0`, and advances no counter.
- `release` is not idempotent on the count. A release after the final one
  issues no further deletes, but drives the count below 0
  (`Meshes.ReleasedTwice`).

Copy-assignment copies the source's count instead of sharing it. So after
`a = b`, destroying both meshes leaves each count at 1 and never deletes
`b`'s objects (`Meshes.AssignedCopiesLeak`). The destructor at
sample25/mesh.h:195-198 is one call of `release`, modelled by
`Meshes.Mesh.Release`.

## Model

| member | source | states |
|---|---|---|
| Gl.Context.GenBuffer | sample25/mesh.h:127 | returns the context's next name, which is non-zero and differs from every name generated before, advances the next name by one, and records the generation |
| Gl.Context.GenVertexArray | sample25/mesh.h:137 | returns the context's next name as a vertex-array name, which is non-zero and differs from every name generated before, advances the next name by one, and records the generation |
| Uniforms.NatToString | sample25/mesh.h:160-164 | the decimal rendering of a counter value (`std::to_string`): never empty, one character exactly for values below 10, digits only |
| Uniforms.UniformName | sample25/mesh.h:156-166 | the sampler name of texture `i` starts with `"material."` followed by its type, and is longer than that when the type is diffuse or specular, so a number follows |
| Uniforms.NatToStringInjective | sample25/mesh.h:160-164 | different counter values render as different decimal strings |
| Uniforms.CountersGiveNumbers | sample25/mesh.h:150-166 | the two running counters give the name of texture `i` as the count-based rule specifies; each counter advances by one exactly when texture `i` has its type |
| Uniforms.NumbersIncreaseInOrder | sample25/mesh.h:153-165 | within one type, a later texture gets a strictly larger number |
| Uniforms.NumbersCoverKind | sample25/mesh.h:150-165 | every number from 1 to the count of a type is given to some texture of that type |
| Uniforms.NumberWithinKind | sample25/mesh.h:150-165 | no number exceeds the count of textures of its type |
| Uniforms.NumberedNamesDistinct | sample25/mesh.h:156-166 | two different diffuse or specular textures never share a uniform name |
| Uniforms.UnnumberedName | sample25/mesh.h:156-166 | a texture of any other type is named `"material." + type` and leaves both counters unchanged |
| Uniforms.DiffuseSpecularDiffuse | sample25/mesh.h:150-166 | types diffuse, specular, diffuse give `material.texture_diffuse1`, `material.texture_specular1`, `material.texture_diffuse2` |
| Uniforms.UnrecognisedTypeCanCollide | sample25/mesh.h:157-166 | a texture of type `texture_diffuse1` gets the same uniform name as the first diffuse texture |
| DrawCommands.TextureSetup | sample25/mesh.h:153-168 | the loop's commands for the first `n` textures: three per texture |
| DrawCommands.Submit | sample25/mesh.h:169-174 | the six commands after the loop, the fourth of which draws `count` indices |
| DrawCommands.DrawTrace | sample25/mesh.h:148-175 | everything one draw issues: three commands per texture, then the six-command tail whose fourth command draws `count` indices |
| DrawCommands.TextureSetupShape | sample25/mesh.h:153-168 | the texture loop issues exactly three commands per texture, in list order |
| DrawCommands.TextureCommandsCounts | sample25/mesh.h:155-167 | one texture's commands hold one uniform set, one texture bind and no draw |
| DrawCommands.TextureSetupCounts | sample25/mesh.h:153-168 | the loop over `n` textures sets `n` uniforms, binds `n` textures and draws nothing |
| DrawCommands.SubmitCounts | sample25/mesh.h:169-174 | the commands after the loop set no uniform, bind no texture and draw once |
| DrawCommands.DrawCommandCounts | sample25/mesh.h:153-172 | a draw sets one uniform and binds one texture per texture, and draws exactly once, also with no textures |
| DrawCommands.TextureBindingsAt | sample25/mesh.h:155-167 | the loop leaves texture `k` bound on unit `k` for every `k`, and touches no other unit |
| DrawCommands.UniformValuesKeys | sample25/mesh.h:166 | every texture's uniform name is set |
| DrawCommands.UniformValuesFromTextures | sample25/mesh.h:166 | only texture uniform names are set, each to the unit of a texture with that name |
| DrawCommands.UniformValuesLast | sample25/mesh.h:153-166 | a uniform name holds the unit of the last texture that has that name |
| DrawCommands.NumberedUniformsHoldUnits | sample25/mesh.h:150-167 | when every texture is diffuse or specular, each texture's sampler uniform holds that texture's unit |
| DrawCommands.RunTextureCommands | sample25/mesh.h:155-167 | one texture's commands make unit `k` active, set its uniform to `k` and bind the texture there |
| DrawCommands.RunTextureSetup | sample25/mesh.h:153-168 | the texture loop merges the texture bindings and uniform values into the state and leaves everything else except the active unit unchanged |
| DrawCommands.RunSubmit | sample25/mesh.h:169-174 | the tail leaves unit 0 active, records one draw of `count` indices with the mesh's vertex array and index buffer bound, then unbinds both |
| DrawCommands.DrawEffect | sample25/mesh.h:148-175 | the whole state after one draw: unit 0 active, vertex array and index buffer unbound, textures bound on their units, uniforms set, one draw added; nothing else changes |
| DrawCommands.DrawTwice | sample25/mesh.h:148-175 | a second identical draw changes nothing except adding one more draw submission |
| Meshes.SetupTrace | sample25/mesh.h:125-147 | the 18 commands the set-up issues once it holds its three names |
| Meshes.ReleaseDeletions | sample25/mesh.h:26-42 | the deletes of the final release: one per non-zero name field |
| Meshes.SetupTraceShape | sample25/mesh.h:125-147 | setting up makes the vertex buffer, index buffer and vertex array names in that order and deletes nothing |
| Meshes.ReleaseDeletionsCount | sample25/mesh.h:24-42 | the final release deletes each non-zero field's name once per field holding it, and nothing else |
| Meshes.ReleaseDeletesEachNameOnce | sample25/mesh.h:22-45 | the final release only deletes; every non-zero name is deleted exactly once per field that holds it; name 0 is never deleted |
| Meshes.Mesh.constructor | sample25/mesh.h:48-52 | stores the data, starts the count at 1, and leaves three fresh increasing names and the set-up trace |
| Meshes.Mesh.SetupMesh | sample25/mesh.h:125-147 | obtains three fresh names (vertex buffer, index buffer, vertex array) and issues exactly the upload and layout commands |
| Meshes.Mesh.UploadVertices | sample25/mesh.h:127-130 | a fresh buffer name receives the vertices as array buffer data |
| Meshes.Mesh.UploadIndices | sample25/mesh.h:132-135 | a fresh buffer name receives the indices as element buffer data |
| Meshes.Mesh.SetupVertexArray | sample25/mesh.h:137-146 | a fresh vertex array records the vertex buffer and attribute slots 0, 1, 2 with 3, 3 and 2 components |
| Meshes.Mesh.IncRef | sample25/mesh.h:18-21 | the count goes up by exactly one and nothing else changes |
| Meshes.Mesh.Release | sample25/mesh.h:22-45 | from a count of 1: the non-zero names are deleted, and names and count end at 0; from any other count: the count drops by one, and names and trace are unchanged |
| Meshes.Mesh.Assign | sample25/mesh.h:89-106 | self-assignment changes nothing; otherwise the target is released, the source's count goes up by one, and the target takes the source's data, names and new count |
| Meshes.Mesh.Draw | sample25/mesh.h:148-175 | the loop with two running counters issues exactly `DrawTrace` of the mesh's textures, vertex array, index buffer and index count |
| Meshes.Mesh.SubmitDraw | sample25/mesh.h:169-174 | issues exactly `Submit` for this mesh's vertex array, index buffer and index count |
| Meshes.ReleasedTwice | sample25/mesh.h:22-45 | releasing a fresh mesh twice deletes its names once, issues nothing the second time, and leaves the count at -1 |
| Meshes.AssignedCopiesLeak | sample25/mesh.h:89-106 | after copy-assigning one fresh mesh to another and destroying both, the source's three names were made but never deleted |

## Left out

- The copy and move constructors (sample25/mesh.h:54-87) are not modelled. They call `release` on an object whose count was never initialised, which is undefined behaviour.
- The move-assignment operator (sample25/mesh.h:107-123) is not modelled separately. Its body is the same as copy-assignment's, so `Meshes.Mesh.Assign` describes it too.
- The getters `getVao`, `getEbo`, `getIndices` and `getTextures` (sample25/mesh.h:178-192) are left out. They only return fields.
- The behaviour of OpenGL itself is left out. Calls are recorded events; `Gl.Run` interprets only the binding state they change.
- `Gl.Step` keeps the index-buffer binding as state of the context, while OpenGL stores it in the bound vertex array. The claim of `DrawCommands.DrawEffect` and `DrawCommands.RunSubmit` that the index buffer ends unbound relies on this simplification.
- `Gl.Step` gives `VertexAttribPointer`, `EnableVertexAttribArray` and the buffer uploads no effect on the interpreted state; the attribute layout recorded in a vertex array is not interpreted.
- Buffer contents are left out. The model records element counts, not the bytes uploaded, the `sizeof`/`offsetof` strides and offsets, or `GL_FLOAT`/`GL_STATIC_DRAW` arguments.
- Reading `&mVertecis[0]` of an empty vector is left out. That is undefined behaviour in the source.
- `shader.h`, `texture.h` and `vertex.h` are not part of this model. A texture is its type string and texture name. A shader is the uniform map of the context.
- `Gl.Context.GenBuffer`: names come from a counter that only increases, while real OpenGL may hand out a deleted name again.
- `Gl.Context.GenVertexArray`: buffers and vertex arrays draw from one shared counter, while OpenGL keeps separate name spaces for them; the ordering `vbo < ebo < vao` in the contracts of `Meshes.Mesh.constructor` and `Meshes.Mesh.SetupMesh` holds only in this model.
- `Meshes.Mesh.IncRef`: the count is an unbounded integer; the source's `int` overflow is not modelled.
- `Meshes.Mesh.Release`: the count is an unbounded integer, so the wrap-around of a count driven far below 0 is not modelled.
- `Meshes.Mesh.Draw`: the two `unsigned int` counters and the texture unit are unbounded; wrap-around after 2^32 textures is not modelled. The index count is also kept whole: `glDrawElements` takes it as a `GLsizei`, so the source narrows `mIndeices.size()` and changes any count above 2^31-1, while `DrawTriangles(|indices|)` keeps the full value.
- `Meshes.Mesh.Draw`: `GL_TEXTURE0 + i` is recorded as the unit number `i`.
- Index values are not checked against the vertex count; the source does not check them either.
