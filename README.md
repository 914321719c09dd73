# Eyeball viewer: OBJ loader and scene rules in Dafny

This project models two parts of a small OpenGL coursework program:

- The `Model` class of `common/model.cpp`, meaning its OBJ-subset loader.
  - `v`, `vt` and `vn` records fill three temporary lists.
  - Each `f a/b/c d/e/f g/h/i` record expands into three triangle corners.
  - Each corner appends one position, one texture coordinate and one normal to three parallel output lists.
  - An out-of-range texture or normal reference gives the zero vector.
  - A face that does not scan as nine integers stops the load with `false`, as does a file that cannot be opened.
  - The constructor loads, then sets up its buffers whether or not the load succeeded.
- The scene rules of `source/coursework.cpp`:
  - the camera move rule of `processInput`: Shift doubles the step, the candidate is put at eye height, and it is accepted only inside the room's square and outside the eyeball's keep-out disk;
  - the first-sample latch and the pitch clamp of `mouseCallback`;
  - the table siren test and the red/blue flashing colour;
  - the six face colours, and the way the room's 36 vertices are drawn as six faces of six vertices.

The files:

- `geometry.dfy` (module `Geometry`) has the vector values.
- `model_loader.dfy` (module `ModelLoader`) describes the input as a stream of `Record`s, one per header token. It has:
  - the reference meaning `Read(rs, n)`: the status and output after the first `n` records, with `Load(rs) == Read(rs, |rs|)`;
  - lemmas about that meaning;
  - the class `Model`. Its `LoadObj` method runs the source's loop over the member lists and is proved equal to `Load`.
- `coursework.dfy` (module `Coursework`) has the move, look and colour rules as functions, lemmas about them, and the class `Scene`. Its methods update the file-scope globals that the source's callbacks change.

One consequence is proved about the program's constants (`Coursework.SirenNeverSounds`). The table and the eyeball share the horizontal centre (0, 0). The siren's trigger radius (1.5) is smaller than the collision keep-out radius (1.0 + 1.5). Every camera position the move rule can reach lies outside that disk, so the siren test can never succeed. The flashing colours are modelled and proved all the same, because they are what the code says.

## Model

| member | source | states |
|---|---|---|
| Geometry.HorizontalDistSq | source/coursework.cpp:131 | the squared distance on the floor plane is never negative. It stands in for the `glm::length` of the x/z difference (see `Coursework.SquaredComparison`) |
| ModelLoader.Positions | common/model.cpp:53-57 | the `v` values among the first n records; there are at most n of them |
| ModelLoader.TexCoords | common/model.cpp:58-62 | the `vt` values among the first n records; there are at most n of them |
| ModelLoader.Normals | common/model.cpp:63-67 | the `vn` values among the first n records; there are at most n of them |
| ModelLoader.LookupUV | common/model.cpp:84-87 | definition; no contract: an in-range 1-based texcoord reference selects its entry, any other gives the zero vector |
| ModelLoader.LookupNormal | common/model.cpp:89-92 | definition; no contract: the same rule for normals |
| ModelLoader.ExpandFace | common/model.cpp:81-93 | definition; no contract: the three corners a face appends (see `ExpandFaceCorner`) |
| ModelLoader.Malformed | common/model.cpp:75-82 | definition; no contract: a face whose scan did not give nine integers, or one with a position reference outside the `v` records read so far |
| ModelLoader.Load | common/model.cpp:33-104 | definition; no contract: the outcome of reading the whole stream (see `LoadedIff`, `FailureStopsAt`, `LoadCount`, `FaceCorners`) |
| ModelLoader.Read | common/model.cpp:48-100 | after any number of records, the three output lists have equal length and hold whole triangles. A failure is an unsupported face or a position out of range, and it names a record already read |
| ModelLoader.CleanPrefixLength | common/model.cpp:48-79 | the clean prefix a load appended from (up to the offending record of a failed load, or the whole stream) is never longer than the stream |
| ModelLoader.ReadsOnlyPrefix | common/model.cpp:48-100 | the outcome and the temporary lists after n records depend only on those n records; a later `v`/`vt`/`vn` record never affects an earlier face |
| ModelLoader.FailureIsFinal | common/model.cpp:75-79 | once the load has failed, further records change neither the status nor the appended lists |
| ModelLoader.ReadExtends | common/model.cpp:34-36 | reading more records only appends to the output lists; nothing already appended changes |
| ModelLoader.ReadKeeps | common/model.cpp:81-93 | an entry appended by the first k records stays at its index after any further records |
| ModelLoader.FailureStopsAt | common/model.cpp:75-79 | a failed load stopped at its offending record: the records before it loaded, that record is malformed, the error is the one for that record, and the output is exactly that of the records before it |
| ModelLoader.ReadLoadedIff | common/model.cpp:75-79 | reading n records succeeds if and only if none of them is malformed |
| ModelLoader.LoadedIff | common/model.cpp:102-103 | `loadObj` returns true on an opened file if and only if no record is a malformed face |
| ModelLoader.ReadCount | common/model.cpp:81-93 | a clean prefix appends exactly three corners per face record in it |
| ModelLoader.LoadCount | common/model.cpp:68-94 | the output holds three entries per face consumed before the load stopped, and three per face of the stream when it succeeded |
| ModelLoader.AppendedAt | common/model.cpp:82-92 | entry j of the appended corners lands at index (old length + j) of each output list |
| ModelLoader.ExpandFaceCorner | common/model.cpp:81-93 | corner j of an expanded face is the referenced position; its uv and normal are the referenced entries when the 1-based reference is in range and the zero vector otherwise |
| ModelLoader.FaceCornerRead | common/model.cpp:81-93 | right after a face that loaded, its corner j sits at index 3 * (faces before it) + j, with the referenced position and the guarded uv and normal lookups |
| ModelLoader.FaceCorners | common/model.cpp:81-93 | corner j of a face that loaded sits at index 3 * (faces before it) + j of all three final lists. Its position is the referenced earlier `v` value. Its uv (normal) is the referenced earlier `vt` (`vn`) value when 0 < index <= list length, and zero otherwise |
| ModelLoader.NonFaceLeavesOutput | common/model.cpp:53-99 | `v`, `vt`, `vn` and skipped records append nothing to the output; a skipped line changes none of the six lists |
| ModelLoader.MissingTexCoordsAreZero | common/model.cpp:84-87 | with no `vt` record, every uv of the output is the zero vector |
| ModelLoader.MissingNormalsAreZero | common/model.cpp:89-92 | with no `vn` record, every normal of the output is the zero vector |
| ModelLoader.WholeTriangles | common/model.cpp:81-93 | appending whole aligned triangles to aligned whole triangles keeps both properties |
| ModelLoader.FaceStep | common/model.cpp:68-94 | reading a well-formed face after a clean prefix succeeds and appends exactly that face's expansion |
| ModelLoader.FaultStep | common/model.cpp:75-79 | a malformed record after a clean prefix decides the whole load: that record's error, and the output of the prefix |
| ModelLoader.AppendAfter | common/model.cpp:81-93 | appending in two steps equals appending the concatenation |
| ModelLoader.Model.constructor | common/model.cpp:12-18 | the member lists are those of `Load` on an opened file and empty otherwise; the buffers are set up in both cases, and afterwards, from the loaded lists (`uploaded == Contents()`); the lists are aligned whole triangles |
| ModelLoader.Model.LoadObj | common/model.cpp:33-104 | an unopenable file returns the open error and changes nothing. Otherwise the status is `Load`'s, and the member lists gain exactly `Load`'s output; alignment and whole triangles are preserved |
| ModelLoader.Model.AppendFace | common/model.cpp:81-93 | the three-corner loop appends exactly the face's expansion to the member lists |
| ModelLoader.Model.SetupBuffers | common/model.cpp:106-132 | afterwards the buffers are set up and hold the current lists; the lists are untouched |
| ModelLoader.Model.Draw | common/model.cpp:20-24 | the draw covers the vertex range from 0 to the vertex count, which is the number of vertices uploaded and a multiple of three |
| Coursework.Speed | source/coursework.cpp:112-114 | the step is positive, and with Shift it is exactly twice the plain step |
| Coursework.Candidate | source/coursework.cpp:118-125 | the candidate position is always at eye height 0.3 |
| Coursework.CandidateDisplacement | source/coursework.cpp:118-123 | the candidate's x and z are the position plus the step times (W minus S) along the flat front, plus the step times (D minus A) along the right vector |
| Coursework.NetStep | source/coursework.cpp:120-123 | proof step of `CandidateDisplacement`: a real identity folding a key pair's added and subtracted step into the step times the difference of the key counts |
| Coursework.WithinBounds | source/coursework.cpp:127-129 | definition; no contract: x and z strictly inside (-29.5, 29.5) |
| Coursework.Collides | source/coursework.cpp:131-132 | definition; no contract: the horizontal distance to the eyeball is below its radius plus 1.5, compared on squares |
| Coursework.Move | source/coursework.cpp:127-135 | from a safe position, the next position is safe again |
| Coursework.MoveAcceptance | source/coursework.cpp:127-135 | the camera moves to the candidate exactly when the candidate is inside the room's square and outside the keep-out disk, and stays put otherwise; a move always lands at eye height on a safe position |
| Coursework.ShiftDoublesStep | source/coursework.cpp:112-123 | with Shift, the horizontal displacement of the candidate is exactly twice that without it |
| Coursework.SquaredComparison | source/coursework.cpp:131-132 | for non-negative values, comparing lengths decides the same as comparing their squares |
| Coursework.InitialPositionSafe | source/coursework.cpp:15 | the initial camera position is inside the square and outside the keep-out disk |
| Coursework.WalkStaysSafe | source/coursework.cpp:111-139 | after any sequence of input frames, the camera is still inside the room's square and outside the eyeball's disk |
| Coursework.ClampPitch | source/coursework.cpp:156-157 | the pitch lies in [-89, 89] afterwards and is unchanged when already inside |
| Coursework.ClampIsNearest | source/coursework.cpp:156-157 | the clamped pitch is the point of [-89, 89] nearest to the raw pitch |
| Coursework.MouseMove | source/coursework.cpp:141-157 | a sample clears the latch and records the cursor; the first sample changes neither yaw nor (beyond clamping) pitch; a later one adds 0.1 times the cursor offsets to yaw and pitch, with the pitch clamped |
| Coursework.YawFollowsCursor | source/coursework.cpp:141-153 | after any samples, the yaw has moved by 0.1 times the cursor's total horizontal travel since the seed (the first sample when the latch was set, the stored `lastX` otherwise) |
| Coursework.SirenOn | source/coursework.cpp:73-74 | definition; no contract: the horizontal distance to the table is below the trigger radius, compared on squares |
| Coursework.SafeSilencesSiren | source/coursework.cpp:73-74 | no position the move rule allows is within the table's trigger radius |
| Coursework.SirenNeverSounds | source/coursework.cpp:73-74 | on every reachable camera position the siren test fails |
| Coursework.FMod1 | source/coursework.cpp:78 | `fmod(t, 1.0)` lies strictly between -1 and 1, takes the sign of t, and differs from t by a whole number |
| Coursework.AlarmColour | source/coursework.cpp:78 | the flashing colour is red or blue, and red exactly in the first half of each second |
| Coursework.AlarmPeriodic | source/coursework.cpp:78 | the flashing colour repeats every second |
| Coursework.AlarmAlternates | source/coursework.cpp:78 | half a second later the flashing colour is the other one |
| Coursework.Tint | source/coursework.cpp:198 | definition; no contract: the flashing colour with the siren on, white otherwise |
| Coursework.FaceColour | source/coursework.cpp:201 | definition; no contract: the tint with the siren on, base colour i otherwise (see `SirenColouring`) |
| Coursework.BulbColour | source/coursework.cpp:78 | definition; no contract: the flashing colour with the siren on, yellow otherwise (see `SirenColouring`) |
| Coursework.SirenColouring | source/coursework.cpp:193-201 | for the same clock reading: while the siren sounds, every face shows the bulbs' colour, which is red or blue; while it is silent, face i shows base colour i and the bulbs are yellow. The program reads the clock twice per frame (lines 78 and 198), which `Scene.RenderFrame` models with two readings |
| Coursework.RenderRoom | source/coursework.cpp:193-204 | six draw calls of six vertices: call i starts at 6i, consecutive calls abut, and together they cover the 36 room vertices. Each call's colour is the flashing colour with the siren on, and base colour i otherwise |
| Coursework.Scene.constructor | source/coursework.cpp:15-22 | the globals start at their initial values and the state is valid |
| Coursework.Scene.ProcessInput | source/coursework.cpp:111-139 | the camera moves by the move rule; the look state is untouched; the window is asked to close when Escape is down; validity is kept |
| Coursework.Scene.MouseCallback | source/coursework.cpp:141-157 | the look state follows `MouseMove`; the camera is untouched; validity is kept |
| Coursework.Scene.RenderFrame | source/coursework.cpp:63-101 | one frame applies the move rule, then tests the siren on the new position. It issues the room's six draw calls and picks the bulbs' colour. From a valid state the new state is valid and the siren is off |

## Left out

- OpenGL and GLFW calls are not modelled: buffer and vertex-array creation, uploads, uniforms, `glDrawArrays` itself, window creation, event polling and buffer swapping. `SetupBuffers` only records that the buffers exist and, as ghost state, which lists they were filled from; `Draw` returns the range it would draw.
- `Model::deleteBuffers` (common/model.cpp:26-31) only releases GL objects, so it is not modelled.
- The text level of `fscanf` is not modelled: tokenising headers, scanning floats, and `%d` into `unsigned int`. The stream arrives as `Record`s.
  - A face whose scan did not yield nine integers, including one cut short by end of file, is the record `BadF`.
  - Face indices are 32-bit unsigned values (`u32`), so a reference of 0 is out of range.
- ModelLoader.Model.LoadObj: the source indexes `tempVertices` without a bounds check (common/model.cpp:82), which is undefined behaviour for a bad position reference. The model makes it an explicit `PositionOutOfRange` failure, checked on all three corners before any corner of the face is appended.
- The `std::cerr` messages of the loader and the constructor are not modelled.
- Floating point is modelled as real arithmetic: `float` rounding, the `(float)` casts of the cursor position, and `glm::normalize`.
  - The move rule compares squared horizontal distances; `SquaredComparison` shows this decides the same as comparing lengths.
- The view direction is not modelled: how `mouseCallback` recomputes `cameraFront` with trigonometry, and how `processInput` derives the flattened front and right vectors from it. Those two vectors are inputs of `ProcessInput`.
- The key states, cursor positions and `glfwGetTime()` readings are inputs.
- The matrices (view, projection, model transforms) of every draw are not modelled, and neither is the shader loading.
- Of the constant draws, only the room's face layout and colours and the bulbs' colour are modelled; the room's corner coordinates, the stand and bulb transforms and the eyeball's colour are not.
- The main loop runs until the window closes. That is modelled one frame at a time (`RenderFrame`) and as sequences of frames and cursor samples (`Walk`, `Samples`).
