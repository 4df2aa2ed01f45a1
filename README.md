# Gender-transformation face morph — a Dafny model

The system transforms a live camera feed so that a face looks more feminine or
more masculine. It does this in two places:

- **In the browser**, a face mesh is rendered from the 468 landmark slots of the
  face landmark detector. On every frame, each landmark is mapped from
  normalized image coordinates into clip space (x and y in [-1, 1], z negated).
  Its texture coordinate is set to the matching point of the video frame. Then
  a per-region displacement is applied that grows with the transformation
  intensity:
  - toward "female": the jawline is narrowed and raised, the cheekbones are
    lifted and pushed forward, and the lips are made fuller and raised;
  - for any other target: the jawline is broadened and lowered, and the brow
    ridge is lowered.
- **On the server**, a WebSocket endpoint receives JSON messages. Each message
  carries a data-URI image and the processing parameters. The server decodes
  the frame and runs the landmark detector. For every face it then either
  hands the face to the neural face swapper, or morphs the face geometrically.
  The geometric morph builds two parallel control-point lists for a thin-plate
  spline warp:
  - the truncated pixel positions of the landmarks;
  - a gender-specific displacement table applied to a few of them;
  - eight fixed anchor points on the image border.

The model has five modules:

- `Wrappers` (wrappers.dfy): `Option` and `Result`.
- `Landmarks` (landmarks.dfy): a normalized landmark.
- `FaceMesh` (face_mesh.dfy): the browser-side frame update, modelled as a
  class over the two vertex buffers.
- `Morph` (morph.dfy): building the control points.
- `Endpoint` (endpoint.dfy): the per-message logic of the WebSocket handler.

The vertex buffers are `array<real>` fields of `FaceMesh.Geometry`. The frame
update is a method with a loop. It is proved against the pure per-vertex
specification `FaceMesh.Deform` and `FaceMesh.TextureCoord`, and the lemmas
about those functions carry the geometric properties.

The control points are built by `Morph.ControlPoints`. This method is proved
against `Morph.SourceList` and `Morph.DestinationList`. The displacement
dictionary is modelled as a `Morph.Dict`, which holds its keys in insertion
order next to a map, so that the application loop visits the keys in the same
order as the Python dict. The message logic is pure: `Endpoint.Handle`. Its
foreign steps are parameters:
- what decoding the payload yields;
- whether a detector and a swapper are loaded;
- whether running the detector raises;
- the detected faces;
- whether the swap raises.

Two facts about the code shape the model:
- The four region tables are pairwise disjoint (`FaceMesh.RegionsDisjoint`),
  so an index gets at most one region's rule.
- The component's prop type names `'male' | 'female'`
  (src/components/FaceMesh.tsx:9), but the code tests only for `'female'`, so
  any other string takes the masculinizing branch. The model takes the gender
  as a string and follows the code.

## Model

| member | source | states |
|---|---|---|
| FaceMesh.BaseMapping | src/components/FaceMesh.tsx:47-49 | The clip-space position is invertible back to the landmark: x = (p.x+1)/2, y = (1−p.y)/2, z = −p.z. Coordinates in [0,1] land in [−1,1]. The vertical axis is flipped: the upper half of the image has positive clip-space y. |
| FaceMesh.TextureCoord | src/components/FaceMesh.tsx:43-52 | The texture coordinate is the landmark with its y flipped: the base position equals 2·uv − 1 on both axes, and a landmark inside the unit square has its texture coordinate inside the unit square. |
| FaceMesh.RegionsDisjoint | src/components/FaceMesh.tsx:14-17 | No landmark index belongs to two of the jawline, cheekbone, brow-ridge and lip tables. |
| FaceMesh.RegionsWithinSlots | src/components/FaceMesh.tsx:14-24 | Every index in a region table addresses one of the 468 buffer slots. |
| FaceMesh.FemaleRulesLinear | src/components/FaceMesh.tsx:57-72 | The three sequential female steps add the intensity times a fixed per-vertex direction to the base position. For the jawline, the direction depends on the base x. |
| FaceMesh.MaleRulesLinear | src/components/FaceMesh.tsx:73-83 | For every gender other than "female", the two masculinizing steps add the intensity times a fixed direction to the base position. |
| FaceMesh.DeformIsLinear | src/components/FaceMesh.tsx:47-83 | The deformed position equals the base mapping plus intensity times the reference direction (`Direction`), for every index, gender and intensity. |
| FaceMesh.IdentityAtZero | src/components/FaceMesh.tsx:55-83 | At intensity 0, every vertex sits at its base mapping, whatever the gender. |
| FaceMesh.UntouchedOutsideRegions | src/components/FaceMesh.tsx:57-83 | An index outside the regions its branch consults keeps the base mapping. |
| FaceMesh.FemaleRegions | src/components/FaceMesh.tsx:57-72 | The target "female" gives these offsets: jawline x·(1−0.08k) with y+0.02k; cheekbones y+0.025k and z+0.015k; lips y+0.005k and z+0.01k. Brow-ridge indices and indices in none of these tables are unchanged. |
| FaceMesh.MaleRegions | src/components/FaceMesh.tsx:73-83 | Any gender string other than "female" takes the masculinizing branch: jawline x·(1+0.08k) with y−0.01k; brow ridge y−0.015k. Cheekbone and lip indices, and indices in no table, are unchanged. |
| FaceMesh.DisplacementMonotone | src/components/FaceMesh.tsx:55-83 | For 0 ≤ k1 ≤ k2 and each axis, the displacements from the base position at k1 and at k2 lie on the same side of zero, and the one at k2 is at least as far out: they keep their direction and do not shrink. |
| FaceMesh.JawlineExample | src/components/FaceMesh.tsx:59-77 | A worked jawline vertex with landmark x = 0.7 (base x 0.4): female 0.384 at intensity 0.5 and 0.368 at intensity 1, male 0.432 at intensity 1. |
| FaceMesh.SetXYZ | src/components/FaceMesh.tsx:85 | Writes components 3s..3s+2 of the position buffer, each only when it lies inside the buffer, as a typed array does. Every other element is unchanged. |
| FaceMesh.SetXY | src/components/FaceMesh.tsx:52 | Writes components 2s..2s+1 of the texture-coordinate buffer, each only when inside the buffer. Every other element is unchanged. |
| FaceMesh.DeformVertex | src/components/FaceMesh.tsx:43-83 | The in-place sequence of local updates yields exactly the specified position `Deform`. |
| FaceMesh.Geometry.constructor | src/components/FaceMesh.tsx:23-24 | Creates fresh, zero-filled buffers of 468·3 and 468·2 components, with no geometry attached and no update pending. |
| FaceMesh.Geometry.Attach | src/components/FaceMesh.tsx:95 | Attaches the geometry. The buffers are unchanged. |
| FaceMesh.Geometry.OnFrame | src/components/FaceMesh.tsx:35-91 | With no landmarks or no geometry attached, nothing changes. Otherwise, slot s < min(n, 468) holds `Deform` and `TextureCoord` of landmark s. Every other slot keeps its old contents. Both update flags are set. |
| Morph.Trunc | python_backend/main.py:184-212 | Conversion to an integer truncates toward zero: for r ≥ 0, n ≤ r < n+1; for r < 0, n−1 < r ≤ n. |
| Morph.PixelOf | python_backend/main.py:183-186 | A landmark inside the unit square maps to a pixel with 0 ≤ x ≤ w and 0 ≤ y ≤ h. |
| Morph.PixelBounds | python_backend/main.py:184-185 | A fraction in [0,1] of an extent truncates to a value between 0 and the extent. |
| Morph.MoveTable | python_backend/main.py:189-207 | Every key of the displacement table is a valid landmark index, 0..467. |
| Morph.Dict.Assign | python_backend/main.py:192-195 | A dict assignment keeps the key order and the map in step: a new key is appended, and an existing key keeps its place. |
| Morph.AssignAll | python_backend/main.py:191-194 | The loop over a group leaves the dict equal to the old one overridden by the group, all with one displacement. |
| Morph.BuildMoves | python_backend/main.py:189-207 | Building the dict in source order yields exactly the displacement table for the gender, intensity and image size. |
| Morph.ApplyMoves | python_backend/main.py:209-212 | Visiting the keys in insertion order and adding the truncated displacement to each point with an index below the list length gives `Displaced`: only those points move. |
| Morph.ControlPoints | python_backend/main.py:177-220 | The two lists built imperatively are the source list (pixels, then border) and the destination list (displaced pixels, then border). |
| Morph.ListsShape | python_backend/main.py:183-220 | Both lists have n + 8 entries, and both end with the same eight border anchors. |
| Morph.EntryRelation | python_backend/main.py:183-212 | Source entry i is (int(x·w), int(y·h)). Destination entry i is that point shifted by the truncated displacement when i is a key, and equal to it otherwise. |
| Morph.NoMoveAtZeroIntensity | python_backend/main.py:189-212 | At intensity 0, the destination list equals the source list, for every gender. |
| Morph.NoMoveForOtherGender | python_backend/main.py:189-212 | For a gender that is neither "female" nor "male", the destination list equals the source list. |
| Morph.MoveTableKeys | python_backend/main.py:189-207 | The key sets are fixed by gender: female has the ten jaw points and 205, 123, 159, 386; male has the ten jaw points and 107, 70, 300; any other gender has none. |
| Morph.JawGroupsOpposite | python_backend/main.py:190-204 | The two jaw groups move mirror-symmetrically: opposite dx and equal dy. For positive intensity and width, female pulls the image-right group left and the image-left group right, and male strictly pushes the image-right group right and the image-left group left. |
| Morph.FemaleJawEntries | python_backend/main.py:191-198 | In the female table, the jaw entries keep their group displacements after the later single-key assignments. |
| Morph.MaleJawEntries | python_backend/main.py:201-207 | In the male table, the jaw entries keep their group displacements after the later single-key assignments. |
| Endpoint.ParamDefaults | python_backend/main.py:242-244 | Missing fields default to gender "female", intensity 0.5 and no neural model. Present fields are taken as given. |
| Endpoint.Split | python_backend/main.py:247 | Splitting yields at least one piece, and no piece contains the separator. |
| Endpoint.SplitJoin | python_backend/main.py:247 | Joining the pieces of a split with the separator restores the string. |
| Endpoint.SplitSingle | python_backend/main.py:247 | A string splits into one piece exactly when it lacks the separator, and that piece is the string itself. |
| Endpoint.SplitAfterPrefix | python_backend/main.py:247 | A separator-free prefix followed by the separator becomes the first piece, and the rest splits on its own. |
| Endpoint.SplitFirstPiece | python_backend/main.py:247 | A separator-free text that is followed by nothing or by a separator is the first piece. |
| Endpoint.PayloadDefinedIff | python_backend/main.py:241-247 | The payload exists exactly when the image field is present and contains a comma. |
| Endpoint.PayloadOfDataUri | python_backend/main.py:247 | The payload is the text between the first comma and the next comma, or the end. |
| Endpoint.PayloadOfReply | python_backend/main.py:247-283 | A data URI in the form the service sends back yields its base64 text as payload. |
| Endpoint.ClosedIff | python_backend/main.py:241-288 | The session ends exactly when the image is missing, has no comma, fails to decode with an exception, or the loaded detector raises on the decoded frame. |
| Endpoint.SkippedIff | python_backend/main.py:249-253 | A frame is skipped without a reply exactly when its payload decodes to no image. |
| Endpoint.PassThroughIff | python_backend/main.py:257-284 | A decoded frame is sent back unchanged exactly when no detector is loaded, or the detector runs without raising and finds no face. |
| Endpoint.StepChoice | python_backend/main.py:266-276 | When the detector runs without raising, there is one step per face. A face is swapped exactly when the neural model is requested, a swapper is loaded, the gender is "female" and the swap does not raise. Every other face, including a failed swap, is morphed with its own control points. |

## Left out

- Rendering is not modelled: the React component, the Three.js mesh and material, the video texture, and `computeVertexNormals`. The `needsUpdate` flags are plain booleans.
- The triangulation table is an opaque sequence given to the constructor. The module that holds its data is not part of this model.
- Float32 storage is not modelled. Buffer components are reals, and no rounding to single precision is modelled. Neither is floating-point rounding in the server's arithmetic.
- Landmark lists longer than 468 entries (the detector's 478 points with irises) are not cut off by a precondition. Their extra components are dropped by the typed-array write semantics, as in JavaScript.
- The thin-plate spline warp, the bilateral and sharpening filters, JPEG encoding and base64 encoding/decoding are OpenCV and library code. The model stops at the control points, and decoding is a parameter (`Decoded`).
- The face swapper's internals and the landmark detector are foreign code. Their results are parameters: whether each is loaded, whether detection raises, the detected faces, and whether the swap raises for a face.
- WebSocket I/O is not modelled: accepting the connection, the receive loop, JSON parsing, sending the reply, and the disconnect message. `Endpoint.Handle` models one iteration, and `Closed` stands for leaving the loop.
- A JSON field that is present but null or of another type, and a message that is not an object, are not modelled. Message fields are options of the expected types.
- Negative dictionary keys (Python's negative indexing) are excluded by the requirement on `Morph.ApplyMoves`. The displacement tables never contain one (`Morph.MoveTable`).
- The image size is the same for all faces of a frame. This holds because the warp keeps the frame's shape, which is not itself modelled.
- The number of faces is not limited to the detector's configured maximum.
- The client has no backend mode switch and opens no socket. Its hooks and services, the application setup and the server's debugging script are not part of this model.
