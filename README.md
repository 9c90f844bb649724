# XGL core, modelled in Dafny

XGL is a small C++ OpenGL wrapper. This project models the part of it that is
plain bookkeeping and state logic and does not depend on GL. It proves what that
logic promises.

- **Buffer** (`BufferObject`, buffer.dfy) keeps a vertex-attribute table:
  - the table is sorted by attribute index, and a duplicate index is refused;
  - byte offsets and the stride are computed from a list of attribute formats;
  - the vertex-buffer handles form a list, and there is at most one element-buffer handle.
- **Object** (`ObjectModel`, object.dfy) holds:
  - four model-data lists, the attached textures and the world-transform state;
  - `genBuffer`, which validates the lists, interleaves the vertex data (position, then optional normal, then optional texture coordinate) and copies the index list.
- **Texture-unit chooser** (`TextureUnits`, texture_units.dfy): `addTexture(tex, name)` finds the first unit no texture uses. It places values in an array by in-place swaps, cycle by cycle.
- **Camera** (`CameraModel`, camera.dfy) keeps a current value, a target value and a smoothing constant for its position, its Euler angles and its field of view.
  - Setters, moves, rotations and zoom change only targets (and the lens settings).
  - `update(deltaT)` blends every current value toward its target with factor `k = 1 / (1 + s / deltaT)`, then recomputes the view and projection matrices.
- **Value helpers**: the fixed-size vectors `Vec2`/`Vec3`/`Vec4` (`Vectors`, vectors.dfy) with their composition constructors and component accessors, the `Mat4` value (`Matrices`, matrices.dfy), and `PI` with the degree/radian conversions (`Tool`, tool.dfy).

How the model is built:

- Objects the source updates in place (`Buffer`, `Object`, `Camera`) are Dafny classes.
  - Field-granular `modifies` clauses state which fields each method may change.
  - `Valid()` states the class invariant: the attribute table stays ascending by index; pitch and fov, current and target, stay in range; smoothing constants are never negative; view and axes agree with the current pose.
- The loops of the source are methods with loop invariants, over arrays where the source uses raw buffers:
  - the offset prefix sums;
  - the iterator scan of `addFormat`;
  - the in-place unit chooser;
  - the `memcpy` interleaving loops;
  - the index copy.
- Exceptions become an explicit `Outcome` result (`Pass` or `Fail(error)`, outcome.dfy).
- Warnings printed on `std::cerr` become a returned `warned` flag.
- Floats are reals.
- `sin`, `cos`, `tan`, `atan`, `View::euler` and `Projection::perspFov` are uninterpreted: they are fields of an `ExternalMath` value handed to the camera. Everything proved about the camera holds for any such functions.

## Model

| member | source | states |
|---|---|---|
| Tool.DegToRad | include/Math/Tool.h:9 | degrees to radians: rad * 180 = deg * PI; the sign is kept |
| Tool.RadToDeg | include/Math/Tool.h:12 | radians to degrees: deg * PI = rad * 180; the sign is kept |
| Tool.DegRadRoundTrip | include/Math/Tool.h:9-12 | radToDeg(degToRad(d)) = d and degToRad(radToDeg(r)) = r |
| Tool.DegToRadLandmarks | include/Math/Tool.h:6-9 | degToRad maps 0 to 0, 180 to PI, 90 to PI/2 and 45 to PI/4 |
| Tool.ConversionsStrictlyIncreasing | include/Math/Tool.h:9-12 | both conversions are strictly increasing |
| Tool.ConversionsAdditive | include/Math/Tool.h:9-12 | both conversions are additive for all reals, so they are linear |
| Tool.DefaultFovInRange | include/Math/Tool.h:9 | the camera's default fov degToRad(45) lies in [PI/18, 2PI/3] |
| Vectors.Vec2Of | include/Math/Vector.h:101-104 | Vec2(x, y) reads back x through x() and y through y() |
| Vectors.Vec3Of | include/Math/Vector.h:112 | Vec3(x, y, z) reads back x, y, z through x(), y(), z() |
| Vectors.Vec3FromXYAndZ | include/Math/Vector.h:113 | Vec3(xy, z) is xy followed by z |
| Vectors.Vec3FromXAndYZ | include/Math/Vector.h:114 | Vec3(x, yz) is x followed by yz |
| Vectors.Vec4Of | include/Math/Vector.h:129 | Vec4(x, y, z, w) reads back its four components |
| Vectors.Vec4FromXYZAndW | include/Math/Vector.h:130 | Vec4(xyz, w) is xyz followed by w |
| Vectors.Vec4FromXAndYZW | include/Math/Vector.h:131 | Vec4(x, yzw) is x followed by yzw |
| Vectors.Vec4FromXYAndZAndW | include/Math/Vector.h:132 | Vec4(xy, z, w) is xy followed by z, w |
| Vectors.Vec4FromXAndYZAndW | include/Math/Vector.h:133 | Vec4(x, yz, w) is x, then yz, then w |
| Vectors.Vec4FromXAndYAndZW | include/Math/Vector.h:134 | Vec4(x, y, zw) is x, y followed by zw (the intended reading, see Left out) |
| Vectors.CompositionsAgree | include/Math/Vector.h:112-134 | every composition constructor equals the all-scalar constructor of the same components |
| Vectors.WithX | include/Math/Vector.h:103 | writing through x() sets slot 0 and keeps the length and every other slot |
| Vectors.WithY | include/Math/Vector.h:104 | writing through y() sets slot 1 and keeps the length and every other slot |
| Vectors.WithZ | include/Math/Vector.h:121 | writing through z() sets slot 2 and keeps the length and every other slot |
| Vectors.WithW | include/Math/Vector.h:139 | writing through w() sets slot 3 and keeps the other three slots |
| Vectors.ReadAfterWrite | include/Math/Vector.h:103-139 | x(), y(), z(), w() read back what was last written through the same accessor; a write through one accessor leaves what the others read unchanged |
| Vectors.Add | include/Math/Vector.h:34 | Vec3 + Vec3 is the component-wise sum |
| Vectors.Sub | include/Math/Vector.h:37 | Vec3 - Vec3 is the component-wise difference |
| Vectors.Scale | include/Math/Vector.h:56-58 | scalar * Vec3 scales every component |
| Vectors.SubUndoesAdd | include/Math/Vector.h:34-37 | (a + b) - b = a |
| Matrices.Identity | include/Math/Matrix.h:89 | Mat4::identity() has ones on the diagonal and zeros elsewhere |
| BufferObject.GetTypeSize | src/Core/Object/Object.cpp:27-44 | BYTE/UNSIGNED_BYTE take 1 byte, SHORT/UNSIGNED_SHORT 2, INT/UNSIGNED_INT/FLOAT 4 (each an iff); the -1 result (NO_SUCH_TYPE) is never returned |
| BufferObject.GetTypeGL | src/Core/Object/Object.cpp:46-66 | every type maps to a GL enumerant between GL_BYTE and GL_FLOAT, never GL_FALSE |
| BufferObject.TypeTablesAgree | src/Core/Object/Object.cpp:27-66 | the layout size of a type is the width of the GL type it is handed as, and distinct types get distinct GL types |
| BufferObject.ScanFormat | src/Core/Object/Object.cpp:15-22 | the iterator stops at the first entry whose index equals (found) or exceeds the new index; every entry before it is smaller |
| BufferObject.ScanOnAscending | src/Core/Object/Object.cpp:13-25 | on an ascending table the scan finds the index iff it is already used; otherwise inserting at the stop keeps the table ascending |
| BufferObject.InsertAdds | src/Core/Object/Object.cpp:23 | inserting an entry adds exactly that entry and its index |
| BufferObject.Buffer.constructor | src/Object/Object.h:53 | a new Buffer has EBOHandle 0, no VBO and an empty table |
| BufferObject.Buffer.AddFormat | src/Core/Object/Object.cpp:13-25 | false and no change iff the index is taken; otherwise true, with the table grown by exactly the new entry and still ascending |
| BufferObject.FirstCollisionSpec | src/Core/Object/Object.cpp:91-103 | the first collision of a batch is the first entry whose index is used by the table or by an earlier entry of the batch |
| BufferObject.Buffer.AddFormatsInOrder | src/Core/Object/Object.cpp:137-144 | entries are added in order; INDEX_COLLISION at the first collision, with the entries before it kept (not atomic) |
| BufferObject.ComputeOffsets | src/Core/Object/Object.cpp:76-89 | offset[0] = 0 and offset[i+1] = offset[i] + size_i * typeSize_i, i.e. offset[i] is the prefix sum |
| BufferObject.StructSizeStep | src/Core/Object/Object.cpp:88 | the prefix sum grows by size_i * typeSize_i at each entry |
| BufferObject.StructSizeNonNegative | src/Core/Object/Object.cpp:76-89 | with non-negative sizes the stride is non-negative |
| BufferObject.AttributeWithinStride | src/Core/Object/Object.cpp:93-99 | with non-negative sizes every attribute starts at a non-negative offset and ends within the stride |
| BufferObject.Details | src/Core/Object/Object.cpp:93-99 | entry i gets index, size and normalized of format i, the GL type of its type, structSize = offset[n] and offset = offset[i] |
| BufferObject.Buffer.AddData | src/Core/Object/Object.cpp:68-104 | the VBO handle is pushed first; the details carry the prefix-sum offsets; INDEX_COLLISION at the first collision with the earlier entries and the handle kept |
| BufferObject.Buffer.AddDataDetailed | src/Core/Object/Object.cpp:131-144 | the VBO handle is pushed and the given entries are added in order; INDEX_COLLISION at the first collision, earlier entries kept |
| BufferObject.Buffer.AddIndex | src/Core/Object/Object.cpp:170-176 | INDICES_EXISTED and no change when an EBO exists; otherwise the handle is recorded |
| BufferObject.FreshBufferTakesOneIndexBuffer | src/Object/Object.h:53 | on a new Buffer the first addIndex passes and the second fails with INDICES_EXISTED |
| TextureUnits.Swap | src/Core/Object/Object.cpp:228-230 | two slots exchange their values; the rest is unchanged; the multiset is kept |
| TextureUnits.ChooseUnit | src/Core/Object/Object.cpp:210-238 | the unit is unused, every smaller unit is used, and it is at most the number of textures |
| TextureUnits.CoveredPrefixBound | src/Core/Object/Object.cpp:234-237 | if every natural below u is used then u is at most the number of units (pigeonhole) |
| TextureUnits.IndexAfter | src/Core/Object/Object.cpp:222-224 | the size_t counter after some pre-decrements is always a valid size_t value |
| TextureUnits.AsWrittenOuterLoopOverruns | src/Core/Object/Object.cpp:224 | as written, `(--i) >= 0` always holds; the n-th pre-decrement brings i to 0 and the (n + 1)-th wraps it to 2^64 - 1, past the end of the list |
| ObjectModel.Slot | src/Core/Object/Object.cpp:263 | component c of vertex i sits at stride * i + c, inside the buffer |
| ObjectModel.Attribute | src/Core/Object/Object.cpp:262-278 | reading one attribute back gives n vectors of the attribute's width |
| ObjectModel.MemCopy | src/Core/Object/Object.cpp:263 | memcpy writes the vector at base and leaves every other float unchanged |
| ObjectModel.CopyAttribute | src/Core/Object/Object.cpp:262-263 | each vertex's attribute lands at stride * i + offset; the other attributes of every vertex are unchanged |
| ObjectModel.AttributeRecovers | src/Core/Object/Object.cpp:262-279 | slot-wise placement means de-interleaving gives back the input list |
| ObjectModel.BuildVertexData | src/Core/Object/Object.cpp:251-279 | stride 3·[positions] + 3·[normals] + 2·[texcoords] floats (0 when there is no model data); attribute 0 at byte 0, attribute 1 at byte 12, attribute 2 at byte 12 or 24; the table is ascending; de-interleaving recovers every list |
| ObjectModel.CopyIndices | src/Core/Object/Object.cpp:281-284 | the index buffer is an element-wise copy of the indices |
| ObjectModel.AscendingNeverCollides | src/Core/Object/Object.cpp:286-287 | an ascending table added to one with smaller indices never collides, so genBuffer's addData cannot throw |
| BufferObject.AscendingUnique | src/Core/Object/Object.cpp:13-25 | two tables kept ascending by index with the same entries are equal: the order entries are added in does not change the table |
| ObjectModel.NewBuffer | src/Core/Object/Object.cpp:286-288 | the new buffer's table is exactly the layout's ascending table, with one VBO and one EBO |
| ObjectModel.Object.constructor | src/Object/Object.h:97-99 | identity rotation, scale (1, 1, 1), no model data and no texture |
| ObjectModel.Object.SetModelPositions | src/Object/Object.h:102 | the position list is replaced wholesale; nothing else changes |
| ObjectModel.Object.SetModelNormals | src/Object/Object.h:103 | the normal list is replaced wholesale; nothing else changes |
| ObjectModel.Object.SetModelTexcoords | src/Object/Object.h:104 | the texture-coordinate list is replaced wholesale; nothing else changes |
| ObjectModel.Object.SetModelIndices | src/Object/Object.h:105 | the index list is replaced wholesale; nothing else changes |
| ObjectModel.Object.AddModelPosition | src/Object/Object.h:107 | exactly one position is appended; the other lists are unchanged |
| ObjectModel.Object.AddModelNormal | src/Object/Object.h:108 | exactly one normal is appended; the other lists are unchanged |
| ObjectModel.Object.AddModelTexcoord | src/Object/Object.h:109 | exactly one texture coordinate is appended; the other lists are unchanged |
| ObjectModel.Object.AddModelIndex | src/Object/Object.h:110 | exactly one index is appended; the other lists are unchanged |
| ObjectModel.Object.SetPosition | src/Object/Object.h:112 | only the position changes |
| ObjectModel.Object.SetScaling | src/Object/Object.h:114 | each scale factor is set independently |
| ObjectModel.Object.SetScalingUniform | src/Object/Object.h:115 | all three scale factors become f |
| ObjectModel.Object.GetVertexNum | src/Object/Object.h:121 | the number of indices, not of positions |
| ObjectModel.Object.AddTextureWithUnit | src/Core/Object/Object.cpp:203-208 | exactly one entry with the given unit is appended |
| ObjectModel.Object.AddTexture | src/Core/Object/Object.cpp:210-240 | one entry is appended whose unit is the smallest unused one (0 with no texture), at most the number of textures |
| ObjectModel.Object.GenBuffer | src/Core/Object/Object.cpp:242-292 | MODEL_DATA_MISMATCH iff a non-empty normal or texcoord list differs in length from the positions; otherwise a valid new Buffer with one VBO and one EBO whose table is exactly: attribute 0 (3 floats, not normalized) at byte 0, then attribute 1 (3 floats, normalized) at byte 12 when there are normals, then attribute 2 (2 floats, not normalized) at byte 12 or 24 when there are texcoords, all GL_FLOAT with stride 4 × (3·[positions] + 3·[normals] + 2·[texcoords]) bytes (0 when there is no model data); the vertex data de-interleaves to the inputs and the index data is the index list |
| CameraModel.Clamp | src/Core/Camera/Camera.cpp:74 | the result is in [lo, hi]; it equals x iff x is in range, hi above and lo below |
| CameraModel.ClampIdempotent | src/Core/Camera/Camera.cpp:191 | clamping twice is clamping once |
| CameraModel.ClampMonotone | src/Core/Camera/Camera.cpp:191 | clamping keeps the order of two values |
| CameraModel.NonNegative | src/Core/Camera/Camera.cpp:215 | the stored smoothing constant is max(factor, 0): a negative factor is stored as 0, any other factor as given |
| CameraModel.SmoothingFactor | src/Core/Camera/Camera.cpp:232 | k lies in (0, 1], and k = 1 iff the smoothing constant is 0 |
| CameraModel.Blend | src/Core/Camera/Camera.cpp:233 | the blended value lies between current and target, and is the target when k = 1 |
| CameraModel.BlendStaysInRange | src/Core/Camera/Camera.cpp:233-243 | blending keeps a value in any interval holding both current and target |
| CameraModel.NoSmoothingSnaps | src/Core/Camera/Camera.cpp:228-246 | with smoothing 0 one update reaches the target for any deltaT > 0 |
| CameraModel.SmoothingLags | src/Core/Camera/Camera.cpp:228-246 | with positive smoothing one update moves strictly toward the target without reaching it |
| CameraModel.BlendVec | src/Core/Camera/Camera.cpp:238 | each component of the new position is the blend of that component; the target when k = 1 |
| CameraModel.AlignedMovesLevelAndCancel | src/Core/Camera/Camera.cpp:117-169 | the forward/backward/left/right aligned moves keep the height, up/down change only y, and each is undone by its opposite |
| CameraModel.MoveAlAsWritten | src/Core/Camera/Camera.cpp:176-181 | moveAl as written agrees with the intended aligned shift in x and y, and is off in z by (shift.y - shift.x) · sin(yaw) |
| CameraModel.MoveAlAsWrittenDiverges | src/Core/Camera/Camera.cpp:176-181 | as written, moveAl disagrees with moveRightAl for a sideways shift and with moveUpAl for a vertical one when sin(yaw) is not 0 |
| CameraModel.AlignedShift | src/Core/Camera/Camera.cpp:176-181 | moveAl as intended is moveRightAl by shift.x, then moveUpAl by shift.y, then moveBackwardAl by shift.z |
| CameraModel.BasisShift | src/Core/Camera/Camera.cpp:171-174 | component i moves by shift.x * right[i] + shift.y * up[i] - shift.z * front[i] |
| CameraModel.BasisShiftAlongOneAxis | src/Core/Camera/Camera.cpp:171-174 | a shift along one axis equals moveRight, moveUp or moveBackward by that amount |
| CameraModel.Camera.constructor | src/Core/Camera/Camera.cpp:50-62 | angles and targets 0, fov and target fov PI/4, aspect 16/9, near 0.1, far 100, no smoothing, view = euler(position, 0, 0, 0), projection = perspFov(PI/4, 16/9, 0.1, 100), invariant established |
| CameraModel.Camera.UpdateToAxis | src/Core/Camera/Camera.cpp:30-41 | front is minus row 2 of the view matrix, right is row 0, up is row 1 |
| CameraModel.Camera.UpdateEuler | src/Core/Camera/Camera.cpp:12-16 | view = euler(position, yaw, pitch, roll), and the axes are read from it |
| CameraModel.Camera.UpdateLen | src/Core/Camera/Camera.cpp:25-28 | projection = perspFov(fov, aspect, near, far) |
| CameraModel.Camera.SetPosition | src/Core/Camera/Camera.cpp:64-67 | only the target position changes |
| CameraModel.Camera.SetEuler | src/Core/Camera/Camera.cpp:69-77 | warns iff pitch is outside [-PI/2, PI/2]; target pitch is the clamped value; target yaw and roll as given (roll defaults to 0); current angles untouched |
| CameraModel.Camera.SetLen | src/Core/Camera/Camera.cpp:78-87 | warns iff fov is outside [PI/18, 2PI/3]; target fov is the clamped value; aspect, near, far stored unchecked (defaults 0.1 and 100); current fov untouched |
| CameraModel.Camera.SetFov | src/Core/Camera/Camera.cpp:89-95 | warns iff fov is out of range; target fov is the clamped value |
| CameraModel.Camera.SetAspect | src/Core/Camera/Camera.cpp:97-105 | INVALID_SET_VALUE and aspect unchanged when aspect <= 0; otherwise aspect stored |
| CameraModel.Camera.MoveForward | src/Core/Camera/Camera.cpp:107-110 | target position += distance * front; nothing else changes |
| CameraModel.Camera.MoveBackward | src/Core/Camera/Camera.cpp:112-115 | target position -= distance * front |
| CameraModel.Camera.MoveForwardAl | src/Core/Camera/Camera.cpp:117-121 | target x += distance sin(yaw), target z -= distance cos(yaw) |
| CameraModel.Camera.MoveBackwardAl | src/Core/Camera/Camera.cpp:123-127 | target x -= distance sin(yaw), target z += distance cos(yaw) |
| CameraModel.Camera.MoveLeft | src/Core/Camera/Camera.cpp:129-132 | target position -= distance * right |
| CameraModel.Camera.MoveRight | src/Core/Camera/Camera.cpp:134-137 | target position += distance * right |
| CameraModel.Camera.MoveLeftAl | src/Core/Camera/Camera.cpp:139-143 | target x -= distance cos(yaw), target z -= distance sin(yaw) |
| CameraModel.Camera.MoveRightAl | src/Core/Camera/Camera.cpp:145-149 | target x += distance cos(yaw), target z += distance sin(yaw) |
| CameraModel.Camera.MoveUp | src/Core/Camera/Camera.cpp:151-154 | target position += distance * up |
| CameraModel.Camera.MoveDown | src/Core/Camera/Camera.cpp:156-159 | target position -= distance * up |
| CameraModel.Camera.MoveUpAl | src/Core/Camera/Camera.cpp:161-164 | only target y changes, by +distance |
| CameraModel.Camera.MoveDownAl | src/Core/Camera/Camera.cpp:166-169 | only target y changes, by -distance |
| CameraModel.Camera.Move | src/Core/Camera/Camera.cpp:171-174 | target position moves by shift.x along right, shift.y along up and shift.z against front |
| CameraModel.Camera.MoveAl | src/Core/Camera/Camera.cpp:176-181 | target position moves by the corrected aligned shift (see Findings) |
| CameraModel.Camera.RotateYaw | src/Core/Camera/Camera.cpp:183-186 | target yaw += angle, unclamped |
| CameraModel.Camera.RotatePitch | src/Core/Camera/Camera.cpp:188-192 | target pitch becomes clamp(target pitch + angle) and stays in [-PI/2, PI/2] |
| CameraModel.Camera.RotateRoll | src/Core/Camera/Camera.cpp:194-197 | target roll += angle, unclamped |
| CameraModel.Camera.Rotate | src/Core/Camera/Camera.cpp:199-205 | yaw and roll targets add their deltas, pitch target is clamped; the roll delta defaults to 0 |
| CameraModel.Camera.Zoom | src/Core/Camera/Camera.cpp:207-211 | target fov = clamp(2 atan((1 - coe) tan(target fov / 2))), inside [PI/18, 2PI/3] whatever tan and atan return |
| CameraModel.Camera.SmoothMove | src/Core/Camera/Camera.cpp:213-216 | position smoothing = max(factor, 0) |
| CameraModel.Camera.SmoothRotate | src/Core/Camera/Camera.cpp:218-221 | Euler smoothing = max(factor, 0) |
| CameraModel.Camera.SmoothZoom | src/Core/Camera/Camera.cpp:223-226 | fov smoothing = max(factor, 0) |
| CameraModel.Camera.BlendAngles | src/Core/Camera/Camera.cpp:232-235 | yaw, pitch and roll each blend toward their target by k; pitch stays in range |
| CameraModel.Camera.BlendPosition | src/Core/Camera/Camera.cpp:237-238 | the position blends toward its target by k |
| CameraModel.Camera.BlendFov | src/Core/Camera/Camera.cpp:242-243 | the fov blends toward its target by k and stays in range |
| CameraModel.Camera.Update | src/Core/Camera/Camera.cpp:228-246 | each current value is the blend of old current and target by its own factor; view = euler(new pose); projection = perspFov(new fov, aspect, near, far); targets, smoothing and lens settings untouched; invariant kept |
| CameraModel.Camera.ViewMat | src/Core/Camera/Camera.cpp:248-251 | on a valid camera the view matrix is euler of the current position and angles |
| CameraModel.SnapScenario | src/Core/Camera/Camera.cpp:228-256 | a new camera (no smoothing) moved to (0, 0, 3), turned by 0.5 in yaw and updated once has view euler((0, 0, 3), 0.5, 0, 0), and projectionMat() gives perspFov(PI/4, 16/9, 0.1, 100) |
| CameraModel.ClampScenario | src/Camera/Camera.h:59 | setEuler(0, 10, 0) warns and stores the pitch target PI/2; after rotateRoll(1) sets the roll target to 1, setEuler(0, 10) without a roll sets it back to 0 |

## Left out

- GL calls are not modelled: generating, binding and deleting VAOs, VBOs and EBOs; `glBufferData`; `glVertexAttribPointer`; `glEnableVertexAttribArray`. The handles GL would generate are parameters, never 0.
- The `usage` argument and the raw data pointers of `addData` and `addIndex` are not modelled, since they only reach GL. The index buffer's content is modelled as the copied list.
- `Buffer::bind`, `getHandle` and the destructor are left out: they are GL calls.
- `Object::setRotation` and `Object::modelMat` are left out. They call `Transform::rotate`, `scale` and `translate`, defined in `include/Math/Transform.inl`, which is not part of this model.
- `Object::getTextures` is left out: it only returns the list. Texture loading and generation (`tex.isGenerated()`, `tex.generate()`) is a GL side effect, and a texture is modelled by an identifier.
- The interleaved vertex buffer is modelled as floats, one real per float, not bytes; byte offsets are 4 times the float counts.
- The Camera's `updateAxis`, `updatePosition` and `updateToEuler` are left out, because nothing in the core calls them. In addition, `updateAxis` depends on `View::lookAt`, and `updateToEuler` on `atan2` and `sqrt`.
- sin, cos, tan, atan, `View::euler` and `Projection::perspFov` are uninterpreted functions. No numeric matrix content is proved.
- Float rounding, infinities and NaN are not modelled; all arithmetic is over reals. PI is the source's double literal, taken as an exact real.
- CameraModel.Camera.Update: requires deltaT > 0. The source divides by deltaT, and at 0 it yields infinity or NaN, which reals cannot represent.
- CameraModel.Camera.constructor: the calls to `updateEuler()` and `updateLen()` are written out as direct field initialisation with the same results. The source default-constructs `position` and `target_position` separately; both are taken to be the same vector, given as a parameter, which holds when `IVector()` (in `include/Math/Vector.inl`) is deterministic.
- ObjectModel.Object.constructor: the default-constructed position vector is a parameter. `IVector`'s default constructor is defined in `include/Math/Vector.inl`, which is not part of this model.
- Vectors.Add, Vectors.Sub, Vectors.Scale: the vector operators are defined in `include/Math/Vector.inl`, which is not part of this model. They are taken as component-wise, as their names and the camera's use of them say.
- Matrices.Identity: `Mat4::identity()` is defined in `include/Math/Matrix.inl`, which is not part of this model. It is taken as the identity matrix its name says, read through `operator()(row, col)`.
- Vectors.Vec4FromXAndYAndZW: the source reads `zw.ta[0]`, a member that does not exist. The model uses `zw[0]`, as the other constructors do.
- `IVector`'s other members (arithmetic with scalars, `dot`, `norm`, `normalize`, `cross`, `fill`, the stream operator) are left out. They are defined in `include/Math/Vector.inl`, which is not part of this model.
- Unsigned widths are not modelled: indices, units and handles are `nat`. The size_t wrap-around is modelled only in the unit chooser's outer loop (see Findings).
- BufferObject.StructSize, BufferObject.ComputeOffsets, BufferObject.Details: the stride and offsets are `size_t` in the source, and `size * getTypeSize(type)` is computed in `size_t`. A negative `size` wraps modulo 2^64 there, but stays a negative integer here. For non-negative sizes whose stride fits in 64 bits, the two agree.
- `setFov` is modelled from its definition in Camera.cpp, though `Camera.h` does not declare it.
- The value thrown by `setAspect`, `INVALID_SET_VALUE`, is not declared in `Camera.h`. It is modelled as the camera error `InvalidSetValue`.

## Findings

| source | as written | input that shows it | evidently intended | confidence | as-written member | corrected member |
|---|---|---|---|---|---|---|
| src/Core/Object/Object.cpp:224 | `while ((--i) >= 0)` on a `size_t` i: the guard is always true, so after i reaches 0 the next pre-decrement wraps i to 2^64 - 1 and `list[i]` reads past the array | any call of `addTexture(tex, name)` with at least one texture attached, e.g. one texture (n = 1: i goes 1, 0, 2^64 - 1) | the outer loop runs i from n - 1 down to 0 and stops | not executed | TextureUnits.AsWrittenOuterLoopOverruns | TextureUnits.ChooseUnit |
| src/Core/Camera/Camera.cpp:180 | `moveAl` adds `shift.y() * sin(yaw)` to the z component, so a vertical shift also moves the camera horizontally and a sideways shift has no z part | yaw with sin(yaw) ≠ 0 and shift (0, d, 0), d ≠ 0: z changes by d·sin(yaw) while `moveUpAl(d)` leaves z alone | `shift.x() * sin(yaw)`, so that moveAl(shift) = moveRightAl(shift.x), moveUpAl(shift.y), moveBackwardAl(shift.z) | not executed | CameraModel.MoveAlAsWritten, CameraModel.MoveAlAsWrittenDiverges | CameraModel.AlignedShift, CameraModel.Camera.MoveAl |
