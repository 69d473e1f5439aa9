# three.go core in Dafny

A Dafny model of the sequential core of three.go, a Go port of the three.js 3D library. It covers three groups:

- **The geometry kernel** (`math/`): Vector2, Vector3, Matrix4, Quaternion and Color arithmetic, and the bounding volumes Box3, Sphere, Plane, Line3 and Frustum. It also covers `Clamp`, `Round`, `GenerateUUID` and the degree/radian conversions of math/Math.go.
- **Mesh bookkeeping**: Face3, Geometry (bounding volumes, ApplyMatrix, face and vertex normals, Normalize, Merge, Copy) and BoxGeometry's `buildPlane` grid with its six calls.
- **Scene-graph state**: Object3D's parent/child lists and the dirty-flag propagation of `UpdateMatrixWorld`, EventDispatcher's per-type listener lists and the Channels bit mask.

Go's `float64` is an exact `real`, and Go's `int` is an unbounded `int`. The exceptions are Channels, whose mask is a `bv64` word, and `Round`, whose `uint64` parity is written out.

Every Go object the source updates in place is a Dafny `class` with the same fields. Each method's `ensures` ties the new state to a pure function over value datatypes (`Vec3`, `Quat`, `Rgb`, `Extent`, `Ball`, `PlaneVal`, `Segment`, `Face`, `Mesh`, `NodeState`), and lemmas prove what the source promises about those functions.

The following are not available exactly, so they arrive as parameters:

- a square root, as `sqrt: real -> real`;
- vector normalisation, as `normalize: Vec3 -> Vec3`;
- the normal matrix, as `normalMatrixOf: Mat4 -> Mat3`;
- random numbers, as `draw: nat -> real`.

Go's `math.Pi` is the constant `Pi`, the decimal 3.141592653589793 (the float64 nearest to pi), taken as an exact real.

Listener callbacks are opaque ids. `DispatchEvent`, `Add` and `Remove` return the sequence of listener calls they make.

Modules follow the source files. Each file's header comment names the Go file it models:

| module | source |
|---|---|
| `MathUtils` | math/Math.go |
| `Vectors` | math/Vector2.go, math/Vector3.go |
| `MatrixElements`, `Matrices` | math/Matrix3.go, math/Matrix4.go |
| `Quaternions` | math/Quaternion.go |
| `Colors` | math/Color.go |
| `Boxes` | math/Box3.go |
| `Spheres` | math/Sphere.go |
| `Planes` | math/Plane.go |
| `Lines` | math/Line3.go |
| `Frustums` | math/Frustum.go |
| `Faces` | core/Face3.go |
| `Geometries` | core/Geometry.go |
| `BoxGeometries` | extras/geometries/BoxGeometry.go |
| `SceneGraph` | core/Object3D.go |
| `Events` | core/EventDispatcher.go |
| `Channels` | core/Channels.go |
| `Slices` | the shared list idioms, `indexOf` and `append(s[:i], s[i+1:]...)` |
| `Wrappers` | `Option`, for nil pointers and optional arguments |

## Model

| member | source | states |
|---|---|---|
| Slices.IndexOf | core/EventDispatcher.go:26-33 | the result is -1 exactly when the value does not occur; otherwise it is a position holding the value with no earlier occurrence |
| Slices.DeletedSplice | core/EventDispatcher.go:55-63 | deleting an occurring value removes one copy, its first, and keeps the rest in order: the list is the result with the value put back at a position before which the result holds none |
| Slices.DeletedAbsent | core/Object3D.go:176-193 | deleting a value that does not occur changes nothing |
| Slices.DeletedAppended | core/EventDispatcher.go:35-63 | deleting a value just appended to a list that lacked it gives back the list |
| Slices.DeletedUnique | core/EventDispatcher.go:55-63 | deleting from a list without repeats keeps it without repeats, and the value no longer occurs |
| Slices.AppendedUnique | core/EventDispatcher.go:35-45 | appending a value the list lacks keeps it without repeats |
| Events.AddRegisters | core/EventDispatcher.go:35-45 | after AddEventListener the listener is registered for the type; a new listener goes last, a known one leaves the list as it was, and other types keep their lists |
| Events.AddIdempotent | core/EventDispatcher.go:35-45 | adding the same listener twice is the same as adding it once |
| Events.RemoveDeletes | core/EventDispatcher.go:55-63 | RemoveEventListener takes out exactly one entry for the listener, at its first position, keeping the others in order; it is a no-op for an unregistered listener, and other types keep their lists |
| Events.DistinctKept | core/EventDispatcher.go:35-63 | adding and removing keep every list free of repeats, and after a removal the listener is no longer registered |
| Events.RemoveUndoesAdd | core/EventDispatcher.go:35-63 | adding a new listener to a type that has a list and then removing it restores every list |
| Events.EventDispatcher.constructor | core/EventDispatcher.go:20-24 | NewEventDispatcher has no types registered |
| Events.EventDispatcher.IndexOfListener | core/EventDispatcher.go:26-33 | the loop returns the first position of the listener, or -1 when it does not occur |
| Events.EventDispatcher.AddEventListener | core/EventDispatcher.go:35-45 | the listeners become WithListener of the old map |
| Events.EventDispatcher.HasEventListener | core/EventDispatcher.go:47-53 | true exactly when the type has a list that holds the listener |
| Events.EventDispatcher.RemoveEventListener | core/EventDispatcher.go:55-63 | the listeners become WithoutListener of the old map |
| Events.EventDispatcher.DispatchEvent | core/EventDispatcher.go:65-81 | for a registered type every listener of a copy of its list is called once, in order, with the dispatcher as the event's target; an unregistered type calls nothing and leaves the event as it was |
| Channels.BitAlone | core/Channels.go:11-13 | 1 << c has exactly one bit set for c < 64 and is 0 for c >= 64 |
| Channels.BitsDistinct | core/Channels.go:11-13 | different channels below 64 occupy different bits |
| Channels.MaskParts | core/Channels.go:3-5 | a mask is determined by its channel-c bit together with all its other bits |
| Channels.EnableSetsBit | core/Channels.go:15-17 | Enable(c) turns bit c on |
| Channels.EnableKeepsOthers | core/Channels.go:15-17 | Enable(c) leaves every other bit as it was |
| Channels.ToggleFlipsBit | core/Channels.go:19-21 | Toggle(c) flips bit c |
| Channels.ToggleKeepsOthers | core/Channels.go:19-21 | Toggle(c) leaves every other bit as it was |
| Channels.DisableClearsBit | core/Channels.go:23-25 | Disable(c) turns bit c off |
| Channels.DisableIdempotent | core/Channels.go:23-25 | Disable(c) twice is Disable(c) once |
| Channels.WideEnable | core/Channels.go:15-17 | a channel of 64 or more shifts the bit out of the word, so Enable keeps the mask |
| Channels.WideToggle | core/Channels.go:19-21 | a channel of 64 or more leaves the mask unchanged under Toggle |
| Channels.WideDisable | core/Channels.go:23-25 | a channel of 64 or more leaves the mask unchanged under Disable |
| Channels.Idempotence | core/Channels.go:15-21 | Enable is idempotent and Toggle twice restores the mask |
| Channels.EnableThenDisable | core/Channels.go:15-25 | enabling an off channel and then disabling it restores the mask; toggling an off channel is enabling it |
| Channels.Channels.constructor | core/Channels.go:7-9 | NewChannels enables channel 0 alone (mask 1) |
| Channels.Channels.Set | core/Channels.go:11-13 | the mask becomes 1 << channel |
| Channels.Channels.Enable | core/Channels.go:15-17 | the mask becomes Enabled of the old mask |
| Channels.Channels.Toggle | core/Channels.go:19-21 | the mask becomes Toggled of the old mask |
| Channels.Channels.Disable | core/Channels.go:23-25 | the mask becomes Disabled of the old mask |
| MathUtils.Clamp | math/Math.go:8-10 | the result is never below min; with min <= max it is the value when inside [min, max] and the nearer bound otherwise; with max < min it is min |
| MathUtils.Trunc | math/Math.go:15 | the integer part from math.Modf: x rounded toward zero, leaving a fraction of x's sign below 1 in size |
| MathUtils.Round | math/Math.go:14-27 | the result is an integer within 0.5 of x, and on a tie it is even |
| MathUtils.RoundIsNearest | math/Math.go:14-27 | no integer is strictly closer to x than Round(x) |
| MathUtils.RadToDeg | math/Math.go:66-71 | the conversion keeps the sign of the angle, and pi radians is 180 degrees |
| MathUtils.RadiansRoundTrip | math/Math.go:59-71 | DegToRad undoes RadToDeg |
| MathUtils.DegToRad | math/Math.go:59-64 | RadToDeg undoes DegToRad, and 180 degrees is pi |
| MathUtils.GenerateUUID | math/Math.go:29-57 | 36 characters: dashes at 8, 13, 18 and 23, the version digit 4 at 14, one of 8, 9, A, B at 19 and an upper-case hex digit everywhere else |
| Vectors.Vec3.WithComponent | math/Vector3.go:41-48 | SetComponent on a value: the indexed component becomes the value and the other two are kept |
| Vectors.Vec3.Sub | math/Vector3.go:98-103 | the difference is the inverse of Add: adding b back (on either side) gives the receiver |
| Vectors.Vec3.SubScalar | math/Vector3.go:105-110 | SubScalar is undone by AddScalar with the same scalar |
| Vectors.Vec3.Scale | math/Vector3.go:126-131 | MultiplyScalar is the componentwise Multiply by (s, s, s) |
| Vectors.Vec3.Min | math/Vector3.go:313-319 | each component is at most both inputs' components and equal to one of them |
| Vectors.Vec3.Max | math/Vector3.go:321-327 | each component is at least both inputs' components and equal to one of them |
| Vectors.Vec3.Clamp | math/Vector3.go:329-335 | with min <= max the result lies between them on every axis; a vector already inside is unchanged |
| Vectors.Vec3.LengthSq | math/Vector3.go:424-426 | the squared length is the vector's dot product with itself and is never negative |
| Vectors.Vec3.DistanceToSquared | math/Vector3.go:547-553 | the squared distance is the squared length of the difference and is never negative |
| Vectors.Vec3.Lerp | math/Vector3.go:444-449 | alpha 0 gives the receiver, alpha 1 gives the target, and in general receiver + alpha * (target - receiver) |
| Vectors.Vec3.Add | math/Vector3.go:70-75 | adding the zero vector changes nothing; Sub is its inverse (Vectors.Vec3.Sub) |
| Vectors.Vec3.AddScalar | math/Vector3.go:77-82 | adding 0 changes nothing; SubScalar is its inverse (Vectors.Vec3.SubScalar) |
| Vectors.Vec3.Mul | math/Vector3.go:119-124 | multiplying by (1, 1, 1) changes nothing and by the zero vector gives the zero vector |
| Vectors.Vec3.Negate | math/Vector3.go:413-418 | reference definition (-X, -Y, -Z); NegateInvolution proves it an involution and an additive inverse |
| Vectors.Vec3.Dot | math/Vector3.go:420-422 | reference definition, the sum of the componentwise products; DotSymmetric proves it symmetric and LengthSq proves Dot(v, v) >= 0 |
| Vectors.Vec3.Cross | math/Vector3.go:468-481 | reference definition of the cross product as CrossVectors computes it; CrossAntiCommutative and CrossSelfIsZero prove it anti-commutative, orthogonal to both operands and zero on equal operands |
| Vectors.Vec3.ApplyMatrix3 | math/Vector3.go:180-193 | reference definition, the column-major 3x3 product; ApplyIdentity proves the identity keeps the vector |
| Vectors.Vec3.ApplyMatrix4 | math/Vector3.go:195-207 | reference definition, the affine transform with elements 12-14 as translation and the w row ignored; ApplyIdentity and ApplyMatrix4Translation prove the identity keeps the point and the translation is added last |
| Vectors.MatrixPosition | math/Vector3.go:555-561 | the translation column is the image of the origin under ApplyMatrix4 |
| Vectors.MatrixColumn | math/Vector3.go:575-586 | the result holds rows 0..2 of the chosen column; column 3 is the translation |
| Vectors.WriteVec3 | math/Vector3.go:600-607 | ToArray keeps the length, makes the three slots read back as the vector and keeps every other slot |
| Vectors.WriteReadVec3 | math/Vector3.go:592-607 | writing back what FromArray read at the same offset leaves the array unchanged |
| Vectors.NegateInvolution | math/Vector3.go:413-418 | Negate twice is the identity and v + (-v) is the zero vector |
| Vectors.DotSymmetric | math/Vector3.go:420-422 | Dot and DistanceToSquared are symmetric in their operands |
| Vectors.CrossAntiCommutative | math/Vector3.go:468-481 | a x b == -(b x a), and a x b is orthogonal to a and to b |
| Vectors.CrossSelfIsZero | math/Vector3.go:468-481 | CrossVectors(a, a) is the zero vector |
| Vectors.ApplyIdentity | math/Vector3.go:180-207 | ApplyMatrix3 and ApplyMatrix4 with the identity elements leave the point unchanged |
| Vectors.ApplyMatrix4Translation | math/Vector3.go:195-207 | ApplyMatrix4 is the linear part applied to the point plus the translation in elements 12..14 |
| Vectors.CrossInPlaceUnaliased | math/Vector3.go:456-466 | the in-place Cross with a distinct operand is the cross product |
| Vectors.CrossInPlaceSelf | math/Vector3.go:456-466 | v.Cross(v) reads components it has already overwritten; (1, 0, 1) gives a nonzero result |
| Vectors.Vector2.constructor | math/Vector2.go:12-14 | NewVector2 holds the given components |
| Vectors.Vector2.Empty | math/Vector2.go:8-10 | NewEmptyVector2 is (0, 0) |
| Vectors.Vector2.SetWidth | math/Vector2.go:16-22 | Width (the X component) becomes the value; Y is kept |
| Vectors.Vector2.SetHeight | math/Vector2.go:24-30 | Height (the Y component) becomes the value; X is kept |
| Vectors.Vector2.Width | math/Vector2.go:16-18 | Width reads X, which SetWidth writes |
| Vectors.Vector2.Height | math/Vector2.go:24-26 | Height reads Y, which SetHeight writes |
| Vectors.Vector2.GetComponent | math/Vector2.go:56-62 | index 0 reads X and 1 reads Y; any other index panics in the source and is excluded by the requires |
| Vectors.Vector2.Set | math/Vector2.go:32-62 | components 0 and 1 read back as the given x and y |
| Vectors.Vector2.SetX | math/Vector2.go:39-42 | X becomes the value and Y is kept |
| Vectors.Vector2.SetY | math/Vector2.go:44-47 | Y becomes the value and X is kept |
| Vectors.Vector2.SetComponent | math/Vector2.go:49-54 | index 0 sets X, index 1 sets Y, any other index changes nothing |
| Vectors.Vector2.Clone | math/Vector2.go:64-66 | a fresh vector with the same components |
| Vectors.Vector2.Copy | math/Vector2.go:68-72 | the receiver takes the other vector's components |
| Vectors.Vector3.constructor | math/Vector3.go:15-17 | NewVector3 holds the given components |
| Vectors.Vector3.Empty | math/Vector3.go:11-13 | NewEmptyVector3 is the zero vector |
| Vectors.Vector3.Set | math/Vector3.go:19-24 | the vector becomes (x, y, z) |
| Vectors.Vector3.SetX | math/Vector3.go:26-29 | X becomes the value and the other components are kept |
| Vectors.Vector3.SetY | math/Vector3.go:31-34 | Y becomes the value and the other components are kept |
| Vectors.Vector3.SetZ | math/Vector3.go:36-39 | Z becomes the value and the other components are kept |
| Vectors.Vector3.SetComponent | math/Vector3.go:41-57 | the indexed component becomes the value, the others are kept, and GetComponent reads it back |
| Vectors.Vector3.Clone | math/Vector3.go:59-61 | a fresh vector with the same components |
| Vectors.Vector3.Copy | math/Vector3.go:63-68 | the receiver takes the other vector's components, after which Equals holds |
| Vectors.Vector3.Add | math/Vector3.go:70-75 | the receiver becomes the sum of its old value and the operand's old value (also when the operand is the receiver) |
| Vectors.Vector3.AddScalar | math/Vector3.go:77-82 | the scalar is added to every component |
| Vectors.Vector3.AddVectors | math/Vector3.go:84-89 | the receiver becomes a + b |
| Vectors.Vector3.AddScaledVector | math/Vector3.go:91-96 | the receiver becomes its old value plus v * s |
| Vectors.Vector3.Sub | math/Vector3.go:98-103 | the receiver becomes its old value minus v |
| Vectors.Vector3.SubScalar | math/Vector3.go:105-110 | the scalar is subtracted from every component |
| Vectors.Vector3.SubVectors | math/Vector3.go:112-117 | the receiver becomes a - b |
| Vectors.Vector3.Multiply | math/Vector3.go:119-124 | the receiver becomes the componentwise product with v |
| Vectors.Vector3.MultiplyScalar | math/Vector3.go:126-131 | every component is multiplied by the scalar |
| Vectors.Vector3.MultiplyVectors | math/Vector3.go:133-138 | the receiver becomes the componentwise product a * b |
| Vectors.Vector3.ApplyMatrix3 | math/Vector3.go:180-193 | the receiver becomes the 3x3 product of the elements with its old value |
| Vectors.Vector3.ApplyMatrix4 | math/Vector3.go:195-207 | the receiver becomes the affine image of its old value |
| Vectors.Vector3.Min | math/Vector3.go:313-319 | the receiver becomes the componentwise minimum |
| Vectors.Vector3.Max | math/Vector3.go:321-327 | the receiver becomes the componentwise maximum |
| Vectors.Vector3.Clamp | math/Vector3.go:329-335 | the receiver becomes its old value clamped to [min, max] (see Vec3.Clamp) |
| Vectors.Vector3.Negate | math/Vector3.go:413-418 | every component changes sign |
| Vectors.Vector3.Lerp | math/Vector3.go:444-449 | the receiver moves toward v by the fraction alpha |
| Vectors.Vector3.LerpVectors | math/Vector3.go:451-454 | with v1 distinct from the receiver, the interpolation from v1 to v2; with v1 the receiver, twice alpha * (v2 - v1), because Add reads the overwritten receiver |
| Vectors.Vector3.Cross | math/Vector3.go:456-466 | the receiver becomes the in-place cross product, which differs from CrossVectors when the operand is the receiver |
| Vectors.Vector3.CrossVectors | math/Vector3.go:468-481 | the receiver becomes a x b, also when a or b is the receiver |
| Vectors.Vector3.SetFromMatrixPosition | math/Vector3.go:555-561 | the receiver becomes elements 12..14 |
| Vectors.Vector3.SetFromMatrixColumn | math/Vector3.go:575-586 | the receiver becomes rows 0..2 of the column |
| Vectors.Vector3.Equals | math/Vector3.go:588-590 | true exactly when all three components are equal |
| Vectors.Vector3.FromArray | math/Vector3.go:592-598 | the receiver becomes the three slots starting at offset |
| Vectors.Vector3.ToArray | math/Vector3.go:600-607 | the array becomes WriteVec3 of its old contents: three slots written, the rest kept |
| Vectors.Vector3.GetComponent | math/Vector3.go:50-57 | index 0, 1, 2 read X, Y, Z; any other index panics in the source and is excluded by the requires |
| Vectors.Vector3.Dot | math/Vector3.go:420-422 | the dot product of the two current values; a vector dotted with itself gives its LengthSq |
| Vectors.Vector3.LengthSq | math/Vector3.go:424-426 | the squared length is never negative |
| Vectors.Vector3.DistanceToSquared | math/Vector3.go:547-553 | the squared distance is never negative and is 0 from a vector to itself |
| MatrixElements.Identity3 | math/Matrix3.go:7-15 | NewMatrix3 is the 3x3 identity: ones on the diagonal (elements 0, 4, 8), zeros elsewhere |
| MatrixElements.Identity4 | math/Matrix4.go:10-22 | NewMatrix4 is the identity: row i, column j is 1 exactly when i == j |
| Matrices.Product | math/Matrix4.go:360-397 | every row i, column j of MultiplyMatrices(a, b) is row i of a times column j of b |
| Matrices.ProductIdentity | math/Matrix4.go:360-397 | the identity is a two-sided unit of MultiplyMatrices |
| Matrices.Scaled | math/Matrix4.go:250-262 | Scale multiplies rows 0..3 of columns 0, 1, 2 by v.X, v.Y, v.Z and leaves column 3 as it was |
| Matrices.ScaledByOnes | math/Matrix4.go:250-262 | scaling by (1, 1, 1) changes nothing |
| Matrices.WithPosition | math/Matrix4.go:264-272 | SetPosition makes elements 12..14 the vector and keeps the other thirteen elements |
| Matrices.WithOwnPosition | math/Matrix4.go:264-272 | setting the position a matrix already has changes nothing |
| Matrices.Rotation | math/Matrix4.go:168-212 | MakeRotationFromQuaternion zeroes elements 3, 7, 11 and the translation 12..14 and sets element 15 to 1 |
| Matrices.RotationOfIdentity | math/Matrix4.go:168-212 | the rotation of the quaternion (0, 0, 0, 1) is the identity |
| Matrices.Composition | math/Matrix4.go:274-279 | Compose (rotation, then Scale, then SetPosition) has the position in elements 12..14 and the last row (0, 0, 0, 1) |
| Matrices.ComposeNeutral | math/Matrix4.go:274-279 | composing the zero position, the identity quaternion and unit scale gives the identity |
| Matrices.ComposeWithoutRotation | math/Matrix4.go:274-279 | with the identity quaternion the composed matrix maps v to v * scale + position |
| Matrices.DeterminantOf | math/Matrix4.go:340-358 | reference definition, the cofactor expansion along the bottom row with the source's terms; DeterminantOfIdentity and DeterminantOfScale prove it is 1 for the identity and the product of the factors for a scaling, with or without a translation |
| Matrices.DeterminantOfIdentity | math/Matrix4.go:340-358 | the determinant of the identity is 1 |
| Matrices.DeterminantOfScale | math/Matrix4.go:340-358 | the determinant of identity.Scale(v) is v.X * v.Y * v.Z, also after SetPosition |
| Matrices.Matrix4.constructor | math/Matrix4.go:10-22 | a new matrix owns a fresh element array holding the identity |
| Matrices.Matrix4.MakeRotationFromQuaternion | math/Matrix4.go:168-212 | the elements become Rotation(q) |
| Matrices.Matrix4.Equals | math/Matrix4.go:223-233 | the loop returns true exactly when all sixteen elements are equal |
| Matrices.Matrix4.Scale | math/Matrix4.go:250-262 | the elements become Scaled of the old elements |
| Matrices.Matrix4.SetPosition | math/Matrix4.go:264-272 | the elements become WithPosition of the old elements |
| Matrices.Matrix4.Compose | math/Matrix4.go:274-279 | the elements become Composition(position, quaternion, scale) |
| Matrices.Matrix4.MultiplyMatrices | math/Matrix4.go:360-397 | the elements become Product of the operands' old elements, also when an operand is the receiver |
| Matrices.Matrix4.Determinant | math/Matrix4.go:340-358 | the determinant of the sixteen current elements, DeterminantOf of the matrix value |
| Quaternions.Quat.Mul | math/Quaternion.go:320-341 | reference definition of the Hamilton product as MultiplyQuaternions writes it; MulIdentity and MulConjugate prove the identity quaternion neutral and q times its conjugate real |
| Quaternions.Quat.Conjugate | math/Quaternion.go:268-276 | reference definition (-X, -Y, -Z, W); ConjugateInvolution and MulConjugate prove it an involution whose product with q is (0, 0, 0, LengthSq) |
| Quaternions.Quat.Dot | math/Quaternion.go:278-280 | reference definition, the sum of the four componentwise products; DotSymmetric proves it symmetric |
| Quaternions.Quat.LengthSq | math/Quaternion.go:282-284 | LengthSq is the quaternion's dot product with itself and is never negative |
| Quaternions.MulIdentity | math/Quaternion.go:320-341 | NewEmptyQuaternion (0, 0, 0, 1) is a two-sided identity of MultiplyQuaternions |
| Quaternions.ConjugateInvolution | math/Quaternion.go:268-276 | Conjugate applied twice restores the quaternion and keeps LengthSq |
| Quaternions.MulConjugate | math/Quaternion.go:268-341 | q times its conjugate is (0, 0, 0, LengthSq(q)) |
| Quaternions.DotSymmetric | math/Quaternion.go:278-280 | Dot is symmetric |
| Quaternions.FromEuler | math/Quaternion.go:64-128 | for each of the six orders the product formula of the half-angle cosines and sines; any other order keeps the old value; all-zero angles give the identity |
| Quaternions.WriteQuat | math/Quaternion.go:429-436 | ToArray keeps the length, makes the four slots read back as the quaternion and keeps every other slot |
| Quaternions.WriteReadQuat | math/Quaternion.go:418-436 | writing back what FromArray read at the same offset leaves the array unchanged |
| Quaternions.Quaternion.constructor | math/Quaternion.go:13-15 | NewQuaternion holds the given components; no notification yet |
| Quaternions.Quaternion.Empty | math/Quaternion.go:9-11 | NewEmptyQuaternion is (0, 0, 0, 1) |
| Quaternions.Quaternion.SetX | math/Quaternion.go:17-20 | X becomes the value, the rest is kept, and onChange fires once |
| Quaternions.Quaternion.SetY | math/Quaternion.go:22-25 | Y becomes the value, the rest is kept, and onChange fires once |
| Quaternions.Quaternion.SetZ | math/Quaternion.go:27-30 | Z becomes the value, the rest is kept, and onChange fires once |
| Quaternions.Quaternion.SetW | math/Quaternion.go:32-35 | W becomes the value, the rest is kept, and onChange fires once |
| Quaternions.Quaternion.Set | math/Quaternion.go:37-47 | the quaternion becomes (x, y, z, w) and onChange fires once |
| Quaternions.Quaternion.Clone | math/Quaternion.go:49-51 | a fresh quaternion with the same components |
| Quaternions.Quaternion.Copy | math/Quaternion.go:53-62 | the receiver takes the other's components and onChange fires once |
| Quaternions.Quaternion.SetFromEuler | math/Quaternion.go:64-128 | the components become FromEuler of the given half-angle terms; onChange fires only when update is true |
| Quaternions.Quaternion.Inverse | math/Quaternion.go:263-266 | Conjugate then Normalize: the normalised conjugate, or the identity when its length is 0; two notifications |
| Quaternions.Quaternion.Conjugate | math/Quaternion.go:268-276 | X, Y, Z change sign, W is kept, and onChange fires once |
| Quaternions.Quaternion.Normalize | math/Quaternion.go:290-314 | length 0 gives (0, 0, 0, 1); otherwise every component is divided by the length; onChange fires once |
| Quaternions.Quaternion.Multiply | math/Quaternion.go:316-318 | the receiver becomes MultiplyQuaternions(old receiver, quat), also when quat is the receiver, because all operands are read before the first write |
| Quaternions.Quaternion.MultiplyQuaternions | math/Quaternion.go:320-341 | the receiver becomes the Hamilton product of a and b as they were, and onChange fires once |
| Quaternions.Quaternion.Equals | math/Quaternion.go:414-416 | true exactly when all four components are equal |
| Quaternions.Quaternion.FromArray | math/Quaternion.go:418-427 | the receiver becomes the four slots starting at offset and onChange fires once |
| Quaternions.Quaternion.ToArray | math/Quaternion.go:429-436 | the array becomes WriteQuat of its old contents |
| Quaternions.Quaternion.Dot | math/Quaternion.go:278-280 | the dot product of the two current values; a quaternion dotted with itself gives its LengthSq |
| Quaternions.Quaternion.LengthSq | math/Quaternion.go:282-284 | the squared length is never negative |
| Colors.Rgb.Scale | math/Color.go:202-208 | MultiplyScalar is Multiply by the grey (s, s, s) |
| Colors.Rgb.Lerp | math/Color.go:210-216 | alpha 0 keeps the colour, alpha 1 gives the target, and alpha in [0, 1] keeps every channel between the two |
| Colors.Rgb.Squared | math/Color.go:74-85 | ConvertGammaToLinear gives non-negative channels and keeps a colour inside the unit cube |
| Colors.LerpBetween | math/Color.go:210-216 | one channel of Lerp with alpha in [0, 1] lies between its two ends |
| Colors.Byte | math/Color.go:16-21 | (hex >> shift) & 255 is a byte value, 0..255 |
| Colors.FromHex | math/Color.go:16-21 | SetHex puts each channel in [0, 1] |
| Colors.HexRoundTrip | math/Color.go:16-21 | SetHex loses nothing: the three channels times 255 give back every 24-bit hex value |
| Colors.WriteRgb | math/Color.go:230-236 | ToArray keeps the length, makes the three slots read back as the colour and keeps every other slot |
| Colors.WriteReadRgb | math/Color.go:222-236 | writing back what FromArray read at the same offset leaves the array unchanged |
| Colors.Color.constructor | math/Color.go:12-14 | NewColor holds the given channels |
| Colors.Color.Default | math/Color.go:8-10 | NewDefaultColor is white (1, 1, 1) |
| Colors.Color.SetHex | math/Color.go:16-21 | the channels become FromHex(hex) |
| Colors.Color.SetRGB | math/Color.go:23-29 | the channels become (r, g, b) |
| Colors.Color.Clone | math/Color.go:31-33 | a fresh colour with the same channels |
| Colors.Color.Copy | math/Color.go:35-41 | the receiver takes the other colour's channels, after which Equals holds |
| Colors.Color.ConvertGammaToLinear | math/Color.go:74-85 | every channel is squared |
| Colors.Color.Add | math/Color.go:170-176 | the channelwise sum with the other colour as it was |
| Colors.Color.AddColors | math/Color.go:178-184 | the receiver becomes the channelwise sum of the two colours |
| Colors.Color.AddScalar | math/Color.go:186-192 | the scalar is added to every channel |
| Colors.Color.Multiply | math/Color.go:194-200 | the channelwise product with the other colour as it was |
| Colors.Color.MultiplyScalar | math/Color.go:202-208 | every channel is multiplied by the scalar |
| Colors.Color.Lerp | math/Color.go:210-216 | the receiver becomes Rgb.Lerp toward the other colour |
| Colors.Color.Equals | math/Color.go:218-220 | true exactly when the three channels are equal |
| Colors.Color.FromArray | math/Color.go:222-228 | the receiver becomes the three slots starting at offset |
| Colors.Color.ToArray | math/Color.go:230-236 | the array becomes WriteRgb of its old contents |
| Boxes.Extent.ContainsPoint | math/Box3.go:144-151 | a point is inside exactly when the box is not the empty marker and Min <= p <= Max on every axis |
| Boxes.Extent.IsEmpty | math/Box3.go:105-108 | reference definition: some axis has Max below Min, and the MakeEmpty box is empty; EmptyIffNoPoint proves a box is empty exactly when it contains no point |
| Boxes.Extent.ContainsBox | math/Box3.go:153-160 | reference definition: each bound of the other box lies within this box's bounds; ContainsBoxContainsPoints proves every point of the other box is then contained |
| Boxes.Extent.IntersectsBox | math/Box3.go:179-187 | reference definition: none of the six separating tests holds; IntersectsSymmetric and IntersectsWhenSharingPoint prove it symmetric and true for boxes sharing a point |
| Boxes.Extent.ExpandByPoint | math/Box3.go:126-130 | the expanded box contains the point and every point the old box contained |
| Boxes.Extent.ExpandByVector | math/Box3.go:132-136 | expanding by a non-negative vector keeps every contained point |
| Boxes.Extent.ExpandByScalar | math/Box3.go:138-142 | ExpandByScalar(s) is ExpandByVector(s, s, s), and with s >= 0 keeps every contained point |
| Boxes.Extent.Intersect | math/Box3.go:218-222 | the intersection contains exactly the points both boxes contain |
| Boxes.Extent.Union | math/Box3.go:224-228 | the union contains every point of either box and ContainsBox holds for both |
| Boxes.Extent.Translate | math/Box3.go:262-266 | q is in the box exactly when q + offset is in the translated box; size and emptiness are kept |
| Boxes.Extent.Center | math/Box3.go:110-116 | a non-empty box contains its centre; the empty marker has no finite centre |
| Boxes.Extent.Size | math/Box3.go:118-124 | Max - Min, which has a negative axis exactly when the box is empty |
| Boxes.Extent.ClampPoint | math/Box3.go:189-195 | the clamped point lies in a non-empty box, and a point already inside is returned unchanged |
| Boxes.FromCenterAndSize | math/Box3.go:52-61 | the box built from centre and size has exactly that centre and that size |
| Boxes.FromPoints | math/Box3.go:40-50 | SetFromPoints of no points is the empty box, and of some points a proper box |
| Boxes.TransformAll | math/Box3.go:230-260 | each corner is mapped by ApplyMatrix4, in order |
| Boxes.Transformed | math/Box3.go:230-260 | ApplyMatrix4 of a box is again a box |
| Boxes.EmptyBoxContainsNothing | math/Box3.go:98-151 | MakeEmpty gives a box that is Empty and contains no point |
| Boxes.EmptyIffNoPoint | math/Box3.go:105-151 | Empty holds exactly when the box contains no point |
| Boxes.FromPointsBounds | math/Box3.go:40-50 | the box of a non-empty point list contains every point, and each of its six bounds is attained by one of the points |
| Boxes.TransformedContainsCorners | math/Box3.go:230-260 | the transformed box contains the image of all eight corners |
| Boxes.TransformedByIdentity | math/Box3.go:230-260 | ApplyMatrix4 with the identity leaves a non-empty box unchanged |
| Boxes.FoldCorners | math/Box3.go:230-260 | the box of the eight corners of [lo, hi] is [lo, hi] |
| Boxes.IntersectsSymmetric | math/Box3.go:179-187 | IsIntersectionBox is symmetric |
| Boxes.IntersectsWhenSharingPoint | math/Box3.go:153-187 | two boxes that share a point intersect, and a box intersects any non-empty box it contains |
| Boxes.ContainsBoxContainsPoints | math/Box3.go:144-160 | ContainsBox(b) means every point of b is in the box |
| Boxes.Box3.Default | math/Box3.go:16-21 | NewDefaultBox3 is the empty box |
| Boxes.Box3.constructor | math/Box3.go:23-31 | NewBox3 holds the given bounds |
| Boxes.Box3.Set | math/Box3.go:33-38 | the bounds become (min, max) |
| Boxes.Box3.SetFromPoints | math/Box3.go:40-50 | the loop leaves FromPoints(points): MakeEmpty, then ExpandByPoint in order |
| Boxes.Box3.SetFromCenterAndSize | math/Box3.go:52-61 | the bounds become FromCenterAndSize(center, size) |
| Boxes.Box3.Clone | math/Box3.go:87-89 | a fresh box with the same bounds |
| Boxes.Box3.Copy | math/Box3.go:91-96 | the receiver takes the other box's bounds, after which Equals holds |
| Boxes.Box3.MakeEmpty | math/Box3.go:98-103 | the box becomes the empty box |
| Boxes.Box3.ExpandByPoint | math/Box3.go:126-130 | the box becomes its old extent expanded by the point |
| Boxes.Box3.ExpandByVector | math/Box3.go:132-136 | the box becomes its old extent expanded by the vector |
| Boxes.Box3.ExpandByScalar | math/Box3.go:138-142 | the box becomes its old extent expanded by the scalar |
| Boxes.Box3.Intersect | math/Box3.go:218-222 | the box becomes the intersection with the other box as it was |
| Boxes.Box3.Union | math/Box3.go:224-228 | the box becomes the union with the other box as it was |
| Boxes.Box3.ApplyMatrix4 | math/Box3.go:230-260 | the box becomes the box of its eight transformed corners |
| Boxes.Box3.Translate | math/Box3.go:262-266 | the box becomes its old extent translated by the offset |
| Boxes.Box3.Equals | math/Box3.go:268-270 | true exactly when both bounds are equal |
| Boxes.Box3.Empty | math/Box3.go:105-108 | Empty of the current Min and Max, Extent.IsEmpty |
| Boxes.Box3.Center | math/Box3.go:110-116 | Extent.Center of the current box: a non-empty box contains it, and the MakeEmpty box has no finite centre |
| Boxes.Box3.Size | math/Box3.go:118-124 | Extent.Size of the current box: Max - Min, with a negative component exactly when the box is empty |
| Boxes.Box3.ContainsPoint | math/Box3.go:144-151 | Extent.ContainsPoint of the current box: the point is within [Min, Max] on every axis |
| Boxes.Box3.ContainsBox | math/Box3.go:153-160 | Extent.ContainsBox of the two current boxes |
| Boxes.Box3.IsIntersectionBox | math/Box3.go:179-187 | Extent.IntersectsBox of the two current boxes |
| Boxes.Box3.ClampPoint | math/Box3.go:189-195 | Extent.ClampPoint of the current box: the result lies in a non-empty box and a contained point comes back unchanged |
| Spheres.Ball.ContainsPoint | math/Sphere.go:59-61 | reference definition: the squared distance to the centre is at most the squared radius; ContainsCenter proves the centre is always contained, and WithinRadius that a contained point lies within radius of the centre on every axis |
| Spheres.Ball.IntersectsSphere | math/Sphere.go:67-70 | two spheres with the same centre intersect whatever their radii; IntersectsSymmetric proves the test symmetric |
| Spheres.Ball.BoundingBox | math/Sphere.go:88-98 | GetBoundingBox is Set(center, center) followed by ExpandByScalar(radius) |
| Spheres.Ball.Translate | math/Sphere.go:107-110 | translating keeps the radius |
| Spheres.BoundingBoxContains | math/Sphere.go:59-98 | for a non-negative radius the bounding box is [center - r, center + r] and contains every point of the sphere |
| Spheres.TranslateContains | math/Sphere.go:107-110 | p is in the sphere exactly when p + offset is in the translated sphere |
| Spheres.WithinRadius | math/Sphere.go:59-61 | a squared distance within r * r bounds each coordinate difference by r |
| Spheres.MaxDistanceSq | math/Sphere.go:36-39 | the loop's maximum squared distance is non-negative, bounds every point's squared distance and is attained by one point |
| Spheres.Fitted | math/Sphere.go:26-43 | the centre is the optional centre when given, otherwise the centre of the points' bounding box |
| Spheres.FittedContainsAll | math/Sphere.go:26-43 | with a square root, the fitted sphere contains every point it was fitted to |
| Spheres.IntersectsSymmetric | math/Sphere.go:67-70 | IntersectsSphere is symmetric |
| Spheres.ContainsCenter | math/Sphere.go:59-61 | a sphere contains its centre |
| Spheres.Sphere.Default | math/Sphere.go:10-12 | NewDefaultSphere has centre (0, 0, 0) and radius 0 |
| Spheres.Sphere.constructor | math/Sphere.go:14-18 | NewSphere holds the given centre and radius |
| Spheres.Sphere.Set | math/Sphere.go:20-24 | centre and radius become the given ones |
| Spheres.Sphere.SetFromPoints | math/Sphere.go:26-43 | the loop leaves Fitted(points, optionalCenter): the centre, and the square root of the largest squared distance |
| Spheres.Sphere.Clone | math/Sphere.go:45-47 | a fresh sphere with the same centre and radius |
| Spheres.Sphere.Copy | math/Sphere.go:49-53 | the receiver takes the other sphere's centre and radius, after which Equals holds |
| Spheres.Sphere.GetBoundingBox | math/Sphere.go:88-98 | the target box becomes the sphere's bounding box |
| Spheres.Sphere.Translate | math/Sphere.go:107-110 | the sphere becomes its old value translated |
| Spheres.Sphere.Equals | math/Sphere.go:112-114 | true exactly when centre and radius are equal |
| Spheres.Sphere.Empty | math/Sphere.go:55-57 | Ball.IsEmpty of the current value: the radius is not positive |
| Spheres.Sphere.ContainsPoint | math/Sphere.go:59-61 | Ball.ContainsPoint of the current centre and radius |
| Spheres.Sphere.IntersectsSphere | math/Sphere.go:67-70 | Ball.IntersectsSphere of the two current values |
| Planes.PlaneVal.DistanceToPoint | math/Plane.go:88-90 | the signed distance Normal . p + Constant; the origin is at distance Constant |
| Planes.PlaneVal.IsIntersectionLine | math/Plane.go:110-118 | reference definition: the end points' distances are strictly of opposite signs; IsIntersectionLineSigns restates it as "neither on the plane and on different sides" |
| Planes.PlaneVal.DistanceToSphere | math/Plane.go:92-94 | the distance to the centre less the radius: at most the centre's distance for a non-negative radius, equal to it for radius 0 |
| Planes.PlaneVal.Negate | math/Plane.go:81-86 | the negated plane measures every point at the opposite signed distance |
| Planes.PlaneVal.Translate | math/Plane.go:182-185 | the normal is kept and q + offset lies at the distance q had before |
| Planes.PlaneVal.IntersectLine | math/Plane.go:120-148 | a returned point lies on the plane and on the segment (parameter t in [0, 1]); a segment parallel to the plane gives a point exactly when its start lies on the plane, and that point is the start |
| Planes.PlaneVal.CoplanarPoint | math/Plane.go:150-156 | for a unit normal, -constant * normal lies on the plane |
| Planes.CrossingOnPlane | math/Plane.go:120-148 | the parameter t the source computes puts start + t * delta on the plane, and that point is the segment's At(t) |
| Planes.FromNormalAndCoplanarPoint | math/Plane.go:43-90 | the plane has the given normal and passes through the given point |
| Planes.IsIntersectionLineSigns | math/Plane.go:110-118 | IsIntersectionLine holds exactly when the two end points lie strictly on opposite sides |
| Planes.IntersectionFound | math/Plane.go:110-148 | when IsIntersectionLine holds, IntersectLine finds a point |
| Planes.CrossingFound | math/Plane.go:129-147 | a segment not parallel to the plane that reaches it at some t in [0, 1], an end point included, gets exactly that point back |
| Planes.FractionInUnit | math/Plane.go:136-141 | for end distances of opposite sign the crossing parameter lies in [0, 1] |
| Planes.NegateTwice | math/Plane.go:81-86 | Negate twice restores the plane |
| Planes.Plane.Default | math/Plane.go:12-14 | NewDefaultPlane has normal (1, 0, 0) and constant 0 |
| Planes.Plane.constructor | math/Plane.go:16-27 | NewPlane holds the given normal and constant |
| Planes.Plane.Set | math/Plane.go:29-34 | normal and constant become the given ones |
| Planes.Plane.SetComponents | math/Plane.go:36-41 | the normal becomes (x, y, z) and the constant w |
| Planes.Plane.SetFromNormalAndCoplanarPoint | math/Plane.go:43-48 | the plane becomes FromNormalAndCoplanarPoint(normal, point) |
| Planes.Plane.Clone | math/Plane.go:62-64 | a fresh plane with the same normal and constant |
| Planes.Plane.Copy | math/Plane.go:66-71 | the receiver takes the other plane's normal and constant, after which Equals holds |
| Planes.Plane.Negate | math/Plane.go:81-86 | the plane becomes its negation |
| Planes.Plane.Translate | math/Plane.go:182-185 | the plane becomes its old value translated |
| Planes.Plane.Equals | math/Plane.go:187-189 | true exactly when normal and constant are equal |
| Planes.Plane.DistanceToPoint | math/Plane.go:88-90 | PlaneVal.DistanceToPoint of the current normal and constant |
| Planes.Plane.DistanceToSphere | math/Plane.go:92-94 | PlaneVal.DistanceToSphere of the current plane: the centre's distance less the radius |
| Planes.Plane.IsIntersectionLine | math/Plane.go:110-118 | PlaneVal.IsIntersectionLine of the current plane |
| Planes.Plane.IntersectLine | math/Plane.go:120-148 | PlaneVal.IntersectLine of the current plane: any point found lies on the plane and on the segment, and a parallel segment gives its start exactly when the start is on the plane |
| Planes.Plane.CoplanarPoint | math/Plane.go:150-156 | PlaneVal.CoplanarPoint of the current plane: for a unit normal the point lies on the plane |
| Lines.Segment.Delta | math/Line3.go:50-56 | start + delta is the end point |
| Lines.Segment.DistanceSq | math/Line3.go:58-60 | the squared length is the squared length of delta and is never negative |
| Lines.Segment.At | math/Line3.go:66-72 | At(0) is the start and At(1) the end |
| Lines.Segment.Center | math/Line3.go:42-48 | the centre is At(0.5) |
| Lines.Segment.ClosestPointToPointParameter | math/Line3.go:74-94 | with clampToLine the parameter lies in [0, 1] |
| Lines.Segment.ApplyMatrix4 | math/Line3.go:107-112 | both end points are mapped by ApplyMatrix4 |
| Lines.ClosestPointIsProjection | math/Line3.go:74-94 | unclamped, the point at the parameter is the foot of the perpendicular: the residual is orthogonal to delta |
| Lines.CenterIsMidpoint | math/Line3.go:42-48 | the centre is as far from the start as from the end |
| Lines.Line3.Default | math/Line3.go:9-11 | NewDefaultLine3 runs from the origin to the origin |
| Lines.Line3.constructor | math/Line3.go:13-22 | NewLine3 holds the given end points |
| Lines.Line3.Set | math/Line3.go:24-29 | the end points become the given ones |
| Lines.Line3.Clone | math/Line3.go:31-33 | a fresh segment with the same end points |
| Lines.Line3.Copy | math/Line3.go:35-40 | the receiver takes the other segment's end points, after which Equals holds |
| Lines.Line3.ApplyMatrix4 | math/Line3.go:107-112 | the segment becomes its old value transformed |
| Lines.Line3.Equals | math/Line3.go:114-116 | true exactly when both end points are equal |
| Lines.Line3.Center | math/Line3.go:42-48 | Segment.Center of the current end points: the point at parameter 0.5 |
| Lines.Line3.Delta | math/Line3.go:50-56 | Segment.Delta of the current end points: Start plus the result is End |
| Lines.Line3.DistanceSq | math/Line3.go:58-60 | Segment.DistanceSq of the current end points: the squared length of Delta, never negative |
| Lines.Line3.At | math/Line3.go:66-72 | Segment.At of the current end points: Start at 0 and End at 1 |
| Lines.Line3.ClosestPointToPointParameter | math/Line3.go:74-94 | Segment.ClosestPointToPointParameter of the current end points: in [0, 1] when clamped |
| Frustums.SphereInside | math/Frustum.go:93-108 | reference definition: no plane has the centre at a signed distance below -radius; SphereMonotone and PointIsZeroSphere relate it to larger spheres and to points |
| Frustums.PointInside | math/Frustum.go:167-177 | reference definition: no plane has the point at a negative distance; MatrixPlanesClip proves it is the clip-space test -w <= x, y, z <= w for the planes of a matrix |
| Frustums.BoxInside | math/Frustum.go:110-164 | reference definition of the corrected box test: no plane has both chosen corners behind it; BoxRejectionSound proves a rejected box has no point inside the frustum |
| Frustums.FarCorner | math/Frustum.go:110-164 | the corner chosen along the normal lies in the box |
| Frustums.DotBelowFarCorner | math/Frustum.go:110-164 | no point of the box has a larger dot product with the normal than the far corner |
| Frustums.FarCornerIsFarthest | math/Frustum.go:110-164 | no point of the box is further from the plane than the far corner |
| Frustums.BoxRejectionSound | math/Frustum.go:110-177 | when the corrected IntersectsBox rejects a box, no point of the box is inside the frustum |
| Frustums.AsWrittenRejectsVisibleBox | math/Frustum.go:135-139 | the source's corner choice rejects the unit box although the frustum contains its corner (0, 1, 0); the corrected test keeps it |
| Frustums.CounterexamplePointInside | math/Frustum.go:167-177 | the counterexample frustum contains (0, 1, 0) |
| Frustums.CounterexampleRejected | math/Frustum.go:115-161 | IntersectsBox as written rejects the unit box for the counterexample frustum |
| Frustums.CounterexampleKept | math/Frustum.go:115-161 | the corrected IntersectsBox keeps the unit box |
| Frustums.PointIsZeroSphere | math/Frustum.go:93-177 | ContainsPoint(p) is IntersectsSphere of the sphere of radius 0 at p |
| Frustums.SphereMonotone | math/Frustum.go:93-108 | a larger sphere at the same centre is kept whenever the smaller one is |
| Frustums.PositiveRescaleKeepsSigns | math/Frustum.go:66-71 | dividing a plane by a positive length scales every distance and keeps its sign, so the Normalize step does not change which points are inside |
| Frustums.MatrixPlanes | math/Frustum.go:58-74 | SetFromMatrix builds six planes |
| Frustums.RowPlaneDistance | math/Frustum.go:66-71 | the plane built from row 3 plus or minus row i measures w plus or minus clip coordinate i |
| Frustums.MatrixPlanesClip | math/Frustum.go:58-74 | a point is inside the frustum of a matrix exactly when its clip coordinates satisfy -w <= x, y, z <= w |
| Frustums.Frustum.constructor | math/Frustum.go:22-31 | NewFrustum holds the six given planes, in order, in a fresh array (as values: the source's sharing of the caller's Plane pointers is under Left out) |
| Frustums.Frustum.Default | math/Frustum.go:11-20 | NewDefaultFrustum holds six default planes |
| Frustums.Frustum.Set | math/Frustum.go:33-44 | the six planes become the given ones |
| Frustums.Frustum.Clone | math/Frustum.go:46-48 | a fresh frustum with a fresh array holding the same planes |
| Frustums.Frustum.Copy | math/Frustum.go:50-56 | the receiver's planes become the other frustum's planes |
| Frustums.Frustum.SetFromMatrix | math/Frustum.go:58-74 | the planes become MatrixPlanes of the elements |
| Frustums.Frustum.IntersectsSphere | math/Frustum.go:93-108 | the loop returns false exactly when some plane has the centre further out than the radius |
| Frustums.Frustum.IntersectsBox | math/Frustum.go:110-164 | the empty box (Min = +Inf, Max = -Inf) is always kept, as every d1 is +Inf or NaN; for any other box the loop returns the corrected box test, with p2.Y chosen by the sign of Normal.Y |
| Frustums.Frustum.ContainsPoint | math/Frustum.go:167-177 | the loop returns false exactly when some plane puts the point at a negative distance |
| Faces.Face.CopiedFrom | core/Face3.go:47-69 | Copy takes the source's corners, normal, colour and material index, overwrites the receiver's per-vertex lists only over the prefix the source covers, and keeps their lengths |
| Faces.CopyOfSameShape | core/Face3.go:47-69 | copying into a face whose lists have the source's lengths reproduces the source |
| Faces.CopyIdempotent | core/Face3.go:47-69 | copying the same source twice is the same as copying it once |
| Faces.Face3.constructor | core/Face3.go:17-28 | NewFace3 holds the given corners, normal, colour and material index, with empty per-vertex lists |
| Faces.Face3.Default | core/Face3.go:13-15 | NewDefaultFace3 has a zero normal, white colour and material 0 |
| Faces.Face3.Arrays | core/Face3.go:30-41 | NewArraysFace3 holds the given per-vertex lists, a zero normal and white |
| Faces.Face3.Clone | core/Face3.go:43-45 | a fresh face equal to the receiver |
| Faces.Face3.Copy | core/Face3.go:47-69 | the two index-by-index loops leave CopiedFrom of the old receiver and source |
| Geometries.Mesh.VertexNormals | core/Geometry.go:341-375 | there is one normalised accumulator per vertex |
| Geometries.MapVertices | core/Geometry.go:568-574 | transforming the vertices keeps their number |
| Geometries.MapNormals | core/Geometry.go:589-595 | transforming the vertex normals keeps their number |
| Geometries.Zeros | core/Geometry.go:341-344 | the accumulators start as one zero vector per vertex |
| Geometries.FaceDirection | core/Geometry.go:328-332 | the direction (C - B) x (A - B) is orthogonal to both edges that meet at B |
| Geometries.DegenerateFaceHasNoDirection | core/Geometry.go:328-332 | a face whose corners A and B coincide has the zero direction |
| Geometries.AddAtCorners | core/Geometry.go:360-369 | adding a face's contribution at its corners keeps one accumulator per vertex |
| Geometries.Accumulate | core/Geometry.go:346-371 | the accumulation over the faces keeps one accumulator per vertex |
| Geometries.AddAtCornersAt | core/Geometry.go:360-369 | a face's step adds its contribution to vertex v once for each of its corners that is v, and changes no other vertex |
| Geometries.AddAssociative | core/Geometry.go:360-362 | three additions in a row equal adding their sum |
| Geometries.AccumulateIsSum | core/Geometry.go:346-371 | after the in-place loop every accumulator holds its start value plus the sum, over all faces, of each face's contribution once per corner at that vertex |
| Geometries.AddAssociative2 | core/Geometry.go:360-362 | two additions in a row equal adding their sum |
| Geometries.VertexNormalSums | core/Geometry.go:341-371 | from zero accumulators, each vertex ends with exactly the sum of the contributions of the faces that touch it (face directions when area-weighted, face normals otherwise) |
| Geometries.CornerNormals | core/Geometry.go:377-389 | a face's first three vertex normals become the normals of corners A, B, C; further entries are kept and a shorter list grows to three |
| Geometries.CornerNormalsAgree | core/Geometry.go:380-388 | wherever the source's branch does not index out of range it gives the same list as CornerNormals |
| Geometries.CornerNormalsAsWrittenFailsOnDefaultFace | core/Geometry.go:384-388 | on a face from NewDefaultFace3, which has no vertex normals, the source's else branch indexes out of range, while CornerNormals gives three |
| Geometries.Merged | core/Geometry.go:549-617 | the receiver's vertices and faces stay in front; the other geometry's faces follow with corners shifted by the old vertex count and material indices by materialIndexOffset, colours kept; each appended vertex is the other geometry's vertex through the matrix, or unchanged without one; each appended face's normal and vertex normals go through the normal matrix of the matrix and are normalised, or are kept without one; UV channel 0 is the concatenation and other channels are untouched |
| Geometries.MergeKeepsFacesInRange | core/Geometry.go:549-617 | merging two geometries whose faces index their own vertices leaves every face indexing the merged vertex list |
| Geometries.MergeAsWrittenLosesVertices | core/Geometry.go:549-617 | as written, Merge appends to local slices and never stores them, so merging a geometry with vertices yields fewer vertices than intended |
| Geometries.MakeThenAppend | core/Geometry.go:611-614 | make(n) followed by n appends yields 2n entries |
| Geometries.MakeThenAppendLeavesHoles | core/Geometry.go:611-614 | copying a one-entry list that way gives a nil entry followed by the copy |
| Geometries.ScaleFactor | core/Geometry.go:306-309 | the factor is 1 for a zero radius and otherwise the reciprocal of the radius |
| Geometries.NormalizeMatrix | core/Geometry.go:311-317 | the matrix maps every point p to (p - center) * s |
| Geometries.ScaledLengthSq | core/Geometry.go:300-320 | scaling a vector by s multiplies its squared length by s squared |
| Geometries.ScaledBound | core/Geometry.go:300-320 | a squared length within r squared, scaled by the square of 1/r, is at most 1 |
| Geometries.NormalizedPointWithinUnitSphere | core/Geometry.go:300-320 | a point inside a ball of nonzero radius lands in the unit sphere under Normalize's matrix for that ball |
| Geometries.NormalizedWithinUnitSphere | core/Geometry.go:300-320 | with an exact square root and a nonzero bounding radius, Normalize's matrix moves every vertex into the unit sphere about the origin |
| Geometries.Geometry.constructor | core/Geometry.go:35-55 | a new geometry has empty vertex, colour and face lists, no bounding volumes and no dirty flags |
| Geometries.Geometry.ComputeBoundingBox | core/Geometry.go:535-540 | the box is allocated only when missing and then holds the bounds of the vertices, containing every vertex; nothing else changes |
| Geometries.Geometry.ComputeBoundingSphere | core/Geometry.go:542-547 | the sphere is allocated only when missing and is then fitted to the vertices, containing every vertex when the square root is exact; nothing else changes |
| Geometries.Geometry.ApplyMatrix | core/Geometry.go:57-81 | vertices go through the matrix and normals through the normal matrix; only bounding volumes already allocated are refitted; the vertex and normal flags are set |
| Geometries.Geometry.ComputeFaceNormals | core/Geometry.go:322-338 | every face normal becomes its normalised direction; vertices and other face fields are untouched |
| Geometries.Geometry.ComputeVertexNormals | core/Geometry.go:340-390 | every face's first three vertex normals become the normalised per-vertex sums of its corners |
| Geometries.Geometry.Normalize | core/Geometry.go:300-320 | the geometry is transformed by the scale-about-centre matrix of its fitted bounding sphere, and the sphere is refitted |
| Geometries.Geometry.Merge | core/Geometry.go:549-617 | the geometry becomes Merged of its old lists and the other geometry's, which is unchanged when it is another object |
| Geometries.Geometry.Copy | core/Geometry.go:959-988 | the vertex, face and UV lists become those of the source geometry, entry for entry |
| Geometries.CopyChannelsAsWrittenPanics | core/Geometry.go:962-984 | the UV-channel loop as written indexes the empty channel list and panics for any source with at least one channel |
| Geometries.AccumulateNormals | core/Geometry.go:341-371 | the first loops compute Accumulate from zero accumulators |
| Geometries.NormalizeAll | core/Geometry.go:373-375 | every accumulator is normalised, in place |
| Geometries.AppendVertices | core/Geometry.go:568-574 | the other geometry's vertices, through the matrix when given, are appended in order |
| Geometries.AppendFaces | core/Geometry.go:577-604 | a re-indexed copy of each of the other geometry's faces is appended in order |
| Geometries.AppendUvs | core/Geometry.go:607-616 | a copy of each UV list of the other geometry's channel 0 is appended in order |
| Geometries.AssignCornerNormals | core/Geometry.go:377-389 | every face takes its corners' normals as in CornerNormals |
| Geometries.TransformVertices | core/Geometry.go:60-62 | every vertex goes through the matrix, in place |
| Geometries.TransformFaces | core/Geometry.go:64-69 | every face normal and vertex normal goes through the normal matrix and is normalised |
| Geometries.TransformNormals | core/Geometry.go:589-595 | each normal goes through the normal matrix, when there is one, and is normalised |
| Geometries.CopyUvs | core/Geometry.go:980-983 | a UV list copied entry by entry equals the original, with no leading holes |
| BoxGeometries.AxisIndex | extras/geometries/BoxGeometry.go:47 | the axis names "x", "y", "z" select components 0, 1, 2 |
| BoxGeometries.GridOf | extras/geometries/BoxGeometry.go:50-65 | w is the axis that is neither u nor v; gridX is widthSegments unless w is x (then depthSegments), gridY is heightSegments unless w is y (then depthSegments); positive counts give a valid grid |
| BoxGeometries.SideNormal | extras/geometries/BoxGeometry.go:71-77 | the side normal is +1 on w when depth is positive and -1 otherwise, and 0 on the other two axes |
| BoxGeometries.GridVertexPlacement | extras/geometries/BoxGeometry.go:79-87 | every vertex of a side lies in the plane w = depth, and the first and last columns and rows sit at -/+ half the extent along u and v (times udir, vdir) |
| BoxGeometries.SpreadEnds | extras/geometries/BoxGeometry.go:69-83 | a row of n segments of extent / n runs from -extent/2 to +extent/2 |
| BoxGeometries.VertexRow | extras/geometries/BoxGeometry.go:80-86 | a row of the vertex grid has one vertex per column |
| BoxGeometries.CellFaces | extras/geometries/BoxGeometry.go:91-114 | each grid cell yields two faces, (a, b, d) and (b, c, d) |
| BoxGeometries.CellUvs | extras/geometries/BoxGeometry.go:96-115 | each grid cell yields two UV triples |
| BoxGeometries.GridUv | extras/geometries/BoxGeometry.go:96-99 | the texture coordinates of every grid point lie in [0, 1] x [0, 1] |
| BoxGeometries.GridFraction | extras/geometries/BoxGeometry.go:96-99 | a grid index over the grid size is a fraction in [0, 1] |
| BoxGeometries.FaceRow | extras/geometries/BoxGeometry.go:90-116 | a row of n cells yields 2n faces |
| BoxGeometries.UvRow | extras/geometries/BoxGeometry.go:90-116 | a row of n cells yields 2n UV triples |
| BoxGeometries.RowsLengths | extras/geometries/BoxGeometry.go:79-117 | the first rows of a side hold gridX + 1 vertices and 2 * gridX faces and UV triples each |
| BoxGeometries.PlaneAppended | extras/geometries/BoxGeometry.go:47-118 | one buildPlane call keeps the number of UV channels |
| BoxGeometries.PlaneAppendedCounts | extras/geometries/BoxGeometry.go:47-118 | one side adds (gridX + 1) * (gridY + 1) vertices and 2 * gridX * gridY faces and UV triples |
| BoxGeometries.PlaneAppendedKeeps | extras/geometries/BoxGeometry.go:85-115 | a side only appends: the existing vertices, faces and UV triples keep their places, and other UV channels are untouched |
| BoxGeometries.CellCornersInRange | extras/geometries/BoxGeometry.go:91-94 | the four corner indices of a cell lie within the vertices of the side |
| BoxGeometries.FaceRowInRange | extras/geometries/BoxGeometry.go:90-116 | every face of a row indexes the vertices of its own side |
| BoxGeometries.FaceRowsInRange | extras/geometries/BoxGeometry.go:89-117 | every face a buildPlane call emits indexes the vertices that same call appended |
| BoxGeometries.FaceRowsShared | extras/geometries/BoxGeometry.go:101-112 | every face of a side carries the side normal, three copies of it as vertex normals, and the call's material index |
| BoxGeometries.FaceRowShared | extras/geometries/BoxGeometry.go:101-112 | every face of a row carries the side normal, three vertex normals equal to it, and the call's material index |
| BoxGeometries.PlaneAppendedInRange | extras/geometries/BoxGeometry.go:47-118 | a buildPlane call keeps every face of the mesh within its vertex list |
| BoxGeometries.Call | extras/geometries/BoxGeometry.go:120-125 | the six calls pass two different axes and material indices 0 to 5 |
| BoxGeometries.Sides | extras/geometries/BoxGeometry.go:120-125 | the six calls have valid grids when the segment counts are positive |
| BoxGeometries.Built | extras/geometries/BoxGeometry.go:120-125 | building sides keeps the number of UV channels |
| BoxGeometries.BuiltWellFormed | extras/geometries/BoxGeometry.go:120-125 | after any number of sides every face indexes the vertex list and has a material index among the sides' |
| BoxGeometries.PlaneAppendedMaterials | extras/geometries/BoxGeometry.go:104-112 | a side's faces carry its material index, and earlier faces keep theirs |
| BoxGeometries.BoxMeshWellFormed | extras/geometries/BoxGeometry.go:20-129 | every face of the box indexes its vertex list and has a material index in 0..5, one per side |
| BoxGeometries.BuiltCounts | extras/geometries/BoxGeometry.go:120-125 | the vertices, faces and UV triples after k sides are the sums over those sides |
| BoxGeometries.SixSidesTotals | extras/geometries/BoxGeometry.go:57-125 | the two x sides have depthSegments by heightSegments cells, the y sides widthSegments by depthSegments, the z sides widthSegments by heightSegments |
| BoxGeometries.BoxCounts | extras/geometries/BoxGeometry.go:20-129 | the box has 2 * ((d+1)(h+1) + (w+1)(d+1) + (w+1)(h+1)) vertices, 4 * (dh + wd + wh) faces and one UV triple per face |
| BoxGeometries.UnitSegmentsCounts | extras/geometries/BoxGeometry.go:16-18 | NewDefaultBoxGeometry's box has 24 vertices, 12 faces and 12 UV triples |
| BoxGeometries.BoxGeometry.constructor | extras/geometries/BoxGeometry.go:20-129 | the geometry is fresh, the dimensions and segment counts are stored, and the mesh is the six sides built onto NewGeometry's empty lists |
| BoxGeometries.BoxGeometry.BuildSides | extras/geometries/BoxGeometry.go:120-125 | the six buildPlane calls in order leave BoxMesh |
| BoxGeometries.BoxGeometry.BuildSide | extras/geometries/BoxGeometry.go:120-125 | call k appends the side of grid k |
| BoxGeometries.BoxGeometry.BuildPlane | extras/geometries/BoxGeometry.go:47-118 | the geometry becomes PlaneAppended of its old mesh; colours, flags and bounding volumes are untouched |
| BoxGeometries.BoxGeometry.PlaneGrid | extras/geometries/BoxGeometry.go:50-65 | the head of buildPlane computes GridOf |
| BoxGeometries.BoxGeometry.AppendPlaneVertices | extras/geometries/BoxGeometry.go:79-87 | the first loop nest appends the side's vertex grid row by row |
| BoxGeometries.BoxGeometry.AppendPlaneFaces | extras/geometries/BoxGeometry.go:89-117 | the second loop nest appends the side's faces and UV triples row by row |
| BoxGeometries.BoxGeometry.AppendRowFaces | extras/geometries/BoxGeometry.go:90-116 | one pass of the inner loop appends the cells of row iy, left to right |
| SceneGraph.Updated | core/Object3D.go:200-222 | after UpdateMatrixWorld(force) the node is not dirty, keeps its position, quaternion, scale, MatrixAutoUpdate and number of children, keeps its matrix unless it recomposes, and, when it recomposed, was dirty or was forced, has the parent's world matrix times its matrix (its matrix at a root) as world matrix; otherwise its world matrix is unchanged |
| SceneGraph.UpdatedSettles | core/Object3D.go:200-222 | after any UpdateMatrixWorld no node of the subtree is dirty and every recomposing node holds the matrix its position, quaternion and scale compose to |
| SceneGraph.UpdatedConsistent | core/Object3D.go:200-222 | a forced update, or any update of a subtree whose nodes all recompose, leaves every world matrix equal to the parent's world matrix times the node's matrix (the matrix itself at a root) |
| SceneGraph.QuietUnchanged | core/Object3D.go:200-222 | an unforced update of a subtree with no recomposing and no dirty node changes nothing |
| SceneGraph.ForcedIdempotent | core/Object3D.go:200-222 | a second forced update gives the same state as the first |
| SceneGraph.Snapshots | core/Object3D.go:217-221 | the states of a node's first k children number k |
| SceneGraph.SnapshotsAt | core/Object3D.go:217-221 | entry j of the children's states is the state of child j's subtree |
| SceneGraph.SnapshotsFrom | core/Object3D.go:217-221 | when each child's subtree has a given state, the children's states are those, in order |
| SceneGraph.Assembled | core/Object3D.go:200-222 | a node whose own matrices and flag and whose children's subtrees are those of Updated has the updated state |
| SceneGraph.Object3D.constructor | core/Object3D.go:45-95 | a new node has no parent and no children, sits at the origin unrotated with unit scale and identity matrices, recomposes on update and is not dirty |
| SceneGraph.Object3D.IndexOfChild | core/Object3D.go:167-174 | the result is the first position of the node among the children, or -1 when it is not a child |
| SceneGraph.Object3D.Remove | core/Object3D.go:176-193 | a child loses its parent, its "removed" listeners are called and its one entry is deleted, the other children keeping their order; a node that is not a child changes nothing |
| SceneGraph.Object3D.Add | core/Object3D.go:140-165 | a node cannot become its own child; any other node leaves its old parent's children, gets this parent, has its "added" listeners called and becomes the last child |
| SceneGraph.Object3D.UpdateMatrix | core/Object3D.go:195-198 | the matrix is recomposed from position, quaternion and scale and the node is marked dirty |
| SceneGraph.Object3D.UpdateMatrixWorld | core/Object3D.go:200-222 | the subtree's transform state becomes Updated of its old state below the parent's world matrix; only matrices and dirty flags of the subtree change |
| SceneGraph.Object3D.UpdateSelf | core/Object3D.go:202-215 | the node's own matrix, world matrix and flag become those of Updated, and the children are forced exactly when the node recomposed, was dirty or was forced |
| SceneGraph.Object3D.UpdateChildren | core/Object3D.go:217-221 | the children's subtrees go from their states to UpdatedAll of them below this node's world matrix |
| SceneGraph.Object3D.UpdateChild | core/Object3D.go:220 | child i's subtree is updated and its siblings' subtrees keep their states |
| SceneGraph.Object3D.GetWorldPosition | core/Object3D.go:224-234 | after a forced update, which makes every world matrix of the subtree consistent, the result is the translation part of the node's world matrix |

## Left out

- Trigonometric, square-root and power numerics have no exact counterpart over the reals. The following are not modelled:
  - math/Euler.go;
  - Matrix4 MakeRotationFromEuler, Decompose and LookAt;
  - Quaternion SetFromAxisAngle, SetFromRotationMatrix, Slerp, SlerpQuaternions and Length;
  - Vector3 Length, LengthManhattan, Normalize, SetLength, ClampLength, AngleTo, DistanceTo, SetFromMatrixScale, ApplyQuaternion, ApplyProjection and project;
  - Color's gamma conversions (CopyGammaToLinear, CopyLinearToGamma, ConvertLinearToGamma and their default forms);
  - Plane.Normalize;
  - the normalising step of Frustum.SetFromMatrix;
  - Sphere.ClampPoint and Sphere.DistanceToPoint.
- Quaternions.Quaternion.Normalize: it takes the square root as a parameter. Its contract covers the zero-length branch, which yields (0, 0, 0, 1), and, in the other branch, division by the given length.
- IEEE floating point is not modelled: rounding, NaN and infinities. The empty Box3 is an explicit `EmptyBox` value rather than infinite bounds.
- Vector3 Divide, DivideScalar, Floor, Ceil, Round, RoundToZero and FromAttribute are not modelled. They are outside the arithmetic this model covers.
- Matrix4 Clone, Copy, FromArray and ToArray are not valid Go as written: they append to a fixed-size array. They are not modelled.
- The Matrix4 mutators copy the element array into `te` before writing to it. The model writes the matrix's own elements, as the methods evidently intend.
- Matrix3 is a nine-element value. GetNormalMatrix, MakeRotationX/Y/Z, MakeTranslation, MakeFrustum, MakePerspective and GetMaxScaleOnAxis are not part of this model. Because of that:
  - Sphere.ApplyMatrix4 is left out;
  - Geometry's Center, RotateX/Y/Z, Translate, Scale and LookAt closures are left out;
  - Geometry takes the normal matrix as a parameter.
- Box3 SetFromObject, GetParameter, DistanceToPoint and GetBoundingSphere are left out. Frustum.IntersectsObject is left out. They depend on object traversal, square roots or helpers that are not part of this model.
- Plane SetFromCoplanarPoints, ProjectPoint, OrthoPoint and ApplyMatrix4 are left out. They call helpers that are not part of this model or do not compile as written. Line3 Distance and ClosestPointToPoint need a square root or an unseen helper and are left out too.
- Color.GetHex shifts a float64, which has no meaning in Go as written, so it is left out.
- MathUtils.GenerateUUID: `rand.Float64` is the parameter `draw`. The contract states the layout of the result, not its randomness.
- MathUtils.DegToRad and MathUtils.RadToDeg: the factors pi / 180 and 180 / pi are exact reals here, so the two conversions undo each other exactly; in float64 the round trip can be off in the last bit.
- MathUtils.Round: the source's `uint64(v) % 2` parity test is modelled as the parity of the integer part. For a negative v the Go specification leaves `uint64(v)` to the implementation. The model takes the two's-complement result that amd64 gives, where the bit is v's own parity. On arm64 the conversion saturates to 0, so negative ties such as -1.5 round toward zero (to -1) there; that behaviour is not modelled.
- Channels: a negative channel panics in Go (negative shift count). The methods demand a non-negative channel.
- Events: listeners are opaque ids, and calling them is code outside the model. `DispatchEvent` returns the sequence of calls it makes, so a listener that changes the lists during a dispatch is not modelled.
- Events: EventDispatcher.go does not compile as written, because it compares funcs, builds a `[]Event` where a listener list is meant, and omits the `...` in its deletion. The model follows the evident intent of each.
- Faces.Face3.Copy: the source indexes the target's lists and panics when they are shorter than the source's. The method requires `CanCopyFrom` instead.
- Faces.Face3.Clone: the source's Clone copies into a zero Face3, whose nil normal makes Copy panic. The model clones into a new face with the same values.
- Sub-vectors owned by a Box3, Sphere, Plane, Line3, Face3 or Geometry, and the six planes of a Frustum, are values, so two objects sharing one Vector3 or Plane pointer is not modelled. The Vector3 and Vector2 methods do take object operands, so aliasing between vectors (v.Add(v), v.Cross(v), LerpVectors with the receiver as an operand) is modelled.
- Frustums.Frustum.constructor: NewFrustum keeps the caller's six *Plane pointers, and Set, Copy and SetFromMatrix then write through them. So a caller that later changes one of those planes also changes the frustum, and Set or Copy on the frustum changes the caller's planes. The model copies the six plane values into a fresh array and does not model that sharing: its contract states only the planes held at construction.
- Geometries.Geometry.ComputeBoundingSphere: it requires at least one vertex. The source accepts a geometry with no vertices, and Sphere.SetFromPoints then gives the centre of the empty box, which is NaN, with radius 0. The model has no NaN, so that sphere is not modelled.
- Geometries.Geometry.ApplyMatrix: it requires a vertex when a bounding sphere is allocated, because it refits that sphere. On a geometry with no vertices the source refits it to the NaN-centred sphere of radius 0, which is not modelled.
- Geometries.Geometry.Normalize: it requires at least one vertex. On a geometry with no vertices the source fits the NaN-centred sphere of radius 0, keeps s = 1, and applies a matrix whose translation is NaN. None of that is modelled.
- Spheres.Sphere.SetFromPoints: it requires at least one point or a given centre, where the source takes the centre of an empty box, which is NaN. The source's `maxRadiusSq` starts as an int; the model takes it as the float it evidently is.
- Boxes.Box3.ApplyMatrix4: it requires a non-empty box. On the empty box the source transforms infinite corners, whose result IEEE arithmetic leaves as NaN.
- Boxes.Box3.Center and Boxes.Box3.Size: they are None on the empty box, where the source's result is not finite.
- Geometry: every list is a value, so the source's in-place updates of shared Vector3 and Face3 pointees become whole-list assignments. Colours, Id, Uuid, Name, Type, the EventDispatcher and Dispose are not modelled, nor are the commented-out JavaScript blocks (MergeVertices, fromBufferGeometry and others).
- Geometries.Geometry.constructor: NewGeometry makes FaceVertexUvs with no channels, and every user then indexes channel 0. The model starts with one empty channel.
- Geometries.Geometry.Merge: Merge skips nil UV lists. The model has no nil lists, so every UV list is appended. The `materialIndexOffset == nil` test does not compile and is left out. MergeMesh depends on `objects.Mesh`, which is not part of this model.
- Geometries.Geometry.Copy: it models the intended copy. The source's `make(len)` plus `append` is recorded under Findings, and so is its indexing of the empty channel list made by `make(..., 0)`. Geometry.Clone is NewGeometry followed by Copy and has no member of its own.
- Geometries.Geometry.Normalize: the source's `s := 1` is an int and then receives a float. The model takes s as the float it evidently is.
- BoxGeometries: the source mixes ints and floats in `width / gridX`, `ix * segment_width` and `ix / gridX`, which do not compile as written. The model uses real division.
- BoxGeometries: the call to MergeVertices, BoxGeometry.Clone and the Parameters record are left out. MergeVertices exists only as commented-out JavaScript.
- BoxGeometries.BoxGeometry.constructor: requires every segment count to be at least 1, which the source does not demand. With a negative count the source still runs: a side that uses that count appends no vertices, faces or UV triples, because gridX + 1 or gridY + 1 is then at most 0 and its loops run zero times. With a zero count the source divides by zero: the side still appends (gridX + 1) * (gridY + 1) vertices, each with a NaN coordinate on that axis, and no faces. Neither the empty sides nor the NaN sides are modelled.
- BoxGeometries.BoxGeometry.BuildSides: the source makes six literal buildPlane calls. The model runs them as a loop over the six argument tuples, in the same order.
- SceneGraph: Object3D's Clone, Copy, Id, Uuid, Name, Up, Rotation and the Euler/quaternion onChange sync are not modelled, nor are the GetWorldQuaternion/Rotation/Scale/Direction closures, LookAt and Traverse. The Euler sync is a callback cycle; the quaternion is taken as the authoritative rotation.
- SceneGraph: Children is declared `[]Object3D`, a slice of values, yet Add appends pointers to it. Parent is likewise declared as the value type `Object3D` (core/Object3D.go:13), so `Parent: nil`, `Parent != nil` and `Parent = nil` (core/Object3D.go lines 53, 155, 187 and 208) do not compile as written. The model keeps the evident child pointers and the evident nullable parent pointer.
- SceneGraph.Object3D.Add: the source rejects only the node itself, not its ancestors, so it can build a cycle. The model does not reject ancestors either. UpdateMatrixWorld and GetWorldPosition require a ghost `Graph` describing an acyclic tree instead.
- SceneGraph.Object3D.UpdateMatrixWorld: it is split into UpdateSelf (lines 202-215) and UpdateChildren/UpdateChild (the loop at lines 217-221), with the same effect.

## Findings

| source | as written | input that shows it | evidently intended | confidence | as-written member | corrected member |
|---|---|---|---|---|---|---|
| math/Vector3.go:456-466 | Cross writes X, then reads the operand's Z, Y and X, which are the receiver's own fields when `v.Cross(v)` | v = (1, 0, 1): v.Cross(v) gives (0, -1, -1) instead of the zero vector | read all operands before the first write, as CrossVectors does | not executed | Vectors.CrossInPlaceSelf | Vectors.Vector3.CrossVectors |
| math/Frustum.go:135-139 | IntersectsBox picks p2.Y by the sign of Normal.X instead of Normal.Y | the unit box [0, 1]^3 against the frustum of CounterexamplePlanes, which contains the box's corner (0, 1, 0), is rejected | choose every coordinate of p1 and p2 by the same axis of the normal | not executed | Frustums.AsWrittenRejectsVisibleBox | Frustums.BoxRejectionSound |
| core/Geometry.go:549-617 | Merge appends to local copies of the vertex, face and UV slices and never stores them back | merging any geometry with at least one vertex leaves the receiver's vertex list unchanged | assign the grown slices back to the receiver | not executed | Geometries.MergeAsWrittenLosesVertices | Geometries.Merged |
| core/Geometry.go:384-388 | the else branch of ComputeVertexNormals assigns indices 0..2 of a list that has fewer than three entries | a face made by NewDefaultFace3, whose vertex-normal list is empty, indexes out of range | make the list the three corner normals | not executed | Geometries.CornerNormalsAsWrittenFailsOnDefaultFace | Geometries.CornerNormals |
| core/Geometry.go:611-614, 960-972 | a copy is built as `make(n)` followed by n appends, so it has n nil entries before the n copies | copying a one-entry UV list gives [nil, copy] | start from an empty slice, `make(..., 0)` | not executed | Geometries.MakeThenAppendLeavesHoles | Geometries.CopyUvs |
| core/Geometry.go:962-984 | Copy sets the receiver's UV channel list to `make(..., 0)` and then reads and writes entry i of it for each source channel i, never growing it | copying a geometry whose FaceVertexUvs holds one empty channel indexes entry 0 of an empty slice and panics | start the channel list with one entry per source channel, or append each copied channel | not executed | Geometries.CopyChannelsAsWrittenPanics | Geometries.Geometry.Copy |
