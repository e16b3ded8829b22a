# vk-web-gp-cube: the 3D maths and scene geometry, in Dafny

A model of the geometry layer of vk-web-gp-cube, a WebGPU demo that draws textured cubes.
It covers both generations of the code.

- **The engine** (`src/app/core/engine/...`):
  - the 4×4 `Matrix4`, with its product, its Gauss-Jordan inverse and its cofactor inverse;
  - the transform constructors (rotation, translation, scaling, orthographic, fudge, perspective);
  - the angle helpers `clamp` and `rotationReset`, and the hexadecimal colour parser;
  - the mutable `Vector3`;
  - the textured `Cube` and the 16 × 1 × 16 `Chunk` of cubes;
  - the fly-through `Camera` and its key-state `Controls`;
  - the Euler rotation of `3DRotation.ts` and the screen-square builder of `renderSquare.ts`.
- **The older scene code** (`src/app/core/class/...`):
  - the 3×3 `VecMatrix`;
  - a `Cube` made of `SimpleTriangle`s, which rebuilds its sides on every read;
  - the triangle depth comparator;
  - a `Chunk` whose grid is built with a nested `Array.fill`, so all rows share one array;
  - the `Map.ts` chunk of 1024 cubes keyed by their position text.

Conventions of the model:

- Numbers are `real`s.
- `Math.PI` is the exact value of the double nearest π.
- `sin`, `cos` and `tan` are a `Trig` value that the caller supplies. A lemma that needs a fact about them asks for it: `cos 0 = 1` and `sin 0 = 0`, or `sin² + cos² = 1` at one angle.
- A matrix is a row-major `seq<real>`. Points are homogeneous row vectors transformed as `v·M`.
- Division by a pivot, a determinant, a range or a canvas size is a `requires`. The one exception is a division by zero that the source reaches on a legal input; it becomes an `Option` or `Result`.

How each piece is modelled:

- **Classes.** Objects whose fields the source reassigns are classes with `modifies` clauses: `Vector3`, both cubes, both chunks, the map chunk, the camera and the controls. Everything else is functions over values.
- **Loops.** The source's loops are methods with loop invariants: `rotationReset`, the Gauss-Jordan inverse on a 4 × 8 `array2`, and the chunk and map generation and listing loops.
- **The shared grid.** The aliased legacy grid is a Dafny array of arrays that share one row array.

Modules, one file each:

| module | source |
|---|---|
| `Numeric` | `clamp`, `rotationReset` (Utils.ts, customMath.ts) |
| `Vectors` | `Vector3` in both generations |
| `HexColor` | `convertHexaStringToDecimalVector`, `Vector3.fromHex` |
| `Matrix4` | `multiply`, `rows`, `columns` |
| `CofactorInverse` | `inverse2` |
| `GaussJordan` | `inverse` |
| `Transforms` | 3DMatrixOperations.ts |
| `Rotation3D` | 3DRotation.ts, `Vector3.computeCoordinatesRotation` |
| `KeyControls` | Controls.ts |
| `EngineCamera` | Camera.ts |
| `EngineCube` | the engine's Cube.ts |
| `EngineChunk` | the engine's Chunk.ts |
| `RenderSquare` | renderSquare.ts |
| `SimpleTriangle` | SimpleTriangle.ts |
| `VecMatrix3` | VecMatrix.ts |
| `LegacyCube` | the older Cube.ts |
| `LegacyChunk` | the older Chunk.ts |
| `LegacyMap` | Map.ts |
| `Sequences` | `flat()` |
| `Wrappers` | `Option` and `Result` |

## Model

| member | source | states |
|---|---|---|
| Numeric.Clamp | src/app/core/engine/Maths/Functions/Utils.ts:15-17 | The result is never below `min`, even when `min > max`. It is `value` inside the range, `max` above it and `min` below it. |
| Numeric.ClampExamples | src/utils/__tests__/customMath.spec.ts:6-14 | `clamp(12,3,20) = 12`, `clamp(22,3,20) = 20` and `clamp(1,3,20) = 3`. |
| Numeric.WrapMagnitude | src/app/core/engine/Maths/Functions/Utils.ts:21 | The loop stops at a value in `[0, 2π]`. The value is positive when the start is, and never above the start. Termination follows from the number of turns decreasing. |
| Numeric.WrapMagnitudeRemovesTurns | src/app/core/engine/Maths/Functions/Utils.ts:21 | The loop removes exactly `Turns(a)` full turns. `Turns` is a closed form: none up to one turn, else the rounded-up turn count less one. |
| Numeric.WrapAngle | src/app/core/engine/Maths/Functions/Utils.ts:18-24 | `rotationReset` as a function. RotationReset computes it; WrapAngleBounds, WrapAngleIsCongruent, WrapAngleIdempotent and WrapAnglePeriodic state its properties. |
| Numeric.RotationReset | src/app/core/engine/Maths/Functions/Utils.ts:18-24 | The `while` loop on `bufferAngle` followed by the sign computes `WrapAngle(angle)`. |
| Numeric.WrapAngleBounds | src/utils/customMath.ts:4-10 | The result lies in `[-2π, 2π]` and keeps the input's sign. An input within one turn, including exactly ±2π, is returned unchanged. |
| Numeric.WrapAngleIsCongruent | src/app/core/engine/Maths/Functions/Utils.ts:19-23 | The result is the input less `sign · Turns(|angle|)` full turns. |
| Numeric.WrapAngleIdempotent | src/utils/customMath.ts:4-10 | Wrapping a wrapped angle changes nothing. |
| Numeric.WrapAnglePeriodic | src/utils/customMath.ts:4-10 | For a positive angle, adding a full turn does not change the result. |
| Numeric.WrapAngleExamples | src/utils/__tests__/customMath.spec.ts:17-24 | `1.5π` is kept, `10.5π` becomes `0.5π` and `-10.5π` becomes `-0.5π`. These values are exact over the reals. |
| Vectors.Vector3.constructor | src/app/core/engine/Maths/Vector/Vector3.ts:8-12 | The new vector holds the three given components. |
| Vectors.Vector3.FromArray | src/app/core/engine/Maths/Vector/Vector3.ts:52-54 | `toArray(fromArray(a)) == a` for every three-number array: the array round trip. |
| Vectors.Vector3.ToArray | src/app/core/engine/Maths/Vector/Vector3.ts:20-22 | Three numbers, `[x, y, z]`. |
| Vectors.Vector3.Scale | src/app/core/engine/Maths/Vector/Vector3.ts:14-18 | The receiver becomes its old value times `s`. |
| Vectors.Vector3.Copy | src/app/core/engine/Maths/Vector/Vector3.ts:24-26 | A fresh object equal to the receiver, which is unchanged. |
| Vectors.Vector3.Add | src/app/core/engine/Maths/Vector/Vector3.ts:28-34 | Returns the receiver itself, now the old receiver plus the old argument. Only the receiver changes, so `v.add(v)` doubles `v`. |
| Vectors.Vector3.Multiply | src/app/core/engine/Maths/Vector/Vector3.ts:36-42 | Returns the receiver, now the componentwise product. |
| Vectors.Vector3.Divide | src/app/core/engine/Maths/Vector/Vector3.ts:44-50 | Returns the receiver, now the componentwise quotient. Every divisor component must be non-zero. |
| Vectors.ScaleCopy | src/app/core/class/Vector3.ts:68-73 | The static `scale` returns a fresh vector, the scaled copy. The original keeps its value. |
| Vectors.DegreeToRadians | src/app/core/class/Vector3.ts:64-66 | `r · 180 = d · π`, and 360° gives `2π`. |
| Vectors.FormatFields | src/app/core/engine/Maths/Vector/Vector3.ts:56-58 | Splitting the text `"x,y,z"` at its commas gives back the three formatted components, when numbers format without commas. |
| Vectors.FormatInjective | src/app/core/class/Vector3.ts:126-128 | Two vectors with the same text are equal, when the number format is comma-free and tells their six components apart. |
| Vectors.SplitAtCommaOfField | src/app/core/engine/Maths/Vector/Vector3.ts:56-58 | A comma-free field followed by a comma is split off exactly. |
| HexColor.CharUnits | src/app/core/engine/Maths/Functions/Utils.ts:3 | A JavaScript string holds UTF-16 code units: one for a character of the Basic Multilingual Plane, a surrogate pair for any other. |
| HexColor.Utf16 | src/app/core/engine/Maths/Functions/Utils.ts:3 | The code units of a text, character by character. It has no contract of its own; AstralCharactersReadAsNaN uses it. |
| HexColor.BadLength | src/app/core/engine/Maths/Functions/Utils.ts:4-6 | The length check counts code units. ShortHashAccepted and AstralCharactersReadAsNaN state which inputs it lets through. |
| HexColor.ParseInt16 | src/app/core/engine/Maths/Functions/Utils.ts:10 | `parseInt(piece, 16)`. ParseTwoDigits, ParseOneDigit, ParsePieceBounds and SurrogatePairUnreadable state its results. |
| HexColor.Component | src/app/core/engine/Maths/Functions/Utils.ts:10-12 | Piece `k` over 255, NaN when it is unreadable or missing. ComponentBounds bounds it. |
| HexColor.FromHex | src/app/core/engine/Maths/Functions/Utils.ts:3-13 | The parser as written. FromHexOfEncode, ComponentBounds, NegativeFirstComponent, ShortHashAccepted and AstralCharactersReadAsNaN state its behaviour. |
| HexColor.DigitValue | src/app/core/engine/Maths/Functions/Utils.ts:10 | A hexadecimal digit of either case has a value below 16. |
| HexColor.Pieces | src/app/core/engine/Maths/Functions/Utils.ts:10 | `match(/.{1,2}/g)` yields pieces of one or two UTF-16 code units. |
| HexColor.ParseTwoDigits | src/app/core/engine/Maths/Functions/Utils.ts:10 | `parseInt` of two hex digits is `16·d0 + d1`. |
| HexColor.ParseByteDigits | src/app/core/engine/Maths/Functions/Utils.ts:10 | `parseInt(ByteDigits(b), 16) == b` for every byte: the per-byte round trip. |
| HexColor.ParseOneDigit | src/app/core/engine/Maths/Functions/Utils.ts:10 | A single digit, with or without a `-` sign, reads as its signed value. |
| HexColor.ParsePieceBounds | src/app/core/engine/Maths/Functions/Utils.ts:10 | A piece of one or two code units reads, if at all, as a value in `[-15, 255]`. |
| HexColor.PiecesOfPairs | src/app/core/engine/Maths/Functions/Utils.ts:10 | Six code units without line terminators are cut into three pairs. |
| HexColor.FromHexOfPairs | src/app/core/engine/Maths/Functions/Utils.ts:3-13 | After an optional `#`, three pairs of plain code units pass the checks and are read pair by pair. |
| HexColor.FromHexOfEncode | src/app/core/engine/Maths/Functions/Utils.ts:3-13 | Writing a colour as `rrggbb` or `#rrggbb` and parsing it gives its three bytes over 255: the round trip. |
| HexColor.ComponentBounds | src/app/core/engine/Maths/Functions/Utils.ts:10-12 | Every component of an accepted input is NaN or lies in `[-15/255, 1]`. |
| HexColor.NegativeFirstComponent | src/app/core/class/Vector3.ts:75-85 | `-c` followed by four digits passes the length check. Its first component is `-c/255`, because `parseInt` accepts a sign. |
| HexColor.SurrogatePairUnreadable | src/app/core/engine/Maths/Functions/Utils.ts:10 | A piece that starts with a surrogate reads as NaN. |
| HexColor.AstralCharactersReadAsNaN | src/app/core/engine/Maths/Functions/Utils.ts:4-12 | `#` and three characters outside the Basic Multilingual Plane, such as `#😀😀😀`, are seven code units. They pass the length check, are cut into three surrogate pairs and give three NaN components. |
| HexColor.ShortHashAccepted | src/app/core/engine/Maths/Functions/Utils.ts:4-6 | As written, `#` followed by five digits is accepted and read as `ab`, `cd`, `e`. |
| HexColor.FromHexCorrected | src/app/core/engine/Maths/Functions/Utils.ts:4-12 | The parser with the intended length check accepts only input that the original check also accepts. |
| HexColor.FromHexCorrectedReadsSix | src/app/core/engine/Maths/Functions/Utils.ts:4-9 | With the intended check, exactly six code units reach `match`. |
| HexColor.FromHexCorrectedOfEncode | src/app/core/engine/Maths/Functions/Utils.ts:3-13 | The intended parser keeps the encode/parse round trip. |
| HexColor.ShortHashRejected | src/app/core/class/Vector3.ts:76-78 | The intended check rejects `#` followed by five code units. |
| Matrix4.Rows | src/app/core/engine/Maths/Matrix/Matrix4.ts:174-181 | Four rows of four, with `rows[r][c] == m[4r + c]`. |
| Matrix4.Columns | src/app/core/engine/Maths/Matrix/Matrix4.ts:183-190 | Four columns of four, with `columns[c][r] == m[4r + c] == rows[r][c]`. |
| Matrix4.Flatten4 | src/app/core/engine/Maths/Matrix/Matrix4.ts:28 | Flattening four rows of four puts entry `(r, c)` at `4r + c`. |
| Matrix4.MultiplyEntry | src/app/core/engine/Maths/Matrix/Matrix4.ts:22-26 | Entry `(row, i)` is row `row` of `m2` against column `i` of `m1`. |
| Matrix4.Multiply | src/app/core/engine/Maths/Matrix/Matrix4.ts:19-29 | `multiply(m1, m2)` is the textbook product `m2·m1`: 16 entries, with neither operand changed. |
| Matrix4.MultiplyExample | src/app/core/engine/__tests__/Matrix4.spec.ts:49-67 | `[1..16] × [16..1]` gives `[386, 444, 502, 560, 274, …, 50, 60, 70, 80]`. |
| Matrix4.Apply | src/app/core/engine/Maths/Matrix/Matrix4.ts:11-13 | The row vector `v·m`, four entries. MultiplyAppliesRightOperandFirst relates it to `multiply`. |
| Matrix4.MultiplyAppliesRightOperandFirst | src/app/core/engine/Maths/Matrix/Matrix4.ts:11-13 | Transforming a row vector by `a.multiply(b)` is transforming it by `b`, then by `a`. |
| Matrix4.DotAssociative | src/app/core/engine/Maths/Matrix/Matrix4.ts:19-29 | A row of a product against a column regroups: `(a·B)·c == a·(B·c)`. |
| Matrix4.ProductAssociative | src/app/core/engine/Maths/Matrix/Matrix4.ts:19-29 | The product is associative, so chains of `multiply` can be regrouped. |
| Matrix4.ProductIdentity | src/app/core/engine/Maths/Matrix/Matrix4.ts:19-29 | The identity is neutral on both sides. |
| Matrix4.InverseUnique | src/app/core/engine/Maths/Matrix/Matrix4.ts:15-17 | A left inverse and a right inverse of the same matrix are equal. |
| Matrix4.EqualRows | src/app/core/engine/Maths/Matrix/Matrix4.ts:174-181 | Rows with equal entries are equal. |
| Matrix4.EqualMatrices | src/app/core/engine/Maths/Matrix/Matrix4.ts:19-29 | Matrices with equal entries are equal. |
| CofactorInverse.Brackets | src/app/core/engine/Maths/Matrix/Matrix4.ts:102-134 | Sixteen values: `t0..t3` and the twelve bracketed differences built from `tmp0..tmp23`. |
| CofactorInverse.DivisorIsDet | src/app/core/engine/Maths/Matrix/Matrix4.ts:127-136 | `m00·t0 + m10·t1 + m20·t2 + m30·t3` is the determinant, by an independent Leibniz definition. |
| CofactorInverse.Inverse2 | src/app/core/engine/Maths/Matrix/Matrix4.ts:82-172 | A result exists exactly when the determinant is non-zero; otherwise the source divides by zero. |
| CofactorInverse.Inverse2Entries | src/app/core/engine/Maths/Matrix/Matrix4.ts:136-168 | Every entry of the result is its bracket times `d = 1 / divisor`. |
| CofactorInverse.Inverse2IsRightInverse | src/app/core/engine/Maths/Matrix/Matrix4.ts:82-172 | When it exists, `m · inverse2(m) == I`. |
| CofactorInverse.Inverse2Example | src/app/core/engine/__tests__/Matrix4.spec.ts:71-85 | The inverse of `[4,7,2,3, 0,5,9,4, 6,1,3,8, 5,4,7,1]` is `[1/423, -6/47, 19/423, 61/423, …, -19/141]`, exactly. |
| GaussJordan.SwapRows | src/app/core/engine/Maths/Matrix/Matrix4.ts:50-53 | Swaps rows `i` and `j` of the augmented array, leaves the other rows, and keeps every row consistent. |
| GaussJordan.DivideRow | src/app/core/engine/Maths/Matrix/Matrix4.ts:58-60 | Divides row `i` by the pivot, which leaves a 1 on the diagonal. Other rows are unchanged and consistency is kept. |
| GaussJordan.DivideEntries | src/app/core/engine/Maths/Matrix/Matrix4.ts:58-60 | The division loop: the eight entries of row `i` divided by the pivot, other rows unchanged. |
| GaussJordan.SubtractRow | src/app/core/engine/Maths/Matrix/Matrix4.ts:63-70 | Row `j` becomes itself less `factor` times row `i`. Other rows are unchanged and consistency is kept. |
| GaussJordan.SubtractEntries | src/app/core/engine/Maths/Matrix/Matrix4.ts:66-68 | The subtraction loop, on the entries alone. |
| GaussJordan.ApplyDivided | src/app/core/engine/Maths/Matrix/Matrix4.ts:58-60 | Dividing a row vector by `p` divides its image by `p`. |
| GaussJordan.ApplyEliminated | src/app/core/engine/Maths/Matrix/Matrix4.ts:63-70 | Subtracting `f` times a row vector subtracts `f` times its image. |
| GaussJordan.DividedDot | src/app/core/engine/Maths/Matrix/Matrix4.ts:58-60 | One entry of `ApplyDivided`, over plain numbers. |
| GaussJordan.EliminatedDot | src/app/core/engine/Maths/Matrix/Matrix4.ts:63-70 | One entry of `ApplyEliminated`, over plain numbers. |
| GaussJordan.EliminationConsistent | src/app/core/engine/Maths/Matrix/Matrix4.ts:63-70 | After an elimination, the row again satisfies "left half = right half · A". |
| GaussJordan.InitiallyConsistent | src/app/core/engine/Maths/Matrix/Matrix4.ts:37-40 | The augmented array `[A \| I]` starts consistent. |
| GaussJordan.UnitRowImage | src/app/core/engine/Maths/Matrix/Matrix4.ts:37-40 | Row `r` of the identity times `A` is row `r` of `A`. |
| GaussJordan.LeftInverseFromRows | src/app/core/engine/Maths/Matrix/Matrix4.ts:74-79 | Once the left half is the identity, the extracted right half times `A` is the identity. |
| GaussJordan.Inverse | src/app/core/engine/Maths/Matrix/Matrix4.ts:31-80 | Any result is a left inverse of `m`. It equals `inverse2(m)` whenever that is defined, as the two worked cases of Matrix4.spec.ts expect. |
| Transforms.Transpose | src/app/core/engine/Maths/Functions/3DMatrixOperations.ts:4-29 | The transpose, a reference definition for the orthogonality lemmas of the three rotations. |
| Transforms.RotationX | src/app/core/engine/Maths/Functions/3DMatrixOperations.ts:4-11 | Row 3 and column 3 are the homogeneous identity and axis 0 is kept. |
| Transforms.RotationY | src/app/core/engine/Maths/Functions/3DMatrixOperations.ts:13-20 | Row 3 and column 3 are the homogeneous identity and axis 1 is kept. |
| Transforms.RotationZ | src/app/core/engine/Maths/Functions/3DMatrixOperations.ts:22-29 | Row 3 and column 3 are the homogeneous identity and axis 2 is kept. |
| Transforms.RotationsAtZero | src/app/core/engine/Maths/Functions/3DMatrixOperations.ts:4-29 | With `cos 0 = 1` and `sin 0 = 0`, every rotation by 0 is the identity. |
| Transforms.RotationXOrthogonal | src/app/core/engine/Maths/Functions/3DMatrixOperations.ts:4-11 | Where `sin² + cos² = 1`, the transpose is the inverse. |
| Transforms.RotationYOrthogonal | src/app/core/engine/Maths/Functions/3DMatrixOperations.ts:13-20 | Where `sin² + cos² = 1`, the transpose is the inverse. |
| Transforms.RotationZOrthogonal | src/app/core/engine/Maths/Functions/3DMatrixOperations.ts:22-29 | Where `sin² + cos² = 1`, the transpose is the inverse. |
| Transforms.RotationXTurnsAboutX | src/app/core/engine/Maths/Functions/3DMatrixOperations.ts:4-11 | A point keeps its `x` and `w` and its distance from the `x` axis. |
| Transforms.RotationYTurnsAboutY | src/app/core/engine/Maths/Functions/3DMatrixOperations.ts:13-20 | A point keeps its `y` and `w` and its distance from the `y` axis. |
| Transforms.RotationZTurnsAboutZ | src/app/core/engine/Maths/Functions/3DMatrixOperations.ts:22-29 | A point keeps its `z` and `w` and its distance from the `z` axis. |
| Transforms.TurnKeepsLength | src/app/core/engine/Maths/Functions/3DMatrixOperations.ts:4-29 | A plane turn keeps lengths when `s² + c² = 1`. |
| Transforms.Translation | src/app/core/engine/Maths/Functions/3DMatrixOperations.ts:31-38 | `Translation3DMatrix`. TranslationMovesPoints, TranslationsCompose and TranslationInverse state its properties. |
| Transforms.TranslationMovesPoints | src/app/core/engine/Maths/Functions/3DMatrixOperations.ts:31-38 | `(x, y, z, 1)·T(t) = (x + tx, y + ty, z + tz, 1)`. |
| Transforms.TranslationsCompose | src/app/core/engine/Maths/Functions/3DMatrixOperations.ts:31-38 | `T(a)·T(b) = T(a + b)`. |
| Transforms.TranslationInverse | src/app/core/engine/Maths/Functions/3DMatrixOperations.ts:31-38 | `inverse2(T(t)) = T(-t)`. |
| Transforms.Scaling | src/app/core/engine/Maths/Functions/3DMatrixOperations.ts:56-63 | `Scaling3DMatrix`. ScalingScalesPoints and ScalingsCompose state its properties. |
| Transforms.ScalingScalesPoints | src/app/core/engine/Maths/Functions/3DMatrixOperations.ts:56-63 | A point is scaled componentwise and `w` stays 1. |
| Transforms.ScalingsCompose | src/app/core/engine/Maths/Functions/3DMatrixOperations.ts:56-63 | `S(a)·S(b) = S(a ∘ b)`. |
| Transforms.GridSpace | src/app/core/engine/Maths/Functions/3DMatrixOperations.ts:40-54 | `Get3DGridSpaceMatrix`, defined when the box has non-zero extent on each axis. GridSpaceMapsBox states what it maps. |
| Transforms.GridSpaceMapsBox | src/app/core/engine/Maths/Functions/3DMatrixOperations.ts:40-54 | `x = left/right` maps to `∓1`, `y = bottom/top` to `∓1`, and depth `z = -near/-far` to `0/1`. |
| Transforms.OrthographicAxis | src/app/core/engine/Maths/Functions/3DMatrixOperations.ts:40-54 | One axis of the orthographic map sends `low` to -1 and `high` to 1. |
| Transforms.Fudge | src/app/core/engine/Maths/Functions/3DMatrixOperations.ts:65-72 | `Fudge`. FudgeDividesByDepth states its action. |
| Transforms.FudgeDividesByDepth | src/app/core/engine/Maths/Functions/3DMatrixOperations.ts:65-72 | `Fudge(f)` keeps `x`, `y` and `z` and sets `w = 1 + f·z`. |
| Transforms.Perspective | src/app/core/engine/Maths/Functions/3DMatrixOperations.ts:74-88 | `get3DSpacePerspective` as written. PerspectiveMissesFarPlane states where it sends the far plane. |
| Transforms.PerspectiveCorrected | src/app/core/engine/Maths/Functions/3DMatrixOperations.ts:74-88 | The same matrix with index 15 at 0. PerspectiveCorrectedMapsDepth states its depth mapping. |
| Transforms.PerspectiveMissesFarPlane | src/app/core/engine/Maths/Functions/3DMatrixOperations.ts:86 | As written, `w = 1 - z`, so a far-plane point ends at depth `100/101`, not 1. |
| Transforms.PerspectiveCorrectedMapsDepth | src/app/core/engine/Maths/Functions/3DMatrixOperations.ts:74-88 | With index 15 at 0, `w = -z` and depth after the divide is 0 at `zNear` and 1 at `zFar`. |
| Rotation3D.ComputeX | src/app/core/engine/Maths/Functions/3DRotation.ts:3-12 | `computeRotationX`. RotateIsThreeTurns identifies it as the first component of three axis turns. |
| Rotation3D.ComputeY | src/app/core/engine/Maths/Functions/3DRotation.ts:15-24 | `computeRotationY`. RotateIsThreeTurns identifies it as the second component. |
| Rotation3D.ComputeZ | src/app/core/engine/Maths/Functions/3DRotation.ts:26-33 | `computeRotationZ`. RotateIsThreeTurns identifies it as the third component; ComputeZIgnoresThirdAngle shows it does not read `angle.z`. |
| Rotation3D.Rotate3DVector | src/app/core/engine/Maths/Functions/3DRotation.ts:35-41 | `rotate3DVector`. RotateIsThreeTurns, RotatePreservesLength, RotateAtZero and RotateIsLinear state its properties. |
| Rotation3D.RotateIsThreeTurns | src/app/core/engine/Maths/Functions/3DRotation.ts:3-41 | The three formulas are a turn of `(j, k)` by A, then `(k, i)` by B, then `(i, j)` by C, multiplied out. |
| Rotation3D.RotatePreservesLength | src/app/core/engine/Maths/Functions/3DRotation.ts:35-41 | Where `sin² + cos² = 1` at the three angles, the point keeps its distance from the origin. |
| Rotation3D.RotateAtZero | src/app/core/engine/Maths/Functions/3DRotation.ts:35-41 | With all angles 0, the point is returned unchanged. |
| Rotation3D.RotateAboutThirdAxis | src/app/core/engine/Maths/Functions/3DRotation.ts:3-33 | With A = B = 0, the result is `(i·cosC + j·sinC, j·cosC - i·sinC, k)`. |
| Rotation3D.ComputeZIgnoresThirdAngle | src/app/core/engine/Maths/Functions/3DRotation.ts:26-33 | `computeRotationZ` does not depend on the third angle. |
| Rotation3D.RotateIsLinear | src/app/core/engine/Maths/Functions/3DRotation.ts:3-33 | For fixed angles, the rotation is linear in the point. |
| Rotation3D.ThreeTurnsIsLinear | src/app/core/engine/Maths/Functions/3DRotation.ts:3-33 | The three-turn form is linear in the point. |
| Rotation3D.StagedTurnsIsLinear | src/app/core/engine/Maths/Functions/3DRotation.ts:3-33 | The same, over plain numbers. |
| Rotation3D.TurnIsLinear | src/app/core/engine/Maths/Functions/3DRotation.ts:3-33 | One plane turn is linear. |
| KeyControls.KeyEvent | src/app/core/engine/class/Controls.ts:67-80 | A mapped code sets exactly its flag to the event's direction. An unmapped code changes nothing. |
| KeyControls.Controls.constructor | src/app/core/engine/class/Controls.ts:36-64 | The AZERTY map, with all six flags false. |
| KeyControls.Controls.KeyDown | src/app/core/engine/class/Controls.ts:67-74 | `pressedKeys` after keydown is `KeyEvent(old, code, true)`; the map is unchanged. |
| KeyControls.Controls.KeyUp | src/app/core/engine/class/Controls.ts:75-80 | `pressedKeys` after keyup is `KeyEvent(old, code, false)`; the map is unchanged. |
| KeyControls.AzertyKeyMapIsOneToOne | src/app/core/engine/class/Controls.ts:11-18 | Every control has exactly one key. |
| KeyControls.PressThenRelease | src/app/core/engine/class/Controls.ts:67-80 | A keyup undoes a keydown of the same code. |
| KeyControls.KeyEventIdempotent | src/app/core/engine/class/Controls.ts:67-74 | A repeated key event changes nothing more. |
| KeyControls.KeyEventsCommute | src/app/core/engine/class/Controls.ts:67-80 | Events on different controls commute. |
| EngineCamera.Camera.constructor | src/app/core/engine/class/Camera.ts:32-38 | No rotation, no velocity, the identity view, and fresh AZERTY controls with every key up. |
| EngineCamera.Camera.UpdateView | src/app/core/engine/class/Camera.ts:40-44 | `view` becomes `T(position)·RY(rotationReset(yaw))·RX(clamp(pitch, ±π/2))` in `multiply` order. Nothing else changes. |
| EngineCamera.Camera.GetCameraMatrix | src/app/core/engine/class/Camera.ts:46-50 | Refreshes `view` and returns `inverse2(view)`. A result exists exactly when `det(view) ≠ 0`, and it undoes `view`. |
| EngineCamera.Camera.SetAccelerationVector | src/app/core/engine/class/Camera.ts:68-82 | The velocity becomes the clamped and damped step, and is returned. |
| EngineCamera.Camera.Move | src/app/core/engine/class/Camera.ts:85-109 | Unlocked, nothing moves. Locked, the velocity is integrated from the pressed keys with `t = ms/1000`, and the position moves by the yaw-turned step. |
| EngineCamera.Camera.MouseMove | src/app/core/engine/class/Camera.ts:111-122 | Only while locked, rotation grows by `(Δy·π/180, Δx·π/180, 0)`. |
| EngineCamera.MovementOf | src/app/core/engine/class/Camera.ts:89-96 | The 0/1 movement flags read off the pressed keys. MovementIsBinary bounds them. |
| EngineCamera.AccelerationStep | src/app/core/engine/class/Camera.ts:68-82 | The new velocity of `setAccelerationVector`. AccelerationBounded, AccelerationWithoutInput and VerticalInputSaturates state its properties. |
| EngineCamera.SideMovement | src/app/core/engine/class/Camera.ts:52-58 | `getSideMovementValue`. StepKeepsSpeed and StepAtZeroYaw state its properties. |
| EngineCamera.ForwardMovement | src/app/core/engine/class/Camera.ts:60-66 | `getForwardMovementValue`. StepKeepsSpeed and StepAtZeroYaw state its properties. |
| EngineCamera.ViewMatrix | src/app/core/engine/class/Camera.ts:40-44 | The matrix `updateView` builds. ViewAppliesPitchYawTranslation states its action. |
| EngineCamera.MovementIsBinary | src/app/core/engine/class/Camera.ts:89-96 | The flags are 0 or 1, so each axis input is -1, 0 or 1. |
| EngineCamera.AccelerationBounded | src/app/core/engine/class/Camera.ts:75-79 | `\|vx\|, \|vy\| ≤ maxSpeed` and `\|vz\| ≤ 2·maxSpeed` after every step. |
| EngineCamera.DampingShrinks | src/app/core/engine/class/Camera.ts:76-77 | Damping a clamped speed keeps it within `maxSpeed`. |
| EngineCamera.AccelerationWithoutInput | src/app/core/engine/class/Camera.ts:76-78 | Without input, horizontal speed within the limit decays by exactly 5%. The vertical speed is only clamped. |
| EngineCamera.VerticalInputSaturates | src/app/core/engine/class/Camera.ts:78 | Holding up or down drives the vertical speed to `±2·maxSpeed`. |
| EngineCamera.StepKeepsSpeed | src/app/core/engine/class/Camera.ts:52-66 | The ground-plane step has the horizontal speed as its length wherever `sin² + cos² = 1`. |
| EngineCamera.StepAtZeroYaw | src/app/core/engine/class/Camera.ts:52-66 | At yaw 0, `vx` moves along `z` and `vy` along `x`. The vertical step is the raw flag difference. |
| EngineCamera.ViewAppliesPitchYawTranslation | src/app/core/engine/class/Camera.ts:40-44 | The view is the product `RX·RY·T`: it pitches, then yaws, then translates a row vector. |
| EngineCamera.ForwardOnlyFrame | src/app/core/engine/class/Camera.ts:68-104 | One second of `W` from rest at yaw 0 gives velocity `(-10, 0, 0)` and moves the camera by `(0, 0, -10)`. |
| EngineCube.CubeFaceRotation | src/app/core/engine/class/Cube.ts:52-59 | `CubeFaceRotations[side]`. RotationKeepsCorners and SidesLieOnTheirPlanes state its properties. |
| EngineCube.VertexesOf | src/app/core/engine/class/Cube.ts:76-85 | `toVertexes()` over given sides, `flat(2)`. VertexesLength and VertexesLayout state its layout. |
| EngineCube.FacesTexturesCoordinates | src/app/core/engine/class/Cube.ts:31-50 | Six UVs per side. |
| EngineCube.SideVertices | src/app/core/engine/class/Cube.ts:69-74 | Six points per side. |
| EngineCube.GenerateSides | src/app/core/engine/class/Cube.ts:69-74 | Six sides of six points. |
| EngineCube.SideRecords | src/app/core/engine/class/Cube.ts:78-83 | Six records of five numbers per side. |
| EngineCube.SideRecordLists | src/app/core/engine/class/Cube.ts:78-83 | Six lists of six records. |
| EngineCube.Cube.constructor | src/app/core/engine/class/Cube.ts:64-67 | The sides are computed once, from the given coordinates. |
| EngineCube.Cube.ReloadCubeState | src/app/core/engine/class/Cube.ts:69-74 | The sides are recomputed from the current coordinates, which are unchanged. |
| EngineCube.Cube.ToVertexes | src/app/core/engine/class/Cube.ts:76-85 | Reads the stored sides only and returns `5 · VertexesCount = 180` numbers. |
| EngineCube.RecordsFlattened | src/app/core/engine/class/Cube.ts:84 | After the first `flat`, there are 36 records of five numbers. |
| EngineCube.VertexesLength | src/app/core/engine/class/Cube.ts:21 | `toVertexes` yields 180 numbers. |
| EngineCube.VertexesLayout | src/app/core/engine/class/Cube.ts:76-85 | Number `k` of vertex `i` of side `s` is at `30s + 5i + k`: the rotated template point plus the coordinates, then its UV, with sides in the order FACE, BOTTOM, RIGHT, LEFT, TOP, BACK. |
| EngineCube.RotationKeepsCorners | src/app/core/engine/class/Cube.ts:52-59 | Every face rotation maps a `(±1, ±1, ±1)` corner to a corner. |
| EngineCube.SidesLieOnTheirPlanes | src/app/core/engine/class/Cube.ts:22-59 | Each point is the coordinates plus a corner, one unit out along its side's normal. |
| EngineCube.NormalsDistinct | src/app/core/engine/class/Cube.ts:52-59 | The six sides lie on six different planes. |
| EngineCube.UvsInsideCell | src/app/core/engine/class/Cube.ts:31-50 | Every UV lies in `[0, 1]²`, inside its side's 1/4 × 1/3 atlas cell. |
| EngineCube.AtlasCellsDistinct | src/app/core/engine/class/Cube.ts:31-50 | Different sides use different atlas cells. |
| EngineCube.TrianglesShareEdge | src/app/core/engine/class/Cube.ts:22-50 | Points 3 and 5 repeat points 2 and 0, in position and UV alike. |
| EngineChunk.CubeCoordinates | src/app/core/engine/class/Chunk.ts:29-31 | `(x, y, z)·2 + pos`. GenerateChunk and GeneratedChunkVertexes place each slot's cube there. |
| EngineChunk.NonNull | src/app/core/engine/class/Chunk.ts:39 | The filter never lengthens the list. |
| EngineChunk.NonNullOfFull | src/app/core/engine/class/Chunk.ts:39 | With no empty slot, the filter keeps everything, in order. |
| EngineChunk.NonNullMembers | src/app/core/engine/class/Chunk.ts:39 | A cube is kept exactly when some slot holds it. |
| EngineChunk.Chunk.constructor | src/app/core/engine/class/Chunk.ts:13-21 | `pos` stays at the origin and `position` is ignored. The grid is 16×1×16 with a fresh cube at `(2x, 2y, 2z) + pos` in every slot. |
| EngineChunk.Chunk.GenerateChunk | src/app/core/engine/class/Chunk.ts:23-36 | The triple loop fills the full grid with fresh cubes placed for their slots. `pos`, `size` and `rotations` are unchanged. |
| EngineChunk.GeneratedChunkVertexes | src/app/core/engine/class/Chunk.ts:38-40 | A full grid lists 256 cubes, with slot `(x, 0, z)` at `16x + z`. |
| RenderSquare.ClampToCanvas | src/app/render/renderSquare.ts:8-9 | The result is within `[0, size]`, and a value already inside is kept. |
| RenderSquare.BuildSquareVertexXYPositions | src/app/render/renderSquare.ts:1-25 | Twelve numbers, six `(x, y)` pairs. |
| RenderSquare.SquareCorners | src/app/render/renderSquare.ts:11-24 | The six points are the clip-space corners of the rectangle: TL, TR, BR, BR, BL, TL, after the corner is clamped into the canvas. |
| RenderSquare.DivideSum | src/app/render/renderSquare.ts:21-23 | `(a + b)/d = a/d + b/d`. |
| RenderSquare.FullCanvasIsTemplate | src/app/render/renderSquare.ts:11-23 | A canvas-sized rectangle at the origin is the ±1 template. |
| RenderSquare.OutsideCornerIsClamped | src/app/render/renderSquare.ts:8-9 | A corner outside the canvas is drawn at the nearest canvas point. |
| SimpleTriangle.NewTriangle | src/app/core/class/SimpleTriangle.ts:20-26 | The corners are `coords[0..2]`. The angle argument is not stored. |
| SimpleTriangle.ComputeVertexes | src/app/core/class/SimpleTriangle.ts:28-37 | Nine numbers. |
| SimpleTriangle.ComputeVertexesLayout | src/app/core/class/SimpleTriangle.ts:28-37 | Entries `3p..3p+2` are corner `p`'s `x, y, z`, in the order a, b, c. |
| SimpleTriangle.ZAverage | src/app/core/class/SimpleTriangle.ts:39-41 | `getTriangleZAverage`. ZAverageShift and SingletonGroups state its properties. |
| SimpleTriangle.Sum | src/app/core/class/SimpleTriangle.ts:44-45 | `reduce` without a start value has a result exactly for a non-empty list. |
| SimpleTriangle.Depths | src/app/core/class/SimpleTriangle.ts:44-45 | Entry `i` is triangle `i`'s z-average. |
| SimpleTriangle.MeanDepth | src/app/core/class/SimpleTriangle.ts:44-45 | The mean exists exactly for a non-empty group. |
| SimpleTriangle.SortTriangleByDepth | src/app/core/class/SimpleTriangle.ts:43-48 | The comparator has a value exactly when both groups are non-empty. |
| SimpleTriangle.ShiftAll | src/app/core/class/SimpleTriangle.ts:39-41 | Every triangle is moved by `d` in depth. |
| SimpleTriangle.ZAverageShift | src/app/core/class/SimpleTriangle.ts:39-41 | Moving a triangle by `d` in depth moves its z-average by `d`. |
| SimpleTriangle.SumShift | src/app/core/class/SimpleTriangle.ts:44-45 | The fold adds `n·d` when each of its `n` elements grows by `d`. |
| SimpleTriangle.MeanDepthShift | src/app/core/class/SimpleTriangle.ts:44-45 | Moving a group by `d` moves its mean depth by `d`. |
| SimpleTriangle.MeanOfShifted | src/app/core/class/SimpleTriangle.ts:44-45 | `(s + n·d)/n = s/n + d`. |
| SimpleTriangle.ComparatorAntisymmetric | src/app/core/class/SimpleTriangle.ts:43-48 | `f(A, A) = 0` and `f(A, B) = -f(B, A)`. |
| SimpleTriangle.ComparatorTransitive | src/app/core/class/SimpleTriangle.ts:43-48 | `f(A, C) = f(A, B) + f(B, C)`, so the order is transitive. |
| SimpleTriangle.ComparatorShift | src/app/core/class/SimpleTriangle.ts:43-48 | Pushing a group back by `d` raises its comparison by `d`. |
| SimpleTriangle.SingletonGroups | src/app/core/class/SimpleTriangle.ts:39-48 | One-triangle groups compare by their z-averages. |
| VecMatrix3.NewVecMatrix | src/app/core/class/VecMatrix.ts:62-79 | `new VecMatrix(input)`. RowsAndColumns and RowsMatchColumns state its rows and columns. |
| VecMatrix3.Normalise | src/app/core/class/VecMatrix.ts:64 | Always nine entries. Entry `i` is `input[i]`, or 0 when missing or NaN; longer input is cut. |
| VecMatrix3.SelectColumn | src/app/core/class/VecMatrix.ts:74-78 | The index filter for column `c` keeps entries `c`, `c+3` and `c+6`, in order. |
| VecMatrix3.RowsAndColumns | src/app/core/class/VecMatrix.ts:62-79 | The rows are the three slices and the columns the stride-3 picks. |
| VecMatrix3.RowsMatchColumns | src/app/core/class/VecMatrix.ts:67-78 | `rows[r][c] == columns[c][r] == matrix[3r + c]`. |
| VecMatrix3.NormaliseKeepsNine | src/app/core/class/VecMatrix.ts:64 | Nine numbers pass unchanged, and any extra entries are ignored. |
| VecMatrix3.NormaliseIdempotent | src/app/core/class/VecMatrix.ts:64 | Normalising twice is normalising once. |
| VecMatrix3.RowTimesColumnOf | src/app/core/class/VecMatrix.ts:96-100 | A row against a column is their dot product. |
| VecMatrix3.Multiply | src/app/core/class/VecMatrix.ts:93-103 | `VecMatrix.multiply`. MultiplyLayout, MultiplyEntry and MultiplyIsProduct state that it is the product `m2·m1`. |
| VecMatrix3.MultiplyLayout | src/app/core/class/VecMatrix.ts:93-103 | `flat()` puts row `rb` of `m2` against column `j` of `m1` at `3rb + j`. |
| VecMatrix3.RowAndColumnOf | src/app/core/class/VecMatrix.ts:67-78 | Row `r` holds `3r..3r+2`; column `c` holds `c, c+3, c+6`. |
| VecMatrix3.MultiplyEntry | src/app/core/class/VecMatrix.ts:93-103 | Entry `(rb, j)` is `Σ m2[3rb+k]·m1[3k+j]`. |
| VecMatrix3.MultiplyRow | src/app/core/class/VecMatrix.ts:93-103 | The three entries of a row of the product. |
| VecMatrix3.MultiplyIsProduct | src/app/core/class/VecMatrix.ts:93-103 | `multiply(m1, m2)` is the textbook product `m2·m1`. |
| VecMatrix3.RotationX3 | src/app/core/class/VecMatrix.ts:26-30 | `RotationMatrixX`. RotationsAtZero3 states its value at 0. |
| VecMatrix3.RotationY3 | src/app/core/class/VecMatrix.ts:32-36 | `RotationMatrixY`. RotationsAtZero3 states its value at 0. |
| VecMatrix3.RotationZ3 | src/app/core/class/VecMatrix.ts:38-42 | `RotationMatrixZ`. RotationsAtZero3 states its value at 0. |
| VecMatrix3.GetRotationMatrice | src/app/core/class/VecMatrix.ts:81-87 | `getRotationMatrice`. RotationMatriceOrder states its order and RotationsAtZero3 its value at 0. |
| VecMatrix3.RotationMatriceOrder | src/app/core/class/VecMatrix.ts:81-87 | The left fold over `[RX, RY, RZ]` gives `RZ·RY·RX`. |
| VecMatrix3.RotationsAtZero3 | src/app/core/class/VecMatrix.ts:26-42 | Each rotation at 0, and their product, is the 3×3 identity. |
| VecMatrix3.TranslationMatrix | src/app/core/class/VecMatrix.ts:44-48 | `TranslationMatrix`. TranslationMatrixOnRowVector states its action. |
| VecMatrix3.TranslationMatrixOnRowVector | src/app/core/class/VecMatrix.ts:44-48 | With rows 0 and 1 all ones, `(x, y, 1)` maps to `(x+y+tx, x+y+ty, x+y+tz)`, which is not a translation. |
| VecMatrix3.AddVertexFloat32Padding | src/app/core/class/VecMatrix.ts:105-113 | `addVertexFloat32Padding`. PaddingLayout states its layout. |
| VecMatrix3.PaddingLayout | src/app/core/class/VecMatrix.ts:105-113 | Twelve numbers: each row followed by a 0. |
| LegacyCube.VertexesOf | src/app/core/class/Cube.ts:121-131 | `toVertexes()` over given sides, `flat(3)`. NestedLayout and VertexesLength state its layout. |
| LegacyCube.CubeVertexes | src/app/core/class/Cube.ts:119-132 | What `toVertexes()` returns for a cube at given coordinates. CubeVertexesLayout and CubeVertexesInjective state its properties. |
| LegacyCube.TriangleUvs | src/app/core/class/Cube.ts:43-62 | Two triangles of three UVs per side. |
| LegacyCube.GenerateSides | src/app/core/class/Cube.ts:82-109 | Six sides of two triangles. |
| LegacyCube.TriangleRecords | src/app/core/class/Cube.ts:124-130 | Three records of five numbers per triangle. |
| LegacyCube.NestedRecords | src/app/core/class/Cube.ts:121-130 | Six sides × two triangles × three records × five numbers, before `flat(3)`. |
| LegacyCube.Cube.constructor | src/app/core/class/Cube.ts:111-117 | Stores the fields and builds the sides from `coordinates`. |
| LegacyCube.Cube.ToVertexes | src/app/core/class/Cube.ts:119-132 | Rebuilds the sides from the current coordinates and returns `CubeVertexes(coordinates)`; the other fields are unchanged. |
| LegacyCube.NestedLayout | src/app/core/class/Cube.ts:121-131 | Number `k` of point `p` of triangle `t` of side `s` is at `30s + 15t + 5p + k`. |
| LegacyCube.TrianglesShape | src/app/core/class/Cube.ts:131 | After the first `flat`, there are triangles of three records of five. |
| LegacyCube.RecordsShape | src/app/core/class/Cube.ts:131 | After the second `flat`, there are records of five. |
| LegacyCube.TriangleRecordIsCorner | src/app/core/class/Cube.ts:124-130 | Record `p` is corner `p` followed by its UV. |
| LegacyCube.CubeVertexesLayout | src/app/core/class/Cube.ts:119-132 | 180 numbers. Entry `30s + 15t + 5p + k` is template point `3t + p`, rotated for the side and moved to the coordinates, then its UV. |
| LegacyCube.GeneratedCorner | src/app/core/class/Cube.ts:89-104 | Triangle 0 uses template points 0-2 and triangle 1 points 3-5, each rotated and then moved. |
| LegacyCube.VertexesLength | src/app/core/class/Cube.ts:119-132 | `toVertexes` yields 180 numbers. |
| LegacyCube.TrianglesLieOnTheirPlanes | src/app/core/class/Cube.ts:27-34 | Every point is the coordinates plus a `(±1, ±1, ±1)` corner on its side's plane. |
| LegacyCube.TriangleUvsInsideCell | src/app/core/class/Cube.ts:43-62 | Every UV is inside its side's atlas cell, the same cell the engine uses. |
| LegacyCube.TrianglesShareDiagonal | src/app/core/class/Cube.ts:27-62 | The two triangles share the diagonal, in position and UV alike. |
| LegacyCube.CubeVertexesInjective | src/app/core/class/Cube.ts:119-132 | Different coordinates give different vertex lists. |
| LegacyChunk.RowListing | src/app/core/class/Chunk.ts:55-62 | Sixteen lists for a filled cell, none for an empty one. |
| LegacyChunk.Filled | src/app/core/class/Chunk.ts:57 | `f[z]` holds exactly when cell `z` holds a cube. |
| LegacyChunk.ListingStep | src/app/core/class/Chunk.ts:53-64 | One more `z` appends that cell's sixteen lists. |
| LegacyChunk.Chunk.constructor | src/app/core/class/Chunk.ts:30-33 | The `fill` makes every `chunk[x][0]` the same array. So 16 cells exist, each holding a fresh distinct cube at the origin, and `position` is ignored. |
| LegacyChunk.Chunk.GenerateChunk | src/app/core/class/Chunk.ts:35-49 | Each cell is overwritten sixteen times and ends with a fresh cube at the origin. The sharing is kept. |
| LegacyChunk.Chunk.GetChunkVertexes | src/app/core/class/Chunk.ts:51-66 | Lists what 256 distinct cubes would give, `z` outermost, and leaves each cube at its cell's `x = 15` place with size `size.x/3`. |
| LegacyChunk.Chunk.ListCell | src/app/core/class/Chunk.ts:53-63 | The `z` loop body: the sixteen slots of cell `z`. |
| LegacyChunk.Chunk.ListSlots | src/app/core/class/Chunk.ts:55-62 | The `x` loop: sixteen lists, each from the shared cube moved to its slot. |
| LegacyChunk.Chunk.PlaceCube | src/app/core/class/Chunk.ts:56-60 | The cube is resized to `size.x/3` and moved to `((x-8)·2, (y-0.5)·2, (z-8)·2)`, and its vertexes are read. |
| LegacyChunk.FullListing | src/app/core/class/Chunk.ts:51-66 | 256 lists, with slot `(x, 0, z)` drawn at its own place at `16z + x`. |
| LegacyChunk.SlotsDrawnApart | src/app/core/class/Chunk.ts:59-60 | Different slots are drawn at different places, though only sixteen cubes exist. |
| LegacyMap.SlotOf | src/app/core/class/Map.ts:40-42 | The slot of the `n`-th cube in loop order. SlotOfIndex, SlotOfInjective and SlotOfRecombines state that it is a bijection on the 1024 slots. |
| LegacyMap.Along | src/app/core/class/Map.ts:43-47 | One coordinate of `blockPos`. |
| LegacyMap.BlockPos | src/app/core/class/Map.ts:43-47 | `blockPos`. BlocksDrawnApart and BlockPosCoordinates state its properties. |
| LegacyMap.BlockPosCoordinates | src/app/core/class/Map.ts:43-47 | The coordinates of every slot of the block lie in `BlockCoordinates`, the finite set of numbers that appear in keys. |
| LegacyMap.BlockKey | src/app/core/class/Map.ts:49 | `blockPos.toString()`. KeysDistinct states that the keys differ. |
| LegacyMap.KeyAt | src/app/core/class/Map.ts:49 | The key of the `n`-th cube created. |
| LegacyMap.SlotOfIndex | src/app/core/class/Map.ts:38-63 | Slot `(x, y, z)` is the `64x + 16y + z`-th one created. |
| LegacyMap.SlotOfInjective | src/app/core/class/Map.ts:38-63 | Different creation indices are different slots. |
| LegacyMap.SlotOfRecombines | src/app/core/class/Map.ts:38-63 | A creation index is recovered from its slot. |
| LegacyMap.KeysDistinct | src/app/core/class/Map.ts:43-49 | Different slots of the block get different `toString` keys, when numbers format without commas and tell the block's coordinates apart. |
| LegacyMap.NewKeyIsNew | src/app/core/class/Map.ts:49 | The next key is not among the keys already stored. |
| LegacyMap.KeyedExtends | src/app/core/class/Map.ts:49 | Setting a new key appends it to the enumeration order, each key still listed once. |
| LegacyMap.FilledExtends | src/app/core/class/Map.ts:49 | Storing the next slot keeps every earlier entry. |
| LegacyMap.Chunk.constructor | src/app/core/class/Map.ts:33-36 | 1024 entries. Key `n` is slot `n`'s position text and holds a fresh cube at that slot's block position with the block size. |
| LegacyMap.Chunk.GenerateChunk | src/app/core/class/Map.ts:38-63 | From an empty object, the triple loop stores 1024 fresh cubes in creation order under distinct keys. |
| LegacyMap.Chunk.AddRow | src/app/core/class/Map.ts:41-60 | The `z` loop adds sixteen entries and keeps the earlier ones. |
| LegacyMap.Chunk.AddBlock | src/app/core/class/Map.ts:43-59 | One slot's key is appended to the order and mapped to a fresh cube. |
| LegacyMap.Chunk.Store | src/app/core/class/Map.ts:49 | `chunk[key] = cube` for a new key. |
| LegacyMap.Chunk.NewBlock | src/app/core/class/Map.ts:43-59 | The slot's key and a fresh cube at `position + (slot - MaxSize/2)·50`, of size 50, unturned. |
| LegacyMap.Chunk.Draw | src/app/core/class/Map.ts:65-75 | One vertex list per key, in key order, each the cube's `toVertexes` at its coordinates. No cube moves. |
| LegacyMap.Chunk.DrawBlock | src/app/core/class/Map.ts:69 | One cube's vertexes; the cube stays where it is. |
| LegacyMap.Drawn | src/app/core/class/Map.ts:65-75 | One list per place. |
| LegacyMap.DrawnAt | src/app/core/class/Map.ts:65-75 | Entry `j` is the vertex list of place `j`. |
| LegacyMap.BlocksDrawnApart | src/app/core/class/Map.ts:43-47 | Different slots are drawn at different places. |
| Sequences.FlattenAppend | src/app/core/engine/class/Cube.ts:84 | `flat` distributes over concatenation. |
| Sequences.FlattenLength | src/app/core/engine/class/Cube.ts:84 | `n` records of `k` give `n·k` entries. |
| Sequences.FlattenAt | src/app/core/engine/class/Cube.ts:84 | Entry `j` of record `i` lands at `k·i + j`. |
| Sequences.FlattenMembers | src/app/core/engine/class/Chunk.ts:39 | `flat` keeps every element and adds none. |

## Left out

- Floating point: numbers are reals, so rounding and the tests' rounded comparisons are not reproduced. The worked results are proved as exact rationals.
- `Math.sin`, `Math.cos` and `Math.tan` are parameters. A lemma states which of their facts it uses.
- Number-to-text formatting (template literals) is a parameter. It is assumed comma-free, and injective only on the finitely many numbers in question: the six components compared by Vectors.FormatInjective, and the block coordinates of LegacyMap. JavaScript's shortest round-trip formatting tells apart all finite doubles except `0` and `-0`, and the model's reals have no `-0`.
- DOM and browser plumbing is not part of this model: event-listener registration, `preventDefault`, the mouse `CustomEvent`, the click-to-lock and F11 fullscreen handlers, `document.pointerLockElement` (a boolean parameter), and the slider `attachControls` callbacks of both chunk classes.
- The keyboard-layout table has only its AZERTY entry.
- The `Promise` wrapper and `console` output of `Camera.move`: `move` runs to completion.
- GaussJordan.Inverse: `None` stands for the run that meets a zero pivot with no row to swap in. The source divides by zero there and returns infinities and NaN. The contract does not say that `None` happens only for singular matrices, so it does not prove that the method returns a result on the worked example.
- CofactorInverse.Inverse2: `None` stands for a zero determinant, where the source fills the result with infinities and NaN.
- HexColor.FromHex: NaN and a missing piece are both `None`, and a thrown error is `Err`. The input is a sequence of UTF-16 code units, as JavaScript strings are; Utf16 gives the code units of a Dafny text.
- SimpleTriangle.Sum: `reduce` on an empty list throws, modelled as `None`.
- Numeric.WrapAnglePeriodic: stated for positive angles only. At 0, `rotationReset(2π)` is `2π`, and a negative angle keeps its sign.
- The instance `multiply` and `inverse` of `Matrix4` are the static ones applied to `this`. `F32Size`, the `Matrix` array holder and `VecMatrix.getMatrix` only hand back the stored array.
- SimpleTriangle.NewTriangle: the points are values, so the sharing of the caller's `Vector3` objects is not modelled. The scene code never mutates them afterwards.
- EngineCube and LegacyCube: the cube stores positions as values. `texturePath`, `FaceColors` and `TextureVertexes` are never used by the geometry.
- One `Vector3` class serves both generations, whose instance members are identical. `toString` is modelled as text assembled from a number format.
- LegacyMap.Chunk.Draw: the `for…in` order is the insertion order, which holds because the keys contain commas and so are not array indices.
- LegacyMap.Chunk.GenerateChunk: only the run on an empty object, as the constructor performs it, is modelled.
- RenderSquare.BuildSquareVertexXYPositions: the defaults `x = 0` and `y = 0` are not modelled; callers pass the corner. FullCanvasIsTemplate covers the call with the corner at the origin.
- The tests' expectation of 16-entry results from the 3×3 `VecMatrix` is not a property of the code, which truncates to nine entries.

## Findings

| source | as written | input that shows it | evidently intended | confidence | as-written member | corrected member |
|---|---|---|---|---|---|---|
| src/app/core/engine/Maths/Functions/3DMatrixOperations.ts:86 | index 15 of the perspective matrix is 1, so `w = 1 - z` | `zNear = 1`, `zFar = 100`, point `(0, 0, -100)`: depth `100/101` instead of 1 | index 15 is 0, so `w = -z`, depth 0 at the near plane and 1 at the far plane | high, not executed | Transforms.PerspectiveMissesFarPlane | Transforms.PerspectiveCorrectedMapsDepth |
| src/app/core/engine/Maths/Functions/Utils.ts:4-6 | the length check accepts six characters beginning with `#` | `"#abcde"` is read as `ab`, `cd`, `e`, giving a third component of `14/255` | `#` followed by exactly six digits, or six digits | high, not executed | HexColor.ShortHashAccepted | HexColor.ShortHashRejected |
