# phong: vector algebra and sphere sampling, in Dafny

This project models the two pieces of exact logic in a small SDL/OpenGL demo
that draws a sphere as a point cloud:

- **coord.c**: the operations on `coord_t`, a record of three floats.
  Every operation except `dot` and `clamp` takes nullable pointers and
  writes its result through an `out` pointer, which may be the same record
  as an input. The model (`coord.dfy`, module `Coord`) has a class `Coord`
  with mutable `x`, `y`, `z` fields (the `coord_t`) and one method per C
  function, taking `Coord?` arguments. So the NULL convention and the
  effect of aliasing are part of each method's contract. `Vec` is the value
  a record holds. The functions on `Vec` (`Sum`, `Difference`, `Negation`,
  `Scaled`, `Shifted`, `Inner`, `ClampedV`, `Reflection`) say what each
  operation means. The lemmas about them give the algebra: round trips,
  clamp bounds, unit length after normalisation, and the reflection
  identity.
- **phong.c**: `init_circle` fills the global array `coords` with
  `CIRCLE_SIZE` points on a sphere of radius `R`. `draw_scene` walks that
  array. The event loop in `main` records key-down and key-up events in
  the global array `pkeys`. The model (`phong.dfy`, module `Phong`) puts
  the two globals in one `Scene` object as `const` array fields. Its
  methods fill, walk and update them in place.

`float` is idealised as `real`. `sqrt` in `normalize` becomes a parameter
`s` with `s > 0` and `s * s` equal to the squared length. `sinf`, `cosf`
and `M_PI` become parameters `sin`, `cos` (total functions on reals) and
`pi` (a positive real). The only trigonometric fact used is
sin² + cos² = 1, and only as a precondition of the on-sphere lemmas.

The angle conversion is kept as written: `angle * 180 / M_PI`
(phong.c:104-108). A conversion from degrees to radians would be
`angle * M_PI / 180`. The on-sphere property holds for any conversion
factor (`PolarPointOnSphere` is stated for arbitrary angles), so the
inverted factor changes where the samples fall, not whether they lie on
the sphere.

The prototypes in coord.h:37-43 declare `void` results, omit `add`,
`add_const` and `clamp_v`, and disagree with the definitions in coord.c.
The model follows coord.c: every pointer operation returns its `out`
pointer, or NULL. From coord.h it takes only the `coord_t` record.

Aliasing, as verified:

- `Sub`, `Add`, `Neg`, `MulByConst`, `AddConst`, `ClampV` and `Normalize`
  compute every output field from same-named input fields only. Each one
  therefore gives the result its value function predicts, of the inputs
  before the call, whether or not `out` is an input. `Normalize` computes
  the magnitude before it writes anything.
- `Reflect` first writes `2·dot(v,n)·n` into `out` and then subtracts `v`.
  When `out` is `v`, the subtraction reads the overwritten `v`, so the
  result is the zero vector. When `out` is `n` but not `v`, the result is
  still the reflection `2·dot(v,n)·n − v`.

## Model

| member | source | states |
|---|---|---|
| `Coord.Coord.constructor` | coord.h:31-35 | a fresh `coord_t` holds the three given components |
| `Coord.Normalize` | coord.c:31-45 | NULL `in` or `out`: returns NULL and leaves `out` unchanged; otherwise returns `out`, holding the old `in` divided by its magnitude, with squared length 1, even when `out` is `in` |
| `Coord.NormalizedIsUnit` | coord.c:39-42 | dividing a vector by its magnitude `s` (`s > 0`, `s² = |v|²`) gives squared length 1 |
| `Coord.Sub` | coord.c:47-59 | NULL argument: returns NULL, writes nothing; otherwise `out` becomes old `a` − old `b`, whichever input `out` aliases |
| `Coord.Add` | coord.c:61-73 | NULL argument: returns NULL, writes nothing; otherwise `out` becomes old `a` + old `b`, whichever input `out` aliases |
| `Coord.SubAddRoundTrip` | coord.c:47-73 | subtracting `b` from `a + b` gives `a` |
| `Coord.Neg` | coord.c:75-87 | NULL argument: returns NULL, writes nothing; otherwise `out` becomes the negation of old `in`, also in place |
| `Coord.NegInvolutive` | coord.c:75-87 | negating twice gives the original vector |
| `Coord.Dot` | coord.c:89-97 | 0.0 when either pointer is NULL; otherwise the inner product of the two records |
| `Coord.Clamp` | coord.c:99-109 | `max` when `a > max`; `min` when `a <= max` and `a < min`; `a` when inside the bounds; the result is always one of `a`, `min`, `max`; with `min <= max` it lies in [min, max] |
| `Coord.ClampIdempotent` | coord.c:99-109 | with `min <= max`, clamping a clamped value changes nothing |
| `Coord.ClampIsNearest` | coord.c:99-109 | with `min <= max`, the clamped value is a point of [min, max] nearest to `a` |
| `Coord.ClampV` | coord.c:111-123 | NULL argument: returns NULL, writes nothing; otherwise each component of `out` is `clamp` of the same old input component, so with `min <= max` each lies in [min, max], also in place |
| `Coord.ClampedVInRange` | coord.c:111-123 | with `min <= max` every component of the clamped vector lies in [min, max] |
| `Coord.MulByConst` | coord.c:139-151 | NULL argument: returns NULL, writes nothing; otherwise `out` becomes old `v` scaled by `a`, also in place |
| `Coord.AddConst` | coord.c:153-165 | NULL argument: returns NULL, writes nothing; otherwise `out` becomes old `v` with `a` added to each of the three components, also in place |
| `Coord.ShiftInverse` | coord.c:153-165 | adding `c` to every component equals adding the vector (c, c, c), and adding `-c` afterwards undoes it |
| `Coord.Reflect` | coord.c:167-180 | NULL argument: returns NULL, writes nothing; with `out` distinct from `v` (it may be `n`) `out` becomes 2·dot(v,n)·n − v; with `out` the same record as `v` the result is the zero vector |
| `Coord.ReflectionKeepsNormalComponent` | coord.c:175-177 | for a unit `n`, the reflection has the same inner product with `n` as `v`, and its negation has the opposite one |
| `Phong.Grid` | phong.c:101-112 | the first `rows` rows of the cloud hold `rows · 720` points |
| `Phong.GridAt` | phong.c:103-110 | entry `bi · 720 + ai` of the cloud is the point for polar step `bi` and azimuth step `ai` (b-major, a-minor), and it is in bounds |
| `Phong.Cloud` | phong.c:39-44 | the full cloud has `CIRCLE_SIZE` = 360·2·180·2 points |
| `Phong.CellIsSample` | phong.c:104-110 | the value the loop body stores, built from the row's `rsb` and `rcb`, is the sample for the current two steps |
| `Phong.CloudRow` | phong.c:104-109 | every entry of row `bi` is built from the same `rsb = R·sin(b·180/π)` and has the same `z = R·cos(b·180/π)`, with `b = bi · 0.5` |
| `Phong.PolarPointOnSphere` | phong.c:104-109 | if sin² + cos² = 1, a point built as in the loop body has squared length r², whatever angles are passed to sin and cos |
| `Phong.CloudOnSphere` | phong.c:102-109 | if sin² + cos² = 1, every point of the cloud has squared length R² |
| `Phong.Scene.constructor` | phong.c:43-44 | the globals start zeroed: every point at the origin, no key held |
| `Phong.Scene.InitCircle` | phong.c:95-114 | fills `coords` with exactly the cloud; every write is in bounds; the final counter that the source prints equals `CIRCLE_SIZE` |
| `Phong.Scene.DrawScene` | phong.c:85-93 | passes `(x, y)` of entries `0 … CIRCLE_SIZE-1` to the draw call exactly once each, in increasing order |
| `Phong.Scene.HandleEvent` | phong.c:133-144 | key-down sets `pkeys[sym]`, key-up clears it, every other entry is unchanged; a quit event asks to stop |
| `Phong.Scene.PollEvents` | phong.c:130-145 | processes the pending events in order and stops at the first quit event; `pkeys` ends as `AfterEvents` of its old value |
| `Phong.LastEventWins` | phong.c:131-145 | without a quit event, each key ends as its last key-down or key-up event set it, and a key no event names keeps its old state |

## Left out

- SDL and OpenGL calls are left out as foreign I/O: `init_window`, the quads drawn by `draw_pixel`, `SDL_PollEvent`, `SDL_Quit`, `exit`, the buffer swap and the clear. `DrawScene` returns the sequence of points it would draw. `PollEvents` takes the pending events as a sequence and returns a quit flag in place of `exit`.
- The endless frame loop of `main` is left out. Only its event-draining step is modelled.
- IEEE float rounding, and the `float`/`double` conversions in `b * 180 / M_PI`, are left out because the model uses reals. The steps of 0.5 are exact in `float`, so the loop counts are the same. The loops count integer steps `bi` and `ai`, where the source steps the floats `b` and `a` by 0.5.
- Coord.Normalize: does not model the NaN/Inf result on a zero vector, because there is no real square root of a degenerate magnitude to divide by. A non-zero magnitude is a precondition.
- The real `sqrt`, `sinf` and `cosf`, and the value of `M_PI`, are left out. They are parameters, constrained only as described above.
- The commented-out cross product `mul` (coord.c:125-137) is left out because it is dead code.
- Phong.Scene.HandleEvent: requires the key symbol to be below 512, the length of `pkeys`. The source indexes `pkeys` with it unchecked.
- Lighting evaluation and interactive coefficient editing do not appear in coord.c or phong.c and are not part of this model.
