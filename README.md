# Synthetic pose-labelled images: scene composition and label bookkeeping

This project models the part of `gen_images.py` that decides what goes into
each synthetic image and what is recorded about it. Pixels are not modelled.

The generator keeps a catalog of objects (boat, house, car). Each object is a
list of primitive parts: boxes, triangles and circles. For every frame it does
four things:

- it empties the scene;
- `count` times, it draws a class and a pose, composes that class's parts into
  one compound, places the compound on the canvas and records the pose as a
  label;
- it renders the scene;
- it yields the image and the labels.

Beside the generator, the same file has a batching pass (`table_generator`),
one-hot label encoding (`onehot_generator`) and the number-of-classes
computation.

Modules, in dependency order:

- `Wrappers` (wrappers.dfy): `Option` and `Result` for the operations that raise in Python.
- `Geometry` (geometry.dfy): the closed primitive kind `Box | Triangle | Circle`, its letter code, the canonical unit-space geometry of each kind, transform records, and degrees to radians with `Pi` the double value of pi.
- `Compose` (compose.dfy): part specifications, catalog entries, parts and compounds. It has the composition of an object as a recursive function (`ObjectParts`), the loop that builds it (`ComposeObject`) and the default catalog.
- `Generator` (generator.dfy): configuration, random draws, pose labels, the final screen transform, and the class `Scene` whose `geoms` field each `Frame` resets and fills.
- `Batching` (batching.dfy): one pass of the table generator. It is a recursive function over the row offset (`BatchesFrom`/`TablePass`) plus the loop over `range(0, n, bsz)` (`TableGeneratorPass`), with lemmas for coverage, batch positions, batch sizes and batch count.
- `Encoding` (encoding.dfy): the identity matrix, one-hot rows with array indexing's rules, arg-max decoding, the number of classes, and the encode/decode round trip.

The random draws are method inputs. `DrawFits` states the ranges they come from:

- the class index is in `[0, len(objects))`;
- the offsets come from `uniform(-range, range)`;
- the scale comes from `uniform(scale_range, 1)`;
- the rotation comes from `uniform(-rotate_range, rotate_range)`, in degrees.

Python's `uniform(a, b)` returns a value between `a` and `b` whichever is
larger. The model says the same (`Between`). The code validates neither the
ranges nor the primitive letters, and the model accepts every configuration
the code accepts: it does not assume `scale_range <= 1` or ranges `>= 0`.

`range(count)` with a negative `count` runs zero times, so a frame then holds
no objects (`Iterations`). `randrange(0)` raises when the catalog is empty and
at least one object must be drawn. `Frame` returns `Failure(EmptyClassRange)`
for that case, with the scene already emptied.

Inside the source's "1.0x1.0" unit space, the circle primitive is the one
exception: it has radius 1, so it spans 2x2.

## Model

| member | source | states |
|---|---|---|
| `Geometry.BuildPrimitive` | gen_images.py:55-60 | Box gives a polygon with corners (-.5,-.5), (.5,-.5), (.5,.5), (-.5,.5). Every box corner is at distance .5 on both axes and the box has area 1, counter-clockwise. Triangle gives (-.5,-.5), (.5,-.5), (.5,.5), with area 1/2. Circle gives radius 1 with 30 segments. Exactly the non-circle kinds are polygons. |
| `Geometry.TriangleIsHalfBox` | gen_images.py:56-58 | The triangle's vertices are the box's first three corners, and it covers half the box's area. |
| `Geometry.ParseKind` | gen_images.py:55-60 | A letter selects a primitive exactly when it is one of B, T, C. The selected kind's letter is that letter. |
| `Geometry.ParseCode` | gen_images.py:55-60 | Every kind read back from its letter is itself. |
| `Geometry.Radians` | gen_images.py:54 | The converted angle times 180 is degrees times pi. Zero, positive and negative angles stay so. |
| `Compose.LocalTransform` | gen_images.py:54-61 | The part's transform translates to its offset, scales by its per-axis scale, and rotates by its degrees converted to radians. |
| `Compose.UniformScale` | gen_images.py:62 | The base-scale transform scales both axes by the entry's relative scale, with no translation and no rotation. |
| `Compose.ObjectParts` | gen_images.py:52-64 | One part per specification, in declaration order. Part i has the geometry of spec i's kind. It carries exactly two transforms: first spec i's translation, rotation in radians and scale, then the uniform base scale (k, k) of the object. Its colour is (.8, .6, .4). |
| `Compose.ObjectPartsAppend` | gen_images.py:53-64 | Composing concatenated part lists gives the concatenation of the compositions. The parts do not interact. |
| `Compose.ComposeObject` | gen_images.py:52-64 | The loop over an object's specifications returns exactly `ObjectParts` of that object's parts and base scale. |
| `Compose.DefaultCatalog` | gen_images.py:15-22 | The default catalog is boat (box, triangle), house (box, two triangles) and car (two boxes, two circles), each at relative scale 1. Every part offset lies within the 1.0x1.0 unit square and every part scale is at most 1 per axis. |
| `Generator.DrawFits` | gen_images.py:51-69 | A draw fits exactly when its class indexes the catalog, each offset is at most its shift range in magnitude, the scale lies between `scale_range` and 1, and the rotation is at most `rotate_range` degrees in magnitude. |
| `Generator.SamplePose` | gen_images.py:66-69 | The pose of a draw keeps the class, offsets and scale as drawn, and converts the rotation to radians. The class indexes the catalog. The offsets are within the shift ranges and the scale is between `scale_range` and 1. The rotation is within `rotate_range` degrees, in radians. `scale_range == 1` forces scale 1, and `rotate_range == 0` forces rotation 0. |
| `Generator.FinalTransform` | gen_images.py:70-74 | Translation ((x+.5)·w, (y+.5)·h), the pose's rotation, and the same scale s·object_scale·w on both axes. |
| `Generator.CentredAtZeroOffset` | gen_images.py:73 | A zero offset places the object at the canvas centre (w/2, h/2). |
| `Generator.Placed` | gen_images.py:72-75 | The compound holds one part per specification of the chosen entry, with that kind's geometry, the local transform and the base scale, and carries exactly the pose's final transform. |
| `Generator.DefaultPose` | gen_images.py:25-29 | Under the default arguments (28x28, object scale 0.5, shifts 0.25, scale range 1, rotate range 0, one object, default catalog) every pose has scale 1, rotation 0 and offsets of at most 0.25. The object is drawn at scale 14 with its centre in [7, 21] on both axes. |
| `Generator.Scene.constructor` | gen_images.py:46 | A new scene has the given configuration and no geometry. |
| `Generator.Scene.Frame` | gen_images.py:48-76 | The scene is emptied first. The frame fails exactly when the catalog is empty and an object must be drawn, and the scene is then empty. Otherwise: there are exactly `count` geoms and `count` labels (none when `count <= 0`); label i is the pose of draw i; its class indexes the catalog; geom i is that class's composed parts under the label's final transform. |
| `Batching.BatchesFrom` | gen_images.py:84-85 | There is a batch from offset i exactly when i is below the number of rows of x. |
| `Batching.TablePass` | gen_images.py:84-85 | A pass has a batch exactly when x is non-empty. |
| `Batching.TableGeneratorPass` | gen_images.py:81-85 | The loop over offsets 0, bsz, 2·bsz, … yields exactly the batches of `TablePass`. |
| `Batching.TablePassAt` | gen_images.py:84-85 | Batch k is (x[k·bsz : k·bsz+bsz], y[k·bsz : k·bsz+bsz]) with Python's clamped slicing. The x and y batches are cut at the same offsets. |
| `Batching.TablePassSizes` | gen_images.py:84-85 | Every x batch is non-empty and at most bsz long. Only the last may be shorter. With equally long x and y, each y batch is as long as its x batch. |
| `Batching.TablePassCovers` | gen_images.py:84-85 | Concatenating the x batches gives back x. With equally long inputs, concatenating the y batches gives back y. |
| `Batching.TablePassCount` | gen_images.py:84 | The number of batches is ceil(\|x\| / bsz): it covers every row, and one batch fewer would not. |
| `Batching.DefaultTablePassCount` | gen_images.py:81-84 | With the default batch size of 32 a pass has ceil(\|x\| / 32) batches. |
| `Encoding.Identity` | gen_images.py:90 | A dim × dim matrix with 1 on the diagonal and 0 elsewhere. |
| `Encoding.ArgMax` | gen_images.py:90 | The arg-max decoder of the rows line 90 produces; the source itself never decodes. The first position of a largest entry: nothing is larger than it, and everything before it is smaller. |
| `Encoding.OneHot` | gen_images.py:90 | A negative class count fails as building the identity matrix does. Otherwise the row for label y exists exactly when -dim <= y < dim, and outside that it is an index error. It has dim entries, with 1 at the selected row index (negative y counts from the end) and 0 elsewhere. For 0 <= y < dim its arg-max is y. |
| `Encoding.OneHotBatch` | gen_images.py:90 | A negative class count fails whatever the labels, even for none. Otherwise encoding a label vector fails exactly when some label is out of range, with an index error, and on success row i is the one-hot row of label i. |
| `Encoding.OneHotStep` | gen_images.py:89-91 | The inputs pass through unchanged and the labels become their one-hot rows. It fails exactly when their encoding does. |
| `Encoding.Decode` | gen_images.py:90 | The inverse of line 90's encoding, used for the round trip; the source itself never decodes. Decoding gives one label per row: the row's arg-max. |
| `Encoding.OneHotRoundTrip` | gen_images.py:90 | Labels in [0, dim) always encode, and decoding their rows by arg-max gives the labels back. |
| `Encoding.MaxLabel` | gen_images.py:105 | The maximum is one of the labels and no label exceeds it. |
| `Encoding.NClass` | gen_images.py:105 | An empty label vector has no class count. Otherwise the class count exceeds every label, and count − 1 is one of them. |
| `Encoding.NegativeLabelsFail` | gen_images.py:90-105 | All-negative labels give a class count of at most 0. Their encoding fails: a negative count fails on building the identity matrix, and a count of 0 is an index error. |
| `Encoding.TrainingLabelsRoundTrip` | gen_images.py:105-106 | With the class count taken from non-negative training labels, every training label encodes, and decoding gives the labels back. |

## Left out

- Rendering is not modelled. This covers the viewer, filled polygons, `make_circle`, the colour and transform attributes, the order in which the rendering library applies them, and the rendered RGB array. The library is not part of this model. Nothing about pixels or the image's shape is stated.
- The transforms built with only some arguments take translation (0, 0), rotation 0 and scale (1, 1) for the rest. That default is taken from the rendering library's constructor, which is not part of this model.
- The infinite loops and `yield`s of `generator`, `table_generator` and `onehot_generator` are not modelled. One call models one frame or one pass.
- The `random` module is not modelled. Draws are inputs constrained by `DrawFits`.
- Floating point is not modelled. Coordinates are reals, and pi is the decimal value of the double constant.
- `g in 'B'` is a substring test, so the empty string selects a box. An unrecognised letter leaves `geom` unbound or stale. The model uses a closed kind instead, and `ParseKind` rejects every other letter.
- `np.array(y_truth)` turns labels into a float array (shape (0,) for an empty frame) and is not modelled. Labels stay `Pose` records.
- `y.astype('int32')` truncates float labels toward zero. The model takes integer labels.
- Label arrays are (rows, count) for every `count`, including the default 1, so the real encoding is (bsz, count, dim) and `np.max` runs over every entry. The model takes the labels flattened into one vector: `OneHotBatch`, `NClass` and the round trip are stated on that vector, and the array shape is not modelled.
- `Batching.TableGeneratorPass` requires `bsz > 0`. With `bsz == 0`, `range` raises. With a negative `bsz`, the pass yields nothing and the outer loop never yields.
- `cached_onehot_generators` loading an archive, printing and calling `exit()` when the file is missing is I/O and is not modelled. Its `n_class` computation is `Encoding.NClass`.
- `table_generator`'s default `bsz=32` is `Batching.DefaultBatchSize`, and `generator`'s default arguments are `Generator.DefaultConfig`. Omitting an argument is not modelled: a `Config` always states every field.
- The command-line driver is not modelled: argument parsing, channel slicing, division by 255, the train/test split and archive writing.
