# Scene loader and render order of a Monte Carlo ray tracer

This project models two parts of `src/main.rs` of a small path tracer in the style of
"Ray Tracing in One Weekend".

1. **The scene-description interpreter** (`xml_parser` and `value_parser`). An XML
   document lists `film`, `camera`, `material` and `object` elements. The loader walks
   the document's nodes in pre-order. It keeps the output file name, the camera
   parameters, the last material seen and the growing world of spheres. It aborts
   (`panic!`/`expect`) on the first missing or malformed attribute.
   - The loop itself is `SceneLoader.XmlParser`, an imperative method over the node
     sequence that reassigns the loader's locals.
   - It is proved equal to `SceneLoader.LoadScene`, a left-to-right fold (`Run`, one
     `Step` per node) over the same state.
   - An abort is a `Failure` whose `LoadError` names the panic site.
   - `value_parser` is `ValueParser.ParseTriple`. Rust's `split_whitespace` is
     `ValueParser.Tokens`, over the Unicode White_Space characters that
     `char::is_whitespace` uses.
2. **The output order of the render driver** (`main`). `RenderDriver.Render` writes
   the three header lines and then one line per pixel. Rows run from
   `j = IMAGE_HEIGHT - 1` down to 0, and columns from `i = 0` up to `IMAGE_WIDTH - 1`
   within a row. Each row's colours are gathered in column order before they are
   written, as the order-preserving parallel `collect` does.

Boundaries of the model:
- Numbers are `real`. The loader only copies them, so nothing rounds.
- Number parsing (`str::parse::<f64>`) is a parameter `parse: string -> Option<real>`.
  Triples use it on each token. Single numbers (`aperture`, `fuzz`, `refrect_idx`,
  `radius`) use it on the raw attribute text, because Rust's `f64` parser does not
  trim whitespace.
- The document is the sequence of nodes `descendants()` yields. An element carries its
  local tag name and its attributes. Other node kinds change nothing.
- The constructors `Vec3::new`, `Sphere::new`, `Lambertian::new`, `Metal::new`,
  `Dielectric::new` and `Camera::new` are plain record constructors (`SceneTypes`).
  Their modules are not part of this model.
- The printed colour of a pixel is the parameter `pixel(i, j)` of `Render`. It stands
  for `format_color` applied to the 500 jittered `ray_color` samples.

## Model

| member | source | states |
|---|---|---|
| `ValueParser.Tokens` | src/main.rs:46 | every token `split_whitespace` yields is non-empty and contains no whitespace character |
| `ValueParser.TokensConcat` | src/main.rs:46 | concatenating the tokens gives exactly the input's non-whitespace characters, in order: nothing else is dropped or reordered |
| `ValueParser.TokensJoin` | src/main.rs:46 | round trip: splitting tokens joined by single spaces gives the same tokens back |
| `ValueParser.TokensSkipWhitespace` | src/main.rs:46 | leading whitespace yields no token: the tokens of `ws + s` are those of `s` |
| `ValueParser.TokensAfterWord` | src/main.rs:46 | tokens are maximal runs: a token followed by whitespace comes out whole, and the rest is split on its own |
| `ValueParser.Component` | src/main.rs:50-52 | `parts[k].parse()` succeeds exactly when token k exists and parses, with that number; otherwise it fails at index k, as an out-of-bounds index when there are at most k tokens and as a parse error otherwise |
| `ValueParser.ParseTriple` | src/main.rs:45-54 | succeeds exactly when there are at least three tokens and the first three parse; the result is those three numbers in order; on failure the error names the first component (index 0, 1 or 2) that is missing or unparsable: every earlier token exists and parses, a missing one is past the last token, and an unparsable one really fails to parse |
| `ValueParser.ParseTripleIgnoresExtra` | src/main.rs:45-54 | for every string with at least three tokens, tokens after the third do not change the result: it parses exactly like its first three tokens alone |
| `SceneLoader.BuildMaterial` | src/main.rs:128-174 | a missing `type` aborts with `MissingMaterialType`; success needs `type` to be `lambertian`, `metal` or `dielectric`, and the variant follows the type; a present `color` must parse even for a dielectric; `color` is optional and defaults to (0,0,0); a metal's fuzz is its parsed `fuzz`, a dielectric's index its parsed `refrect_idx` |
| `SceneLoader.FilmName` | src/main.rs:86-93 | a `film` element names the output after its `filename`, or `default.ppm` without one |
| `SceneLoader.CameraStep` | src/main.rs:94-127 | a `camera` element succeeds exactly when `look_from`, `look_at` and `up` hold three numbers each and `aperture` one; a missing `look_from` aborts first; on success the four parameters are the parsed attributes and the name, last material and world are unchanged |
| `SceneLoader.BuildSphere` | src/main.rs:176-198 | an `object` element builds a sphere exactly when `center` holds three numbers and `radius` one; a missing `center` aborts first; the sphere has the parsed centre and radius and the current material |
| `SceneLoader.Step` | src/main.rs:82-203 | one node's effect: text and other non-element nodes change nothing; on success the world only grows, by one sphere for an `object` element and by none otherwise; only `film` changes the name, only `material` the last material, only `camera` the camera parameters |
| `SceneLoader.Run` | src/main.rs:81-204 | the fold over the nodes in document order starts from the initial state; on success the world starts with the ground sphere and holds at most one sphere per node beyond it |
| `SceneLoader.XmlParser` | src/main.rs:56-217 | the imperative loop over the nodes returns exactly `LoadScene`: the same failure at the same node, or the same name, world and camera |
| `SceneLoader.LoadScene` | src/main.rs:206-216 | loading succeeds exactly when the pass over the nodes does; the name, world, look-from, look-at, up and aperture are those of the final state, and the camera's field of view is 20, its aspect ratio 3/2 and its focus distance 10 whatever the document says |
| `SceneLoader.StepSucceedsIff` | src/main.rs:82-203 | whether a node aborts depends only on the node, never on the state so far: it aborts exactly when it is not `WellFormed` |
| `SceneLoader.RunSucceedsIff` | src/main.rs:81-204 | the whole document loads exactly when every node is well formed: each `camera` has `look_from`, `look_at`, `up` (three numbers each) and a numeric `aperture`; each `material` has a `type` of the three kinds, a parseable `color` if present, and `fuzz` for a metal or `refrect_idx` for a dielectric; each `object` has a three-number `center` and a numeric `radius` |
| `SceneLoader.AbortIsFinal` | src/main.rs:81-204 | once a prefix of the nodes has aborted, the nodes after it do not matter: the result is that abort |
| `SceneLoader.WorldGrows` | src/main.rs:176-203 | on success, the world after any prefix of the nodes is a prefix of the final world |
| `SceneLoader.WorldShape` | src/main.rs:71-75 | on success, the world is the ground sphere (centre (0,-1000,0), radius 1000, grey Lambertian) first, and its length is 1 plus the number of `object` elements |
| `SceneLoader.ObjectSpheres` | src/main.rs:176-198 | on success, the `object` element at position k gives the sphere at position 1 + (number of earlier `object` elements), with its parsed centre and radius and the material of the most recent earlier `material` element, or the black Lambertian if there is none |
| `SceneLoader.CurrentMaterial` | src/main.rs:78-174 | on success, the last material is that of the most recent `material` element, or the black Lambertian (0,0,0) without one |
| `SceneLoader.OutputName` | src/main.rs:59-93 | on success, the output name comes from the last `film` element: its `filename`, or `default.ppm` without one; with no `film` element it is the empty string |
| `SceneLoader.CameraSettings` | src/main.rs:62-127 | on success, look-from, look-at, up and aperture are the parsed attributes of the last `camera` element; with no camera element the three vectors are zero and the aperture is 0 |
| `RenderDriver.ImageHeightFromAspect` | src/main.rs:237-239 | the height 800 is the width 1200 divided by the aspect ratio 3/2, truncated |
| `RenderDriver.DecimalStringDigits` | src/main.rs:248 | an integer is printed as decimal digits without leading zeros, and reading them back gives the integer |
| `RenderDriver.Header` | src/main.rs:247-249 | the header lines are `P3`, `1200 800` and `255` |
| `RenderDriver.WriteLines` | src/main.rs:274-276 | a collected scanline is appended to the output in order |
| `RenderDriver.Render` | src/main.rs:247-277 | the output is the three header lines followed by exactly 1200*800 pixel lines, and the line of pixel (i, j) is line 3 + (800-1-j)*1200 + i |
| `RenderDriver.LineOrder` | src/main.rs:251-277 | the line of (i, j) comes before the line of (i', j') exactly when row j is above row j', or the rows are equal and column i is left of i'; distinct pixels have distinct lines |
| `RenderDriver.LineOwner` | src/main.rs:251-277 | every line after the header is the line of some pixel of the image |

## Left out

- XML syntax (`Document::parse`, and its abort on malformed XML): a foreign library. The input is the already-parsed pre-order node sequence.
- `f64` text parsing: a foreign routine, taken as the parameter `parse`. NaN and infinities are not distinguished from other numbers.
- `ray_color`: floating-point colour arithmetic driven by random scattering, `World::hit` and `Scatter::scatter`, whose modules are not part of this model.
- The bodies of `Camera::new`, `Sphere::new`, `Lambertian::new`, `Metal::new`, `Dielectric::new` and `Color::format_color`: their modules are not part of this model. For example, any clamping `Metal::new` may apply to the fuzz is not modelled.
- The loader does not range-check any number: a metal's fuzz outside [0, 1] or a negative radius is copied as given, and the model does the same.
- Material sharing through `Arc`: materials are immutable values here, so sharing cannot be observed.
- The random jitter of sample coordinates and the floating-point `u`, `v` (src/main.rs:259-264), together with the 500-sample accumulation: folded into the `pixel` parameter.
- The rayon parallelism: only its order-preserving `collect` is modelled.
- Reading the scene name from stdin, opening and reading the XML file, creating the output file and the `BufWriter` writes (src/main.rs:221-249, 275): the output file is the returned sequence of lines. With no `film` element the name is the empty string, and what `File::create` then does is I/O outside the model.
- The `println!` about a missing file name and the `eprintln!` progress lines: diagnostics only.
