# viewerbucket page controller, in Dafny

The viewerbucket page loads two car models into a WebGL scene. It lets the user show one of them,
recolour or retexture it from swatches, and orbit a camera around it. Everything that draws is done by
the 3D library. This project models the page controller's own logic in `script.js`, with the
library's objects reduced to plain records:

- `extractUrl`: the URL inside a CSS `url("...")` value (module `CssUrl`). The regular expression
  `/url\("(.*?)"\)/` is modelled by what a backtracking engine reports: the leftmost match, with the
  shortest capture, where `.` matches no line terminator.
- The appearance updaters (module `Scene`). A loaded model's scene graph is its nodes in traversal
  order, kept in an array. Each node records whether it is a mesh, and its material's `map`, `color`
  and `needsUpdate`. `updateModelColor` and the texture-load callback are loops over that array that
  rewrite each mesh's material in place. `updateModelTexture` is reduced to the fetch it starts.
- The shared `state` object as a class (module `Viewer`). Its fields are the selected colour and
  texture, the registry `Map` (name to fragment), the active name, the camera position and the orbit
  controls' zoom bounds. The class has the swatch handler `updateModel`, the model switch `swapModel`
  (one pass over the registry, as `forEach` does), the load handler `setModel`, and one frame of
  `animate`. Texture fetches the controller starts are kept in order in the `requested` log.
- Client code (module `Scenarios`) drives the page's interactions end to end and states what a
  caller may conclude from each.

Camera coordinates are exact reals. A colour value is identified by the CSS text it is built from.
A texture is identified by the URL it was fetched from, and the load callback
always receives the texture of the URL its request fetched. A JavaScript value without a `.scene`
property is `None` where a model is expected: the `undefined` of a registry miss, or a fragment
passed where a loader result is expected. Dereferencing it is reported as a thrown TypeError.

## Behaviour as written

- `swapModel` writes the framing and `state.name` inside the `forEach` callback
  (script.js:64-81). With an empty registry neither happens, so the active name and the camera
  stay as they were.
- The framing table has two entries: `mclaren` gives (0, 3, 3) with zoom bounds 5 to 30, and
  `porsche` gives (0, 15, 15) with 20 to 50. Any other name keeps the camera, but the visibility
  swap still runs.
- `updateModel` stores the raw `background-image` value as the texture. It fetches only what
  `extractUrl` finds in that value. A style such as a gradient therefore clears the colour and
  starts no fetch.
- `setModel` hands `gltf.scene` to updaters that read `.scene` again. It also hands on the raw
  texture value without `extractUrl`. Both are listed under Findings.

## Model

| member | source | states |
|---|---|---|
| `CssUrl.CloseFrom` | script.js:23 | the lazy `.*?"\)` from a position finds the first `")` not preceded by a line terminator, or reports that no `")` is reachable without crossing one |
| `CssUrl.MatchFrom` | script.js:23 | the search over start positions finds the leftmost start where the whole pattern matches, with the lazy capture; no match means none starts at or after the position |
| `CssUrl.ExtractUrl` | script.js:22-25 | a returned URL is never empty and never holds a line terminator |
| `CssUrl.FirstMatchUnique` | script.js:23 | the match the engine reports is unique |
| `CssUrl.MatchFromIsFirstMatch` | script.js:23 | the search returns exactly the leftmost, shortest match, and returns nothing exactly when the pattern matches nowhere |
| `CssUrl.ExtractUrlOfMatch` | script.js:22-25 | when the pattern matches, the result is the first match's capture, or null exactly when that capture is empty (falsy) |
| `CssUrl.ExtractUrlWithoutMatch` | script.js:22-25 | a value the pattern does not match yields null |
| `CssUrl.ExtractUrlFound` | script.js:22-25 | every returned URL is the non-empty capture of the first match |
| `CssUrl.ExtractUrlOfComputedStyle` | script.js:22-25 | a computed `url("carbon.jpg")` yields `carbon.jpg` |
| `CssUrl.ExtractUrlOfEmptyUrl` | script.js:24 | `url("")` yields null because the empty capture is falsy |
| `Scene.Fragment.constructor` | script.js:28-31 | a loaded `gltf.scene` arrives visible with its nodes; hiding it is left to the load handler |
| `Scene.Paint` | script.js:89-92 | the colour callback keeps the node's kind; a mesh loses its texture map and takes the colour with `needsUpdate` kept; any other node is unchanged |
| `Scene.PaintAll` | script.js:88-93 | the colour traversal gives one node per node, each of the same kind |
| `Scene.Dress` | script.js:104-107 | the texture callback keeps the node's kind; a mesh takes the texture as its map and is marked for re-upload with its colour kept; any other node is unchanged |
| `Scene.DressAll` | script.js:103-108 | the texture traversal gives one node per node, each of the same kind |
| `Scene.PaintAllAt` | script.js:88-93 | after the colour traversal every mesh has no texture map and the new colour, with `needsUpdate` kept; non-mesh nodes are unchanged; the node count is kept |
| `Scene.PaintAllIdempotent` | script.js:88-93 | applying the same colour twice gives the same materials as applying it once |
| `Scene.DressAllAt` | script.js:103-108 | after the texture callback every mesh has the texture as its map and is marked for re-upload, with its colour kept; non-mesh nodes are unchanged |
| `Scene.PaintAfterDress` | script.js:86-108 | a colour applied after a texture leaves each node's map and colour as the colour alone would |
| `Scene.PaintMeshes` | script.js:88-93 | the in-place traversal leaves the node array equal to the colour traversal of its old contents |
| `Scene.DressMeshes` | script.js:103-108 | the in-place traversal leaves the node array equal to the texture traversal of its old contents |
| `Scene.UpdateModelColor` | script.js:86-95 | a falsy colour changes nothing; a truthy colour on a model with a `.scene` recolours every mesh of it; a truthy colour on a value without `.scene` throws and changes nothing |
| `Scene.UpdateModelTexture` | script.js:98-102 | a fetch is started exactly when the URL is truthy, for that URL and that model |
| `Scene.TextureLoaded` | script.js:102-109 | the completed fetch dresses every mesh of its target with the texture decoded from the requested URL, or throws when the target has no `.scene` |
| `Viewer.FramingFor` | script.js:65-78 | exactly `mclaren` and `porsche` have a framing; each has positive zoom bounds with min below max and a position on the x = 0, y = z diagonal |
| `Viewer.Framed` | script.js:64-78 | a name without a framing keeps the camera and zoom bounds; a name with one takes its position and bounds |
| `Viewer.Selected` | script.js:41-49 | a swatch with a background image selects that value as texture and clears the colour; otherwise its background colour is selected and the texture cleared; never both |
| `Viewer.Swapped` | script.js:57-62 | the flags after a swap have the same keys as before, and a key is shown exactly when it equals the selected name |
| `Viewer.TruthyColor` | script.js:87 | the colour `setModel` passes on from line 33 takes effect exactly when `state.color` is a non-empty string, and it is that string's colour |
| `Viewer.TextureUrl` | script.js:44 | a selected texture gives `extractUrl` of it, as line 44 computes, and that URL is never empty; no selected texture gives no URL, which is the guard the corrected `setModel` needs because `extractUrl(null)` would throw, not something line 44 does |
| `Viewer.ViewerState.Active` | script.js:44 | `state.models.get(state.name)` is a model exactly when the active name is registered, and then it is the model registered under it; otherwise it is `undefined` |
| `Viewer.SwapShowsOnlySelected` | script.js:57-62 | after a swap the registry keys are kept and exactly the model under the selected name is shown, or none when the name is not registered |
| `Viewer.SwapForgetsPrior` | script.js:57-62 | what a swap shows does not depend on the previous flags, so swapping twice to the same name is swapping once |
| `Viewer.FloorClamp` | script.js:119-121 | the camera height ends at least 1; x and z are kept; a height already at least 1 is kept, and a lower one becomes exactly 1 |
| `Viewer.ViewerState.constructor` | script.js:141-152 | with the `state` object of script.js:9-14 and the camera and controls created here, the page starts with no colour, no texture, an empty registry, an empty name, the camera at (0, 5, 10) and unbounded zoom |
| `Viewer.ViewerState.Frame` | script.js:116-121 | one frame leaves the camera at the floor-clamped position the controls produced |
| `Viewer.ViewerState.UpdateModel` | script.js:39-50 | the selection becomes `Selected(style)` and the colour/texture exclusivity holds; a texture swatch starts a fetch of the extracted URL for the active model; a colour swatch recolours the active model, or throws when no model is active; registry, name and camera are unchanged |
| `Viewer.ViewerState.SwapEntry` | script.js:54-82 | one `forEach` callback shows or hides its model by name, applies the framing and records the name |
| `Viewer.ViewerState.SwapModel` | script.js:53-83 | the visibility flags become the swap of the old ones; registry, selection and fetch log are unchanged; on a non-empty registry the name becomes the selection and the camera takes its framing; on an empty one both stay as they were |
| `Viewer.ViewerState.Register` | script.js:29-31 | the registry maps the name to the new fragment; it is hidden; every other model's flag is kept |
| `Viewer.ViewerState.SetModel` | script.js:28-36 | registers the model hidden; throws exactly when a truthy colour is selected, leaving fetch log and camera alone; otherwise starts a fetch of the raw texture value for no model and runs one frame |
| `Viewer.ViewerState.SetModelIntended` | script.js:28-36 | registers the model hidden, paints it in a selected colour, fetches the extracted URL of a selected texture for it, and runs one frame |
| `Scenarios.SelectPorsche` | script.js:53-83 | with both cars loaded, choosing porsche shows only the porsche and frames the camera at (0, 15, 15) with zoom 20 to 50 |
| `Scenarios.LoadHides` | script.js:28-31 | a car that finishes loading, visible as loaded, is hidden by the load handler |
| `Scenarios.SelectMclaren` | script.js:53-83 | with both cars loaded, choosing mclaren shows only the mclaren and frames the camera at (0, 3, 3) with zoom 5 to 30 |
| `Scenarios.SelectBeforeLoad` | script.js:54-81 | choosing a car before any model has loaded keeps the empty name and the start-up camera |
| `Scenarios.TextureSwatch` | script.js:41-44 | a texture swatch on the shown car starts a fetch of the URL inside the style, for that car |
| `Scenarios.TextureArrives` | script.js:102-109 | the completed fetch puts the texture on the mesh, keeps its colour and marks it for re-upload |
| `Scenarios.ColourSwatch` | script.js:41-48 | after a texture swatch whose fetch completed, the `#ff0000` swatch switches the selection to that colour alone and replaces the loaded texture on the shown car's mesh by the colour |
| `Scenarios.ColourBeforeLoad` | script.js:28-36 | as written, a car loading after a colour was picked makes the handler throw and keeps its loaded paint |
| `Scenarios.ColourBeforeLoadIntended` | script.js:28-36 | with the intended handler, that car is painted in the picked colour |
| `Scenarios.TextureBeforeLoad` | script.js:28-36 | as written, a car loading after a texture was picked fetches the raw `url("carbon.jpg")` text for no model |
| `Scenarios.TextureBeforeLoadIntended` | script.js:28-36 | with the intended handler, the fetch is for `carbon.jpg` and the new car |

## Findings

| source | as written | input that shows it | evidently intended | confidence | as-written member | corrected member |
|---|---|---|---|---|---|---|
| script.js:33 | `setModel` passes `gltf.scene` to `updateModelColor`, which reads `.scene` of it again. With a colour selected this throws a TypeError: the new model keeps its loaded paint, and lines 34-35 are skipped | a colour swatch `rgb(255, 0, 0)` clicked before the porsche finishes loading (`Scenarios.ColourBeforeLoad`) | pass `gltf`, so a model loaded after a selection shows it | not executed; high | `Viewer.ViewerState.SetModel` | `Viewer.ViewerState.SetModelIntended` |
| script.js:34 | `setModel` passes the raw `background-image` value and `gltf.scene` to `updateModelTexture`. The fetch goes to the text `url("...")`, and its callback would find no `.scene` | a texture swatch `url("carbon.jpg")` clicked before the porsche finishes loading (`Scenarios.TextureBeforeLoad`) | pass `gltf`, and `extractUrl(state.texture)` only when a texture is selected (`state.texture && extractUrl(state.texture)`): `state.texture` is null at start-up and after a colour swatch, and `extractUrl(null)` throws | not executed; high | `Viewer.ViewerState.SetModel` | `Viewer.ViewerState.SetModelIntended` |

## Left out

- Rendering and library internals are foreign library calls and are not modelled: the scene, the
  renderer and `render`, camera projection, `camera.lookAt`, lights, the ground plane, and
  `scene.add` in `setModel`.
- `OrbitControls.update` is also a library call. Its result is taken as the `orbited` parameter of
  `Frame`. The controls' start-up bounds (0 and no upper bound) are the library's defaults.
- `GLTFLoader.load` and its error logging are asynchronous network fetches, so they are left out.
  A loaded model arrives as a `Fragment` argument to `SetModel`.
- `TextureLoader.load` is an asynchronous fetch: the model records the request and models the
  callback body as `TextureLoaded`. When and in what order fetches complete is not modelled.
- Parsing colour strings into `THREE.Color` and `window.getComputedStyle` are library and browser
  calls. The style strings are inputs, and a colour is identified by its CSS text.
- `requestAnimationFrame` rescheduling is timing and is not modelled. Each `animate` call also
  starts another self-rescheduling chain, and that is not modelled either. `Frame` is one step.
- The `DOMContentLoaded`, resize and click listeners, and the delayed default click on the mclaren
  option, are event plumbing and timing, so they are left out.
- A model option without a `data-model` attribute would make the selected name `undefined`. This
  is not modelled: the selected name is always a string.
- Materials that several meshes share are not modelled. Each node holds its own material value.
  Every mesh gets the same assignment, so sharing would not change the result.
- The `forEach` order over the registry is not modelled. The registry never holds one fragment
  under two names, so the result does not depend on the order.
- `Viewer.ViewerState.Register`, `SetModel` and `SetModelIntended` require that the fragment is not
  already registered. Each load produces a new object.
- Strings are sequences of Unicode scalar values, not of UTF-16 code units. A character outside the
  Basic Multilingual Plane counts as one character, not two.
- The unused `dat.gui` import is left out.
