# Model viewer component, in Dafny

This project models `ModelViewerComponent`, the Angular component of a browser 3D model
viewer. The component loads a named shape as an OBJ file from a remote endpoint, colours
its meshes with one flat colour, shows it above three reference grids and an axes helper,
and spins it in a render loop that the user can stop and restart.

Three.js is abstracted away:

- a render is a counter (`renderCount`);
- `requestAnimationFrame` adds one pending frame callback (`pendingTicks`), and the host
  runs one pending callback at a time (`RunPendingTick`);
- an OBJ request adds its locator to `pendingLoads`, and the host later runs its success
  callback with a parsed part tree (`OnLoadSuccess`) or its error callback (`OnLoadError`),
  for any pending request and in any order;
- rotation is counted in whole steps of 0.01 rad;
- a colour is the 24-bit integer a `THREE.Color` holds.

Modules, leaf to root:

- `Wrappers`: `Option`.
- `Ascii`: ASCII lower-casing.
- `HexColor`: the `parseInt(value, 16)` colour and its inverse.
- `Locator`: the OBJ resource locator.
- `Materials`: the part tree and the `applyFaceColors` traversal.
- `SceneGraph`: loaded objects, scene nodes, and `scene.add` / `scene.remove`.
- `Viewer`: the component as a class `ModelViewer`.
- `Scenarios`: host-driven runs of the viewer.

Each method of `ModelViewer` names in its `modifies` clause the fields, and the object,
it may change. Every other field keeps its value, and this is part of the method's contract.

The invariant `ModelViewer.Valid()` says that at most one loaded object is in the scene
and that it is the current object. Every operation keeps it, and every successful load
leaves exactly one object in the scene. `LoopAlive()` says that while animation is on, a
frame callback is pending. Every operation keeps it, and `ngOnInit` establishes it.

Where the code behaves differently from what one might expect, the model follows the code:

- One might expect exactly one pending frame at a time. In the code,
  `stopAnimation` followed by `startAnimation` before the queued callback fires leaves
  two callback chains. From then on each display frame renders twice and turns the
  object two steps (`Scenarios.StopStartBeforeFrame`). Repeating the pair adds a chain
  each time, so the model does not bound `pendingTicks`.
- One might expect that after "cone" and then "cube" are requested, only the cube ends
  up in the scene. The code does not cancel or ignore stale loads. The response that arrives
  last is shown, whichever was requested last. There is never more than one object
  (`Scenarios.LateResponseWins`).
- `ngOnInit` calls `changeShape('cube')`, which destructures `value` from a string. The
  value is `undefined`, so the cube comes from the default branch of the locator. Any
  bare string would request the cube (`Locator.TextArgumentRequestsCube`).
- The grids and axes are added after the initial request is issued. They are in the
  scene before that request can complete.

## Model

| member | source | states |
|---|---|---|
| `Ascii.LowerChar` | src/app/model-viewer/model-viewer.component.ts:113 | an upper-case ASCII letter maps to its lower-case letter (code + 32); every other character is kept; the result is never upper case |
| `Ascii.Lower` | src/app/model-viewer/model-viewer.component.ts:113 | `toLowerCase` keeps the length and lower-cases each character in place |
| `Ascii.LowerFixedPoints` | src/app/model-viewer/model-viewer.component.ts:113 | a string is its own lower-case form if and only if it has no upper-case letter |
| `Ascii.LowerIdempotent` | src/app/model-viewer/model-viewer.component.ts:113 | lower-casing twice equals lower-casing once |
| `HexColor.DigitValue` | src/app/model-viewer/model-viewer.component.ts:65 | a hex digit (either case) has its base-16 value, below 16 |
| `HexColor.HexChar` | src/app/model-viewer/model-viewer.component.ts:65 | the lower-case digit for a value below 16, which reads back as that value |
| `HexColor.HexValue` | src/app/model-viewer/model-viewer.component.ts:65 | the base-16 value of a digit string is below 16 to the power of its length |
| `HexColor.ToHex` | src/app/model-viewer/model-viewer.component.ts:65 | the inverse writer: exactly `width` lower-case hex digits |
| `HexColor.ColorValue` | src/app/model-viewer/model-viewer.component.ts:65-66 | the colour `selectedColor.set(parseInt(value, 16))` holds is 24-bit, and for six digits or fewer it is the parsed value itself |
| `HexColor.ShortNumeralFits` | src/app/model-viewer/model-viewer.component.ts:65-66 | six hex digits or fewer never exceed 24 bits |
| `HexColor.HexRoundTrip` | src/app/model-viewer/model-viewer.component.ts:65 | parsing the digits written for a value that fits the width gives the value back |
| `HexColor.HexDigitsRoundTrip` | src/app/model-viewer/model-viewer.component.ts:65 | writing back the value of lower-case digits at their own width gives the same digits |
| `HexColor.HexValueIgnoresCase` | src/app/model-viewer/model-viewer.component.ts:65 | upper- and lower-case digits parse to the same value |
| `HexColor.ColorValueKeepsLastSix` | src/app/model-viewer/model-viewer.component.ts:65-66 | for more than six digits, the stored colour is that of the last six digits alone: the higher digits are dropped |
| `HexColor.HexValueSplit` | src/app/model-viewer/model-viewer.component.ts:65 | the value of two digit strings joined is the first's value shifted by the second's length, plus the second's value |
| `HexColor.HexValueAppend` | src/app/model-viewer/model-viewer.component.ts:65 | one more digit on the right multiplies the value by 16 and adds the digit's value |
| `HexColor.Decimal` | src/app/model-viewer/model-viewer.component.ts:28-32 | the decimal spelling of a palette number is a non-empty string of the digits 0-9, which `parseInt(_, 16)` reads as hex |
| `HexColor.AzulMisread` | src/app/model-viewer/model-viewer.component.ts:65-66 | Azul 0x0000ff from the palette, passed as a number, is spelt "255" and stored as 0x255, not as Azul |
| `HexColor.MagentaMisread` | src/app/model-viewer/model-viewer.component.ts:65-66 | Magenta 0xff00ff from the palette, passed as a number, is spelt "16711935" and stored as 0x711935, not as Magenta |
| `HexColor.CianMisread` | src/app/model-viewer/model-viewer.component.ts:65-66 | Cian 0x00ffff from the palette, passed as a number, is spelt "65535" and stored as 0x65535, not as Cian |
| `HexColor.PaletteRoundTrip` | src/app/model-viewer/model-viewer.component.ts:28-32 | each palette colour, written as six hex digits, is parsed back to exactly that colour |
| `Locator.ValueOf` | src/app/model-viewer/model-viewer.component.ts:106 | the `value` destructured from the argument: absent for a bare string, the event's own `value` otherwise |
| `Locator.ObjUrl` | src/app/model-viewer/model-viewer.component.ts:113 | the locator always starts with the shapes endpoint and continues with a non-empty path |
| `Locator.ShapePath` | src/app/model-viewer/model-viewer.component.ts:113 | an undefined or empty shape id gives `cube`; any other id gives the id lower-cased; the path is never empty and has no upper-case letter |
| `Locator.UrlDeterminesPath` | src/app/model-viewer/model-viewer.component.ts:113 | two requests use the same locator if and only if they use the same shape path |
| `Locator.KnownShapesRequestThemselves` | src/app/model-viewer/model-viewer.component.ts:20 | each offered shape (`cube`, `cone`) is requested under its own name |
| `Locator.PathIgnoresCase` | src/app/model-viewer/model-viewer.component.ts:113 | the case of a shape id does not change the request |
| `Locator.TextArgumentRequestsCube` | src/app/model-viewer/model-viewer.component.ts:106-113 | `changeShape` given a bare string, as `ngOnInit` does, requests the cube through the default branch, whatever the string says |
| `Materials.Recolor` | src/app/model-viewer/model-viewer.component.ts:135-140 | one mesh node takes the colour and any other keeps its own, with the mesh flag and child count kept; its properties over the whole tree are the `Recolor*` lemmas below |
| `Materials.RecolorColorsMeshes` | src/app/model-viewer/model-viewer.component.ts:129-141 | after the traversal every mesh node, at any depth, has the selected colour |
| `Materials.RecolorKeepsShape` | src/app/model-viewer/model-viewer.component.ts:129-141 | the traversal keeps the tree shape, the mesh flags and every non-mesh node |
| `Materials.RecolorUnique` | src/app/model-viewer/model-viewer.component.ts:129-141 | any tree with the original's shape, whose meshes all have the colour, is the recoloured tree: the two properties above pin it down |
| `Materials.RecolorLastWins` | src/app/model-viewer/model-viewer.component.ts:129-141 | recolouring with `a` and then `b` equals recolouring with `b`; in particular it is idempotent |
| `Materials.RecolorFixedPoints` | src/app/model-viewer/model-viewer.component.ts:129-141 | the traversal leaves a tree unchanged if and only if its meshes already have the colour |
| `SceneGraph.Object3D.constructor` | src/app/model-viewer/model-viewer.component.ts:115 | a loaded object starts with its parsed tree and no rotation |
| `SceneGraph.RemoveFirst` | src/app/model-viewer/model-viewer.component.ts:117 | removing a child that is absent changes nothing; removing one that is present drops exactly one occurrence |
| `SceneGraph.Detach` | src/app/model-viewer/model-viewer.component.ts:116-118 | with no current object, or one not in the scene, the scene is unchanged; otherwise exactly one node of that object is dropped and all others remain |
| `SceneGraph.ModelsMembership` | src/app/model-viewer/model-viewer.component.ts:115-122 | an object is among the scene's loaded objects if and only if its node is in the scene |
| `SceneGraph.ModelsAppend` | src/app/model-viewer/model-viewer.component.ts:121 | the loaded objects of two node sequences joined are the two lists joined |
| `SceneGraph.HelpersAppend` | src/app/model-viewer/model-viewer.component.ts:47-60 | the grids and axes of two node sequences joined are the two lists joined |
| `SceneGraph.ModelsRemove` | src/app/model-viewer/model-viewer.component.ts:117 | removing an object's node removes that object from the loaded objects |
| `SceneGraph.HelpersRemove` | src/app/model-viewer/model-viewer.component.ts:117 | removing an object's node leaves the grids and axes as they were |
| `SceneGraph.Swap` | src/app/model-viewer/model-viewer.component.ts:116-121 | if the current object (if any) was the only loaded object, after the swap the new object is the only one, the old one is gone and the helpers are untouched |
| `Viewer.ModelViewer.constructor` | src/app/model-viewer/model-viewer.component.ts:17-21 | the field initialisers: animating, no current object, blue, nothing rendered or pending |
| `Viewer.ModelViewer.NgOnInit` | src/app/model-viewer/model-viewer.component.ts:36-40 | afterwards the scene is exactly three grids and the axes; the cube is requested; `animate` has run once (one render, one pending tick when animation is on); `Valid` and `LoopAlive` hold |
| `Viewer.ModelViewer.AddCartesianGrid` | src/app/model-viewer/model-viewer.component.ts:43-61 | appends the XY, XZ and YZ grids and the axes, in that order; loaded objects are unchanged |
| `Viewer.ModelViewer.ChangeColor` | src/app/model-viewer/model-viewer.component.ts:64-71 | always sets the colour parsed from the digits; with no current object nothing renders; with one, every mesh takes the colour, the shape is kept, no rotation happens and exactly one render follows, whether or not animating |
| `Viewer.ModelViewer.RenderScene` | src/app/model-viewer/model-viewer.component.ts:74-76 | exactly one render and no other change |
| `Viewer.ModelViewer.InitThreeJS` | src/app/model-viewer/model-viewer.component.ts:79-86 | the scene becomes empty and `animate` runs once; `LoopAlive` holds afterwards |
| `Viewer.ModelViewer.Animate` | src/app/model-viewer/model-viewer.component.ts:89-95 | when not animating nothing changes; when animating exactly one tick is scheduled, one render happens and the current object turns one step about x and y |
| `Viewer.ModelViewer.Update` | src/app/model-viewer/model-viewer.component.ts:98-103 | the current object, if any, turns one step about x and one about y; nothing else changes |
| `Viewer.ModelViewer.ChangeShape` | src/app/model-viewer/model-viewer.component.ts:106-108 | issues one request for the locator of the argument's `value` and changes nothing else |
| `Viewer.ModelViewer.LoadObj` | src/app/model-viewer/model-viewer.component.ts:111-115 | issues one request for the locator; no scene change until a callback runs |
| `Viewer.ModelViewer.OnLoadSuccess` | src/app/model-viewer/model-viewer.component.ts:115-122 | the old current object leaves the scene; the new object is coloured, made current and becomes the only loaded object; grids and axes are untouched; exactly one render; colour, animation and ticks unchanged |
| `Viewer.ModelViewer.OnLoadError` | src/app/model-viewer/model-viewer.component.ts:123-125 | only the failed request is dropped; scene, current object, colour, animation flag, ticks and render count are unchanged |
| `Viewer.ModelViewer.ApplyFaceColors` | src/app/model-viewer/model-viewer.component.ts:129-141 | every mesh of the object takes the selected colour, the tree shape and non-mesh nodes are kept, and the rotation is untouched |
| `Viewer.ModelViewer.StopAnimation` | src/app/model-viewer/model-viewer.component.ts:144-146 | clears the animation flag and changes nothing else |
| `Viewer.ModelViewer.StartAnimation` | src/app/model-viewer/model-viewer.component.ts:149-154 | a no-op when already animating; otherwise sets the flag and runs exactly one tick |
| `Viewer.ModelViewer.RunPendingTick` | src/app/model-viewer/model-viewer.component.ts:91 | a frame callback runs `animate`: while animating the pending count stays, with one render and one rotation step; when stopped the callback is consumed and nothing else changes |
| `Scenarios.RunFrames` | src/app/model-viewer/model-viewer.component.ts:89-103 | `n` frame callbacks run with animation on give `n` renders and `n` rotation steps, and the loop stays alive |
| `Scenarios.StopStartBeforeFrame` | src/app/model-viewer/model-viewer.component.ts:144-154 | stop and start before the queued callback fires leave two pending callbacks, so one display frame renders twice and turns the object two steps |
| `Scenarios.StopThenStart` | src/app/model-viewer/model-viewer.component.ts:144-154 | a frame while stopped renders nothing and turns nothing; starting again turns the object at once and leaves one callback pending |
| `Scenarios.TwoSelections` | src/app/model-viewer/model-viewer.component.ts:36-40 | after start-up and two selections, three requests are in flight, the cube's first, and no object is in the scene |
| `Scenarios.LateResponseWins` | src/app/model-viewer/model-viewer.component.ts:115-122 | for any two shapes requested one after the other, with their responses arriving in reverse order, the earlier-requested shape, whose response came last, is shown, coloured, as the only object |
| `Scenarios.FailedLoadChangesNothing` | src/app/model-viewer/model-viewer.component.ts:64-71 | with the initial load failed, a colour change stores the colour but renders nothing, and only the grids and axes remain |

## Left out

- `app.module.ts` is Angular module wiring; it is not part of this model.
- Rendering, the camera (field of view 75, aspect 1, near 0.1, far 1000, z = 5) and the 400×400 renderer are not modelled. A render is a counter.
- Grid and axes geometry (size 10, 10 divisions, colours, axes length 5) and the π/2 grid rotations are not modelled. These nodes are tags naming their plane.
- Rotation is counted in integer steps, not as floating-point angles of 0.01 rad.
- `requestAnimationFrame` timing and display refresh are not modelled. Only the count of pending callbacks is kept, and the host chooses when to run one.
- The HTTP fetch and OBJ parsing are not modelled. The host supplies the parsed part tree, and nothing ties the tree to the requested locator.
- The text of `console.error` is left out. A failed load only drops its request.
- Material objects are not modelled. `applyFaceColors` builds one `MeshBasicMaterial` that all meshes share. The model keeps only each mesh's colour, not that shared identity.
- Reparenting by `Object3D.add` is not modelled. An object that is already a child elsewhere would be detached first. Every loaded object is fresh, so this never arises.
- Before `ngOnInit`, the source has no scene or renderer, and an operation would throw. The model starts from an empty scene and does not model that failure.
- `Viewer.ModelViewer.ChangeColor`: accepts only non-empty strings of hex digits. `parseInt`'s whitespace, sign and `0x` handling, partial parses, `NaN` and non-string values are not modelled. The template that supplies the value is not part of this model.
- `HexColor.PaletteRoundTrip`: assumes the colour selector passes each palette colour as six hex digits. The palette values are numbers, and `parseInt` given a number reads its decimal spelling in base 16. Passed as they are, Azul would be stored as 0x255, Magenta as 0x711935 and Cian as 0x65535 (`AzulMisread`, `MagentaMisread`, `CianMisread`). The template that passes the value is not part of this model, so which of the two happens is left open.
- `HexColor.ColorValue`: models `THREE.Color`'s 24-bit storage as the parsed value modulo 2^24. Floating-point loss for values beyond 2^53 is not modelled.
- `Ascii.Lower`: covers `toLowerCase` for ASCII letters only. Other characters are kept unchanged.
- `Locator.ShapePath`: treats only undefined and the empty string as falsy. Other falsy or non-string `value`s are not modelled.
- `SceneGraph.RemoveFirst`: its contract states the length and the multiset of what remains, not the order. The order is fixed by its definition and used through `ModelsRemove` and `HelpersRemove`.
- `SceneGraph.Models` and `SceneGraph.Helpers`: their contracts state only a length bound. What they contain is stated by `ModelsMembership` and the append and remove lemmas.
