# Farm demo scene: view selector and scene construction

A Dafny model of the logic behind the 3D farm diorama in the marketing
page's demo modal (`demo3D.js`). The page keeps a registry `farmModel` of
four ordered collections of renderable objects (fields, crops, livestock,
equipment). The model covers:

- the view selector `showView(view)`: hide everything, then show the fields
  plus at most one other collection, chosen by a string `switch` with no
  `default` case (module `Views`);
- scene construction `initializeFarmElements` with the placement done by
  `createField`/`createCrop`/`createLivestock`/`createEquipment`: collection
  sizes, grid positions and starting visibility (module `Farm`);
- the demo button's handler, which builds the scene only when it does not
  exist yet and then always resets to the `fields` view, and the view
  buttons (module `Host`).

A renderable object is reduced to what the page reads or writes: its
position and its visibility flag (module `Scene`). Everything is immutable
data and pure functions; each handler is a function from page state to page
state.

`animate()` (demo3D.js:216-220) only updates the camera controls and
renders, so nothing in the scene moves from frame to frame and no per-frame
update is modelled. `showView` accepts any string and hides everything when
the string matches no case (demo3D.js:197-213); `ShowView` does the same.

## Model

| member | source | states |
|---|---|---|
| Scene.SetVisible | demo3D.js:191-194 | one `forEach` over a collection sets every object's flag to the given value and keeps the number, order and positions of the objects |
| Views.ParseViewRoundTrip | demo3D.js:197-213 | the switch's literals and the views are in one-to-one correspondence: each literal selects its own collection, a name that selects a collection is that literal, and a name matches no case exactly when it differs from all four literals |
| Views.HideAll | demo3D.js:190-194 | after the first half of `showView` every object of every collection is hidden and the layout is unchanged |
| Views.ShowView | demo3D.js:189-214 | `showView` keeps the layout and gives every object exactly the flag of the visibility table: shown if and only if the view is a named one and the object is a field or belongs to the view's collection |
| Views.NamedViewShowsFields | demo3D.js:198-211 | for each of the four named views every field is visible |
| Views.FieldsViewShowsOnlyFields | demo3D.js:191-200 | the `fields` view leaves exactly the fields visible and all crops, livestock and equipment hidden |
| Views.GroupViewShowsFieldsAndGroup | demo3D.js:201-211 | the `crops`, `livestock` and `equipment` views each show the fields and that one collection, and hide the other two |
| Views.UnknownViewHidesAll | demo3D.js:191-213 | a name that matches no case hides every object in all four collections; there is no error path |
| Views.ShowViewForgetsFlags | demo3D.js:191-194 | because everything is hidden first, the result depends only on the view and the layout, not on the flags before the call |
| Views.ShowViewIdempotent | demo3D.js:189-214 | showing a view twice equals showing it once |
| Views.LastViewWins | demo3D.js:189-214 | a `showView` call right after another one gives the same state as the second call alone |
| Farm.InitializeFarmElements | demo3D.js:65-98 | initialisation pushes 4 fields, 16 crops, 5 animals and 1 tractor; the objects already in the registry stay in front, unchanged |
| Farm.InitialSizesAndVisibility | demo3D.js:67-97 | a first build gives sizes 4, 16, 5 and 1; fields start visible, while crops, livestock and the tractor start hidden |
| Farm.FieldPlacement | demo3D.js:67-71 | field i sits at (-20 + 15 i, 0, -20), which is grid cell (i, 0) |
| Farm.CropPlacement | demo3D.js:74-79 | crop i sits at (-20 + 15 (i mod 4), 1.5, -20 + 15 (i div 4)); its grid cell (column, row) recovers i as column + 4 row |
| Farm.CropsApart | demo3D.js:74-79 | no two crops share a position |
| Farm.CropsAgainstFields | demo3D.js:67-79 | a crop has the x of the field in its column; only the first four crops stand in a field's grid cell, because every field is in row 0 |
| Farm.LivestockPlacement | demo3D.js:82-91 | animal i is placed at (40 r(2i) - 20, 0, 40 r(2i+1) - 20) from the random draws in call order; with draws in [0, 1) it lies in [-20, 20) x [-20, 20) |
| Farm.EquipmentPlacement | demo3D.js:93-97 | the single tractor starts hidden at the origin |
| Host.OpenDemo | demo3D.js:240-248 | opening the demo leaves the scene built; it keeps an existing layout, builds a missing one from the draws, and leaves a state that is a fixed point of the `fields` view |
| Host.SelectView | demo3D.js:263-268 | a view-button click changes no layout, does not build the scene, and leaves exactly the visibility table of the button's view |
| Host.ViewClicksLastWins | demo3D.js:263-268 | after any non-empty sequence of view-button clicks the page equals what the last click alone makes of the page before the sequence |
| Host.BuiltSceneIsKept | demo3D.js:242-245 | once the scene exists, no sequence of events changes the registry's layout again |
| Host.SceneBuiltAtMostOnce | demo3D.js:240-248 | from page load, across any sequence of opens and view clicks, the scene exists exactly when the demo has been opened, and it then has the layout built by the first opening, with sizes 4, 16, 5 and 1 |
| Host.OpenShowsFieldsView | demo3D.js:246-247 | after every opening, whatever came before, exactly the fields are visible |

## Left out

- Object construction in the rendering library: geometries, materials, groups, wheels, lights, shadows, ground, camera, renderer and orbit controls (demo3D.js:10-63, 100-187). These are calls into a library outside this model. Only positions and the visibility flag are kept.
- The render loop `animate` and the resize handler `onWindowResize` (demo3D.js:216-230). They are frame scheduling and floating-point camera aspect arithmetic. The call to `onWindowResize` in the demo-button handler is left out for the same reason.
- Modal DOM wiring: adding and removing the `show` class, the close button, closing on an outside click, and the `active` CSS class of the view buttons (demo3D.js:233-269). None of these touch the registry.
- `script.js`: page animations, scroll and hover effects. It has no computable core.
- `Math.random`: the random values are a parameter of the opening event, given in call order.
- Host.OpenDemo: assumes that `init()`, the library calls in it and `onWindowResize()` return normally. In the source, `scene` is set at demo3D.js:12, before the library calls at :16-36 and before `initializeFarmElements()` at :42. If one of those calls throws, `scene` stays set with an empty registry, and no later opening builds the farm. A throw from `onWindowResize()` at :246 also skips the reset to the fields view at :247. The model treats setting the flag and building the registry as one step that cannot fail, so Host.SceneBuiltAtMostOnce and Host.OpenShowsFieldsView hold only when none of these calls throw.
- Farm.LivestockPlacement: the bound [-20, 20) is proved in exact real arithmetic. Double rounding of `Math.random() * 40 - 20` is not modelled.
- Coordinates are reals, not IEEE doubles. Every coordinate the page computes from the grid is a small integer or 1.5, so these are exact as doubles too.
