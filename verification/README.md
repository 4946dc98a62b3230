# Vinyl sleeve viewer: settings, reveal, drop target and texture slots

This project models the state-keeping core of `main.js`, the single-page viewer that shows a record sleeve with a sliding vinyl disc. It covers four parts:

- **Settings** (`settings.dfy`, module `Settings`). `DEFAULT_STATE` is the default record. At startup the stored record is spread over the defaults, and each checked setting is repaired:
  - the two artwork choices must name a preset (`Front` or `Back`);
  - the reveal and the overlay opacity are clamped to [0, 1];
  - the hemisphere intensity must be a number and is clamped to [0, 3];
  - the two hemisphere colours must be strings.

  `persistState` writes exactly the nine settings back. The stored record is a map from field name to a JSON value (`Value`). The local-storage read and the JSON parse are an input `Option<map>`, where `None` means an empty slot or text that does not parse.
- **Vinyl reveal** (`vinyl.dfy`, module `Vinyl`). The reveal value in [0, 1] sets the disc's x position by linear interpolation between the tucked-in and the exposed position. It also sets the disc's tilt, linear up to 5 degrees. The arithmetic is exact, over `real`. The disc mesh is a class whose position and tilt `UpdateVinylReveal` overwrites.
- **Drop target** (`drop.dfy`, module `DropTarget`). The `dragDepth` counter and the overlay's visibility form a state machine (`Next`, `Run`). The window's handlers are the class `DropZone`, and each handler is proved against `Next`. A drop also picks the artwork pane from the file's MIME type and from the pointer's half of the window.
- **Texture slots** (`materials.dfy`, module `Materials`). Every texture created is an entry of a table that counts how often it was disposed. Each material's `map` is an index into that table. The two overlay materials share the overlay texture. Each has its own opacity, and the two opacities are kept equal. The class invariant says three things:
  - no material shows a disposed texture;
  - every texture no longer shown was disposed exactly once (no leak, no double dispose);
  - both overlay materials show the same texture and have equal opacities.

  Each replace operation (`ReloadArtwork`, `ReloadOverlayTexture`, the completion of `applyCustomArtwork`) disposes the old texture before binding the new one, and keeps that invariant.

## Model

| member | source | states |
|---|---|---|
| `Settings.ParseArtwork` | main.js:89-90 | a stored value names a preset exactly when it is the string `Front` or `Back`, and the preset's name is that string |
| `Settings.ParseArtworkName` | main.js:31-34 | the name of each preset in the table parses back to that preset |
| `Settings.Clamp` | main.js:93-97 | `clamp(x, lo, hi)` lies in [lo, hi]; it is x when x is already in range, lo below it and hi above it |
| `Settings.ClampValue` | main.js:91-92 | a stored number is clamped into the range; a non-number is left as it is (see Left out) |
| `Settings.Merge` | main.js:88 | the spread of the stored record over the defaults: its keys are the union, stored fields win, absent fields keep their default |
| `Settings.Repair` | main.js:89-100 | the repaired record satisfies every range the loader promises, and no setting is left among the extra keys |
| `Settings.Load` | main.js:86-101 | the startup load: for any stored record, or none, the result satisfies every range the loader promises |
| `Settings.Persist` | main.js:103-118 | the record written back holds exactly the nine settings |
| `Settings.LoadMissingIsDefault` | main.js:51-59 | an absent or unparsable record loads like an empty one, and that is exactly the default settings |
| `Settings.PersistDefault` | main.js:39-49 | writing back the default settings gives exactly the default record |
| `Settings.LoadPresets` | main.js:89-90 | after the load each artwork choice is the stored preset when the stored value names one, and otherwise `Front` for the front and `Back` for the back |
| `Settings.LoadUnitFields` | main.js:91-92 | a stored number for the reveal or the overlay opacity loads into [0, 1]: unchanged when in range, 0 below it, 1 above it |
| `Settings.LoadHemiIntensity` | main.js:93-97 | the loaded intensity lies in [0, 3]; a missing or non-number value gives 1.1 and a number is clamped |
| `Settings.LoadHemiColors` | main.js:98-99 | a stored string colour is kept; a missing or non-string colour gives its default |
| `Settings.LoadAbsentField` | main.js:88 | a setting absent from the stored record loads as its default |
| `Settings.LoadPresentField` | main.js:88-99 | a stored setting survives the load unchanged exactly when the loader accepts it: a preset name for an artwork, a number in [0, 1] for the reveal and the opacity, a number in [0, 3] for the intensity, a string for a colour, anything for the unchecked fields; the stored reveal and opacity must be numbers (see Left out) |
| `Settings.LoadKeepsExtras` | main.js:107-117 | stored keys that are not settings stay in the loaded settings, and the record written back still holds only the nine settings |
| `Settings.LoadPersistRoundTrip` | main.js:103-118 | loading the record written from validated settings gives the same settings, less the extra keys |
| `Settings.LoadIsIdempotent` | main.js:86-118 | load, write back, load again gives the first load's settings, less the extra keys |
| `Vinyl.RevealX` | main.js:184-186 | reveal 0 puts the disc at the base position and reveal 1 at the exit position (0.5); a reveal in [0, 1] keeps it between the two |
| `Vinyl.RevealTilt` | main.js:187 | the tilt is 0 at reveal 0 and 5 degrees at reveal 1, and lies between them for a reveal in [0, 1] |
| `Vinyl.RevealTiltFollowsSlide` | main.js:185-187 | the tilt is the fraction of the full slide the disc has travelled, times 5 degrees |
| `Vinyl.RevealAt` | main.js:184-186 | the inverse map from disc position to reveal, 0 at the base and 1 at the exit |
| `Vinyl.RevealStrictlyIncreasing` | main.js:184-187 | a larger reveal moves the disc strictly further out and tilts it strictly more |
| `Vinyl.RevealRoundTrip` | main.js:184-186 | the reveal value and the disc position determine each other |
| `Vinyl.VinylDisc.constructor` | main.js:178-181 | the disc starts at the base position, just behind the back pane, untilted |
| `Vinyl.VinylDisc.UpdateVinylReveal` | main.js:184-188 | sets x and the tilt from the reveal value, and the position determines that value again; y and z are unchanged |
| `DropTarget.Next` | main.js:268-297 | a depth that is not negative stays so, and the overlay keeps showing exactly while the depth is positive; enter adds one and shows the overlay; leave hides it only when the depth reaches 0; a drop resets to idle |
| `DropTarget.RunAppend` | main.js:268-299 | handling two runs of events one after the other is handling their concatenation |
| `DropTarget.RunKeepsConsistent` | main.js:282-297 | no sequence of events makes the depth negative, or leaves the overlay out of step with the depth |
| `DropTarget.DropResets` | main.js:270-273 | whatever events came before, a drop leaves depth 0 and the overlay hidden |
| `DropTarget.Enters` | main.js:282-286 | n nested enters raise the depth by n and show the overlay |
| `DropTarget.Leaves` | main.js:292-297 | k leaves lower the depth by k without going below 0, and the overlay shows exactly while the depth is positive |
| `DropTarget.NestedDrag` | main.js:282-297 | from idle, n enters followed by k leaves keep the overlay shown exactly when k < n |
| `DropTarget.DropPane` | main.js:274-278 | a missing or non-`image/` file selects no pane; an image file selects the front pane exactly when `clientX < innerWidth / 2`, and the back pane otherwise |
| `DropTarget.DropZone.constructor` | main.js:268 | the counter starts at 0 with the overlay hidden |
| `DropTarget.DropZone.OnDragEnter` | main.js:282-286 | the handler's new state is `Next` of the old one for an enter |
| `DropTarget.DropZone.OnDragLeave` | main.js:292-297 | the handler's new state is `Next` of the old one for a leave |
| `DropTarget.DropZone.HandleDrop` | main.js:270-280 | the handler resets to idle and returns `DropPane`'s choice; it changes no material, so a rejected file changes nothing |
| `Materials.SleeveMaterials.NoDanglingMap` | main.js:192-209 | under the invariant, every material shows a texture that was never disposed |
| `Materials.SleeveMaterials.constructor` | main.js:124-177 | four textures (front, back, overlay, disc), with the overlay texture shared by both overlay materials, all opacities 1, and the invariant established |
| `Materials.SleeveMaterials.CreateTexture` | main.js:61-66 | appends one live texture made from the given image; nothing else changes |
| `Materials.SleeveMaterials.ReplaceMap` | main.js:193-195 | disposes the pane's old texture exactly once, binds a new texture made from the source, and keeps the invariant; the other materials are unchanged |
| `Materials.SleeveMaterials.ReloadArtwork` | main.js:192-200 | both artwork panes get fresh textures from their presets; each old one is disposed exactly once; the overlay and the disc are untouched |
| `Materials.SleeveMaterials.ApplyCustomArtwork` | main.js:230-238 | when the upload has been read, the pane's old texture is disposed and one made from the upload is bound, keeping the invariant |
| `Materials.SleeveMaterials.ReloadOverlayTexture` | main.js:202-209 | the shared overlay texture is disposed once, not once per material; one new texture is bound to both overlay materials |
| `Materials.SleeveMaterials.UpdateOverlayOpacity` | main.js:211-216 | both overlay materials get the same opacity; textures and other opacities are unchanged |

## Left out

- Rendering is not modelled: three.js objects, the renderer, `OrbitControls`, the resize handler and the animation loop (main.js:10-28, 388-406). The auto-orbit step at main.js:400-402 only adds `delta * 0.25` to the group's rotation per frame.
- The settings panel bindings (main.js:301-386) are widget wiring and are not modelled:
  - the two artwork choices call `ReloadArtwork`, the reveal calls `UpdateVinylReveal` and the overlay opacity calls `UpdateOverlayOpacity`, each then persisting;
  - `autoOrbit` only persists;
  - the background colour and the three hemisphere bindings call `updateBackgroundColor` or `updateHemiLight` (not modelled, see below) and then persist;
  - the two upload buttons only open the file picker; they set no setting and persist nothing.
- The startup sequence (main.js:218-228, 257-258) is not modelled as a whole. It calls `ReloadOverlayTexture`, `UpdateOverlayOpacity` and `UpdateVinylReveal`, interleaved with `updateHemiLight` and `updateBackgroundColor`, and then persists.
- `updateHemiLight` and `updateBackgroundColor` (main.js:220-224, 252-256) are not modelled. They copy settings into three.js colour and light objects, with colour-string parsing done by three.js.
- Local storage, `JSON.parse` and `JSON.stringify` are inputs and outputs, not models. A failed read gives `None`. A failed write is swallowed, so it is not modelled.
- `FileReader`, `TextureLoader` and the DOM class toggling of the overlay are not modelled. The asynchronous upload read is a foreign callback. Only its completion step is modelled, as `ApplyCustomArtwork`.
- `material.needsUpdate` is not modelled. It is a redraw hint to the renderer.
- The `?.` guards around `dispose` are not modelled, because every material has a texture from construction on.
- `Materials.SleeveMaterials.ApplyCustomArtwork` accepts only the two artwork panes. Those are the only materials its callers pass (main.js:249-250, 278). Replacing one overlay material's texture alone would break the sharing invariant.
- `bindUpload` (main.js:240-247) is DOM wiring. Unlike a drop, it does not check the file's MIME type, and the model does not capture that difference.
- `Settings.ClampValue`: in the source, `clamp` of a non-number reveal or overlay opacity follows JavaScript coercion (`true` becomes 1, `null` becomes 0, a non-numeric string becomes NaN). The model does not coerce: it keeps such a value as stored, which the source never does.
- `Settings.LoadPresentField`: it requires a stored reveal or overlay opacity to be a number, because the model's treatment of a non-number there (kept as stored) differs from the source's coercion.
- `Settings.LoadPersistRoundTrip`: `Validated` admits a non-number reveal or overlay opacity, and for such settings the round trip holds in the model only. In the source such a value never survives a load, and a NaN is written back as `null`.
- `Settings.ParseArtwork`: the source tests the preset name by a property lookup, so an inherited object key such as `"constructor"` would also pass. A one-element array such as `["Back"]` is converted to the key `"Back"` by the lookup, so it passes too and is kept as loaded. The model uses the closed set of the two strings `Front` and `Back`.
- `Settings.Load`: the stored record is taken as the map of the parsed object's own keys. A parsed array, string or number, which the spread turns into index keys or nothing, is not distinguished.
- `Vinyl.VinylDisc.UpdateVinylReveal`: the tilt is kept in degrees. The source converts it to radians by the factor pi/180, which is not a rational number.
- The source writes the disc's base position as `-0`. As a real number it is 0.
- Numbers are exact reals, not IEEE doubles. NaN and the infinities cannot occur in the model.
- The loader clamps `hemiIntensity` to [0, 3] and type-checks none of `backgroundColor`, `autoOrbit`, `vinylReveal` and `overlayOpacity`; the model does the same.
