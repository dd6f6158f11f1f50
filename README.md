# Helioviewer viewport and tile-layer bookkeeping, in Dafny

This project models the client-side bookkeeping of the Helioviewer image
viewer: the part that turns zoom buttons, the zoom slider, the mouse wheel
and pinch gestures into image scales; keeps the pannable "sandbox" box
around the viewport and the moving container inside it; keeps, per image
layer, the record of the image closest in time to the requested date and
its placement in the scene; drives the tiled-image renderer (item swap,
opacity, visibility, stacking order, colour tables, tile URLs, preloads,
settings serialisation); and the renderer filter that makes near-black
pixels transparent.

One Dafny module per source file:

| module | file | source |
|---|---|---|
| `Zoom` | `zoom_controls.dfy` | `resources/js/UI/ZoomControls.js` |
| `Sandbox` | `sandbox_helper.dfy` | `resources/js/Viewport/Helper/SandboxHelper.js` |
| `Jp2` | `jp2_image.dfy` | `resources/js/Image/JP2Image.js` |
| `TileLayer` | `helioviewer_tile_layer.dfy` | `resources/js/Tiling/Layer/HelioviewerTileLayer.js` |
| `Colors` | `colors.dfy` | `resources/lib/openseadragon/colors.js` |
| `Basics` | `basics.dfy` | `Option`, `Point`, `Math.abs/min/max` |

The JavaScript objects that update their own fields are classes here
(`ZoomControls`, `SandboxHelper`, `JP2Image`, `HelioviewerTileLayer`); their
methods say exactly which fields they change. Effects on things outside the
core are recorded in order rather than performed: the document events the
zoom controls trigger (`ZoomControls.events`), the `getClosestImage`
requests (`JP2Image.requests`), each `_onChange` notification
(`JP2Image.changes`), every call on the renderer (`Viewer.calls`) and its
filter list (`Viewer.filters`), the page's preload links (`Page.preloads`)
and the canvas write-back and `done` call of the pixel filter
(`Canvas.log`). The renderer's `success` callback is recorded in
`Viewer.calls` too, as the item it created and the opacity it created it
at. Values the code reads from the DOM, the window, the screen
or globals (`$(window).width()`, `$('#date').val()`, element styles, the
moving container's `position()`, `outputType`, `screen`) are parameters. Geometry uses `real`.

Behaviour of the code that the model keeps as written:

- The placement puts the image's reference pixel on the scene origin, so a
  reference pixel at the image centre places the image at
  `x = -width*scale/2`, `y = -height*scale/2` (`Jp2.Placement`,
  `Jp2.CentredReferencePixel`).
- The pinch anchor is the touch centre minus the parsed sandbox and
  container offsets, in unscaled pixels, and its vertical coordinate starts
  from `center.left` (`Zoom.MovingContainerAnchor`,
  `Zoom.AnchorIgnoresCenterTop`).
- The zoom increments are the given list reversed in place; a zoom click
  whose neighbouring entry is missing or outside the scale bounds is
  silently refused.
- After a sandbox update the container is clamped to the desired size, and
  moved only when the sandbox centre changed by at least 0.01 px on some
  axis; `center`/`centerWithOffset` do not clamp.
- A reloaded image is added to the renderer at `opacity/100` whether or not
  the layer is visible, so a hidden layer whose image reloads shows again
  (`TileLayer.HelioviewerTileLayer.OnTiledImageAdded`).

## Model

| member | source | states |
|---|---|---|
| `Zoom.ScaleChangeEvents` | resources/js/UI/ZoomControls.js:50-56 | the scale-change announcement is five events, the first carrying the new scale and no other carrying a scale |
| `Zoom.Reversed` | resources/js/UI/ZoomControls.js:65 | the reversed list has the same length and entry `k` is the original's entry `len-1-k` |
| `Zoom.InArray` | resources/js/UI/ZoomControls.js:77 | the initial slider value is -1 exactly when the scale is absent, otherwise the first position holding it |
| `Zoom.ZoomInAllowed` | resources/js/UI/ZoomControls.js:90-93 | zoom-in is allowed exactly when the entry above the slider value exists and is at least minImageScale (an undefined entry compares false) |
| `Zoom.ZoomOutAllowed` | resources/js/UI/ZoomControls.js:98-101 | zoom-out is allowed exactly when the entry below the slider value exists and is at most maxImageScale |
| `Zoom.Step` | resources/js/UI/ZoomControls.js:106-125 | one click moves the slider value by one in the asked direction or not at all, and a move always lands on an existing entry |
| `Zoom.StepLandsOnEntry` | resources/js/UI/ZoomControls.js:90-125 | a zoom-in moves to index+1 iff that entry exists and is at least minImageScale, a zoom-out to index-1 iff that entry exists and is at most maxImageScale; a move always lands on an existing entry; zoom-out from index 0 is refused |
| `Zoom.RunStaysInRange` | resources/js/UI/ZoomControls.js:73-125 | any sequence of zoom clicks from a slider value in [0, len-1] stays in [0, len-1]; from -1 it never drops below -1 |
| `Zoom.ZoomOutUndoesZoomIn` | resources/js/UI/ZoomControls.js:90-125 | after a successful zoom-in, a zoom-out returns to the starting index when its entry is within maxImageScale |
| `Zoom.ScaleFactor` | resources/js/UI/ZoomControls.js:210-214 | the pinch scale factor is at least 1, and exactly 1 iff the pinch size is 0 |
| `Zoom.ClampCssScale` | resources/js/UI/ZoomControls.js:227-231 | the clamped scale lies in [0.25, 2.5], equals the input inside that range and the nearest bound outside it |
| `Zoom.PinchCssScale` | resources/js/UI/ZoomControls.js:208-231 | every pinch update yields a CSS scale in [0.25, 2.5] |
| `Zoom.PinchDirection` | resources/js/UI/ZoomControls.js:210-231 | with the reference scale in range, a pinch (negative size) never enlarges, a stretch never shrinks, and a zero-size update keeps the reference scale |
| `Zoom.ParseIntPx` | resources/js/UI/ZoomControls.js:178-179 | parsing a pixel style gives an integer less than one pixel from the value, truncated toward zero |
| `Zoom.MovingContainerAnchor` | resources/js/UI/ZoomControls.js:175-181 | the anchor is the touch point minus the sandbox and container offsets, within the truncation of the two parsed styles, with the top computed from `center.left` |
| `Zoom.AnchorOfWholePixels` | resources/js/UI/ZoomControls.js:175-181 | with whole-pixel styles the anchor plus the sandbox and container offsets is exactly `center.left` on both axes |
| `Zoom.AnchorIgnoresCenterTop` | resources/js/UI/ZoomControls.js:179 | the anchor does not depend on the touch centre's top coordinate |
| `Zoom.ZoomControls.constructor` | resources/js/UI/ZoomControls.js:19-78 | the caller's increments array is reversed in place once; the slider starts at the position of imageScale in the reversed list (the original's mirror position) or -1; scales start at 1 and the lock is free |
| `Zoom.ZoomControls.CanZoomIn` | resources/js/UI/ZoomControls.js:90-93 | true exactly when the increment above the handle exists and is at least minImageScale |
| `Zoom.ZoomControls.CanZoomOut` | resources/js/UI/ZoomControls.js:98-101 | true exactly when the increment below the handle exists and is at most maxImageScale |
| `Zoom.ZoomControls.SetImageScale` | resources/js/UI/ZoomControls.js:50-56 | announces `increments[v]` and the four replot events, changing nothing else |
| `Zoom.ZoomControls.OnSlide` | resources/js/UI/ZoomControls.js:40-42 | dragging the handle to v announces `increments[v]` and leaves the slider at v |
| `Zoom.ZoomControls.OnZoomInBtnClick` | resources/js/UI/ZoomControls.js:106-113 | the slider takes one zoom-in step when allowed and then announces the new entry; when refused, slider and events are unchanged |
| `Zoom.ZoomControls.OnZoomOutBtnClick` | resources/js/UI/ZoomControls.js:118-125 | the slider takes one zoom-out step when allowed and then announces the new entry; when refused, slider and events are unchanged |
| `Zoom.ZoomControls.OnMouseWheelMove` | resources/js/UI/ZoomControls.js:132-150 | while locked nothing changes; otherwise the lock is taken and a positive delta zooms in, any other zooms out; the handler always answers false |
| `Zoom.ZoomControls.ReleaseScrollLock` | resources/js/UI/ZoomControls.js:139-141 | the timeout frees the scroll lock |
| `Zoom.ZoomControls.OnPinchStart` | resources/js/UI/ZoomControls.js:203-206 | the reference scale becomes the current scale, which stays in [0.25, 2.5] |
| `Zoom.ZoomControls.OnPinchUpdate` | resources/js/UI/ZoomControls.js:208-240 | the current and CSS scale become the clamped pinch scale and the transform origin the anchor; the scale invariant [0.25, 2.5] is kept |
| `Sandbox.ClampToBound` | resources/js/Viewport/Helper/SandboxHelper.js:78-79 | the clamped position is never negative, never beyond a non-negative bound, and unchanged when already within it |
| `Sandbox.CentreShift` | resources/js/Viewport/Helper/SandboxHelper.js:50-70 | the centre moves by half the change of size on each axis, whatever the new left/top |
| `Sandbox.SandboxHelper.constructor` | resources/js/Viewport/Helper/SandboxHelper.js:13-17 | the sandbox is placed at (x, y) |
| `Sandbox.SandboxHelper.GetCenter` | resources/js/Viewport/Helper/SandboxHelper.js:35-40 | the centre halves the sandbox on each axis and lies inside it whenever its size is not negative |
| `Sandbox.SandboxHelper.MoveContainerTo` | resources/js/Viewport/Helper/SandboxHelper.js:84-86 | only the container's left/top change, to the given values |
| `Sandbox.SandboxHelper.Center` | resources/js/Viewport/Helper/SandboxHelper.js:22-25 | the container ends at the sandbox centre; the sandbox is unchanged |
| `Sandbox.SandboxHelper.CenterWithOffset` | resources/js/Viewport/Helper/SandboxHelper.js:27-30 | the container ends at the sandbox centre plus the offset |
| `Sandbox.SandboxHelper.UpdateSandbox` | resources/js/Viewport/Helper/SandboxHelper.js:47-82 | the sandbox is the desired size plus the window size and its centre is the viewport centre; below a 0.01 px centre change on both axes the container stays put (always so when the size is already the one asked for), otherwise the container's rendered position is shifted by the change and clamped to [0, desired.width] x [0, desired.height], which also lies inside the sandbox |
| `Jp2.Placement` | resources/js/Image/JP2Image.js:77-89 | the placement has size width*scale by height*scale and puts the reference pixel on the scene origin (y measured from the bottom) |
| `Jp2.CentredReferencePixel` | resources/js/Image/JP2Image.js:77-89 | a centred reference pixel gives x = -width*scale/2 and y = -height*scale/2 |
| `Jp2.PlacementRoundTrip` | resources/js/Image/JP2Image.js:77-89 | with a non-zero scale the reference pixel is recovered from the placement |
| `Jp2.Names` | resources/js/Image/JP2Image.js:96-98 | the names of the hierarchy, one per level, in order |
| `Jp2.WithCommasIsJoin` | resources/js/Image/JP2Image.js:94-100 | the loop's accumulator is the comma join followed by one comma, so dropping its last character gives the join |
| `Jp2.SplitJoin` | resources/js/Image/JP2Image.js:94-100 | the layer name cut at its commas gives the names back when no name contains a comma |
| `Jp2.MergeDetailsLaws` | resources/js/Image/JP2Image.js:74 | merging an answer field by field: an answer without image fields changes nothing, merging the same answer twice is merging it once, merging into an empty record gives the answer, and a complete geometry stays complete |
| `Jp2.PlacementOf` | resources/js/Image/JP2Image.js:77-89 | the record's placement is a number exactly when width, height, reference pixel and scale are all present, and then puts the reference pixel on the scene origin with size width*scale by height*scale |
| `Jp2.PlacementAfterMerge` | resources/js/Image/JP2Image.js:74-89 | an answer with every geometry field places the image by that answer alone, whatever the record held; an answer without image fields keeps the old placement; a first answer missing a geometry field leaves no numeric placement |
| `Jp2.JP2Image.constructor` | resources/js/Image/JP2Image.js:16-24 | the record holds the given source and date, no image fields and no placement, and has issued exactly one request for them |
| `Jp2.JP2Image.RequestImage` | resources/js/Image/JP2Image.js:29-45 | exactly one request is appended, for the current source, date and difference mode |
| `Jp2.JP2Image.UpdateDataSource` | resources/js/Image/JP2Image.js:50-56 | only hierarchy, source and difference change, and exactly one request for them is issued |
| `Jp2.JP2Image.UpdateTime` | resources/js/Image/JP2Image.js:61-64 | only the requested date changes, and exactly one request for it is issued |
| `Jp2.JP2Image.OnImageLoad` | resources/js/Image/JP2Image.js:73-92 | whatever the answer carries is merged field by field, offsets and placement are recomputed from the fields now held, and the owner is notified exactly once with the new placement already set; an answer without image fields keeps the placement, a complete one places the image by itself, a first incomplete one leaves no numeric placement |
| `Jp2.JP2Image.GetLayerName` | resources/js/Image/JP2Image.js:94-100 | the layer name is the hierarchy's names joined by "," with no trailing comma; an empty hierarchy gives "" |
| `TileLayer.ToFixed6` | resources/js/Tiling/Layer/HelioviewerTileLayer.js:191-193 | the printed scale is within half a millionth of the scale |
| `TileLayer.ToFixed6Exact` | resources/js/Tiling/Layer/HelioviewerTileLayer.js:192-193 | a scale with at most six decimals prints as itself |
| `TileLayer.FrozenBaseDiffTime` | resources/js/Tiling/Layer/HelioviewerTileLayer.js:183-186 | a number or null baseDiffTime follows the page's date and time fields, and once replaced by the text it stands for (as toJSON does) later edits of those fields no longer change it |
| `TileLayer.PreloadScaleRoundTrip` | resources/js/Tiling/Layer/HelioviewerTileLayer.js:143 | preloading in one direction and then the other returns to the starting scale; a positive scale is preloaded finer when zooming in and coarser when zooming out |
| `TileLayer.AddPreload` | resources/js/Tiling/Layer/HelioviewerTileLayer.js:145-154 | a preload is added only for an address not already linked, so the links stay duplicate-free |
| `TileLayer.ColorProcessors` | resources/js/Tiling/Layer/HelioviewerTileLayer.js:158-164 | the colour map comes first, and the black-pixel transparency is added iff the source is listed for it |
| `TileLayer.DisplayedOpacity` | resources/js/Tiling/Layer/HelioviewerTileLayer.js:258-274 | a hidden layer shows 0, a visible one opacity/100, a fraction in [0, 1] for an opacity in [0, 100] |
| `TileLayer.UiLabels` | resources/js/Tiling/Layer/HelioviewerTileLayer.js:217-220 | one uiLabels entry per hierarchy level, in order, holding its label and name |
| `TileLayer.LabelMapKeys` | resources/js/Tiling/Layer/HelioviewerTileLayer.js:218-222 | the serialised labels are exactly the hierarchy's labels |
| `TileLayer.LabelMapLastWins` | resources/js/Tiling/Layer/HelioviewerTileLayer.js:218-222 | a level whose label no later level repeats is serialised as label to its name |
| `TileLayer.HelioviewerTileLayer.constructor` | resources/js/Tiling/Layer/HelioviewerTileLayer.js:32-63 | the layer stores its settings, has no renderer item yet, and creates an image record that has issued one request |
| `TileLayer.HelioviewerTileLayer.RemoveFromViewer` | resources/js/Tiling/Layer/HelioviewerTileLayer.js:78-82 | the item is removed from the renderer only if there is one; the item's opacity agreement with the layer's state is kept |
| `TileLayer.HelioviewerTileLayer.OnLoadImage` | resources/js/Tiling/Layer/HelioviewerTileLayer.js:87-118 | the old item is removed before the new image is added at index -order, at the image's placement (not a number when the record lacks geometry) and opacity/100 whether or not the layer is visible, from the record's file address ("undefined" when the record has no file); the layer takes over the record's source and layering order; opacity agreement of the current item is kept |
| `TileLayer.HelioviewerTileLayer.OnTiledImageAdded` | resources/js/Tiling/Layer/HelioviewerTileLayer.js:106-117 | the renderer's new item exists at the opacity its request asked for, becomes the layer's item and gets its colour table; the item shows what the layer's state calls for exactly when the requested opacity is that; for a request at opacity/100 this holds iff the layer is visible or its opacity is 0, so a hidden layer that reloads is shown |
| `TileLayer.HelioviewerTileLayer.ApplyColorTable` | resources/js/Tiling/Layer/HelioviewerTileLayer.js:157-177 | a source with a colour map gets a filter for its item in front of the existing filters; other sources change nothing |
| `TileLayer.HelioviewerTileLayer.GetTileURL` | resources/js/Tiling/Layer/HelioviewerTileLayer.js:182-208 | the request goes to the API address with the parameters action, id, imageScale, x, y, difference, diffCount, diffTime, baseDiffTime in that order; the id is the loaded image's (empty before a load), the scale is the explicit one when given, else the viewport scale, fixed to six decimals, and the others are the layer's settings |
| `TileLayer.HelioviewerTileLayer.PreloadTile` | resources/js/Tiling/Layer/HelioviewerTileLayer.js:142-155 | the tile at the next zoom level's scale is preloaded unless its address is already linked |
| `TileLayer.HelioviewerTileLayer.ToJSON` | resources/js/Tiling/Layer/HelioviewerTileLayer.js:214-236 | uiLabels and label-to-name entries for every level, then the display settings; a numeric or null baseDiffTime is replaced on the layer by the page's date and time, after which tile URLs no longer depend on the page's date and time fields |
| `TileLayer.HelioviewerTileLayer.SetLayerOrder` | resources/js/Tiling/Layer/HelioviewerTileLayer.js:247-252 | the order is always stored; the item, when there is one, is moved to itemCount - order |
| `TileLayer.HelioviewerTileLayer.SetOpacity` | resources/js/Tiling/Layer/HelioviewerTileLayer.js:258-265 | without an item nothing changes; with one the opacity is stored and sent as opacity/100 only while visible; the item keeps showing what the layer's state calls for |
| `TileLayer.HelioviewerTileLayer.SetVisibility` | resources/js/Tiling/Layer/HelioviewerTileLayer.js:267-274 | the flag is stored, the item gets 0 when hidden and opacity/100 when shown, the stored opacity is untouched; without an item the call fails after storing the flag |
| `Colors.Filtered` | resources/lib/openseadragon/colors.js:9-13 | the filtered buffer has the input's length |
| `Colors.FilteredChannels` | resources/lib/openseadragon/colors.js:10-11 | red, green and blue are never changed; a near-black pixel's alpha becomes 0; any other pixel keeps its alpha |
| `Colors.FilteredIdempotent` | resources/lib/openseadragon/colors.js:9-13 | filtering twice gives the same buffer as filtering once |
| `Colors.ClearBlackAlpha` | resources/lib/openseadragon/colors.js:9-13 | the loop visits exactly the pixel starts 0, 4, 8, ... below the length and leaves the buffer equal to the filtered input |
| `Colors.TransparentBlackPixels` | resources/lib/openseadragon/colors.js:5-15 | the canvas ends with the filtered pixels, the same length, written back once and followed by exactly one `done` call |

## Left out

- Network and asynchrony: the `fetch` of the tile-source description in `onLoadImage` is not modelled (its address is the `url` of the recorded `AddTiledImage` call, and the fetch is taken to answer), and `_requestImage`'s `$.get` is recorded, not performed; the renderer's `success` callback is the separate method `OnTiledImageAdded`; the order in which responses arrive (a late answer overwriting a newer one) is not modelled.
- Document events, widgets and the DOM: jQuery slider and qtip set-up, event-handler binding, the accordion events of `init` and `onLoadImage`, `tile-layer-finished-loading`, `tileLoader.reloadTiles`, the layer's DOM node and `remove()`; values read from the DOM are parameters.
- The jQuery UI slider's own clamping of its stored value to [min, max]: the slider value is kept as the integer the code stores, so an absent initial scale leaves it at -1.
- Zoom.ZoomControls.constructor: the scroll lock is a module-level variable shared by every zoom control in the source and never reset by `init`; the model keeps it per instance and starts it free.
- Zoom.ZoomControls.constructor: requires a positive screen diagonal; `Math.hypot(screen.width, screen.height)` is read from the device and not modelled, and a zero diagonal (division by zero) is excluded.
- The `PinchDetector` gesture source is not part of this model; its start and update events are the methods `OnPinchStart` and `OnPinchUpdate`.
- Floating point: geometry is exact `real` arithmetic; NaN and infinities are not modelled.
- Jp2.JP2Image.OnImageLoad: the offsets are not rounded to 8 significant digits as `toPrecision(8)` does; they are the exact values. When a geometry field is missing, the whole placement is treated as not a number (None), although JavaScript keeps the coordinates that do not depend on the missing field. Fields of an answer other than the image fields, the source id and the hierarchy (an `error` message, say) are not kept.
- TileLayer.ToFixed6: models `toFixed(6)` as the nearest number of millionths; the sign kept by JavaScript for tiny negative values ("-0.000000") is not represented.
- URL encoding by `$.param` and the string concatenation with `Helioviewer.api`: a tile URL is kept as the API address plus its ordered parameter list.
- `formatLyrDateString` is not part of this model: the baseDiffTime parameter is the raw date string wrapped as `LyrDate`.
- `Date.toISOString`: dates are kept as millisecond counts.
- TileLayer.HelioviewerTileLayer.ToJSON: a hierarchy label spelled "uiLabels" replaces the uiLabels array by a string in the source, after which the next level's `uiLabels[i] = ...` assignment throws a TypeError in strict mode and `toJSON` returns nothing; the model keeps the array and the label entries apart and always returns.
- TileLayer.HelioviewerTileLayer.PreloadTile: the page lookup `[href=...]` matches any element with that address; `Page.preloads` stands for all of them.
- `TileLayer` (the base class), `_loadStaticProperties`, `_updateDimensions`, `getDimensions` and the random layer id are not part of this model; the constructor stores the settings the base class would.
- `OpenSeadragon.Filters.COLORMAP`, `getFilters`/`setFilterOptions` internals and tile rendering: the colour map is the processor `Colormap(sourceId)` and the filter list is a sequence.
- Sandbox.SandboxHelper.GetCenter: the sandbox's rendered `width()`/`height()` are taken to be the sizes last set on it (by the constructor or by `updateSandbox`); CSS that renders the sandbox at another size is not modelled.
- TileLayer.HelioviewerTileLayer.OnTiledImageAdded: which `addTiledImage` request a `success` callback answers is a parameter; with several requests in flight the model does not decide which item ends up as the layer's.
- `getSourceId` is a plain read of the `sourceId` field and has no member of its own.
- Server-side lookup of the nearest image (`phpClasses/server/ImgIndex.php`), page templates and the responsive menu script are not part of this model.
