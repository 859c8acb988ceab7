# Slice-stack and canvas viewers of level-one-radiology

This project models the two stateful components of the radiology teaching
site's image viewers and proves properties of them.

- **`LightStackViewer`** is the light slice-stack viewer used on case pages.
  The model covers:
  - deriving each slice's image URL from the case manifest's `baseUrl`;
  - prefetching the current slice and its two neighbours into a per-slice
    image cache whose keys are only ever added;
  - the image-load and image-error callbacks, and the effect that shows the
    current slice once it is cached;
  - the base scale that fits the image into the canvas;
  - the touch state machine: one-finger slice navigation or damped panning,
    two-finger pinch zoom clamped to [0.5, 5], touch end, and a double-click
    reset.
- **`ViewerCanvas`** is the desktop canvas controller. It is a controlled
  component: zoom, pan and the window width/center come in as values, and
  each handler's callback is modelled as the new value it reports. The model
  covers:
  - the mouse-drag rules for the pan, zoom and windowing tools;
  - the wheel zoom step, clamped to [0.1, 10];
  - the cursor for each tool;
  - the progressive-resolution list.

Modules:
- `Common` holds the vector type, `Option` and the clamp.
- `JsStrings` holds JavaScript's integer `toString`, `padStart` and
  `includes`.
- `TouchGestures` holds the touch handlers as functions on the seven gesture
  fields.
- `LightViewer` holds the URL, base scale and prefetch logic, plus the
  `LightStackViewer` class. The class's methods update its fields and are
  proved against the `TouchGestures` functions and the prefetch functions.
- `DicomCanvas` holds the drag, wheel, cursor and resolution rules, plus the
  `ViewerCanvas` class with its two fields.

How events are modelled:
- Events are handled one at a time, and a handler's state updates are applied
  before the next event arrives.
- The React effects that depend on `currentSlice` and `loadedImages` run, in
  declaration order, after any event that changes one of them: mounting, an
  image load, and a touch move that steps the slice.
- An image fetch is recorded as a `Request`, which holds the slice index and
  the slice that was current when the fetch started. `OnImageLoad(k, img)` and
  `OnImageError(k)` complete request `k`, and requests may complete in any
  order.

Two behaviours of the code are easy to miss:
- **The stale closure.** The `onload`/`onerror` closures compare the loaded
  slice with the `currentSlice` captured when the fetch *started*, not with
  the slice current when the image arrives. The consequences:
  - A load whose fetch started while its slice was current shows that image
    and clears the error flag, even if the user has since moved on. The
    current-image effect that follows replaces it only if the new current
    slice is cached, so the image of the slice the user left stays on screen
    (`LeftSliceImageShown`).
  - A load whose fetch started while another slice was current is never shown
    by the callback, even if its slice is current when it arrives. The
    current-image effect that follows still shows it then, because the load
    has just cached it. Either way, after a load the current slice's cached
    image is shown whenever there is one.
  - An error whose fetch started while its slice was current raises the error
    flag even after the user has left that slice. It also raises it when that
    slice is cached and shown by the time the error arrives. The flag then
    hides the shown image (`LateErrorHidesShownSlice`). It is cleared by the
    next load whose fetch started while its slice was current, which also
    shows that load's image, or when the current-image effect runs on a cached
    current slice.
  - An error whose fetch started while another slice was current never raises
    the flag, even if its slice is current when the error arrives.
- **Duplicate fetches.** The preload guard checks only the cache, so a slice
  whose fetch is still in flight is requested again.

## Model

| member | source | states |
|---|---|---|
| Common.Clamp | src/components/light/LightStackViewer.tsx:233 | `max(lo, min(hi, v))` lies in [lo, hi], is `v` itself when `v` is in range, and otherwise is the bound `v` crossed |
| JsStrings.DecimalDigits | src/components/light/LightStackViewer.tsx:44 | the numeral is non-empty and all digits, starts with '0' only for 0, and has one digit exactly for n < 10 |
| JsStrings.DecimalDigitsRoundTrip | src/components/light/LightStackViewer.tsx:44 | reading the numeral of n back gives n |
| JsStrings.NumberToString | src/components/light/LightStackViewer.tsx:41-44 | a non-negative integer prints as digits that read back to it; a negative one prints as '-' followed by the digits of its absolute value |
| JsStrings.PadStart | src/components/light/LightStackViewer.tsx:44 | the result has length max(length of s, target), ends with `s` unchanged and is filler before it, so `padStart` never truncates |
| JsStrings.ZerosParseToZero | src/components/light/LightStackViewer.tsx:44 | a run of zeros is a numeral of value 0 |
| JsStrings.LeadingZerosIgnored | src/components/light/LightStackViewer.tsx:44 | prefixing zeros to a numeral keeps it a numeral of the same value |
| JsStrings.ZeroPaddingKeepsValue | src/components/light/LightStackViewer.tsx:44 | zero-padding with `padStart` keeps the value of a numeral |
| JsStrings.Includes | src/components/light/LightStackViewer.tsx:39 | `includes` is true exactly when the pattern occurs at some position, not only at the start |
| JsStrings.MissingFirstCharExcludes | src/components/light/LightStackViewer.tsx:39 | a string lacking the pattern's first character does not include the pattern |
| TouchGestures.TouchCenter | src/components/light/LightStackViewer.tsx:171-177 | the centre is the midpoint of the first two touches, and the origin with fewer than two |
| TouchGestures.InitialInv | src/components/light/LightStackViewer.tsx:19-27 | the mount state (slice 0, zoom 1, no mode) satisfies the gesture invariant |
| TouchGestures.TouchStart | src/components/light/LightStackViewer.tsx:180-199 | one touch arms dragging at the touch point; two touches arm pinching at their centre with the current distance; other counts change nothing; slice, zoom and pan are kept; the two modes are never both on |
| TouchGestures.TouchMove | src/components/light/LightStackViewer.tsx:201-239 | modes are unchanged; the slice moves by at most one and stays in range; zoom stays in [0.5, 5]; a slice change happens only on a vertical swipe and re-anchors without touching pan or zoom; pan changes only on a pan move; zoom changes only on a pinch with a known previous distance; any other event changes nothing |
| TouchGestures.VerticalSwipeSteps | src/components/light/LightStackViewer.tsx:210-218 | on a vertical swipe the slice goes back exactly when dy > 100 and a previous slice exists, forward exactly when dy < -100 and a next slice exists; the anchor is reset only when the slice changes; otherwise the state is unchanged |
| TouchGestures.PanMoveDamped | src/components/light/LightStackViewer.tsx:219-226 | any other one-finger drag move adds 0.8 times the travel to pan, re-anchors at the touch, and keeps slice and zoom |
| TouchGestures.ZoomedDragFollowsFinger | src/components/light/LightStackViewer.tsx:219-226 | zoomed in above 1.1, a one-finger drag of any number of moves ends anchored at the last touch, with the pan moved by 0.8 times the finger's travel since the drag began, and the slice and zoom unchanged |
| TouchGestures.PinchMoveZooms | src/components/light/LightStackViewer.tsx:227-238 | a pinch move sets zoom to clamp(zoom times d/last, 0.5, 5) when last > 0, keeps zoom when last = 0, and then records d as last |
| TouchGestures.SwipeStepsOnce | src/components/light/LightStackViewer.tsx:212-218 | after a swipe has stepped a slice, the same touch position steps no further |
| TouchGestures.UpwardSwipeExample | src/components/light/LightStackViewer.tsx:210-218 | a 150 px upward swipe at zoom 1 in a five-slice stack moves from slice 2 to slice 3, and only once |
| TouchGestures.TouchEnd | src/components/light/LightStackViewer.tsx:241-245 | touch end clears both modes and the pinch distance, and keeps slice, zoom, pan and anchor |
| TouchGestures.ResetView | src/components/light/LightStackViewer.tsx:248-251 | double-click sets zoom 1 and pan (0, 0), and keeps every other field |
| TouchGestures.ResetViewIdempotent | src/components/light/LightStackViewer.tsx:248-251 | resetting twice is the same as resetting once |
| TouchGestures.RunKeepsInv | src/components/light/LightStackViewer.tsx:180-251 | after any sequence of touch events and double-clicks, the slice is in range, zoom is in [0.5, 5], and dragging and pinching are not both on |
| TouchGestures.PinchFollowsFingerRatio | src/components/light/LightStackViewer.tsx:227-238 | over a whole pinch without clamping, zoom stays proportional to the finger distance, ending at the last distance |
| LightViewer.SliceUrl | src/components/light/LightStackViewer.tsx:35-47 | `getSliceUrl`; its own contract says only that the URL starts with the base URL, and `ExternalSliceUrl`, `LocalSliceUrl` and `SliceUrlRoundTrip` state the rest of its meaning |
| LightViewer.ExternalSliceUrl | src/components/light/LightStackViewer.tsx:35-41 | for a base URL containing "http", the URL is the base, the fixed query `?w=800&h=600&fit=crop&auto=format&q=80&slice=`, and the unpadded decimal of index + 1 |
| LightViewer.LocalSliceUrl | src/components/light/LightStackViewer.tsx:43-46 | otherwise the URL is base + "-" + the decimal of index + 1 left-padded with '0' to max(3, its length) + ".jpg" |
| LightViewer.SliceUrlRoundTrip | src/components/light/LightStackViewer.tsx:35-47 | the 1-based slice number can be read back out of every slice URL |
| LightViewer.SliceUrlInjective | src/components/light/LightStackViewer.tsx:35-47 | two slices of one stack never get the same URL |
| LightViewer.ExternalUrlExample | src/components/light/LightStackViewer.tsx:39-41 | slice 0 of an https base is requested with `slice=1` |
| LightViewer.LocalUrlExample | src/components/light/LightStackViewer.tsx:44-45 | slice 4 of a local base is the file ending "-005.jpg" |
| LightViewer.HttpInsidePathIsExternal | src/components/light/LightStackViewer.tsx:39 | a local path with "http" inside it is treated as external |
| LightViewer.BaseScale | src/components/light/LightStackViewer.tsx:110-121 | the scaled image fits the canvas on both axes; it fills the width when its aspect exceeds the canvas aspect and the height otherwise; the scale is positive for a positive canvas |
| LightViewer.BaseScaleIsLargestFit | src/components/light/LightStackViewer.tsx:110-121 | no larger scale keeps the whole image inside the canvas |
| LightViewer.Attempt | src/components/light/LightStackViewer.tsx:52 | `preloadImage(i)` starts a fetch exactly when i is uncached and in [0, slices) |
| LightViewer.PreloadTargets | src/components/light/LightStackViewer.tsx:73-76 | every slice fetched is the current one or a neighbour, in range and uncached, with no repeats; the current slice comes first when it is fetchable |
| LightViewer.PreloadTargetsComplete | src/components/light/LightStackViewer.tsx:73-76 | every uncached in-range slice among current-1, current and current+1 is fetched |
| LightViewer.Issue | src/components/light/LightStackViewer.tsx:51-70 | each fetched slice becomes one request that remembers the slice current when it was issued |
| LightViewer.SyncedImage | src/components/light/LightStackViewer.tsx:80-86 | the current-image effect shows the cached image of the current slice, and otherwise keeps what was shown |
| LightViewer.SyncedError | src/components/light/LightStackViewer.tsx:80-86 | the error flag survives the effect only when the current slice is uncached |
| LightViewer.LightStackViewer.constructor | src/components/light/LightStackViewer.tsx:19-32 | mounting gives the initial gesture state and an empty cache, and starts fetching slice 0 and slice 1 (when they exist) |
| LightViewer.LightStackViewer.RunEffects | src/components/light/LightStackViewer.tsx:50-86 | the preload effect appends the fetches for the current neighbourhood, then the current-image effect syncs image and error flag |
| LightViewer.LightStackViewer.PreloadNeighbours | src/components/light/LightStackViewer.tsx:50-77 | the requests grow by exactly the preload targets; every request stays inside [0, slices) |
| LightViewer.LightStackViewer.ShowCurrentIfCached | src/components/light/LightStackViewer.tsx:80-86 | moving to a cached slice displays it and clears the error flag; otherwise both are kept |
| LightViewer.LightStackViewer.OnImageLoad | src/components/light/LightStackViewer.tsx:56-62 | a load stores the image under its slice, and no key is ever removed. The callback shows the image and clears the error flag exactly when the slice was current at fetch time; the effects that follow then show the current slice's cached image whenever there is one, so a load of the current slice always ends with that image shown and no error. Requests grow by the new preload targets, and the gesture state is unchanged |
| LightViewer.LightStackViewer.OnImageError | src/components/light/LightStackViewer.tsx:63-69 | a failed load raises the error flag exactly when its slice was current at fetch time, whatever the slice is now, and leaves the cache, the shown image and the requests unchanged |
| LightViewer.LightStackViewer.OnTouchStart | src/components/light/LightStackViewer.tsx:180-199 | the fields change as `TouchStart` says, and the invariant is kept |
| LightViewer.LightStackViewer.OnTouchMove | src/components/light/LightStackViewer.tsx:201-239 | the fields change as `TouchMove` says; the cache is unchanged; a slice step runs the preload and current-image effects; a move without a step fetches nothing and keeps the image and error flag |
| LightViewer.LightStackViewer.HandleTouchMove | src/components/light/LightStackViewer.tsx:204-238 | the handler's field updates equal `TouchMove` on the gesture fields, and the invariant is kept |
| LightViewer.LightStackViewer.OnTouchEnd | src/components/light/LightStackViewer.tsx:241-245 | the fields change as `TouchEnd` says |
| LightViewer.LightStackViewer.OnDoubleClick | src/components/light/LightStackViewer.tsx:248-251 | the fields change as `ResetView` says |
| LightViewer.LightStackViewer.DrawScale | src/components/light/LightStackViewer.tsx:98-121 | an image is drawn exactly when no error is flagged and an image is shown, and the drawn image fits the canvas |
| LightViewer.LeftSliceImageShown | src/components/light/LightStackViewer.tsx:56-62 | in a five-slice stack, after a swipe from slice 0 to the uncached slice 1, the late image of slice 0 is shown and no error is flagged |
| LightViewer.LateErrorHidesShownSlice | src/components/light/LightStackViewer.tsx:63-69 | slice 1 loads while slice 0 is current, and a swipe to slice 1 shows it; the late error of slice 0's fetch then raises the flag, so nothing is drawn |
| DicomCanvas.DragReport | src/components/dicom/ViewerCanvas.tsx:123-136 | pan reports pan + (dx, dy) without damping; windowing reports width max(1, width + 2dx), which is at least 1, and center + 2dy; zoom reports nothing |
| DicomCanvas.PanDragFollowsPointer | src/components/dicom/ViewerCanvas.tsx:120-139 | re-anchoring after every move makes a pan drag end at the start pan plus the pointer's travel since mouse-down |
| DicomCanvas.WindowWidthStaysPositive | src/components/dicom/ViewerCanvas.tsx:131-136 | no windowing drag drives the width below 1 |
| DicomCanvas.WindowCenterFollowsPointer | src/components/dicom/ViewerCanvas.tsx:131-138 | a windowing drag moves the center by twice the pointer's vertical travel since mouse-down |
| DicomCanvas.WheelZoom | src/components/dicom/ViewerCanvas.tsx:145-153 | the wheel reports a zoom exactly when the zoom tool is active or Ctrl is held; the zoom is zoom times 0.9 (wheel down) or 1.1 (otherwise), clamped to [0.1, 10]; for a zoom already in [0.1, 10], wheel down never zooms in and wheel up never zooms out |
| DicomCanvas.TwoWheelTicksExample | src/components/dicom/ViewerCanvas.tsx:148-150 | two zoom-in ticks from 1 give 1.1 and then 1.21 |
| DicomCanvas.CursorName | src/components/dicom/ViewerCanvas.tsx:155-162 | 'grabbing' exactly for pan while dragging, 'grab' for pan otherwise, 'zoom-in' for zoom, 'crosshair' for windowing |
| DicomCanvas.ViewerCanvas.Cursor | src/components/dicom/ViewerCanvas.tsx:155-162 | `getCursor`; it has no contract of its own and delegates to `CursorName` with the canvas's `isDragging` |
| DicomCanvas.CursorShowsTool | src/components/dicom/ViewerCanvas.tsx:155-162 | the active tool can be recovered from the cursor |
| DicomCanvas.ProgressiveResolutions | src/components/dicom/ViewerCanvas.tsx:51-57 | three entries, all with the input URL, of increasing size; sizes match quality ranks and each quality sits at its rank |
| DicomCanvas.ViewerCanvas.constructor | src/components/dicom/ViewerCanvas.tsx:34-35 | a new canvas is not dragging, and its anchor is (0, 0) |
| DicomCanvas.ViewerCanvas.OnMouseDown | src/components/dicom/ViewerCanvas.tsx:115-118 | mouse-down starts dragging anchored at the pointer |
| DicomCanvas.ViewerCanvas.OnMouseMove | src/components/dicom/ViewerCanvas.tsx:120-139 | without a drag nothing is reported and nothing changes; during a drag the report is `DragReport` for the travel since the anchor, and the anchor moves to the pointer |
| DicomCanvas.ViewerCanvas.OnMouseUp | src/components/dicom/ViewerCanvas.tsx:141-143 | mouse-up and mouse-leave clear dragging and keep the anchor |

## Left out

- Canvas drawing and sizing. This covers the `ctx` calls, the filter strings, image smoothing, resize listeners and the error text drawn on the canvas. Only the base-scale arithmetic and the choice of whether an image is drawn are modelled.
- Image fetching. This covers `new Image()`, `crossOrigin`, assigning `src`, and the `ProgressiveImageLoader` and `ImagePreloader` components, which are not part of this model. A fetch is a `Request`; its URL is `SliceUrl(baseUrl, index)`, which the request does not store. Completions are method calls with opaque image handles.
- The progressive loader's `onImageLoad`/`onError` handlers in `ViewerCanvas` store the image and its quality, and log. They are left out with the loader.
- `Math.sqrt` in `getTouchDistance`. The distance is an input of each touch event, and the event is well formed when its square equals the squared span of the first two touches.
- IEEE floating point. Zoom, pan and window values are exact reals, so 1.1 times 1.1 is exactly 1.21. NaN and infinite inputs are not modelled, except that a zero canvas height is treated as JavaScript does: the aspect comparison is false.
- NumberToString: gives the plain decimal form only, because `toString` switches to exponential notation only from 10^21 upwards, far beyond any slice count.
- Overlay text: the slice counter, the zoom and window percentages, the quality label and the loading spinner. These are presentation only.
- React scheduling. Batched `setState`, dependency arrays and render timing are replaced by handling one event at a time. The effects run after exactly the events that change `currentSlice` or `loadedImages`.
- The manifest's slice count is taken as a non-negative integer (`slices: nat`). The manifest is untyped JSON, so other numbers are possible there, but they are not modelled.
- A change of the `manifest` prop after mounting. It would re-run the preload effect, but the model fixes `baseUrl` and `slices` at construction.
- The `interactive` prop. When it is false, no touch or double-click handler is attached. The model is the interactive viewer; a non-interactive one simply never receives those events.
- The `onOpenFullViewer` button and the `fullScreen` container style. These are layout only.
- `e.preventDefault()` in the touch and wheel handlers. It affects only the browser.
- The `console.log` and `console.error` calls. They are logging only.
- The `default` branch of `getCursor`. No value of the tool type reaches it.
- The page and layout components, the newsletter form, the search box, the preview overlay, the dark-mode toggle, the static author data and the content schema. These are not part of this model.
