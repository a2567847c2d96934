# minimaps overlay manager, modelled in Dafny

The minimaps page shows a Leaflet map with one distortable image overlay on
top of it. Its script (`minimaps/static/minimaps/app.js`) has one piece of
logic of its own, the overlay manager. This project models that manager in
three parts:

- **Corner seeding** (`corner_seeding.dfy`, module `CornerSeeding`).
  `seedCornersForImageDims` builds an axis-aligned rectangle around the map
  centre, in container pixels. Its half-width is `pixelHalfWidth` (default
  180). Its half-height is `max(80, round(halfW * h / w))`. The four corners
  come in the order NW, NE, SE, SW, and each one is converted back to a LatLng.
  The model proves that the rectangle is axis-aligned and centred, has the
  stated extent, starts at its north-west corner and runs clockwise on screen.
  It also proves that the rectangle keeps the image's aspect ratio up to
  rounding whenever it is taller than the minimum. `Math.round` of the exact
  quotient is `floor((2*halfW*h + w) / (2*w))`. The model proves that this is
  the nearest integer, with halves rounded up, and the only integer with that
  property.
- **Default overlay URL** (`default_overlay.dfy`, module `DefaultOverlay`).
  `DEFAULT_OVERLAY_URL` is the override when it is truthy. Otherwise it is the
  static base path followed by `minimaps/demo-overlay.jpg`, when that base is
  truthy. Otherwise it is null.
- **Overlay slot, lock buttons and page events** (`overlay_manager.dfy`,
  module `OverlayManagement`). `PageState` is what the page shows: the
  optional overlay (its image, corners and lock), the two button-disabled
  flags and the loader warning. A pure function per event says how that event
  changes the state. The events are add, lock, unlock, the scripted lock
  click, boot, the page `load` hook, the demo button and the file upload. The
  class `OverlayManager` holds the same state in place: the `overlay`
  variable, the set of overlays attached to the map, the flags and the
  warning. Each of its methods is proved to follow its function. Its
  invariant says that the map holds exactly the overlay in the slot and that
  at least one button is enabled.

A script calling `lockBtn.click()` on a disabled button does not run the
handler (a disabled form control ignores `click()`). `PressLockButton` models
this. The demo and upload flows still end with "lock disabled, unlock
enabled". The reason is the invariant that the two buttons are never both
disabled: if the lock button is already disabled, the unlock button is
enabled, and the new overlay starts locked anyway.

The code has no failure handler for the upload or for the demo button, so a
failed load there changes nothing. It has no dimension check either, so the
model requires image dimensions to be positive (`Decodable`).

## Model

| member | source | states |
|---|---|---|
| `CornerSeeding.RoundRatio` | minimaps/static/minimaps/app.js:41 | the rounded quotient r satisfies 2dr - d <= 2n < 2dr + d: r is within a half of n/d, halves rounding up |
| `CornerSeeding.RoundRatioIsNearest` | minimaps/static/minimaps/app.js:41 | read over the reals, r - 1/2 <= n/d < r + 1/2, which is what `Math.round` computes on the exact quotient |
| `CornerSeeding.RoundRatioUnique` | minimaps/static/minimaps/app.js:41 | any integer meeting the rounding bounds equals the rounding, so the bounds define it |
| `CornerSeeding.RoundThreshold` | minimaps/static/minimaps/app.js:41 | round(n/d) >= m exactly when 2n >= (2m - 1)d; this is the test for whether the 80-pixel floor applies |
| `CornerSeeding.HalfHeight` | minimaps/static/minimaps/app.js:39-41 | the half-height is at least 80; it is exactly 80 when the rounded ratio is below 80; otherwise \|2·halfH·w − 2·halfW·h\| stays within w (strict below), so the aspect ratio is kept to within rounding |
| `CornerSeeding.PixelRect` | minimaps/static/minimaps/app.js:43-50 | the four corners form a flat rectangle: consecutive corners share x or y, their mean is the centre, the extent is 2·halfW by 2·halfH, and the first corner is north-west of all others |
| `CornerSeeding.FlatRectIsPixelRect` | minimaps/static/minimaps/app.js:43-50 | any four points that are axis-aligned, centred and of that extent are exactly the NW, NE, SE, SW corners built by the seeder |
| `CornerSeeding.PixelRectClockwise` | minimaps/static/minimaps/app.js:44-50 | the shoelace sum of the corners is 8·halfW·halfH, i.e. the order runs clockwise on screen and encloses the 2·halfW × 2·halfH area |
| `CornerSeeding.PixelCorners` | minimaps/static/minimaps/app.js:35-47 | the pixel rectangle is centred on the map centre's container point, with half-width `pixelHalfWidth` (default 180) unchanged and half-height `HalfHeight` |
| `CornerSeeding.SeedCorners` | minimaps/static/minimaps/app.js:35-51 | exactly four LatLng corners, the i-th being the map's pixel-to-LatLng conversion of the i-th pixel corner, so the NW, NE, SE, SW order is kept |
| `CornerSeeding.SeededRectangle` | minimaps/static/minimaps/app.js:35-51 | for positive sizes the seeded rectangle is flat, centred, starts NW, runs clockwise, is at least 160 pixels tall, and keeps the aspect ratio when round(halfW·h/w) >= 80 |
| `CornerSeeding.HalfHeightExamples` | minimaps/static/minimaps/app.js:41 | a 400×100 image gets half-height 80 (floor), a 100×400 image 720 |
| `DefaultOverlay.DefaultOverlayUrl` | minimaps/static/minimaps/app.js:76-77 | a truthy override wins; otherwise a truthy base yields base + `minimaps/demo-overlay.jpg`; a URL exists iff one setting is truthy, and any URL is itself truthy |
| `DefaultOverlay.DefaultUrlUnderStaticBase` | minimaps/static/minimaps/app.js:76-77 | assuming the page passes the Django `STATIC_URL` "/static/" as the base: with no (or an empty) override the default is `/static/minimaps/demo-overlay.jpg`; an empty base gives none |
| `OverlayManagement.AddFlat` | minimaps/static/minimaps/app.js:56-66 | the slot holds an overlay with the given image, the four seeded corners and the lock mode; buttons and warning are unchanged |
| `OverlayManagement.LockClick` | minimaps/static/minimaps/app.js:128-133 | with no overlay nothing changes; otherwise the same overlay becomes locked, lock disabled and unlock enabled, so the buttons match the lock; the agreement is preserved |
| `OverlayManagement.UnlockClick` | minimaps/static/minimaps/app.js:135-140 | with no overlay nothing changes; otherwise the overlay becomes unlocked, lock enabled and unlock disabled; the agreement is preserved |
| `OverlayManagement.PressLockButton` | minimaps/static/minimaps/app.js:148 | a scripted click on a disabled lock button leaves the page unchanged, and on an enabled one runs the lock handler; a locked overlay stays as it is and, when not both buttons are disabled, lock ends disabled and unlock enabled |
| `OverlayManagement.Boot` | minimaps/static/minimaps/app.js:91-100 | no truthy URL: nothing changes; a failed load shows the warning and leaves slot and buttons alone; a successful load is `addFlatOverlay` of the URL |
| `OverlayManagement.PageLoad` | minimaps/static/minimaps/app.js:173-182 | the slot is the boot's result; with an overlay, lock is disabled and unlock enabled; without one the buttons are untouched; the buttons match the lock afterwards unless an unlocked overlay existed before |
| `OverlayManagement.LoadAndLock` | minimaps/static/minimaps/app.js:157-164 | a failed load changes nothing; a loaded image becomes the sole overlay, locked; when not both buttons are disabled (always true under `Valid()`), lock ends disabled and unlock enabled |
| `OverlayManagement.DemoClick` | minimaps/static/minimaps/app.js:143-149 | no truthy URL or a failed load: nothing changes; otherwise a fresh locked overlay of the default image and, when not both buttons are disabled (always true under `Valid()`), lock disabled and unlock enabled; the agreement is preserved |
| `OverlayManagement.FileChosen` | minimaps/static/minimaps/app.js:152-168 | no file or a failed decode: nothing changes; otherwise a locked overlay of the file's data URL and, when not both buttons are disabled (always true under `Valid()`), lock disabled and unlock enabled; the agreement is preserved |
| `OverlayManagement.LockIdempotent` | minimaps/static/minimaps/app.js:128-133 | locking twice gives the same page as locking once |
| `OverlayManagement.UnlockIdempotent` | minimaps/static/minimaps/app.js:135-140 | unlocking twice gives the same page as unlocking once |
| `OverlayManagement.UnlockThenLockRestores` | minimaps/static/minimaps/app.js:128-140 | from a locked overlay with matching buttons, unlock then lock returns to the same page |
| `OverlayManagement.Apply` | minimaps/static/minimaps/app.js:128-168 | each user event (lock, unlock, demo, upload) keeps the buttons matching the overlay's lock; a click on a disabled lock or unlock button leaves the page unchanged, and on an enabled one runs that button's handler |
| `OverlayManagement.UnconfiguredDefaultChangesNothing` | minimaps/static/minimaps/app.js:76-77 | when neither the override nor the base path is truthy, the resolved default URL makes the boot (app.js:93) and the demo button (app.js:144) leave the page unchanged |
| `OverlayManagement.RunKeepsButtonsMatchLock` | minimaps/static/minimaps/app.js:128-168 | by induction over the events: any sequence of user events keeps the buttons matching the overlay's lock |
| `OverlayManagement.SessionKeepsButtonsMatchLock` | minimaps/static/minimaps/app.js:124-182 | after the page load hook and any later clicks and uploads, the buttons match the overlay's lock |
| `OverlayManagement.Overlay.constructor` | minimaps/static/minimaps/app.js:62-65 | a new overlay holds its image and corners and starts in the lock mode |
| `OverlayManagement.OverlayManager.constructor` | minimaps/static/minimaps/app.js:29 | the slot starts empty, nothing is attached, both buttons are enabled, no warning |
| `OverlayManagement.OverlayManager.AddFlatOverlay` | minimaps/static/minimaps/app.js:56-66 | the previous overlay is detached, a fresh one is the only attached overlay, and the page changes as `AddFlat` says |
| `OverlayManagement.OverlayManager.LockClicked` | minimaps/static/minimaps/app.js:128-133 | same overlay and attachments; the page changes as `LockClick` says |
| `OverlayManagement.OverlayManager.UnlockClicked` | minimaps/static/minimaps/app.js:135-140 | same overlay and attachments; the page changes as `UnlockClick` says |
| `OverlayManagement.OverlayManager.PressLock` | minimaps/static/minimaps/app.js:148 | same overlay and attachments; the page changes as `PressLockButton` says |
| `OverlayManagement.OverlayManager.BootOverlayIfAvailable` | minimaps/static/minimaps/app.js:91-100 | a skipped or failed boot leaves slot and map untouched; a loaded one attaches a fresh overlay as the only one; the page changes as `Boot` says |
| `OverlayManagement.OverlayManager.PageLoaded` | minimaps/static/minimaps/app.js:173-182 | the page changes as `PageLoad` says, keeping the invariant; a skipped or failed boot keeps the same overlay and attachments, a loaded one leaves a fresh overlay as the only one attached |
| `OverlayManagement.OverlayManager.DemoClicked` | minimaps/static/minimaps/app.js:143-149 | nothing is touched without a URL or image; otherwise a fresh overlay is the only one attached; the page changes as `DemoClick` says |
| `OverlayManagement.OverlayManager.FileSelected` | minimaps/static/minimaps/app.js:152-168 | nothing is touched without a file or image; otherwise a fresh overlay is the only one attached; the page changes as `FileChosen` says |

## Left out

- Map setup (app.js:8-24): the Leaflet map, the OpenStreetMap tile layer and the draw control are library configuration. The map appears only as the set of overlays attached to it.
- Leaflet's projection (`latLngToContainerPoint`, `containerPointToLatLng`) and the distortable-overlay internals are library code. The projection is two uninterpreted functions of a `Viewport`. An overlay is a source, corners and a lock flag.
- Overlay modes other than lock: the library's `unlock()` switches to an editing mode, modelled as "not locked". Dragging corners while unlocked happens inside the library and is not modelled.
- Pixel coordinates are exact reals and `Math.round` works on the exact quotient. Floating-point rounding near .5 is not modelled.
- `loadImage`'s Promise, `Image.onload`/`onerror` and `FileReader` are asynchronous browser I/O. Only their outcome is modelled: a size or a failure, passed to the event that awaits it. The `naturalWidth || width` fallback is part of that outcome.
- Zero or missing image sizes are not modelled. The code does not guard them. Every load outcome is required to have positive width and height (`Decodable`).
- Overlapping loads that race for the slot (last write wins) are a concurrency issue. Each event runs to completion here.
- The page's `load` hook runs before any user event in `SessionKeepsButtonsMatchLock`. If the user unlocks an overlay before that hook and the boot then fails or is skipped, the hook disables the lock button of an unlocked overlay. `PageLoad` says so in its last ensures.
- The brightness sliders (app.js:107-122) and their calls at app.js:163 and app.js:174-175 are DOM and floating-point work.
- `console.warn` is a log write and is left out. The warning element is the modelled report.
- The DOM elements are assumed present. The `?.` guards for missing buttons or a missing warning element are not modelled.
- The page template is not part of this model, so both buttons are assumed to start enabled.
- ultramini/settings.py is Django configuration. Only its `STATIC_URL` value "/static/" appears, in `DefaultUrlUnderStaticBase`, on the assumption that the page template passes it to the script as `window.STATIC_URL`.
