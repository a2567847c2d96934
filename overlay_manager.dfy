/** The overlay manager: one optional overlay slot on the map, two buttons
    whose disabled flags track the overlay's lock, a loader-warning element,
    and the page events that drive them (load, lock, unlock, demo, upload).

    PageState is the value the page shows; the pure functions below say how
    each event changes it, and the OverlayManager class performs the same
    events in place, each method proved to follow its function. An image load
    is asynchronous in the browser; here its outcome (the natural size, or a
    failure) is an input of the event that awaits it. */
module OverlayManagement {
  import opened Wrappers
  import opened CornerSeeding
  import opened DefaultOverlay

  /** What loading an image yields: its natural size in pixels, or a failure. */
  datatype ImageLoad = Loaded(width: int, height: int) | LoadFailed

  /** A loaded image has a positive size (zero or missing sizes are not modelled). */
  predicate Decodable(load: ImageLoad)
  {
    load.Loaded? ==> load.width > 0 && load.height > 0
  }

  /** The overlay in the slot, as a value: its image, its corners, its lock. */
  datatype OverlayState = OverlayState(src: string, corners: seq<LatLng>, locked: bool)

  /** What the manager controls on the page. */
  datatype PageState = PageState(
    slot: Option<OverlayState>,
    lockDisabled: bool,      // lockBtn.disabled
    unlockDisabled: bool,    // unlockBtn.disabled
    warningVisible: bool)    // the loaderWarning element is displayed

  /** No overlay, both buttons enabled, no warning shown. */
  const InitialPage: PageState := PageState(None, false, false, false)

  /** At least one of the two buttons can be clicked. */
  predicate NeverBothDisabled(s: PageState)
  {
    !(s.lockDisabled && s.unlockDisabled)
  }

  /** The buttons reflect the overlay's lock: the lock button is disabled
      exactly when the overlay is locked, the unlock button exactly when not. */
  predicate ButtonsMatchLock(s: PageState)
  {
    && NeverBothDisabled(s)
    && (s.slot.Some? ==>
          s.lockDisabled == s.slot.value.locked && s.unlockDisabled == !s.slot.value.locked)
  }

  /** `addFlatOverlay`: the slot now holds a new overlay with the given image,
      the seeded flat corners and the `lock` mode; nothing else changes. */
  function AddFlat(s: PageState, view: Viewport, src: string, imgWidth: int, imgHeight: int): (t: PageState)
    requires imgWidth > 0 && imgHeight > 0
    ensures t.slot.Some? && t.slot.value.locked
    ensures t.slot.value.src == src && t.slot.value.corners == SeedCorners(view, imgWidth, imgHeight)
    ensures |t.slot.value.corners| == 4
    ensures t.lockDisabled == s.lockDisabled && t.unlockDisabled == s.unlockDisabled
    ensures t.warningVisible == s.warningVisible
  {
    s.(slot := Some(OverlayState(src, SeedCorners(view, imgWidth, imgHeight), true)))
  }

  /** The lock button's click handler. */
  function LockClick(s: PageState): (t: PageState)
    // with no overlay the handler returns at once
    ensures s.slot.None? ==> t == s
    // otherwise the same overlay, now locked, and the buttons set to match
    ensures s.slot.Some? ==>
              && t.slot == Some(s.slot.value.(locked := true))
              && t.lockDisabled && !t.unlockDisabled
              && t.warningVisible == s.warningVisible
    ensures s.slot.Some? ==> ButtonsMatchLock(t)
    ensures ButtonsMatchLock(s) ==> ButtonsMatchLock(t)
  {
    match s.slot
    case None => s
    case Some(o) => s.(slot := Some(o.(locked := true)), lockDisabled := true, unlockDisabled := false)
  }

  /** The unlock button's click handler. */
  function UnlockClick(s: PageState): (t: PageState)
    ensures s.slot.None? ==> t == s
    ensures s.slot.Some? ==>
              && t.slot == Some(s.slot.value.(locked := false))
              && !t.lockDisabled && t.unlockDisabled
              && t.warningVisible == s.warningVisible
    ensures s.slot.Some? ==> ButtonsMatchLock(t)
    ensures ButtonsMatchLock(s) ==> ButtonsMatchLock(t)
  {
    match s.slot
    case None => s
    case Some(o) => s.(slot := Some(o.(locked := false)), lockDisabled := false, unlockDisabled := true)
  }

  /** `lockBtn.click()` from script: a disabled button ignores a synthetic
      click, so the handler runs only while the lock button is enabled. */
  function PressLockButton(s: PageState): (t: PageState)
    ensures t.slot.Some? == s.slot.Some?
    // an overlay that is already locked stays exactly as it is
    ensures s.slot.Some? && s.slot.value.locked ==> t.slot == s.slot
    // the buttons end up as "locked" whenever at least one was enabled
    ensures s.slot.Some? && NeverBothDisabled(s) ==> t.lockDisabled && !t.unlockDisabled
    ensures t.warningVisible == s.warningVisible
    ensures ButtonsMatchLock(s) ==> ButtonsMatchLock(t)
    // a disabled lock button ignores the click; an enabled one runs the handler
    ensures s.lockDisabled ==> t == s
    ensures !s.lockDisabled ==> t == LockClick(s)
  {
    if s.lockDisabled then s else LockClick(s)
  }

  /** `bootOverlayIfAvailable`, once the load of `url` has settled. */
  function Boot(s: PageState, view: Viewport, url: Option<string>, load: ImageLoad): (t: PageState)
    requires Decodable(load)
    // no default overlay: nothing happens
    ensures !Truthy(url) ==> t == s
    // a failed load shows the warning and leaves the slot and buttons alone
    ensures Truthy(url) && load.LoadFailed? ==>
              && t.slot == s.slot && t.warningVisible
              && t.lockDisabled == s.lockDisabled && t.unlockDisabled == s.unlockDisabled
    // a successful load replaces the overlay
    ensures Truthy(url) && load.Loaded? ==> t == AddFlat(s, view, url.value, load.width, load.height)
  {
    if !Truthy(url) then s
    else match load
      case LoadFailed => s.(warningVisible := true)
      case Loaded(w, h) => AddFlat(s, view, url.value, w, h)
  }

  /** The window's `load` hook: boot, then show the lock as taken if there is
      an overlay. */
  function PageLoad(s: PageState, view: Viewport, url: Option<string>, load: ImageLoad): (t: PageState)
    requires Decodable(load)
    ensures t.slot == Boot(s, view, url, load).slot
    ensures t.warningVisible == Boot(s, view, url, load).warningVisible
    ensures t.slot.Some? ==> t.lockDisabled && !t.unlockDisabled
    ensures t.slot.None? ==> t.lockDisabled == s.lockDisabled && t.unlockDisabled == s.unlockDisabled
    // if no unlocked overlay exists before the hook, the buttons match the lock after it
    ensures ButtonsMatchLock(s) && (s.slot.Some? ==> s.slot.value.locked) ==> ButtonsMatchLock(t)
  {
    var b := Boot(s, view, url, load);
    if b.slot.Some? then b.(lockDisabled := true, unlockDisabled := false) else b
  }

  /** What the demo button and the upload do once their image has loaded:
      replace the overlay and press the lock button. A failed load has no
      handler in either flow, so it changes nothing. */
  function LoadAndLock(s: PageState, view: Viewport, src: string, load: ImageLoad): (t: PageState)
    requires Decodable(load)
    ensures load.LoadFailed? ==> t == s
    ensures load.Loaded? ==>
              && t.slot == Some(OverlayState(src, SeedCorners(view, load.width, load.height), true))
              && t.warningVisible == s.warningVisible
    ensures load.Loaded? && NeverBothDisabled(s) ==> t.lockDisabled && !t.unlockDisabled
    ensures ButtonsMatchLock(s) ==> ButtonsMatchLock(t)
  {
    match load
    case LoadFailed => s
    case Loaded(w, h) => PressLockButton(AddFlat(s, view, src, w, h))
  }

  /** The demo button's click handler. */
  function DemoClick(s: PageState, view: Viewport, url: Option<string>, load: ImageLoad): (t: PageState)
    requires Decodable(load)
    ensures !Truthy(url) || load.LoadFailed? ==> t == s
    ensures Truthy(url) && load.Loaded? && NeverBothDisabled(s) ==>
              && t.slot == Some(OverlayState(url.value, SeedCorners(view, load.width, load.height), true))
              && t.lockDisabled && !t.unlockDisabled
              && t.warningVisible == s.warningVisible
    ensures ButtonsMatchLock(s) ==> ButtonsMatchLock(t)
  {
    if !Truthy(url) then s else LoadAndLock(s, view, url.value, load)
  }

  /** The file input's change handler; `dataUrl` is the chosen file read as a
      data URL, None when no file was chosen. */
  function FileChosen(s: PageState, view: Viewport, dataUrl: Option<string>, load: ImageLoad): (t: PageState)
    requires Decodable(load)
    ensures dataUrl.None? || load.LoadFailed? ==> t == s
    ensures dataUrl.Some? && load.Loaded? && NeverBothDisabled(s) ==>
              && t.slot == Some(OverlayState(dataUrl.value, SeedCorners(view, load.width, load.height), true))
              && t.lockDisabled && !t.unlockDisabled
              && t.warningVisible == s.warningVisible
    ensures ButtonsMatchLock(s) ==> ButtonsMatchLock(t)
  {
    match dataUrl
    case None => s
    case Some(src) => LoadAndLock(s, view, src, load)
  }

  /** Locking twice is locking once. */
  lemma LockIdempotent(s: PageState)
    ensures LockClick(LockClick(s)) == LockClick(s)
  {
  }

  /** Unlocking twice is unlocking once. */
  lemma UnlockIdempotent(s: PageState)
    ensures UnlockClick(UnlockClick(s)) == UnlockClick(s)
  {
  }

  /** Unlocking and locking again restores a locked overlay and its buttons. */
  lemma UnlockThenLockRestores(s: PageState)
    requires s.slot.Some? && s.slot.value.locked && ButtonsMatchLock(s)
    ensures LockClick(UnlockClick(s)) == s
  {
  }

  /** Without a truthy override or base path there is no default overlay,
      so neither the boot nor the demo button changes the page, whatever
      the image load would have given. */
  lemma UnconfiguredDefaultChangesNothing(s: PageState, view: Viewport, overrideUrl: Option<string>,
                                          staticUrl: Option<string>, load: ImageLoad)
    requires Decodable(load)
    requires !Truthy(overrideUrl) && !Truthy(staticUrl)
    ensures Boot(s, view, DefaultOverlayUrl(overrideUrl, staticUrl), load) == s
    ensures DemoClick(s, view, DefaultOverlayUrl(overrideUrl, staticUrl), load) == s
  {
  }

  /** The user's events after the page has loaded: a click on the lock or
      unlock button, the demo button, or a file chosen for upload. */
  datatype Event =
    | Lock
    | Unlock
    | Demo(view: Viewport, url: Option<string>, load: ImageLoad)
    | Upload(view: Viewport, dataUrl: Option<string>, load: ImageLoad)

  predicate DecodableEvent(e: Event)
  {
    match e
    case Demo(_, _, load) => Decodable(load)
    case Upload(_, _, load) => Decodable(load)
    case _ => true
  }

  /** One user event. The browser fires no click on a disabled button, so a
      click on the lock or unlock button runs its handler only while that
      button is enabled. */
  function Apply(s: PageState, e: Event): (t: PageState)
    requires DecodableEvent(e)
    ensures ButtonsMatchLock(s) ==> ButtonsMatchLock(t)
    ensures e.Lock? && s.lockDisabled ==> t == s
    ensures e.Unlock? && s.unlockDisabled ==> t == s
    ensures e.Lock? && !s.lockDisabled ==> t == LockClick(s)
    ensures e.Unlock? && !s.unlockDisabled ==> t == UnlockClick(s)
  {
    match e
    case Lock => if s.lockDisabled then s else LockClick(s)
    case Unlock => if s.unlockDisabled then s else UnlockClick(s)
    case Demo(view, url, load) => DemoClick(s, view, url, load)
    case Upload(view, dataUrl, load) => FileChosen(s, view, dataUrl, load)
  }

  /** The page after the events, in order. */
  function Run(s: PageState, events: seq<Event>): PageState
    requires forall i :: 0 <= i < |events| ==> DecodableEvent(events[i])
    decreases |events|
  {
    if events == [] then s else Run(Apply(s, events[0]), events[1..])
  }

  /** Any sequence of user events keeps the buttons in step with the lock. */
  lemma {:induction false} RunKeepsButtonsMatchLock(s: PageState, events: seq<Event>)
    requires forall i :: 0 <= i < |events| ==> DecodableEvent(events[i])
    requires ButtonsMatchLock(s)
    ensures ButtonsMatchLock(Run(s, events))
    decreases |events|
  {
    if events != [] {
      RunKeepsButtonsMatchLock(Apply(s, events[0]), events[1..]);
    }
  }

  /** A session: the page loads (booting the default overlay), then the user
      clicks and uploads; afterwards the buttons match the lock. */
  lemma {:induction false} SessionKeepsButtonsMatchLock(view: Viewport, url: Option<string>, load: ImageLoad, events: seq<Event>)
    requires Decodable(load)
    requires forall i :: 0 <= i < |events| ==> DecodableEvent(events[i])
    ensures ButtonsMatchLock(Run(PageLoad(InitialPage, view, url, load), events))
  {
    RunKeepsButtonsMatchLock(PageLoad(InitialPage, view, url, load), events);
  }

  /** A `L.distortableImageOverlay` layer: its image and corners are fixed
      when it is made; `lock()` and `unlock()` switch its mode. */
  class Overlay {
    const src: string
    const corners: seq<LatLng>
    var locked: bool

    /** Made with `mode: 'lock'`. */
    constructor (src: string, corners: seq<LatLng>)
      ensures this.src == src && this.corners == corners && locked
    {
      this.src := src;
      this.corners := corners;
      locked := true;
    }
  }

  /** The script's module-level state: the `overlay` variable, the overlays
      the map holds as layers, the two button flags and the warning. */
  class OverlayManager {
    var overlay: Overlay?
    var attached: set<Overlay>
    var lockDisabled: bool
    var unlockDisabled: bool
    var warningVisible: bool

    /** The map holds exactly the overlay in the slot, and at least one
        button is enabled. */
    ghost predicate Valid()
      reads this
    {
      && attached == (if overlay == null then {} else {overlay})
      && !(lockDisabled && unlockDisabled)
    }

    ghost function Page(): PageState
      reads this, overlay
    {
      PageState(
        if overlay == null then None else Some(OverlayState(overlay.src, overlay.corners, overlay.locked)),
        lockDisabled, unlockDisabled, warningVisible)
    }

    constructor ()
      ensures Valid() && Page() == InitialPage && attached == {}
    {
      overlay := null;
      attached := {};
      lockDisabled, unlockDisabled := false, false;
      warningVisible := false;
    }

    /** `addFlatOverlay`: the previous overlay, if any, leaves the map before
        a fresh one, seeded flat and locked, is added; it is the only one. */
    method AddFlatOverlay(view: Viewport, imgSrc: string, imgWidth: int, imgHeight: int)
      requires Valid() && imgWidth > 0 && imgHeight > 0
      modifies this
      ensures Valid() && overlay != null && fresh(overlay)
      ensures attached == {overlay}
      ensures old(overlay) != null ==> old(overlay) !in attached
      ensures Page() == AddFlat(old(Page()), view, imgSrc, imgWidth, imgHeight)
    {
      var corners := SeedCorners(view, imgWidth, imgHeight);
      if overlay != null {
        attached := attached - {overlay};
      }
      overlay := new Overlay(imgSrc, corners);
      attached := attached + {overlay};
    }

    /** The lock button's click handler. */
    method LockClicked()
      requires Valid()
      modifies this, overlay
      ensures Valid() && overlay == old(overlay) && attached == old(attached)
      ensures Page() == LockClick(old(Page()))
    {
      if overlay == null {
        return;
      }
      overlay.locked := true;
      lockDisabled := true;
      unlockDisabled := false;
    }

    /** The unlock button's click handler. */
    method UnlockClicked()
      requires Valid()
      modifies this, overlay
      ensures Valid() && overlay == old(overlay) && attached == old(attached)
      ensures Page() == UnlockClick(old(Page()))
    {
      if overlay == null {
        return;
      }
      overlay.locked := false;
      lockDisabled := false;
      unlockDisabled := true;
    }

    /** `lockBtn.click()`: ignored while the lock button is disabled. */
    method PressLock()
      requires Valid()
      modifies this, overlay
      ensures Valid() && overlay == old(overlay) && attached == old(attached)
      ensures Page() == PressLockButton(old(Page()))
    {
      if !lockDisabled {
        LockClicked();
      }
    }

    /** `bootOverlayIfAvailable`, given the outcome of loading `url`. */
    method BootOverlayIfAvailable(view: Viewport, url: Option<string>, load: ImageLoad)
      requires Valid() && Decodable(load)
      modifies this
      ensures Valid()
      ensures Page() == Boot(old(Page()), view, url, load)
      // a failed or skipped boot leaves the slot and the map untouched
      ensures !Truthy(url) || load.LoadFailed? ==> overlay == old(overlay) && attached == old(attached)
      ensures Truthy(url) && load.Loaded? ==> overlay != null && fresh(overlay) && attached == {overlay}
    {
      if !Truthy(url) {
        return;
      }
      match load {
        case LoadFailed =>
          warningVisible := true;
        case Loaded(w, h) =>
          AddFlatOverlay(view, url.value, w, h);
      }
    }

    /** The window's `load` hook. */
    method PageLoaded(view: Viewport, url: Option<string>, load: ImageLoad)
      requires Valid() && Decodable(load)
      modifies this
      ensures Valid()
      ensures Page() == PageLoad(old(Page()), view, url, load)
      // the hook only sets the flags after the boot: the slot is the boot's
      ensures !Truthy(url) || load.LoadFailed? ==> overlay == old(overlay) && attached == old(attached)
      ensures Truthy(url) && load.Loaded? ==> overlay != null && fresh(overlay) && attached == {overlay}
    {
      BootOverlayIfAvailable(view, url, load);
      if overlay != null {
        lockDisabled := true;
        unlockDisabled := false;
      }
    }

    /** The demo button's click handler, given the outcome of loading `url`. */
    method DemoClicked(view: Viewport, url: Option<string>, load: ImageLoad)
      requires Valid() && Decodable(load)
      modifies this
      ensures Valid()
      ensures Page() == DemoClick(old(Page()), view, url, load)
      ensures !Truthy(url) || load.LoadFailed? ==> overlay == old(overlay) && attached == old(attached)
      ensures Truthy(url) && load.Loaded? ==> overlay != null && fresh(overlay) && attached == {overlay}
    {
      if !Truthy(url) {
        return;
      }
      match load {
        case LoadFailed =>
        case Loaded(w, h) =>
          AddFlatOverlay(view, url.value, w, h);
          PressLock();
      }
    }

    /** The file input's change handler, given the chosen file as a data URL
        and the outcome of decoding it. */
    method FileSelected(view: Viewport, dataUrl: Option<string>, load: ImageLoad)
      requires Valid() && Decodable(load)
      modifies this
      ensures Valid()
      ensures Page() == FileChosen(old(Page()), view, dataUrl, load)
      ensures dataUrl.None? || load.LoadFailed? ==> overlay == old(overlay) && attached == old(attached)
      ensures dataUrl.Some? && load.Loaded? ==> overlay != null && fresh(overlay) && attached == {overlay}
    {
      if dataUrl.None? {
        return;
      }
      match load {
        case LoadFailed =>
        case Loaded(w, h) =>
          AddFlatOverlay(view, dataUrl.value, w, h);
          PressLock();
      }
    }
  }
}
