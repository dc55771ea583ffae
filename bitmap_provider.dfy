/**
 * The artwork holder of the player service: it remembers the last requested
 * URI and the bitmap it produced, requests new artwork through the image
 * loader, and falls back to the app icon (or a grey square) on failure.
 * The loader's asynchronous answers are the `Complete` method, called with
 * the request it answers and its outcome; callbacks and listeners are
 * recorded in an event log.
 */
module BitmapProvider {
  import opened Wrappers

  /** The bitmaps the provider can hold. */
  datatype Bitmap =
    | Filled(size: int, color: int)   // a square painted one colour
    | Blank(size: int)                // a square left unpainted
    | AppIcon                         // the application icon
    | Decoded(image: nat)             // a bitmap decoded by the image loader

  /** What the image loader hands to `onSuccess`. */
  datatype Drawable = BitmapDrawable(bitmap: Bitmap) | OtherDrawable

  datatype Outcome = Error | Success(drawable: Drawable)

  /** An enqueued image request and the callback its listener will run. */
  datatype Request = Request(serial: nat, uri: string, callback: nat, fromNetwork: bool)

  datatype Event =
    | Called(callback: nat)                          // a `load` callback ran
    | Notified(listener: nat, bitmap: Option<Bitmap>) // a listener was invoked
    | Preloaded(uri: string)                         // a preload was asked for after a network error

  /** `0xFF666666.toInt()`: opaque grey as a signed 32-bit colour. */
  const Grey: int := 0xFF66_6666 - 0x1_0000_0000

  class BitmapProvider {
    const bitmapSize: int
    const colorProvider: bool -> int
    var lastUri: Option<string>
    var lastBitmap: Option<Bitmap>
    var lastIsSystemInDarkMode: bool
    var lastEnqueued: Option<Request>
    /** `lateinit`: `None` until first assigned. */
    var defaultBitmap: Option<Bitmap>
    var fallbackBitmap: Option<Bitmap>
    var listener: Option<nat>
    /** Requests enqueued and neither answered nor disposed. */
    var pending: seq<Request>
    /** How many requests were enqueued so far (numbers the requests). */
    var enqueued: nat
    var events: seq<Event>

    /**
     * Both the default and the fallback bitmap exist once construction is
     * over; every public operation keeps it so.
     */
    ghost predicate Valid()
      reads this
    {
      defaultBitmap.Some? && fallbackBitmap.Some?
    }

    /**
     * Construction runs `setDefaultBitmap` and then `setFallbackBitmap`, so a
     * default bitmap that cannot be painted finds no fallback yet and ends up
     * blank.  `createFails` and `iconFails` say whether painting the square
     * and loading the app icon throw; `isSystemInDarkMode` is the UI mode.
     */
    constructor(bitmapSize: int, colorProvider: bool -> int, isSystemInDarkMode: bool,
                createFails: bool, iconFails: bool)
      ensures Valid()
      ensures this.bitmapSize == bitmapSize && this.colorProvider == colorProvider
      ensures lastUri.None? && lastBitmap.None? && lastEnqueued.None? && listener.None?
      ensures lastIsSystemInDarkMode == isSystemInDarkMode
      ensures defaultBitmap == Some(if createFails then Blank(bitmapSize) else Filled(bitmapSize, colorProvider(isSystemInDarkMode)))
      ensures fallbackBitmap == Some(if iconFails then Filled(bitmapSize, Grey) else AppIcon)
      ensures pending == [] && enqueued == 0 && events == []
    {
      this.bitmapSize := bitmapSize;
      this.colorProvider := colorProvider;
      lastUri := None;
      lastBitmap := None;
      lastIsSystemInDarkMode := false;
      lastEnqueued := None;
      defaultBitmap := None;
      fallbackBitmap := None;
      listener := None;
      pending := [];
      enqueued := 0;
      events := [];
      new;
      var _ := SetDefaultBitmap(isSystemInDarkMode, createFails);
      SetFallbackBitmap(iconFails);
    }

    method SetFallbackBitmap(iconFails: bool)
      modifies this
      ensures defaultBitmap.Some? ==> Valid()
      ensures fallbackBitmap == Some(if iconFails then Filled(bitmapSize, Grey) else AppIcon)
      ensures lastUri == old(lastUri) && lastBitmap == old(lastBitmap) && defaultBitmap == old(defaultBitmap)
      ensures lastIsSystemInDarkMode == old(lastIsSystemInDarkMode) && lastEnqueued == old(lastEnqueued)
      ensures listener == old(listener) && pending == old(pending) && enqueued == old(enqueued) && events == old(events)
    {
      if iconFails {
        fallbackBitmap := Some(Filled(bitmapSize, Grey));
      } else {
        fallbackBitmap := Some(AppIcon);
      }
    }

    /**
     * `setDefaultBitmap`: repaints the default bitmap when it does not exist
     * yet or the UI mode changed, and then says whether no artwork is held.
     */
    method SetDefaultBitmap(isSystemInDarkMode: bool, createFails: bool) returns (repaintNeeded: bool)
      modifies this
      ensures fallbackBitmap.Some? ==> Valid()
      ensures old(defaultBitmap).Some? && isSystemInDarkMode == old(lastIsSystemInDarkMode) ==>
                !repaintNeeded && defaultBitmap == old(defaultBitmap) && lastIsSystemInDarkMode == old(lastIsSystemInDarkMode)
      ensures !(old(defaultBitmap).Some? && isSystemInDarkMode == old(lastIsSystemInDarkMode)) ==>
                repaintNeeded == old(lastBitmap).None? && lastIsSystemInDarkMode == isSystemInDarkMode &&
                defaultBitmap == Some(if !createFails then Filled(bitmapSize, colorProvider(isSystemInDarkMode))
                                      else old(fallbackBitmap).GetOr(Blank(bitmapSize)))
      ensures lastUri == old(lastUri) && lastBitmap == old(lastBitmap) && fallbackBitmap == old(fallbackBitmap)
      ensures lastEnqueued == old(lastEnqueued) && listener == old(listener)
      ensures pending == old(pending) && enqueued == old(enqueued) && events == old(events)
    {
      if defaultBitmap.Some? && isSystemInDarkMode == lastIsSystemInDarkMode {
        return false;
      }
      lastIsSystemInDarkMode := isSystemInDarkMode;
      if !createFails {
        defaultBitmap := Some(Filled(bitmapSize, colorProvider(isSystemInDarkMode)));
      } else {
        defaultBitmap := Some(fallbackBitmap.GetOr(Blank(bitmapSize)));
      }
      return lastBitmap.None?;
    }

    /**
     * The `bitmap` getter: the last artwork, else the fallback, else the
     * default (reading the `lateinit` default before it is set throws).
     */
    function CurrentBitmap(): (b: Bitmap)
      reads this
      requires lastBitmap.Some? || fallbackBitmap.Some? || defaultBitmap.Some?
      ensures lastBitmap.Some? ==> b == lastBitmap.value
      ensures lastBitmap.None? && fallbackBitmap.Some? ==> b == fallbackBitmap.value
      ensures lastBitmap.None? && fallbackBitmap.None? ==> b == defaultBitmap.value
    {
      match lastBitmap
      case Some(bm) => bm
      case None =>
        match fallbackBitmap
        case Some(f) => f
        case None => defaultBitmap.value
    }

    /** In a valid provider the getter never reaches the default bitmap: the fallback always answers first. */
    lemma ValidNeverShowsDefault()
      requires Valid()
      ensures CurrentBitmap() == if lastBitmap.Some? then lastBitmap.value else fallbackBitmap.value
    {
    }

    /** Assigning `listener`: the new listener, when there is one, hears the last bitmap at once. */
    method SetListener(value: Option<nat>)
      requires Valid()
      modifies this
      ensures Valid()
      ensures listener == value
      ensures value.Some? ==> events == old(events) + [Notified(value.value, lastBitmap)]
      ensures value.None? ==> events == old(events)
      ensures lastUri == old(lastUri) && lastBitmap == old(lastBitmap) && defaultBitmap == old(defaultBitmap)
      ensures fallbackBitmap == old(fallbackBitmap) && lastIsSystemInDarkMode == old(lastIsSystemInDarkMode)
      ensures lastEnqueued == old(lastEnqueued) && pending == old(pending) && enqueued == old(enqueued)
    {
      listener := value;
      if value.Some? {
        events := events + [Notified(value.value, lastBitmap)];
      }
    }

    /**
     * `load(uri, callback)`.  A missing URI installs the fallback, the same
     * URI as last time only runs the callback, and a new URI is remembered
     * and requested, from the network when `useNetwork` holds.  When building
     * or enqueueing the request throws (`enqueueFails`) the fallback is
     * installed and the callback runs at once.
     */
    method Load(uri: Option<string>, callback: nat, useNetwork: bool, enqueueFails: bool)
      requires Valid()
      modifies this
      ensures Valid()
      ensures uri.None? ==> CurrentBitmap() == old(fallbackBitmap).value
      ensures uri.None? ==>
                lastUri.None? && lastBitmap == old(fallbackBitmap) && events == old(events) + [Called(callback)] &&
                pending == old(pending) && lastEnqueued == old(lastEnqueued) && enqueued == old(enqueued)
      ensures uri.Some? && uri == old(lastUri) ==>
                lastUri == old(lastUri) && lastBitmap == old(lastBitmap) && events == old(events) + [Called(callback)] &&
                pending == old(pending) && lastEnqueued == old(lastEnqueued) && enqueued == old(enqueued)
      ensures uri.Some? && uri != old(lastUri) && enqueueFails ==>
                lastUri == uri && lastBitmap == old(fallbackBitmap) && events == old(events) + [Called(callback)] &&
                pending == old(pending) && lastEnqueued == old(lastEnqueued) && enqueued == old(enqueued)
      ensures uri.Some? && uri != old(lastUri) && !enqueueFails ==>
                var request := Request(old(enqueued), uri.value, callback, useNetwork);
                lastUri == uri && lastBitmap == old(lastBitmap) && events == old(events) &&
                pending == old(pending) + [request] && lastEnqueued == Some(request) && enqueued == old(enqueued) + 1
      ensures defaultBitmap == old(defaultBitmap) && fallbackBitmap == old(fallbackBitmap)
      ensures lastIsSystemInDarkMode == old(lastIsSystemInDarkMode) && listener == old(listener)
    {
      if uri.None? {
        lastUri := None;
        lastBitmap := fallbackBitmap;
        events := events + [Called(callback)];
        return;
      }
      if lastUri == uri {
        events := events + [Called(callback)];
        return;
      }
      lastUri := uri;
      if enqueueFails {
        lastBitmap := fallbackBitmap;
        events := events + [Called(callback)];
        return;
      }
      var request := Request(enqueued, uri.value, callback, useNetwork);
      enqueued := enqueued + 1;
      pending := pending + [request];
      lastEnqueued := Some(request);
    }

    /**
     * The image loader answers pending request `i`: a decoded bitmap
     * becomes the artwork, anything else installs the fallback; a network
     * error first asks for a preload; then the request's callback runs.
     */
    method Complete(i: nat, outcome: Outcome)
      requires Valid() && i < |pending|
      modifies this
      ensures Valid()
      ensures var request := old(pending)[i];
        pending == old(pending)[..i] + old(pending)[i + 1..] &&
        lastBitmap == (if outcome.Success? && outcome.drawable.BitmapDrawable? then Some(outcome.drawable.bitmap)
                       else old(fallbackBitmap)) &&
        events == old(events) + (if request.fromNetwork && outcome.Error? then [Preloaded(request.uri)] else [])
                              + [Called(request.callback)]
      ensures lastUri == old(lastUri) && defaultBitmap == old(defaultBitmap) && fallbackBitmap == old(fallbackBitmap)
      ensures lastIsSystemInDarkMode == old(lastIsSystemInDarkMode) && listener == old(listener)
      ensures lastEnqueued == old(lastEnqueued) && enqueued == old(enqueued)
    {
      var request := pending[i];
      pending := pending[..i] + pending[i + 1..];
      if request.fromNetwork && outcome.Error? {
        events := events + [Preloaded(request.uri)];
      }
      if outcome.Success? && outcome.drawable.BitmapDrawable? {
        lastBitmap := Some(outcome.drawable.bitmap);
      } else {
        lastBitmap := fallbackBitmap;
      }
      events := events + [Called(request.callback)];
    }

    /**
     * `clear()`: disposes of the last request and forgets the artwork, so
     * the `bitmap` getter falls back again.
     */
    method Clear()
      requires Valid()
      modifies this
      ensures Valid()
      ensures lastUri.None? && lastBitmap.None?
      ensures CurrentBitmap() == fallbackBitmap.value
      ensures old(lastEnqueued).Some? ==> pending == Without(old(pending), old(lastEnqueued).value)
      ensures old(lastEnqueued).None? ==> pending == old(pending)
      ensures defaultBitmap == old(defaultBitmap) && fallbackBitmap == old(fallbackBitmap)
      ensures lastIsSystemInDarkMode == old(lastIsSystemInDarkMode) && listener == old(listener)
      ensures lastEnqueued == old(lastEnqueued) && enqueued == old(enqueued) && events == old(events)
    {
      if lastEnqueued.Some? {
        pending := Without(pending, lastEnqueued.value);
      }
      lastUri := None;
      lastBitmap := None;
    }
  }

  /** `requests` with every copy of `r` taken out. */
  function Without(requests: seq<Request>, r: Request): (rest: seq<Request>)
    ensures r !in rest
    ensures forall x :: x in rest <==> x in requests && x != r
    ensures |rest| <= |requests|
  {
    if requests == [] then []
    else if requests[0] == r then Without(requests[1..], r)
    else [requests[0]] + Without(requests[1..], r)
  }
}
