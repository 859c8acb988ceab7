/**
 * The light slice-stack viewer (`LightStackViewer`): slice URL derivation,
 * neighbour prefetch into a grow-only per-slice image cache, the
 * fit-to-viewport base scale, and the component's state with its touch,
 * double-click and image-load handlers.
 */
module LightViewer {
  import opened Common
  import opened JsStrings
  import opened TouchGestures

  // ---------------------------------------------------------------------------
  // Slice URLs

  /** What an external (http) base URL gets before the 1-based slice number. */
  const ExternalQuery := "?w=800&h=600&fit=crop&auto=format&q=80&slice="
  const LocalSeparator := "-"
  const LocalExtension := ".jpg"
  /** Local file names carry the slice number zero-padded to this many digits. */
  const LocalDigits := 3

  predicate IsExternal(baseUrl: string) {
    Includes(baseUrl, "http")
  }

  /** `getSliceUrl`: the URL of the image for the 0-based `sliceIndex`. */
  function SliceUrl(baseUrl: string, sliceIndex: int): (url: string)
    ensures |url| > |baseUrl| && url[..|baseUrl|] == baseUrl
  {
    var sliceNumber := sliceIndex + 1;
    if IsExternal(baseUrl) then
      baseUrl + ExternalQuery + NumberToString(sliceNumber)
    else
      baseUrl + LocalSeparator + PadStart(NumberToString(sliceNumber), LocalDigits, '0') + LocalExtension
  }

  /** An external base URL is followed by the fixed query and the plain decimal slice number. */
  lemma ExternalSliceUrl(baseUrl: string, sliceIndex: nat)
    requires IsExternal(baseUrl)
    ensures var url, n := SliceUrl(baseUrl, sliceIndex), |baseUrl + ExternalQuery|;
      && |url| > n && url[..n] == baseUrl + ExternalQuery
      && AllDigits(url[n..]) && ParseDigits(url[n..]) == sliceIndex + 1
      && (url[n..] == "0" || url[n] != '0')
  {
    var digits := NumberToString(sliceIndex + 1);
    assert digits == DecimalDigits(sliceIndex + 1);
    assert (baseUrl + ExternalQuery + digits)[|baseUrl + ExternalQuery|..] == digits;
  }

  /**
   * A local base URL is followed by "-", the slice number padded with zeros to
   * at least three digits (longer numbers are kept whole), and ".jpg".
   */
  lemma LocalSliceUrl(baseUrl: string, sliceIndex: nat)
    requires !IsExternal(baseUrl)
    ensures var url, digits := SliceUrl(baseUrl, sliceIndex), DecimalDigits(sliceIndex + 1);
      var pad := PadStart(digits, LocalDigits, '0');
      && url == baseUrl + LocalSeparator + pad + LocalExtension
      && |pad| == (if |digits| > LocalDigits then |digits| else LocalDigits)
      && pad[|pad| - |digits|..] == digits
      && (forall i :: 0 <= i < |pad| - |digits| ==> pad[i] == '0')
      && AllDigits(pad) && ParseDigits(pad) == sliceIndex + 1
  {
    var digits := DecimalDigits(sliceIndex + 1);
    DecimalDigitsRoundTrip(sliceIndex + 1);
    ZeroPaddingKeepsValue(digits, LocalDigits);
  }

  /** Reads the 1-based slice number back out of a URL built on `baseUrl`. */
  function SliceNumberOf(baseUrl: string, url: string): Option<nat>
  {
    if IsExternal(baseUrl) then
      var prefix := baseUrl + ExternalQuery;
      if |url| > |prefix| && url[..|prefix|] == prefix && AllDigits(url[|prefix|..])
      then Some(ParseDigits(url[|prefix|..])) else None
    else
      var prefix := baseUrl + LocalSeparator;
      if |url| >= |prefix| + |LocalExtension| && url[..|prefix|] == prefix
         && url[|url| - |LocalExtension|..] == LocalExtension
         && AllDigits(url[|prefix|..|url| - |LocalExtension|])
      then Some(ParseDigits(url[|prefix|..|url| - |LocalExtension|])) else None
  }

  lemma {:induction false} SliceUrlRoundTrip(baseUrl: string, sliceIndex: nat)
    ensures SliceNumberOf(baseUrl, SliceUrl(baseUrl, sliceIndex)) == Some(sliceIndex + 1)
  {
    if IsExternal(baseUrl) {
      ExternalSliceUrl(baseUrl, sliceIndex);
    } else {
      LocalSliceUrl(baseUrl, sliceIndex);
      var pad := PadStart(DecimalDigits(sliceIndex + 1), LocalDigits, '0');
      ThreePartSlices(baseUrl + LocalSeparator, pad, LocalExtension);
    }
  }

  /** The three parts of `p + m + x` can be sliced back out of it. */
  lemma ThreePartSlices(p: string, m: string, x: string)
    ensures var u := p + m + x;
      && u[..|p|] == p
      && u[|u| - |x|..] == x
      && u[|p|..|u| - |x|] == m
  {
  }

  /** Different slices of one stack never share a URL. */
  lemma SliceUrlInjective(baseUrl: string, i: nat, j: nat)
    requires SliceUrl(baseUrl, i) == SliceUrl(baseUrl, j)
    ensures i == j
  {
    SliceUrlRoundTrip(baseUrl, i);
    SliceUrlRoundTrip(baseUrl, j);
  }

  /** An external stack: slice 0 is requested with `slice=1` in its query. */
  lemma ExternalUrlExample()
    ensures SliceUrl("https://img.example/study", 0) == "https://img.example/study" + ExternalQuery + "1"
  {
    assert OccursAt("https://img.example/study", "http", 0);
    assert NumberToString(1) == "1" by { assert DigitChar(1) == '1'; }
  }

  /** A local stack: slice 4 is the file with suffix "-005.jpg". */
  lemma LocalUrlExample()
    ensures SliceUrl("/cases/abc/ct", 4) == "/cases/abc/ct" + "-" + "005" + ".jpg"
  {
    LocalExampleIsLocal();
    FivePadsToThreeDigits();
  }

  lemma LocalExampleIsLocal()
    ensures !IsExternal("/cases/abc/ct")
  {
    MissingFirstCharExcludes("/cases/abc/ct", "http");
  }

  lemma FivePadsToThreeDigits()
    ensures PadStart(NumberToString(5), LocalDigits, '0') == "005"
  {
    assert NumberToString(5) == "5" by { assert DigitChar(5) == '5'; }
    assert Repeat('0', 2) == "00";
  }

  /** "http" anywhere in a path, not only at its start, makes it count as external. */
  lemma HttpInsidePathIsExternal()
    ensures SliceUrl("/cases/http-demo/ct", 0) == "/cases/http-demo/ct" + ExternalQuery + "1"
  {
    assert OccursAt("/cases/http-demo/ct", "http", 7);
    assert NumberToString(1) == "1" by { assert DigitChar(1) == '1'; }
  }

  // ---------------------------------------------------------------------------
  // Base scale

  /** Image wider than the canvas, by aspect ratio (`imageAspect > canvasAspect`). */
  predicate ImageIsWider(canvasWidth: real, canvasHeight: real, imageWidth: real, imageHeight: real)
    requires imageHeight > 0.0
  {
    // With a zero canvas height the canvas aspect is Infinity or NaN, and the comparison is false.
    canvasHeight > 0.0 && imageWidth / imageHeight > canvasWidth / canvasHeight
  }

  /** The zoom-independent scale that fits the image into the canvas, keeping its aspect ratio. */
  function BaseScale(canvasWidth: real, canvasHeight: real, imageWidth: real, imageHeight: real): (scale: real)
    requires canvasWidth >= 0.0 && canvasHeight >= 0.0 && imageWidth > 0.0 && imageHeight > 0.0
    ensures scale >= 0.0
    ensures imageWidth * scale <= canvasWidth && imageHeight * scale <= canvasHeight
    ensures ImageIsWider(canvasWidth, canvasHeight, imageWidth, imageHeight) ==> imageWidth * scale == canvasWidth
    ensures !ImageIsWider(canvasWidth, canvasHeight, imageWidth, imageHeight) ==> imageHeight * scale == canvasHeight
    ensures canvasWidth > 0.0 && canvasHeight > 0.0 ==> scale > 0.0
  {
    if ImageIsWider(canvasWidth, canvasHeight, imageWidth, imageHeight) then
      WiderFitsHeight(canvasWidth, canvasHeight, imageWidth, imageHeight);
      canvasWidth / imageWidth
    else
      NarrowerFitsWidth(canvasWidth, canvasHeight, imageWidth, imageHeight);
      canvasHeight / imageHeight
  }

  lemma WiderFitsHeight(cw: real, ch: real, iw: real, ih: real)
    requires cw >= 0.0 && ch > 0.0 && iw > 0.0 && ih > 0.0
    requires iw / ih > cw / ch
    ensures iw * (cw / iw) == cw && ih * (cw / iw) <= ch
  {
    assert iw * ch > cw * ih by {
      assert (iw / ih) * (ih * ch) > (cw / ch) * (ih * ch);
    }
    assert ih * (cw / iw) * iw == ih * cw;
  }

  lemma NarrowerFitsWidth(cw: real, ch: real, iw: real, ih: real)
    requires cw >= 0.0 && ch >= 0.0 && iw > 0.0 && ih > 0.0
    requires !(ch > 0.0 && iw / ih > cw / ch)
    ensures ih * (ch / ih) == ch && iw * (ch / ih) <= cw
  {
    if ch > 0.0 {
      assert iw * ch <= cw * ih by {
        assert (iw / ih) * (ih * ch) <= (cw / ch) * (ih * ch);
      }
      assert iw * (ch / ih) * ih == iw * ch;
    }
  }

  /** The base scale is the largest scale at which the whole image is visible. */
  lemma BaseScaleIsLargestFit(canvasWidth: real, canvasHeight: real, imageWidth: real, imageHeight: real, s: real)
    requires canvasWidth >= 0.0 && canvasHeight >= 0.0 && imageWidth > 0.0 && imageHeight > 0.0
    requires imageWidth * s <= canvasWidth && imageHeight * s <= canvasHeight
    ensures s <= BaseScale(canvasWidth, canvasHeight, imageWidth, imageHeight)
  {
    var scale := BaseScale(canvasWidth, canvasHeight, imageWidth, imageHeight);
    if ImageIsWider(canvasWidth, canvasHeight, imageWidth, imageHeight) {
      assert imageWidth * s <= imageWidth * scale;
    } else {
      assert imageHeight * s <= imageHeight * scale;
    }
  }

  // ---------------------------------------------------------------------------
  // Prefetch

  type Pixels = n: int | n > 0 witness 1

  /** A decoded image: an opaque handle with its natural size. */
  datatype Image = Image(handle: nat, width: Pixels, height: Pixels)

  /** One `preloadImage(i)` call: `[i]` when it starts a fetch, `[]` when its guard returns early. */
  function Attempt(cache: map<int, Image>, sliceIndex: int, slices: nat): (r: seq<int>)
    ensures r == [] || r == [sliceIndex]
    ensures r == [sliceIndex] <==> sliceIndex !in cache && 0 <= sliceIndex < slices
  {
    if sliceIndex in cache || sliceIndex < 0 || sliceIndex >= slices then [] else [sliceIndex]
  }

  /** Slices the preload effect may fetch: the current one and its neighbours, in range and not cached. */
  predicate Fetchable(cache: map<int, Image>, current: int, slices: nat, t: int) {
    current - 1 <= t <= current + 1 && 0 <= t < slices && t !in cache
  }

  /** The slices the preload effect starts fetching, in order, for the cache and slice it sees. */
  function PreloadTargets(cache: map<int, Image>, current: int, slices: nat): (targets: seq<int>)
    ensures forall k :: 0 <= k < |targets| ==> Fetchable(cache, current, slices, targets[k])
    ensures forall a, b :: 0 <= a < b < |targets| ==> targets[a] != targets[b]
    ensures Fetchable(cache, current, slices, current) ==> |targets| > 0 && targets[0] == current
  {
    Attempt(cache, current, slices)
      + (if current > 0 then Attempt(cache, current - 1, slices) else [])
      + (if current < slices - 1 then Attempt(cache, current + 1, slices) else [])
  }

  /** Every fetchable slice is fetched: with the contract above, `t in targets` exactly when `Fetchable`. */
  lemma PreloadTargetsComplete(cache: map<int, Image>, current: int, slices: nat, t: int)
    requires Fetchable(cache, current, slices, t)
    ensures t in PreloadTargets(cache, current, slices)
  {
  }

  /**
   * An image fetch the viewer started: the slice (its URL is
   * `SliceUrl(baseUrl, index)`) and the slice that was current when it was
   * started, which its `onload`/`onerror` closures compare against.
   */
  datatype Request = Request(index: int, issuedDuring: int)

  function Issue(targets: seq<int>, current: int): (rs: seq<Request>)
    ensures |rs| == |targets|
    ensures forall k :: 0 <= k < |rs| ==> rs[k] == Request(targets[k], current)
  {
    if targets == [] then [] else [Request(targets[0], current)] + Issue(targets[1..], current)
  }

  /** The image shown after the current-image effect: the cached one, if the current slice is cached. */
  function SyncedImage(cache: map<int, Image>, current: int, shown: Option<Image>): (r: Option<Image>)
    ensures current in cache ==> r == Some(cache[current])
    ensures current !in cache ==> r == shown
  {
    if current in cache then Some(cache[current]) else shown
  }

  function SyncedError(cache: map<int, Image>, current: int, error: bool): (r: bool)
    ensures r <==> current !in cache && error
  {
    if current in cache then false else error
  }

  // ---------------------------------------------------------------------------
  // The component

  class LightStackViewer {
    const baseUrl: string
    const slices: nat

    var currentSlice: int
    var zoom: real
    var pan: Vec
    var isDragging: bool
    var isZooming: bool
    var dragStart: Vec
    var lastPinchDistance: real

    var loadedImages: map<int, Image>
    var currentImage: Option<Image>
    var imageLoadError: bool

    /** Every fetch started so far, in order; its `onload`/`onerror` may fire later. */
    var requests: seq<Request>
    /** Requests whose `onload` or `onerror` has already fired; bookkeeping, not component state. */
    ghost var settled: set<nat>

    function GestureState(): Gesture
      reads this`currentSlice, this`zoom, this`pan, this`isDragging, this`isZooming, this`dragStart, this`lastPinchDistance
    {
      Gesture(currentSlice, zoom, pan, isDragging, isZooming, dragStart, lastPinchDistance)
    }

    ghost predicate Valid()
      reads this
    {
      && Inv(GestureState(), slices)
      && (forall k :: 0 <= k < |requests| ==>
            && 0 <= requests[k].index < slices
            && InSliceRange(requests[k].issuedDuring, slices))
      && (forall i :: i in loadedImages ==> 0 <= i < slices)
      && (forall k :: k in settled ==> k < |requests|)
    }

    /** Mounting: initial state, then both effects run once. */
    constructor (baseUrl: string, slices: nat)
      ensures Valid()
      ensures this.baseUrl == baseUrl && this.slices == slices
      ensures GestureState() == Initial
      ensures loadedImages == map[] && currentImage == None && !imageLoadError && settled == {}
      ensures requests == Issue(PreloadTargets(map[], 0, slices), 0)
    {
      this.baseUrl := baseUrl;
      this.slices := slices;
      currentSlice := 0;
      zoom := 1.0;
      pan := Origin;
      isDragging := false;
      isZooming := false;
      dragStart := Origin;
      lastPinchDistance := 0.0;
      loadedImages := map[];
      currentImage := None;
      imageLoadError := false;
      requests := [];
      settled := {};
      new;
      RunEffects();
    }

    /**
     * The two effects that depend on `currentSlice` and `loadedImages`, in
     * declaration order: preload the current slice and its neighbours, then
     * show the current slice if it is cached.
     */
    method RunEffects()
      requires Valid()
      modifies this`requests, this`currentImage, this`imageLoadError
      ensures Valid()
      ensures requests == old(requests) + Issue(PreloadTargets(loadedImages, currentSlice, slices), currentSlice)
      ensures currentImage == SyncedImage(loadedImages, currentSlice, old(currentImage))
      ensures imageLoadError == SyncedError(loadedImages, currentSlice, old(imageLoadError))
    {
      PreloadNeighbours();
      ShowCurrentIfCached();
    }

    /**
     * The preload effect: `preloadImage` on the current slice, the previous
     * one and the next one, each starting a fetch unless its guard returns.
     */
    method PreloadNeighbours()
      requires Valid()
      modifies this`requests
      ensures Valid()
      ensures requests == old(requests) + Issue(PreloadTargets(loadedImages, currentSlice, slices), currentSlice)
    {
      var targets := PreloadTargets(loadedImages, currentSlice, slices);
      requests := requests + Issue(targets, currentSlice);
    }

    /** The current-image effect: show the current slice if it is cached. */
    method ShowCurrentIfCached()
      requires Valid()
      modifies this`currentImage, this`imageLoadError
      ensures Valid()
      ensures currentImage == SyncedImage(loadedImages, currentSlice, old(currentImage))
      ensures imageLoadError == SyncedError(loadedImages, currentSlice, old(imageLoadError))
    {
      if currentSlice in loadedImages {
        currentImage := Some(loadedImages[currentSlice]);
        imageLoadError := false;
      }
    }

    /** `onload` of request `k`: cache the image; the request's slice is shown if it was current when requested. */
    method OnImageLoad(k: nat, img: Image)
      requires Valid() && k < |requests| && k !in settled
      modifies this
      ensures Valid()
      ensures settled == old(settled) + {k}
      ensures GestureState() == old(GestureState())
      ensures loadedImages == old(loadedImages)[old(requests)[k].index := img]
      ensures old(loadedImages).Keys <= loadedImages.Keys
      ensures requests == old(requests) + Issue(PreloadTargets(loadedImages, currentSlice, slices), currentSlice)
      ensures var r := old(requests)[k];
        && currentImage == SyncedImage(loadedImages, currentSlice, if r.index == r.issuedDuring then Some(img) else old(currentImage))
        && imageLoadError == SyncedError(loadedImages, currentSlice, r.index != r.issuedDuring && old(imageLoadError))
      ensures old(requests)[k].index == currentSlice ==> currentImage == Some(img) && !imageLoadError
    {
      var sliceIndex := requests[k].index;
      settled := settled + {k};
      loadedImages := loadedImages[sliceIndex := img];
      if sliceIndex == requests[k].issuedDuring {
        currentImage := Some(img);
        imageLoadError := false;
      }
      RunEffects();
    }

    /** `onerror` of request `k`: the error flag is raised if the slice was current when requested. */
    method OnImageError(k: nat)
      requires Valid() && k < |requests| && k !in settled
      modifies this`settled, this`imageLoadError
      ensures Valid()
      ensures settled == old(settled) + {k}
      ensures imageLoadError == (old(imageLoadError) || requests[k].index == requests[k].issuedDuring)
      ensures loadedImages == old(loadedImages) && currentImage == old(currentImage) && requests == old(requests)
    {
      settled := settled + {k};
      if requests[k].index == requests[k].issuedDuring {
        imageLoadError := true;
      }
    }

    method OnTouchStart(e: TouchEvent)
      requires Valid() && WellFormed(e)
      modifies this`isDragging, this`isZooming, this`dragStart, this`lastPinchDistance
      ensures Valid()
      ensures GestureState() == TouchStart(old(GestureState()), e)
    {
      if |e.touches| == 1 {
        dragStart := e.touches[0];
        isDragging := true;
        isZooming := false;
      } else if |e.touches| == 2 {
        lastPinchDistance := e.distance;
        dragStart := TouchCenter(e.touches);
        isDragging := false;
        isZooming := true;
      }
    }

    /** A touch move: the handler, then, if it stepped the slice, the two effects. */
    method OnTouchMove(e: TouchEvent)
      requires Valid() && WellFormed(e)
      modifies this
      ensures Valid()
      ensures GestureState() == TouchMove(old(GestureState()), e, slices)
      ensures loadedImages == old(loadedImages) && settled == old(settled)
      ensures currentSlice == old(currentSlice) ==>
        requests == old(requests) && currentImage == old(currentImage) && imageLoadError == old(imageLoadError)
      ensures currentSlice != old(currentSlice) ==>
        && requests == old(requests) + Issue(PreloadTargets(loadedImages, currentSlice, slices), currentSlice)
        && currentImage == SyncedImage(loadedImages, currentSlice, old(currentImage))
        && imageLoadError == SyncedError(loadedImages, currentSlice, old(imageLoadError))
    {
      var before := currentSlice;
      HandleTouchMove(e);
      ghost var moved := GestureState();
      if currentSlice != before {
        RunEffects();
        assert GestureState() == moved;
      }
    }

    /** `handleTouchMove` itself. */
    method HandleTouchMove(e: TouchEvent)
      requires Valid() && WellFormed(e)
      modifies this`currentSlice, this`zoom, this`pan, this`dragStart, this`lastPinchDistance
      ensures Valid()
      ensures GestureState() == TouchMove(old(GestureState()), e, slices)
    {
      if |e.touches| == 1 && isDragging {
        var touch := e.touches[0];
        var deltaX, deltaY := touch.x - dragStart.x, touch.y - dragStart.y;
        if zoom <= NavigationZoomLimit && Abs(deltaY) > Abs(deltaX) && Abs(deltaY) > SwipeThreshold {
          if deltaY > SliceStepDistance && currentSlice > 0 {
            currentSlice := currentSlice - 1;
            dragStart := touch;
          } else if deltaY < -SliceStepDistance && currentSlice < slices - 1 {
            currentSlice := currentSlice + 1;
            dragStart := touch;
          }
        } else {
          pan := Vec(pan.x + deltaX * PanDamping, pan.y + deltaY * PanDamping);
          dragStart := touch;
        }
      } else if |e.touches| == 2 && isZooming {
        if lastPinchDistance > 0.0 {
          var scale := e.distance / lastPinchDistance;
          zoom := Clamp(zoom * scale, MinZoom, MaxZoom);
        }
        lastPinchDistance := e.distance;
      }
    }

    method OnTouchEnd()
      requires Valid()
      modifies this`isDragging, this`isZooming, this`lastPinchDistance
      ensures Valid()
      ensures GestureState() == TouchEnd(old(GestureState()))
    {
      isDragging := false;
      isZooming := false;
      lastPinchDistance := 0.0;
    }

    method OnDoubleClick()
      requires Valid()
      modifies this`zoom, this`pan
      ensures Valid()
      ensures GestureState() == ResetView(old(GestureState()))
    {
      zoom := 1.0;
      pan := Origin;
    }

    /** The base scale the canvas draws the shown image at, if an image is shown and no error is flagged. */
    function DrawScale(canvasWidth: real, canvasHeight: real): (scale: Option<real>)
      reads this
      requires canvasWidth >= 0.0 && canvasHeight >= 0.0
      ensures scale.Some? <==> !imageLoadError && currentImage.Some?
      ensures scale.Some? ==>
        currentImage.value.width as real * scale.value <= canvasWidth &&
        currentImage.value.height as real * scale.value <= canvasHeight
    {
      if imageLoadError || currentImage.None? then None
      else Some(BaseScale(canvasWidth, canvasHeight, currentImage.value.width as real, currentImage.value.height as real))
    }
  }

  // ---------------------------------------------------------------------------
  // Consequences of the closures comparing against the slice current at fetch time

  /**
   * An image whose fetch started while its slice was current is shown when it
   * arrives, even after the user has moved to a slice that is not cached yet.
   */
  method LeftSliceImageShown(img: Image) returns (v: LightStackViewer)
    ensures v.currentSlice == 1 && 1 !in v.loadedImages && 0 in v.loadedImages
    ensures v.currentImage == Some(img) && !v.imageLoadError
  {
    v := new LightStackViewer("/cases/abc/ct", 5);
    assert PreloadTargets(map[], 0, 5) == [0, 1];
    assert v.requests[0] == Request(0, 0);
    v.OnTouchStart(TouchEvent([Vec(0.0, 200.0)], 0.0));
    v.OnTouchMove(TouchEvent([Vec(0.0, 50.0)], 0.0));
    assert v.requests[0] == Request(0, 0);
    v.OnImageLoad(0, img);
  }

  /**
   * An error for a fetch started while its slice was current raises the error
   * flag even when that slice is cached and shown by the time the error
   * arrives, so nothing is drawn.
   */
  method LateErrorHidesShownSlice(img: Image) returns (v: LightStackViewer)
    ensures v.currentSlice == 1 && 1 in v.loadedImages && v.currentImage == Some(img)
    ensures v.imageLoadError && v.DrawScale(800.0, 600.0) == None
  {
    v := new LightStackViewer("/cases/abc/ct", 5);
    assert PreloadTargets(map[], 0, 5) == [0, 1];
    assert v.requests[0] == Request(0, 0) && v.requests[1] == Request(1, 0);
    v.OnImageLoad(1, img);
    assert v.requests[0] == Request(0, 0);
    v.OnTouchStart(TouchEvent([Vec(0.0, 200.0)], 0.0));
    v.OnTouchMove(TouchEvent([Vec(0.0, 50.0)], 0.0));
    assert v.requests[0] == Request(0, 0) && 0 !in v.settled;
    v.OnImageError(0);
  }
}
