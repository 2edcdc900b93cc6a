/**
 * The X11 wallpaper output: it resolves the configured screen names against
 * the outputs XRandr reports, allocates the pixmap, GC, pixel buffer and image
 * that span the whole default screen, and publishes each frame on the root
 * window with the two properties compositors read.
 *
 * The X server is an input value (`XServer`); every resource, drawing and
 * property request the output issues is appended to a request log, and every
 * call of the video driver's `resizeWindow` to a second log.
 */
module Output {
  import opened Wrappers

  // ---------------------------------------------------------------------------
  // The X server as the output sees it

  /** A CRTC's geometry: `{x, y, width, height}`. */
  datatype Rect = Rect(x: int, y: int, width: nat, height: nat)

  /** What XRRGetOutputInfo reports for one output, with its CRTC's geometry. */
  datatype OutputInfo = OutputInfo(name: string, connected: bool, crtc: Rect)

  /**
   * One snapshot of the display: whether XRandr is present, the default root
   * window and screen size, the outputs of XRRGetScreenResources (`None` when
   * it returns null; an entry is `None` when XRRGetOutputInfo returns null),
   * and the id XCreatePixmap hands out next.
   */
  datatype XServer = XServer(
    hasRandr: bool,
    root: nat,
    width: nat,
    height: nat,
    outputs: Option<seq<Option<OutputInfo>>>,
    newPixmap: nat)

  /** A resolved viewport: the CRTC rectangle and the output's name. */
  datatype Viewport = Viewport(rect: Rect, name: string)

  /** The argument of `CVideoDriver::resizeWindow`. */
  datatype Size = Size(width: nat, height: nat)

  datatype PropMode = Replace | Prepend | Append

  /** The resource, drawing and property requests the output issues, in the order it issues them. */
  datatype XRequest =
    | OpenDisplay
    | CloseDisplay
    | CreatePixmap(drawable: nat, width: nat, height: nat, depth: nat)
    | CreateGC(drawable: nat)
    | FillRectangle(drawable: nat, x: int, y: int, width: nat, height: nat)
    | SetWindowBackgroundPixmap(window: nat, pixmap: nat)
    | CreateImage(depth: nat, width: nat, height: nat, bitmapPad: nat)
    | PutImage(drawable: nat, width: nat, height: nat)
    | ChangeProperty(window: nat, property: string, propType: string, format: nat, mode: PropMode, data: seq<nat>)
    | ClearWindow(window: nat)
    | Flush
    | DestroyImage
    | FreeGC
    | FreePixmap(pixmap: nat)

  const RootPmapId: string := "_XROOTPMAP_ID"
  const EsetrootPmapId: string := "ESETROOT_PMAP_ID"
  const PixmapDepth: nat := 24
  const BytesPerPixel: nat := 4

  // ---------------------------------------------------------------------------
  // The viewport filter

  /** An output is kept when it is reported, connected and one of the configured screens. */
  predicate Selected(screens: set<string>, o: Option<OutputInfo>)
  {
    o.Some? && o.value.connected && o.value.name in screens
  }

  /** One iteration of the loop over the outputs. */
  function Insert(screens: set<string>, m: map<string, Viewport>, o: Option<OutputInfo>): map<string, Viewport>
  {
    if Selected(screens, o) then m[o.value.name := Viewport(o.value.crtc, o.value.name)] else m
  }

  /** The viewport map the loop builds from an empty map over `outs`, in order. */
  function Resolve(screens: set<string>, outs: seq<Option<OutputInfo>>): map<string, Viewport>
    decreases |outs|
  {
    if outs == [] then map[]
    else Insert(screens, Resolve(screens, outs[..|outs| - 1]), outs[|outs| - 1])
  }

  /** The names of the outputs that are reported and connected. */
  function ConnectedNames(outs: seq<Option<OutputInfo>>): set<string>
  {
    set i | 0 <= i < |outs| && outs[i].Some? && outs[i].value.connected :: outs[i].value.name
  }

  /** Whether loadScreenInfo gets past both early returns. */
  predicate Loads(srv: XServer)
  {
    srv.hasRandr && srv.outputs.Some?
  }

  /** The viewport map loadScreenInfo leaves: empty on either early return. */
  function ExpectedViewports(screens: set<string>, srv: XServer): map<string, Viewport>
  {
    if Loads(srv) then Resolve(screens, srv.outputs.value) else map[]
  }

  /** The key set is the configured names intersected with the connected names. */
  lemma {:induction false} ResolveKeys(screens: set<string>, outs: seq<Option<OutputInfo>>)
    ensures Resolve(screens, outs).Keys == screens * ConnectedNames(outs)
    decreases |outs|
  {
    if outs != [] {
      var init := outs[..|outs| - 1];
      var last := outs[|outs| - 1];
      ResolveKeys(screens, init);
      assert outs == init + [last];
      var c := ConnectedNames(init) + (if last.Some? && last.value.connected then {last.value.name} else {});
      forall n ensures n in ConnectedNames(outs) <==> n in c {
        if n in ConnectedNames(outs) {
          var i :| 0 <= i < |outs| && outs[i].Some? && outs[i].value.connected && outs[i].value.name == n;
          if i < |outs| - 1 {
            assert init[i] == outs[i];
          }
        }
        if n in ConnectedNames(init) {
          var i :| 0 <= i < |init| && init[i].Some? && init[i].value.connected && init[i].value.name == n;
          assert outs[i] == init[i];
        }
      }
    }
  }

  /** Every stored viewport carries its own key as its name. */
  lemma {:induction false} ResolveNamesMatch(screens: set<string>, outs: seq<Option<OutputInfo>>)
    ensures forall k | k in Resolve(screens, outs) :: Resolve(screens, outs)[k].name == k
    decreases |outs|
  {
    if outs != [] {
      ResolveNamesMatch(screens, outs[..|outs| - 1]);
    }
  }

  /**
   * The stored viewport for a name holds the CRTC rectangle of the last kept
   * output with that name: a repeated name overwrites.
   */
  lemma {:induction false} ResolveLastWins(screens: set<string>, outs: seq<Option<OutputInfo>>, i: nat)
    requires i < |outs| && Selected(screens, outs[i])
    requires forall j | i < j < |outs| :: !(Selected(screens, outs[j]) && outs[j].value.name == outs[i].value.name)
    ensures outs[i].value.name in Resolve(screens, outs)
    ensures Resolve(screens, outs)[outs[i].value.name] == Viewport(outs[i].value.crtc, outs[i].value.name)
    decreases |outs|
  {
    var init := outs[..|outs| - 1];
    if i < |outs| - 1 {
      forall j | i < j < |init|
        ensures !(Selected(screens, init[j]) && init[j].value.name == init[i].value.name)
      {
        assert init[j] == outs[j];
      }
      ResolveLastWins(screens, init, i);
    }
  }

  /** When no configured name is among the connected ones, no viewport is resolved. */
  lemma ResolveEmpty(screens: set<string>, outs: seq<Option<OutputInfo>>)
    requires screens * ConnectedNames(outs) == {}
    ensures Resolve(screens, outs) == map[]
  {
    ResolveKeys(screens, outs);
  }

  /** Two connected monitors, one of them configured: only that one is kept. */
  lemma TwoMonitorsOneConfigured()
    ensures Resolve({"DP-1"}, [ Some(OutputInfo("DP-1", true, Rect(0, 0, 1920, 1080))),
                                Some(OutputInfo("HDMI-1", true, Rect(1920, 0, 1920, 1080))) ])
         == map["DP-1" := Viewport(Rect(0, 0, 1920, 1080), "DP-1")]
  {
  }

  // ---------------------------------------------------------------------------
  // Request sequences and what compositors read from them

  /** What loadScreenInfo asks of the server once the viewports are resolved. */
  function AllocRequests(root: nat, pixmap: nat, width: nat, height: nat): seq<XRequest>
  {
    [ CreatePixmap(root, width, height, PixmapDepth),
      CreateGC(pixmap),
      FillRectangle(pixmap, 0, 0, width, height),
      SetWindowBackgroundPixmap(root, pixmap),
      CreateImage(PixmapDepth, width, height, 32) ]
  }

  /** What free asks of the server: the image, the GC, then the pixmap. */
  function FreeRequests(pixmap: nat): seq<XRequest>
  {
    [DestroyImage, FreeGC, FreePixmap(pixmap)]
  }

  /** A 32-bit, one-item, replace-mode write of a pixmap id to a root property. */
  function PixmapProperty(root: nat, property: string, pixmap: nat): XRequest
  {
    ChangeProperty(root, property, "PIXMAP", 32, Replace, [pixmap])
  }

  /** What updateRender asks of the server. */
  function PublishRequests(root: nat, pixmap: nat, width: nat, height: nat): seq<XRequest>
  {
    [ PutImage(pixmap, width, height),
      PixmapProperty(root, RootPmapId, pixmap),
      PixmapProperty(root, EsetrootPmapId, pixmap),
      ClearWindow(root),
      Flush ]
  }

  function ApplyMode(mode: PropMode, prev: Option<seq<nat>>, data: seq<nat>): seq<nat>
  {
    var before := if prev.Some? then prev.value else [];
    match mode
    case Replace => data
    case Prepend => data + before
    case Append => before + data
  }

  /** The value a client would read for `property` on `window` after the requests in `log`. */
  function PropertyValue(log: seq<XRequest>, window: nat, property: string): Option<seq<nat>>
    decreases |log|
  {
    if log == [] then None
    else
      var prev := PropertyValue(log[..|log| - 1], window, property);
      match log[|log| - 1]
      case ChangeProperty(w, p, _, _, mode, data) =>
        if w == window && p == property then Some(ApplyMode(mode, prev, data)) else prev
      case _ => prev
  }

  /** Requests other than ChangeProperty leave every property as it was. */
  lemma {:induction false} PropertyValueNoWrites(log: seq<XRequest>, extra: seq<XRequest>, window: nat, property: string)
    requires forall k | 0 <= k < |extra| :: !extra[k].ChangeProperty?
    ensures PropertyValue(log + extra, window, property) == PropertyValue(log, window, property)
    decreases |extra|
  {
    if extra != [] {
      var init := extra[..|extra| - 1];
      assert (log + extra)[..|log + extra| - 1] == log + init;
      assert (log + extra)[|log + extra| - 1] == extra[|extra| - 1];
      PropertyValueNoWrites(log, init, window, property);
    } else {
      assert log + extra == log;
    }
  }

  /**
   * After updateRender's requests both root properties hold exactly the pixmap
   * id, whatever was written before; every other property is untouched.
   */
  lemma PublishAdvertises(log: seq<XRequest>, root: nat, pixmap: nat, width: nat, height: nat)
    ensures PropertyValue(log + PublishRequests(root, pixmap, width, height), root, RootPmapId) == Some([pixmap])
    ensures PropertyValue(log + PublishRequests(root, pixmap, width, height), root, EsetrootPmapId) == Some([pixmap])
    ensures forall w, p | !(w == root && (p == RootPmapId || p == EsetrootPmapId)) ::
      PropertyValue(log + PublishRequests(root, pixmap, width, height), w, p) == PropertyValue(log, w, p)
  {
    var pub := PublishRequests(root, pixmap, width, height);
    var l1, l2, l3, l4, l5 := log + pub[..1], log + pub[..2], log + pub[..3], log + pub[..4], log + pub;
    assert l5[..|l5| - 1] == l4 && l5[|l5| - 1] == Flush;
    assert l4[..|l4| - 1] == l3 && l4[|l4| - 1] == ClearWindow(root);
    assert l3[..|l3| - 1] == l2 && l3[|l3| - 1] == PixmapProperty(root, EsetrootPmapId, pixmap);
    assert l2[..|l2| - 1] == l1 && l2[|l2| - 1] == PixmapProperty(root, RootPmapId, pixmap);
    assert l1[..|l1| - 1] == log && l1[|l1| - 1] == PutImage(pixmap, width, height);
    assert |RootPmapId| != |EsetrootPmapId|;
    forall w, p
      ensures PropertyValue(l5, w, p) == PropertyValue(l3, w, p)
      ensures PropertyValue(l1, w, p) == PropertyValue(log, w, p)
      ensures !(w == root && (p == RootPmapId || p == EsetrootPmapId)) ==> PropertyValue(l3, w, p) == PropertyValue(l1, w, p)
    {
      assert PropertyValue(l5, w, p) == PropertyValue(l4, w, p);
    }
    assert PropertyValue(l2, root, RootPmapId) == Some([pixmap]);
    assert PropertyValue(l3, root, RootPmapId) == Some([pixmap]);
    assert PropertyValue(l3, root, EsetrootPmapId) == Some([pixmap]);
  }

  /** Allocation and release write no property. */
  lemma AllocFreeWriteNoProperty(log: seq<XRequest>, root: nat, pixmap: nat, width: nat, height: nat, window: nat, property: string)
    ensures PropertyValue(log + AllocRequests(root, pixmap, width, height), window, property) == PropertyValue(log, window, property)
    ensures PropertyValue(log + FreeRequests(pixmap), window, property) == PropertyValue(log, window, property)
  {
    PropertyValueNoWrites(log, AllocRequests(root, pixmap, width, height), window, property);
    PropertyValueNoWrites(log, FreeRequests(pixmap), window, property);
  }

  // ---------------------------------------------------------------------------
  // CX11Output

  class X11Output {
    /** The configured screen names (the keys of the context's screenSettings). */
    const screenSettings: set<string>

    var displayOpen: bool
    var viewports: map<string, Viewport>
    var root: nat
    var fullWidth: nat
    var fullHeight: nat
    var pixmap: nat
    var imageData: array?<bv8>
    /** The pixmap, GC, image and pixel buffer are live (created and not yet released). */
    var live: bool
    /** Resource groups lost because loadScreenInfo allocated over live ones. */
    ghost var leaked: nat
    /** Every Xlib request issued, in order. */
    var xlog: seq<XRequest>
    /** Every call of the driver's resizeWindow, in order. */
    var resizeLog: seq<Size>

    ghost predicate Valid()
      reads this
    {
      live ==> imageData != null
    }

    /** CX11Output::CX11Output: open the display, then loadScreenInfo. */
    constructor (screens: set<string>, srv: XServer)
      ensures Valid()
      ensures screenSettings == screens && displayOpen
      ensures viewports == ExpectedViewports(screens, srv)
      ensures live == Loads(srv) && leaked == 0
      ensures Loads(srv) ==> fresh(imageData) && imageData.Length == srv.width * srv.height * BytesPerPixel
      ensures Loads(srv) ==> pixmap == srv.newPixmap
      ensures srv.hasRandr ==> root == srv.root && fullWidth == srv.width && fullHeight == srv.height
      ensures xlog == [OpenDisplay] + (if Loads(srv) then AllocRequests(srv.root, srv.newPixmap, srv.width, srv.height) else [])
      ensures resizeLog == (if Loads(srv) then [Size(srv.width, srv.height)] else [])
    {
      screenSettings := screens;
      displayOpen := true;
      viewports := map[];
      root, fullWidth, fullHeight, pixmap := 0, 0, 0, 0;
      imageData := null;
      live := false;
      leaked := 0;
      xlog := [OpenDisplay];
      resizeLog := [];
      new;
      LoadScreenInfo(srv);
    }

    /** CX11Output::~CX11Output: free, then close the display. */
    method Destroy()
      requires Valid() && live && displayOpen
      modifies this`live, this`xlog, this`displayOpen
      ensures Valid() && !live && !displayOpen
      ensures xlog == old(xlog) + FreeRequests(pixmap) + [CloseDisplay]
    {
      Free();
      xlog := xlog + [CloseDisplay];
      displayOpen := false;
    }

    /**
     * CX11Output::free. Releases the four resources unconditionally and keeps
     * the stale handles, so it is only sound while they are live.
     */
    method Free()
      requires Valid() && live
      modifies this`live, this`xlog
      ensures Valid() && !live
      ensures xlog == old(xlog) + FreeRequests(pixmap)
    {
      xlog := xlog + FreeRequests(pixmap);
      live := false;
    }

    /** CX11Output::reset: free, then loadScreenInfo against the current display. */
    method Reset(srv: XServer)
      requires Valid() && live
      modifies this
      ensures Valid()
      ensures displayOpen == old(displayOpen)
      ensures viewports == ExpectedViewports(screenSettings, srv)
      ensures live == Loads(srv) && leaked == old(leaked)
      ensures Loads(srv) ==> fresh(imageData) && imageData.Length == srv.width * srv.height * BytesPerPixel
      ensures Loads(srv) ==> pixmap == srv.newPixmap
      ensures srv.hasRandr ==> root == srv.root && fullWidth == srv.width && fullHeight == srv.height
      ensures !srv.hasRandr ==> root == old(root) && fullWidth == old(fullWidth) && fullHeight == old(fullHeight)
      ensures !Loads(srv) ==> pixmap == old(pixmap) && imageData == old(imageData)
      ensures xlog == old(xlog) + FreeRequests(old(pixmap))
                 + (if Loads(srv) then AllocRequests(srv.root, srv.newPixmap, srv.width, srv.height) else [])
      ensures resizeLog == old(resizeLog) + (if Loads(srv) then [Size(srv.width, srv.height)] else [])
    {
      Free();
      LoadScreenInfo(srv);
    }

    /** CX11Output::getImageBuffer: the buffer pointer as stored, stale after free. */
    method GetImageBuffer() returns (r: array?<bv8>)
      requires Valid()
      ensures r == imageData
      ensures live ==> r != null
    {
      r := imageData;
    }

    /** CX11Output::renderVFlip */
    method RenderVFlip() returns (r: bool)
      ensures !r
    {
      r := false;
    }

    /** CX11Output::renderMultiple: more than one viewport is active. */
    method RenderMultiple() returns (r: bool)
      ensures r <==> |viewports| > 1
    {
      r := |viewports| > 1;
    }

    /** CX11Output::haveImageBuffer: constantly true, live or not. */
    method HaveImageBuffer() returns (r: bool)
      ensures r
    {
      r := true;
    }

    /**
     * CX11Output::loadScreenInfo. Clears the viewports; returns early, with
     * nothing live, when XRandr is missing or the screen resources cannot
     * be fetched; otherwise keeps the connected configured outputs and
     * allocates the pixmap, GC, buffer and image for the full default screen.
     */
    method LoadScreenInfo(srv: XServer)
      requires Valid()
      modifies this
      ensures Valid()
      ensures displayOpen == old(displayOpen)
      ensures viewports == ExpectedViewports(screenSettings, srv)
      ensures srv.hasRandr ==> root == srv.root && fullWidth == srv.width && fullHeight == srv.height
      ensures !srv.hasRandr ==> root == old(root) && fullWidth == old(fullWidth) && fullHeight == old(fullHeight)
      ensures Loads(srv) ==>
        && live && pixmap == srv.newPixmap
        && fresh(imageData) && imageData.Length == srv.width * srv.height * BytesPerPixel
        && xlog == old(xlog) + AllocRequests(srv.root, srv.newPixmap, srv.width, srv.height)
        && resizeLog == old(resizeLog) + [Size(srv.width, srv.height)]
        && leaked == old(leaked) + (if old(live) then 1 else 0)
      ensures !Loads(srv) ==>
        && live == old(live) && pixmap == old(pixmap) && imageData == old(imageData)
        && xlog == old(xlog) && resizeLog == old(resizeLog) && leaked == old(leaked)
    {
      viewports := map[];
      if !srv.hasRandr {
        return;
      }
      root := srv.root;
      fullWidth := srv.width;
      fullHeight := srv.height;
      if srv.outputs.None? {
        return;
      }
      var outs := srv.outputs.value;
      var i := 0;
      while i < |outs|
        modifies this`viewports
        invariant 0 <= i <= |outs|
        invariant viewports == Resolve(screenSettings, outs[..i])
      {
        assert outs[..i + 1][..i] == outs[..i];
        var info := outs[i];
        if info.None? || !info.value.connected {
          i := i + 1;
          continue;
        }
        if info.value.name !in screenSettings {
          i := i + 1;
          continue;
        }
        viewports := viewports[info.value.name := Viewport(info.value.crtc, info.value.name)];
        i := i + 1;
      }
      assert outs[..i] == outs;

      pixmap := srv.newPixmap;
      xlog := xlog + AllocRequests(root, pixmap, fullWidth, fullHeight);
      imageData := new bv8[fullWidth * fullHeight * BytesPerPixel];
      if live {
        leaked := leaked + 1;
      }
      live := true;
      resizeLog := resizeLog + [Size(fullWidth, fullHeight)];
    }

    /**
     * CX11Output::updateRender: put the image into the pixmap, advertise the
     * pixmap through both root properties, clear the root window and flush.
     */
    method UpdateRender()
      requires Valid() && live
      modifies this`xlog
      ensures xlog == old(xlog) + PublishRequests(root, pixmap, fullWidth, fullHeight)
      ensures PropertyValue(xlog, root, RootPmapId) == Some([pixmap])
      ensures PropertyValue(xlog, root, EsetrootPmapId) == Some([pixmap])
    {
      PublishAdvertises(xlog, root, pixmap, fullWidth, fullHeight);
      xlog := xlog + PublishRequests(root, pixmap, fullWidth, fullHeight);
    }
  }

  /**
   * A reset against an unchanged display rebuilds the same viewports and a
   * buffer of the same size, and can be repeated.
   */
  method ResetCycle(screens: set<string>, srv: XServer)
    returns (before: map<string, Viewport>, after: map<string, Viewport>, firstLen: nat, secondLen: nat)
    requires Loads(srv)
    ensures before == after == Resolve(screens, srv.outputs.value)
    ensures firstLen == secondLen == srv.width * srv.height * BytesPerPixel
  {
    var out := new X11Output(screens, srv);
    before := out.viewports;
    firstLen := out.imageData.Length;
    out.Reset(srv);
    out.Reset(srv);
    after := out.viewports;
    secondLen := out.imageData.Length;
  }
}
