# linux-wallpaperengine: X11 output and particle initializer dispatch, in Dafny

This project models two parts of linux-wallpaperengine and proves properties of them.

- **`Output`** (`x11_output.dfy`) models `CX11Output`. This is the X11 backend that draws the wallpaper onto the root window.
  - `loadScreenInfo` is modelled. It resolves the configured screen names against the outputs XRandr reports. The result is a viewport map. It also allocates a pixmap, a GC, a pixel buffer and an image, each spanning the whole default screen.
  - `free`, `reset`, the constructor and the destructor are modelled. Together they form the allocate/release cycle.
  - `updateRender` is modelled. It publishes a frame and advertises the pixmap through the `_XROOTPMAP_ID` and `ESETROOT_PMAP_ID` root-window properties.
  - The four read-only queries are modelled.
  - The class is imperative. It keeps the source's fields that matter: the viewports, root window, screen size, pixmap and buffer pointer. A single `live` flag stands for the pixmap/GC/image/buffer group, and `displayOpen` stands for the display connection. `loadScreenInfo` keeps its loop over the outputs.
  - The X server is an input value, `XServer`. It records whether XRandr is present, the default root window and screen size, and the outputs (or null). It also holds the id the next `XCreatePixmap` returns.
  - Every resource, drawing and property request the output issues goes into a request log, `xlog`. Every call of the driver's `resizeWindow` goes into `resizeLog`. The queries and bookkeeping calls that are not logged are listed under "## Left out".
  - `PropertyValue` plays the part of the compositor. It reads a root property back from the request log.
- **`Particles`** (`particles.dfy`) models `CInitializer::fromJSON`, the `CInitializer` constructor and its two getters.
  - A JSON object is a map from keys to a small JSON value type.
  - The result is a `Result<Initializer, Error>`.
- **`Wrappers`** (`wrappers.dfy`) holds `Option` and `Result`.

## Where the code differs from the intended behaviour (the model follows the code)

- **Enumeration unavailable.** This is the case where XRandr is missing or `XRRGetScreenResources` returns null.
  - The log messages at lines 111 and 122 say the program then runs in window mode, so no wallpaper surface is set up.
  - The output returns early. It allocates nothing and never calls `resizeWindow`, and its viewport map is left empty.
  - `LoadScreenInfo` states this.
- **Releasing twice.** A reset cycle is meant to be safely repeatable.
  - The code's `free` is unguarded and never clears its handles.
  - So `Free`, `Reset`, `Destroy` and `UpdateRender` all require the resources to be live.
  - `Reset` ends with `live == Loads(srv)`. After a reset whose reload returned early, a second reset is therefore outside its precondition. In the source, that second reset frees already-freed handles.
- **`haveImageBuffer`.** It is constantly `true`, whether or not the resources are live.
- **Id before name.** In `fromJSON` the `"id"` value is converted (line 17) before the `"name"` check (line 19).
  - An object with a non-numeric id therefore fails with the JSON library's type error, even when it has no name.
  - The `"Particle's initializer must have a name"` error comes only when the id converts.
  - The conversion accepts booleans (as 0 and 1).
  - It wraps integers modulo 2^32.

## Model

| member | source | states |
|---|---|---|
| `Output.ResolveKeys` | src/WallpaperEngine/Render/Drivers/Output/CX11Output.cpp:126-136 | the viewport map's key set is exactly the configured names intersected with the names of the non-null, connected outputs |
| `Output.ResolveNamesMatch` | src/WallpaperEngine/Render/Drivers/Output/CX11Output.cpp:142-146 | every stored viewport's name field equals its map key |
| `Output.ResolveLastWins` | src/WallpaperEngine/Render/Drivers/Output/CX11Output.cpp:138-146 | the viewport stored for a name holds the CRTC rectangle of the last kept output with that name (a repeated name overwrites) |
| `Output.ResolveEmpty` | src/WallpaperEngine/Render/Drivers/Output/CX11Output.cpp:126-146 | when no configured name is among the connected ones (including names configured and outputs connected with none matching), the map is empty, although enumeration succeeded |
| `Output.TwoMonitorsOneConfigured` | src/WallpaperEngine/Render/Drivers/Output/CX11Output.cpp:126-146 | with DP-1 and HDMI-1 connected and only DP-1 configured, the map holds DP-1 alone, with its CRTC rectangle |
| `Output.PublishAdvertises` | src/WallpaperEngine/Render/Drivers/Output/CX11Output.cpp:176-179 | after updateRender's requests, both root properties read back as exactly the current pixmap id, whatever was written before (32-bit, one item, replace mode); no other property changes |
| `Output.AllocFreeWriteNoProperty` | src/WallpaperEngine/Render/Drivers/Output/CX11Output.cpp:153-163 | allocating and freeing the resources write no window property |
| `Output.X11Output.LoadScreenInfo` | src/WallpaperEngine/Render/Drivers/Output/CX11Output.cpp:95-166 | the map is rebuilt from empty. With XRandr missing: size and root unchanged, nothing allocated, no logged request, no resize. With resources null: size and root taken from the default screen, nothing allocated. Otherwise: the map is the resolved one, the size comes from the default screen whatever matched, the buffer has exactly width*height*4 bytes, the pixmap/GC/fill/background/image requests are issued in order, and resizeWindow is called exactly once with the full size |
| `Output.X11Output.Free` | src/WallpaperEngine/Render/Drivers/Output/CX11Output.cpp:66-73 | requires live resources; destroys the image, GC and pixmap in that order; leaves the handles and buffer pointer as they were |
| `Output.X11Output.Reset` | src/WallpaperEngine/Render/Drivers/Output/CX11Output.cpp:58-64 | free then loadScreenInfo: the new map depends only on the current topology and configuration; the resources are live exactly when the reload gets past both early returns, and otherwise the stale pixmap and buffer pointer, and (without XRandr) the root and screen size, are kept; no pixmap/GC/image/buffer group is lost |
| `Output.ResetCycle` | src/WallpaperEngine/Render/Drivers/Output/CX11Output.cpp:58-64 | construct-then-reset-twice against an unchanged display rebuilds the same viewport map and a buffer of the same size |
| `Output.X11Output.constructor` | src/WallpaperEngine/Render/Drivers/Output/CX11Output.cpp:45-51 | opens the display, then behaves as loadScreenInfo from an empty state |
| `Output.X11Output.Destroy` | src/WallpaperEngine/Render/Drivers/Output/CX11Output.cpp:52-56 | frees the resources (which must be live), then closes the display |
| `Output.X11Output.UpdateRender` | src/WallpaperEngine/Render/Drivers/Output/CX11Output.cpp:168-183 | puts the image, writes both root properties with the current pixmap id on every call, clears the root window and flushes; changes nothing but the request log |
| `Output.X11Output.GetImageBuffer` | src/WallpaperEngine/Render/Drivers/Output/CX11Output.cpp:75-78 | returns the stored buffer pointer, non-null while the resources are live and unchanged (stale) after free |
| `Output.X11Output.RenderVFlip` | src/WallpaperEngine/Render/Drivers/Output/CX11Output.cpp:80-83 | always false; changes no state |
| `Output.X11Output.RenderMultiple` | src/WallpaperEngine/Render/Drivers/Output/CX11Output.cpp:85-88 | true exactly when more than one viewport is stored; changes no state |
| `Output.X11Output.HaveImageBuffer` | src/WallpaperEngine/Render/Drivers/Output/CX11Output.cpp:90-93 | always true; changes no state |
| `Particles.FromJson` | WallpaperEngine/Core/Objects/Particles/CInitializer.cpp:13-56 | a produced initializer has a "name" that selects its kind, carries the extracted id, and is what the selected kind's sub-parser builds from the object and that id |
| `Particles.FromJsonSucceedsIff` | WallpaperEngine/Core/Objects/Particles/CInitializer.cpp:13-56 | fromJSON yields an initializer exactly when the id converts and "name" is one of the seven strings |
| `Particles.FromJsonErrors` | WallpaperEngine/Core/Objects/Particles/CInitializer.cpp:15-55 | the error follows the order of the checks: id conversion failure, then missing name, then unknown name |
| `Particles.FromJsonNeedsName` | WallpaperEngine/Core/Objects/Particles/CInitializer.cpp:19-22 | without "name" no kind is ever produced; with no "id" either, the message is "Particle's initializer must have a name" |
| `Particles.FromJsonNonStringName` | WallpaperEngine/Core/Objects/Particles/CInitializer.cpp:52-55 | a non-string name yields "Particle's got an unknown initializer" |
| `Particles.FromJsonRoundTrip` | WallpaperEngine/Core/Objects/Particles/CInitializer.cpp:15-51 | an object naming a kind, with an in-range id or none, yields that kind, that id (0 when absent) and that name, whatever other keys it holds |
| `Particles.ReadId` | WallpaperEngine/Core/Objects/Particles/CInitializer.cpp:15-17 | the id is the converted "id" value when present and 0 when absent |
| `Particles.ToU32` | WallpaperEngine/Core/Objects/Particles/CInitializer.cpp:17 | the u32 cast succeeds exactly for numbers and booleans, agrees with the number modulo 2^32, and otherwise raises the type error |
| `Particles.ToU32InRange` | WallpaperEngine/Core/Objects/Particles/CInitializer.cpp:17 | an id already in u32 range is kept unchanged |
| `Particles.ToU32Wraps` | WallpaperEngine/Core/Objects/Particles/CInitializer.cpp:17 | ids that differ by a multiple of 2^32 convert to the same value |
| `Particles.KindOfTag` | WallpaperEngine/Core/Objects/Particles/CInitializer.cpp:24-51 | each of the seven names selects its own kind |
| `Particles.KindOfOnlyTags` | WallpaperEngine/Core/Objects/Particles/CInitializer.cpp:24-55 | a value selects a kind exactly when it is one of the seven strings, and then it selects the kind that string names |
| `Particles.TagInjective` | WallpaperEngine/Core/Objects/Particles/CInitializer.cpp:24-51 | distinct kinds have distinct names (the table is one-to-one) |
| `Particles.Message` | WallpaperEngine/Core/Objects/Particles/CInitializer.cpp:19-55 | the two thrown messages, each belonging to exactly one error |
| `Particles.GettersReturnFields` | WallpaperEngine/Core/Objects/Particles/CInitializer.cpp:59-74 | getId and getName return the values given to the constructor |

## Left out

- Xlib, XRandr and the video driver are not executed. The display, its outputs and the new pixmap id are inputs. The requests are log entries.
  - Client-side effects are not modelled. For example, XDestroyImage also frees the image's data, which `free` then deletes again.
  - A null display from XOpenDisplay and a null CRTC for a connected output are not modelled.
  - Some calls go unlogged: the queries XRRQueryExtension, XRRGetScreenResources, XRRGetOutputInfo and XRRGetCrtcInfo, which are the `XServer` input; XRRFreeCrtcInfo and XRRFreeScreenResources; and XInternAtom. The handler installation with XSetErrorHandler and XSetIOErrorHandler is also unlogged. "No logged request" means none of the logged kinds.
  - The XRROutputInfo from each XRRGetOutputInfo is never freed by the source (no XRRFreeOutputInfo), so every load leaks one per output. The ghost `leaked` counter tracks only pixmap/GC/image/buffer groups.
  - The GC, the XImage, the display handle and the driver reference are not separate fields. `live`, `displayOpen` and `resizeLog` stand for them.
- The error handlers are left out: `originalErrorHandler`, `CustomXErrorHandler`, `CustomXIOErrorHandler` and `CustomXIOErrorExitHandler`.
  - So is their installation inside `loadScreenInfo`. Xlib invokes them asynchronously.
  - The exit handler only calls `reset`, which is modelled.
- Logging and the conditionally compiled code are left out.
- The pixel contents are not modelled. The buffer is zero-filled on allocation, where the source leaves it uninitialised.
- Output.X11Output.LoadScreenInfo: the buffer size `fullWidth * fullHeight * 4` is exact arithmetic. The source's `int` overflow for huge screens is not modelled.
- The `Initializers::*::fromJSON` sub-parsers are not part of this model.
  - `Construct` stands in for them. It yields the kind, the id it receives and the kind's name.
  - It ignores the other keys they read, and the exceptions they may throw.
- JSON floating-point ids are not modelled. Neither is a `data` value that is not an object.
- The exact text of the JSON library's type error is not modelled.
- The class and image headers, and the file-system loader, hold declarations only. They are not part of this model.
