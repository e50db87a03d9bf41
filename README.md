# sogl core, modelled in Dafny

sogl is a small C++ wrapper over GLFW, OpenGL, FreeType and HarfBuzz. This
project models the parts of it that are sequential logic rather than calls into
those libraries, with every native call replaced by the value it returns or by
a record of the request it makes:

- **Windowing** (`window.dfy`): the window's event queue. Backend callbacks push
  events at the back; key and mouse-button callbacks keep only presses and
  releases; the size callback queues a `Resize` and updates the size in the
  same step. `nextEvent` pops from the back, so the queue is last-in-first-out.
  `display` drops whatever is still queued before polling. A process-wide
  instance count decides when the backend is initialised and terminated.
  `keyToGlfw` maps keys to GLFW key codes.
- **Events** (`events.dfy`): building an `Event` from a variant tag and a flat
  integer argument list (fixed positions per variant, file paths copied for a
  drop), `as<T>`, and `keyFromGlfw`, the inverse of `keyToGlfw`. The GLFW key
  codes are GLFW's published values (`glfw_codes.dfy`).
- **Inputs** (`inputs.dfy`): the `Key` and `MouseButton` enumerations and their
  printed names, `Key<Name>` and `MouseButton<Name>`, with `Unknown` as the
  fallback.
- **Fonts** (`font.dfy`): the glyph atlas of `Font::getGlyph`. There is one page
  per pixel size, created on first use with a texture side of
  `min(11 * size, maximum)`. A glyph is rendered once and placed at the page's
  cursor. Its bitmap is uploaded as RGBA. The cursor then advances and wraps to
  a new row. `setPixelSize` tells the backend only about changes.
- **GlObjects** (`gl_object.dfy`): the move-only handle owner `GlObject`.
- **Shaders** (`shader.dfy`): compile-failure handling, the `handle != 0`
  guards of `Program`, the decision order of `linkAndValidate`, and the memo of
  uniform locations.

Some behaviours of the code that the model keeps as they are:

- `nextEvent` takes the event at the back of the queue and pops it
  (src/Window.cpp:127-128), so it returns the most recently queued event
  first.
- When a shader fails to compile, `destroy` deletes its name, but the object
  still holds that non-zero name (src/Shader.cpp:52-58).
- A pixel size of 16 is taken as already set when a font is made
  (include/sogl/Font.hpp:60), but the face is never told. A first glyph
  requested at 16 is loaded on a face with no size set.
- The `Event` alternatives are the eight that src/Event.cpp builds
  (KeyPress, KeyRelease, MousePress, MouseRelease, MouseMove, Scroll, Resize,
  Drop). The variant list in include/sogl/Event.hpp is out of date.
- `Shader` follows src/Shader.cpp (a `Program` object and a geometry stage),
  not the out-of-date include/sogl/Shader.hpp.

What the backends do is given as inputs:

- the GLFW callbacks that fire during a poll, as a list of `Callback`s;
- what FreeType renders a codepoint to at a size, as the font's `render`
  function;
- the maximum texture size;
- the names `glCreateShader` and `glCreateProgram` return;
- the compile, link and validate statuses;
- what `glGetUniformLocation` reports, as the shader's `locate` function.

Deletions requested from OpenGL, FreeType pixel-size changes, glyph loads and
the face size in effect at each load are recorded as sequences, so "at most once" and "only when" can be stated.

## Model

| member | source | states |
|---|---|---|
| Inputs.KeyToString | src/Inputs.cpp:23-262 | a key with no name of its own (`Unknown` or a value outside the enumerators) prints "Unknown" |
| Inputs.KeyToStringSpelling | src/Inputs.cpp:23-262 | every named key prints as its own enumerator spelling: an independent name-to-key reading of the printed name gives the key back; "Unknown" is the name of no key |
| Inputs.KeyToStringUnknown | src/Inputs.cpp:259-260 | a key prints as "Unknown" exactly when it has no name of its own: `Key::Unknown` or a value outside the enumerators |
| Inputs.KeyToStringInjective | src/Inputs.cpp:25-260 | two keys with the same name are the same key, unless neither has a name of its own |
| Inputs.KeyTextInjective | src/Inputs.cpp:12-15 | `os << key` writes "Key<", the name, then ">", and distinct named keys print differently |
| Inputs.MouseButtonToString | src/Inputs.cpp:264-285 | a button prints "Unknown" exactly when it has no case of its own |
| Inputs.KeyText | src/Inputs.cpp:12-15 | the text is "Key<", then the key's name, then ">", and the name can be read back out of it |
| Inputs.MouseButtonText | src/Inputs.cpp:17-20 | the text is "MouseButton<", then the button's name, then ">", and the name can be read back out of it |
| Inputs.MouseButtonToStringNames | src/Inputs.cpp:264-285 | a button prints "Unknown" exactly when it is not one of Left, Middle, Right, Extra1-Extra5; those eight have distinct names |
| Inputs.MouseButtonTextInjective | src/Inputs.cpp:17-20 | `os << button` writes "MouseButton<", the name, then ">", and distinct named buttons print differently |
| Events.FromArgs | src/Event.cpp:24-74 | the built event holds the alternative whose tag was passed in |
| Events.FromArgsKeepsOnlyItsPositions | src/Event.cpp:25-65 | key events keep args 0, 1, 3; button events keep args 0, 2; move, scroll and resize keep args 0, 1; the action is dropped, so changing it changes nothing |
| Events.AsFromArgs | include/sogl/Event.hpp:25-31 | `as<T>` yields the payload exactly when the event holds alternative T |
| Events.Construct | src/Event.cpp:24-74 | the built event equals `FromArgs`; for a drop, the file list has `count` entries and entry i is `paths[i]` (the copy loop) |
| Events.KeyFromGlfw | src/Event.cpp:77-324 | every code decodes to one of the `Key` enumerators |
| Windowing.KeyToGlfw | src/Window.cpp:168-409 | a key maps to `GLFW_KEY_UNKNOWN` exactly when it has no name of its own; a named key gets a code between `GLFW_KEY_SPACE` and `GLFW_KEY_RIGHT_SUPER` |
| Windowing.KeyCodeRoundTrip | src/Window.cpp:168-409 | `keyFromGlfw(keyToGlfw(k)) == k` for every enumerator; a value outside the enumerators maps to `GLFW_KEY_UNKNOWN` |
| Windowing.KeyCodeReverseRoundTrip | src/Event.cpp:77-324 | a code that decodes to a named key is that key's code |
| Windowing.KeyFromGlfwUnknown | src/Event.cpp:77-324 | a code decodes to `Unknown` exactly when no named key has it |
| Windowing.KeyFromGlfwUnlisted | src/Event.cpp:177-180 | `GLFW_KEY_UNKNOWN`, WORLD_1, WORLD_2 and MENU decode to `Unknown` |
| Windowing.KeyToGlfwInjective | src/Window.cpp:168-409 | distinct named keys have distinct codes, and exactly the keys with no name of their own map to `GLFW_KEY_UNKNOWN` |
| Windowing.Emitted | src/Window.cpp:45-75 | a callback queues at most one event, and none exactly when it is a key or button callback whose action is neither press nor release |
| Windowing.EmittedByAction | src/Window.cpp:45-75 | key and button callbacks queue one press (release) event for a press (release) and nothing for any other action; every other callback queues exactly one event of its own kind |
| Windowing.EmittedAllAppend | src/Window.cpp:45-75 | the events of two runs of callbacks are the first run's followed by the second's: queue order is arrival order |
| Windowing.Pop | src/Window.cpp:123-131 | on an empty queue: no event and an empty queue; otherwise an event which, pushed back onto the remaining queue, gives the queue back |
| Windowing.DrainReverses | src/Window.cpp:123-131 | popping until empty returns every queued event, newest first |
| Windowing.Constructed | src/Window.cpp:26-101 | a construction counts one more window, initialises the backend exactly when none existed, and keeps the backend balanced |
| Windowing.Destructed | src/Window.cpp:103-109 | a destruction counts one fewer window, terminates the backend exactly when the count reaches 0, and keeps a balanced backend with a live window balanced |
| Windowing.RunStaysBalanced | src/Window.cpp:84-109 | over any run of constructions and destructions that never destroys more windows than exist, the backend is initialised only when the count leaves 0 and terminated only when it returns to 0; it is up exactly while a window exists |
| Windowing.StartRunBalanced | src/Window.cpp:24-30 | from program start (count 0, never initialised) the same holds, and the count equals the number of live windows |
| Windowing.Glfw.constructor | src/Window.cpp:24 | the instance count starts at 0 with no init or terminate |
| Windowing.Window.constructor | src/Window.cpp:26-101 | initialises the backend iff no window exists, counts the window, sets the size; the queue is exactly `[Resize(width, height)]` for the first window and empty otherwise |
| Windowing.Window.Destroy | src/Window.cpp:103-109 | uncounts the window and terminates the backend iff the count reaches 0 |
| Windowing.Window.OnKey | src/Window.cpp:45-50 | appends a KeyPress or KeyRelease for a press or a release, nothing otherwise; earlier entries unchanged |
| Windowing.Window.OnMouseButton | src/Window.cpp:52-57 | appends a MousePress or MouseRelease for a press or a release, nothing otherwise |
| Windowing.Window.OnCursorPos | src/Window.cpp:59-61 | appends one `MouseMove(x, y)` at the back |
| Windowing.Window.OnScroll | src/Window.cpp:63-65 | appends one `Scroll(dx, dy)` at the back |
| Windowing.Window.OnWindowSize | src/Window.cpp:67-71 | appends `Resize(w, h)` and sets the size to (w, h) in the same step |
| Windowing.Window.OnDrop | src/Window.cpp:73-75 | appends one `Drop` holding the first `count` paths |
| Windowing.Window.Dispatch | src/Window.cpp:77-82 | a callback the backend fires appends exactly its events and updates the size only on a resize |
| Windowing.Window.NextEvent | src/Window.cpp:123-131 | on an empty queue: none, queue unchanged; otherwise the last event, and the queue loses exactly that event |
| Windowing.Window.Display | src/Window.cpp:156-159 | afterwards the queue holds exactly the events of this poll, in arrival order; events not pulled before are dropped |
| Windowing.Window.DrainEvents | examples/02_events.cpp:13 | the host loop receives the whole queue newest first and leaves it empty |
| Fonts.NewPage | src/Font.cpp:78-86 | a new page has no glyphs, no uploads, cursor (0, 0) and texture extent `min(11 * size, max)` on each axis |
| Fonts.Rgba | src/Font.cpp:108-115 | the upload buffer has 4 bytes per pixel: bytes 4i..4i+2 are 0xff and byte 4i+3 is the coverage byte i |
| Fonts.ExpandToRgba | src/Font.cpp:107-115 | the expansion loop builds exactly that buffer |
| Fonts.AddGlyph | src/Font.cpp:93-129 | the miss path builds the glyph and the page that `PlacedGlyph` and `Place` describe |
| Fonts.Advanced | src/Font.cpp:125-129 | the cursor moves right by the glyph's width on its row, or to the start of the row `size` lower; it is then at a row start or `size` columns before the texture's edge |
| Fonts.Place | src/Font.cpp:97-129 | a miss adds exactly the placed glyph to the page, keeps the texture extent and adds one upload |
| Fonts.PlaceEffect | src/Font.cpp:101-129 | on a miss the glyph sits at the old cursor with the bitmap's (width, rows); other glyphs are unchanged; one 4*w*h-byte upload goes to the old cursor; the cursor moves right by the width, or to (0, y + size) when x + width + size reaches the texture width |
| Fonts.PlaceKeepsPacked | src/Font.cpp:101-129 | placing keeps every glyph behind the cursor and glyphs of one row disjoint, for any positive size |
| Fonts.PlaceStaysInWidth | src/Font.cpp:125-129 | glyphs stay inside the texture horizontally as long as no glyph is wider than `size` or the texture |
| Fonts.WideGlyphCrossesEdge | src/Font.cpp:126-129 | the wrap test looks at `size`, not the next glyph's width: a glyph wider than `size` can be placed across the right edge |
| Fonts.Request | src/Font.cpp:73-131 | the backend renders exactly when the glyph is not cached at that size; afterwards there is a page for that size and for every size before |
| Fonts.RequestCaches | src/Font.cpp:88-131 | after a request the glyph is cached under its size and returned; the backend renders only on a miss; other pages are untouched; cached glyphs keep their entries; a hit returns the cached entry and changes no page at all |
| Fonts.RequestAgainHits | src/Font.cpp:88-92 | a repeated request is a hit: same glyph, nothing rendered, cache unchanged |
| Fonts.RequestKeepsValid | src/Font.cpp:73-131 | a request keeps the cache invariant: pages packed, each (codepoint, size) rendered once and exactly when cached, cached extents equal what the backend rendered |
| Fonts.Font.constructor | include/sogl/Font.hpp:58-61 | no pages, last size 16, nothing asked of the backend, no size on the face |
| Fonts.Font.SetPixelSize | src/Font.cpp:181-187 | the backend is told only when the size differs from the last one, and only then does the face size change; afterwards the last size is `size` |
| Fonts.RequestKeepsFaceValid | src/Font.cpp:73-94 | setting the size and then loading keeps the face-size invariant: every load is at its requested size, except a load at 16 before any size was set |
| Fonts.Font.GetGlyph | src/Font.cpp:73-133 | sets the pixel size, then does exactly what `Request` describes, recording one load (and the face size at that load) iff it rendered; keeps the cache invariant and the face-size invariant |
| Fonts.Font.CacheGlyph | src/Font.cpp:78-131 | the page work of `getGlyph`: exactly the pages and glyph `Request` describes, one load (with the current face size) recorded iff it rendered |
| Fonts.FirstGlyphAtDefaultSize | src/Font.cpp:73-94 | a fresh font asked for a glyph at 16 sets no size and loads the glyph on a face with no size |
| Fonts.Font.GetGlyphTwice | src/Font.cpp:88-92 | two requests for one glyph return the same glyph with at most one render |
| GlObjects.GlObject.constructor | include/sogl/GlObject.hpp:15 | a default object owns nothing (handle 0) |
| GlObjects.GlObject.Moved | include/sogl/GlObject.hpp:8 | the new object takes the source's handle and the source's becomes 0 |
| GlObjects.GlObject.MoveAssign | include/sogl/GlObject.hpp:10 | the destination's handle is overwritten by the source's, the source's becomes 0; self-assignment leaves 0 |
| GlObjects.GlObject.GetHandle | include/sogl/GlObject.hpp:13 | returns the other object's handle, changing nothing |
| GlObjects.MoveWithinGroup | include/sogl/GlObject.hpp:8-10 | moves keep a group of objects free of two owners of one non-zero name |
| Shaders.CompiledShaderObject.constructor | src/Shader.cpp:50-79 | holds the created name; deletes it (if non-zero) exactly when compilation failed, and keeps holding it |
| Shaders.CompiledShaderObject.Destroy | src/Shader.cpp:57-59 | deletes only a non-zero name, and leaves the handle as it was |
| Shaders.Program.constructor | include/sogl/GlObject.hpp:15 | a program starts with handle 0 |
| Shaders.Program.Create | src/Shader.cpp:85-139 | deletes a non-zero old name first, then holds the new one; the program converts to true exactly when the new name is non-zero |
| Shaders.Program.Destroy | src/Shader.cpp:92-139 | deletes only a non-zero name, and does not reset the handle, so the program's bool conversion is unchanged |
| Shaders.LinkAndValidate | src/Shader.cpp:175-192 | the call returns true exactly when neither the link status nor the validate status is `GL_FALSE` |
| Shaders.LinkAndValidateOrder | src/Shader.cpp:175-192 | a failed link is reported first whatever validation said; validation failure is reported only after a successful link; success iff both statuses are not `GL_FALSE` |
| Shaders.Shader.constructor | include/sogl/Shader.hpp:27 | an empty memo, nothing queried, a program holding no name |
| Shaders.Shader.GetUniformLocation | src/Shader.cpp:149-153 | queries the driver only for a name not in the memo and stores the answer; the result is always the driver's answer; existing entries are never overwritten; every name is queried at most once |
| Shaders.Shader.GetUniformLocationTwice | src/Shader.cpp:149-153 | repeated calls return the same location with at most one query |
| Shaders.Shader.Dispose | src/Shader.cpp:141-143 | the destructor deletes the program's name iff it is non-zero |
| Shaders.Shader.DisposeAfterDestroy | src/Shader.cpp:92-143 | after an explicit `destroy` the program still converts to true, so the destructor deletes the same name a second time |

## Left out

- Native calls (GLFW window, context and polling; OpenGL objects and drawing;
  FreeType loading; HarfBuzz shaping). They are foreign libraries. The model
  takes what they return as inputs and records the requests they receive.
- The frame time that `display` returns. It depends on the wall clock.
- Buffer swapping and `clear`. They are drawing calls only.
- `isOpen`, `close`, `getMousePosition`, `isKeyPressed`, `getSize`: direct
  queries of the backend.
- Floating point: glyph metrics are kept in 26.6 fixed point, without the
  division by 64 the source does; the `shape` pen-position loop and
  `shapeText` are not part of this model.
- Callback coordinates: cursor positions and scroll offsets reach the model as
  integers. The truncation from `double` to `int` happens before that point.
- Windowing.Window: only one window receives callbacks. In the source a static
  pointer sends every callback to the most recently constructed window, so
  earlier windows stop receiving events; that routing is not modelled.
- Windowing.Window.OnDrop: requires that `paths` holds at least `count` entries.
  GLFW guarantees this, and reading past it in the source is undefined.
- Inputs: a `Key` is an integer whose enumerators are numbered in table order
  (`Unknown` is 0, `RightSuper` is 117). The numbers sogl's header gives them
  are not used by any modelled operation, and include/sogl/Inputs.hpp is not
  part of this model. Values outside the enumerators are keys too and take
  every `default` branch.
- Fonts.Font.GetGlyph: `render` is given the requested size, not the size
  set on the face. For a font whose `load` ran once, before its first
  request, the two differ only for a load at 16 before any size was set,
  where the face has no size. `loadSizes` records that case, but what
  FreeType renders then is not modelled, and the cache invariant takes it to
  be the rendering at 16. The texture contents are
  recorded as a list of uploads, not as pixels.
- Fonts.Font.GetGlyph: the width-equals-pitch assertion on the bitmap is taken
  as given. A rendering is one coverage byte per pixel, row after row.
- Fonts: sizes, extents and cursor positions are unbounded integers. The
  source uses C++ `int`, so `size * 11` (src/Font.cpp:80) and the cursor
  arithmetic (src/Font.cpp:125-128) can overflow for very large values; that
  is not modelled.
- Fonts: running out of rows (the cursor passing the texture's height) is not
  handled by the source, and the model states no bound on y.
- Fonts: a second `Font::load` (src/Font.cpp:26-41) installs a new face with
  no pixel size but keeps `m_last_size` and the cached pages of the previous
  face. A later request at the last size then sets no size before loading,
  and a hit returns a glyph rendered from the old face. Fonts.Font models
  one face per font, loaded before the first request.
- `Font::load`, `getTexture`, `shapeText`: face loading and text shaping go
  through FreeType and HarfBuzz.
- Shaders.Shader.GetUniformLocation: `locate` is fixed per shader. The memo is
  never invalidated in the source either, so a re-created program would be
  served stale locations; that is not modelled.
- Shaders: the text of compile and link logs written to standard error, and
  attach, detach, use, and the `setUniform` templates.
- Shaders.LinkAndValidateOrder: the link and validate requests are issued
  unconditionally before either status is read. The model takes both
  statuses as inputs and does not record the two requests.
- GlObjects.GlObject.MoveAssign: the source's move assignment has no `return`
  statement, so any call is undefined behaviour in C++; the model gives the
  effect of the body's two assignments and returns nothing.
- Shaders.Program and Shaders.CompiledShaderObject hold their own `handle`
  rather than inheriting from `GlObject`; they are never moved in the modelled
  code.
- src/FrameBuffer.cpp, src/PostProcess.cpp, src/Texture.cpp: resource wrappers.
  include/sogl/VertexArray.hpp: only its declarations exist here.
  include/sogl/Vertex.hpp: compile-time reflection. None of these are part of
  this model.
- The OpenGL debug-message and GLFW error callbacks. They only write to
  standard error.
