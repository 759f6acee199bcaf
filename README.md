# cc.AtlasNode in Dafny

A model of `cc.AtlasNode` from cocos2d-html5: a scene-graph node that draws a
fixed-capacity texture atlas, a grid of equally sized tiles. The node keeps
four kinds of state:

- a colour/opacity state, which it pushes into a WebGL colour uniform or into
  a re-tinted Canvas texture;
- a blend function derived from the texture's alpha format;
- the tile grid computed from the texture size;
- the number of quads to draw.

The model is a Dafny class `AtlasNodes.AtlasNode` with the node's fields.
Each setter is a method with a `modifies` clause that lists the fields it
may change. Its postcondition states the new state in terms of the old one.

Colours (`cc.Color3B`) and blend-function records are mutable objects that
the node stores by reference. They are modelled as classes (`Color3` and
`BlendFunc`), so the aliasing of the source is reproduced:

- `setColor(c)` makes `c` itself both the stored and the unmodified colour.
  While opacity modifies RGB, it then scales `c`'s channels in place by
  `opacity / 255`. Afterwards the
  caller's object, the stored colour and the one `getColor` returns are one
  object, and all of them hold the scaled channels
  (`AtlasNodeScenarios.SetColorScalesCallersObject`).
- The constructor keeps the engine-wide `cc.WHITE` object as the unmodified
  colour, and passes it in as `white`. A node that is later given that
  object through `setColor` scales the shared white in place
  (`AtlasNodeScenarios.SharedWhiteIsScaled`). `cc.WHITE` is defined outside
  this file; the model assumes it is one mutable object shared by every
  caller, which is how the constructor uses it.
- The node keeps the invariant `ColorsAgree`: the stored and the unmodified
  colour have the same channels. While it holds, the `setColor` that
  `setOpacity` and `setOpacityModifyRGB` issue finds nothing to change. So
  in opacity-modifies-RGB mode, a new opacity does not rescale the colour
  (the `SetOpacity` postcondition), and the WebGL uniform keeps the old
  opacity. The result depends on call order
  (`AtlasNodeScenarios.ColorThenOpacityDiffersFromOpacityThenColor`).

Other modelling choices:

- The render backend (`Canvas` or `WebGL`) is a constant of the node. The
  source reads it from a global.
- A texture is a value with a width, a height and a premultiplied-alpha flag.
  The texture atlas holds one texture and its capacity.
- Texture loading and Canvas tinting are outside the node, so their outcomes
  are parameters. `loaded` is the tile image, or `None` when it did not load.
  `tinted` is the tint the texture cache produced, or `None` when the cache
  has no colour table for the texture.
- Colour channels, opacity, tile sizes and texture sizes are JavaScript
  numbers. They are modelled as exact `real`s.
- Counts and blend factors (`itemsToRender`, `quadsToDraw`, the grid
  dimensions and the `src`/`dst` factors) are also JavaScript numbers, but
  they are modelled as `int`. A fractional count passed to `setQuadsToDraw`
  or `initWithTileFile` cannot be represented.
- `0 | (size / item)` is modelled as truncation toward zero followed by
  ToInt32 (`JsNumber.TruncatedQuotient`). A zero divisor gives 0.
- The WebGL colour uniform is kept as the four values it is computed from:
  the stored channels and the opacity.
- Plain accessors (`GetOpacity`, `IsOpacityModifyRGB`, `GetBlendFunc`,
  `GetTextureAtlas`, `GetQuadsToDraw`) are functions. They are used in the
  setters' postconditions, which serve as their contracts.

Behaviour of the code worth noting:

- Channel scaling is `c * opacity / 255` with no truncation.
- `setTexture` re-derives the blend function and the opacity flag, but does
  not recompute the tile grid.
- `getColor` in opacity-modifies-RGB mode returns the scaled object, not
  the last colour passed in. `setColor` has replaced the unmodified colour
  with the object it then scaled.
- "set colour, then opacity" and "set opacity, then colour" do not agree.

## Model

| member | source | states |
|---|---|---|
| `JsNumber.Trunc` | cocos2d/base_nodes/CCAtlasNode.js:301-302 | the integer part that a bitwise or with 0 keeps: `r <= x < r + 1` for `x >= 0` and `r - 1 < x <= r` for `x < 0` |
| `JsNumber.ToInt32` | cocos2d/base_nodes/CCAtlasNode.js:301-302 | the 32-bit result of a bitwise or with 0: in [-2^31, 2^31), congruent to its argument modulo 2^32, and the identity on that range |
| `JsNumber.TruncatedQuotient` | cocos2d/base_nodes/CCAtlasNode.js:301-302 | the bitwise or of `size / item` with 0: a 32-bit integer in [-2^31, 2^31), 0 for a zero tile size; characterised by the two lemmas below |
| `JsNumber.TruncatedQuotientFits` | cocos2d/base_nodes/CCAtlasNode.js:293-303 | for a positive tile size and fewer than 2^31 tiles, the grid dimension `n` is the number of whole tiles that fit: `n * item <= size < (n + 1) * item` |
| `JsNumber.TruncatedQuotientUnique` | cocos2d/base_nodes/CCAtlasNode.js:293-303 | conversely, any count of whole tiles that fits exactly is the grid dimension |
| `JsNumber.Modulate` | cocos2d/base_nodes/CCAtlasNode.js:177-181 | channel scaling by `opacity / 255`: the identity at opacity 255, zero at opacity 0, and within `[0, c]` for channels and opacities in range |
| `AtlasNodes.AtlasNode.constructor` | cocos2d/base_nodes/CCAtlasNode.js:67-73 | the unmodified colour is the shared white object; the stored colour is a fresh white; blend `(BLEND_SRC, BLEND_DST)`; opacity 255; `ColorsAgree` exactly when the shared white is still white |
| `AtlasNodes.AtlasNode.InitWithTileFile` | cocos2d/base_nodes/CCAtlasNode.js:82-121 | succeeds exactly when the tile image loaded; on success it sets tile sizes and `quadsToDraw == itemsToRender`, sets the grid from the texture size, sets the flag to "Canvas or premultiplied", and forces `(SRC_ALPHA, ONE_MINUS_SRC_ALPHA)` on WebGL without premultiplied alpha; on failure the flag is on and grid, count and blend are untouched |
| `AtlasNodes.AtlasNode.LoadTileTexture` | cocos2d/base_nodes/CCAtlasNode.js:89-107 | on WebGL, computes the uniform and installs a fresh atlas holding the loaded texture and capacity; on Canvas, the loaded image becomes the original texture and, when present, the current texture; corrected: fails exactly when nothing loaded, on WebGL by testing the atlas's texture, which lines 91-94 do not do (see `LoadTileTextureAsWritten`) |
| `AtlasNodes.AtlasNode.InitWithTileFileAsWritten` | cocos2d/base_nodes/CCAtlasNode.js:84-113 | the code as written: on WebGL, with the tile image loaded that its derivation steps need, it always succeeds, because its failure test is never true; on Canvas it succeeds exactly when the image loaded; on success the texture, grid, quad count, opacity flag and blend record are set as in `InitWithTileFile`, as are the uniform and the atlas on WebGL and the original and current texture on Canvas; on Canvas failure the flag is on and grid, count and blend are untouched |
| `AtlasNodes.AtlasNode.LoadTileTextureAsWritten` | cocos2d/base_nodes/CCAtlasNode.js:89-107 | the loading step as written: on WebGL it succeeds whatever loaded, installing a fresh atlas whose texture is what loaded, so the atlas holds a texture exactly when the image loaded; on Canvas it fails exactly when nothing loaded |
| `AtlasNodes.AtlasNode.DeriveFromTexture` | cocos2d/base_nodes/CCAtlasNode.js:109-111 | re-derives blend function and opacity flag from the texture in use and recomputes both grid dimensions from its size |
| `AtlasNodes.AtlasNode.Create` | cocos2d/base_nodes/CCAtlasNode.js:332-337 | corrected, through `InitWithTileFile`: returns a fresh initialised node exactly when the tile image loaded, and null otherwise (as written, a missing image on WebGL is not refused by lines 91-94 and reaches the TypeError at line 309). The node has the requested tile sizes, quad count and derived grid; the shared white as unmodified colour and a fresh white as stored colour, agreeing exactly while the shared white is white; opacity 255; the flag "Canvas or premultiplied"; a fresh blend record, `(SRC_ALPHA, ONE_MINUS_SRC_ALPHA)` on WebGL without premultiplied alpha and the defaults otherwise; on WebGL a uniform of four 255s |
| `AtlasNodes.AtlasNode.GetColor` | cocos2d/base_nodes/CCAtlasNode.js:147-152 | returns the unmodified colour object exactly when opacity modifies RGB, the stored one otherwise |
| `AtlasNodes.AtlasNode.SetColor` | cocos2d/base_nodes/CCAtlasNode.js:157-185 | no change at all when the argument matches the stored colour's channels; otherwise the argument object becomes both colours, has its channels scaled by `opacity / 255` in modify mode (untouched otherwise), the WebGL uniform is recomputed from it, on Canvas a tint replaces a bound texture, and `ColorsAgree` holds afterwards |
| `AtlasNodes.AtlasNode.GetOpacity` | cocos2d/base_nodes/CCAtlasNode.js:189-191 | the stored opacity; `SetOpacity`'s postcondition `GetOpacity() == o` is its round trip |
| `AtlasNodes.AtlasNode.SetOpacity` | cocos2d/base_nodes/CCAtlasNode.js:197-206 | `GetOpacity() == o`; outside modify mode the colours are untouched and the WebGL uniform uses the new opacity; in modify mode, while `ColorsAgree` holds, nothing else changes, not even the uniform; otherwise the unmodified object becomes the stored colour, scaled by `o / 255`; `ColorsAgree` is preserved |
| `AtlasNodes.AtlasNode.SetOpacityModifyRGB` | cocos2d/base_nodes/CCAtlasNode.js:211-222 | the flag becomes `v`; the colour object `GetColor` returned before the change is passed to `setColor` under the new flag; when the flag was off before the call, no colour changes; `ColorsAgree` is preserved |
| `AtlasNodes.AtlasNode.IsOpacityModifyRGB` | cocos2d/base_nodes/CCAtlasNode.js:220-222 | the opacity-modifies-RGB flag; `SetOpacityModifyRGB`'s postcondition makes it the value set |
| `AtlasNodes.AtlasNode.GetBlendFunc` | cocos2d/base_nodes/CCAtlasNode.js:227-229 | the stored blend record itself, not a copy; `SetBlendFunc` and `SetBlendFuncObject` state what it returns after them |
| `AtlasNodes.AtlasNode.SetBlendFunc` | cocos2d/base_nodes/CCAtlasNode.js:236-241 | the two-factor form: `GetBlendFunc()` is a new record holding exactly `(src, dst)` |
| `AtlasNodes.AtlasNode.SetBlendFuncObject` | cocos2d/base_nodes/CCAtlasNode.js:236-238 | the one-argument form: `GetBlendFunc()` is the caller's record itself, unchanged |
| `AtlasNodes.AtlasNode.GetTexture` | cocos2d/base_nodes/CCAtlasNode.js:249-251 | the Canvas texture on Canvas, the atlas's texture on WebGL |
| `AtlasNodes.AtlasNode.SetTexture` | cocos2d/base_nodes/CCAtlasNode.js:256-263 | `GetTexture()` becomes the argument; on WebGL the flag becomes the texture's premultiplied-alpha flag and the blend record is forced to `(SRC_ALPHA, ONE_MINUS_SRC_ALPHA)` in place when that flag is off; on Canvas flag and blend are untouched |
| `AtlasNodes.AtlasNode.GetTextureAtlas` | cocos2d/base_nodes/CCAtlasNode.js:275-277 | the stored atlas reference; `SetTextureAtlas`'s postcondition makes it the argument |
| `AtlasNodes.AtlasNode.SetTextureAtlas` | cocos2d/base_nodes/CCAtlasNode.js:268-270 | `GetTextureAtlas()` becomes the argument |
| `AtlasNodes.AtlasNode.GetQuadsToDraw` | cocos2d/base_nodes/CCAtlasNode.js:282-284 | the stored quad count; `SetQuadsToDraw`'s postcondition makes it the argument |
| `AtlasNodes.AtlasNode.SetQuadsToDraw` | cocos2d/base_nodes/CCAtlasNode.js:289-291 | `GetQuadsToDraw()` becomes the argument, unclamped |
| `AtlasNodes.AtlasNode.CalculateMaxItems` | cocos2d/base_nodes/CCAtlasNode.js:293-303 | the grid dimensions become the texture height over `itemHeight` and its width over `itemWidth`, each truncated to a 32-bit integer |
| `AtlasNodes.AtlasNode.UpdateBlendFunc` | cocos2d/base_nodes/CCAtlasNode.js:305-313 | on WebGL with a non-premultiplied texture the record becomes `(SRC_ALPHA, ONE_MINUS_SRC_ALPHA)`; otherwise it is untouched |
| `AtlasNodes.AtlasNode.UpdateOpacityModifyRGB` | cocos2d/base_nodes/CCAtlasNode.js:315-318 | on WebGL the flag becomes the texture's premultiplied-alpha flag; on Canvas it is untouched |
| `AtlasNodeScenarios.ColorThenOpacityDiffersFromOpacityThenColor` | cocos2d/base_nodes/CCAtlasNode.js:157-206 | with modify mode on: colour 200 then opacity 128 leaves channel 200 and the WebGL uniform's opacity at 255; opacity 128 then colour 200 gives `200 * 128 / 255`; the two differ |
| `AtlasNodeScenarios.SetColorScalesCallersObject` | cocos2d/base_nodes/CCAtlasNode.js:157-181 | at opacity 51, `setColor` with a channel of 200 leaves 40 both in the caller's object and in what `getColor` returns |
| `AtlasNodeScenarios.SharedWhiteIsScaled` | cocos2d/base_nodes/CCAtlasNode.js:67-181 | passing the shared white to `setColor` at opacity 51 turns its channel into 51, and a node made later reports 51 from `getColor` |
| `AtlasNodeScenarios.ModeRoundTripKeepsColor` | cocos2d/base_nodes/CCAtlasNode.js:211-215 | switching modify mode off and on again after `setColor` and `setOpacity` leaves `getColor` at its value |
| `AtlasNodeScenarios.MissingTextureIsRefused` | cocos2d/base_nodes/CCAtlasNode.js:89-111 | with a tile image that did not load, the corrected initialisation refuses on either backend; the loading step as written succeeds on WebGL and leaves an atlas without a texture, which `_updateBlendFunc` (line 309) and `_updateOpacityModifyRGB` (line 317) dereference |

## Left out

- `draw` (lines 133-142) is not modelled. It sets GL blend state, uploads the uniform and asks the atlas to draw `quadsToDraw` quads from index 0. These are foreign rendering calls. It only reads `blendFunc`, `colorUniform` and `quadsToDraw`, which the model keeps.
- Shader setup at lines 116-119 (`setShaderProgram`, the `u_color` uniform location) is not modelled: it is foreign WebGL and shader-cache code.
- `updateAtlasValues` (lines 126-128) is not modelled: it is an abstract stub that only asserts.
- Tint generation through `getTextureColors` and `generateTintImage` (lines 164-168) is not modelled: it is image processing in other components. Its result is the `tinted` parameter.
- Image loading through `cc.TextureAtlas.initWithFile` and `TextureCache.addImage` is I/O. Its result is the `loaded` parameter. The tile path, its `cc.Assert(tile != null)` and the `cc.log` diagnostics are not modelled.
- Floating point is not modelled: channels, opacity and sizes are exact reals. The IEEE-754 rounding of the divisions and the `Float32Array` contents are not captured.
- `cc.BLEND_SRC` and `cc.BLEND_DST` are defined outside this file and are not part of this model. They are fixed at `ONE` and `ONE_MINUS_SRC_ALPHA`, the premultiplied-alpha defaults.
- The `instanceof cc.Texture2D` test in `_calculateMaxItems` is not modelled. A `cc.Texture2D` is measured through `getContentSize()` (line 297), any other texture through its `width` and `height` (line 299). The model's `width` and `height` stand for whichever size the branch taken reads.
- `cc.Node` base-class behaviour (`_super`, `NODE_DRAW_SETUP`) is not part of this model.
- `cc.TextureAtlas` is not part of this model beyond the texture it holds and its capacity; the finding below assumes its `initWithFile` leaves the texture null when the image does not load. The model also records the requested capacity when the image does not load, which `initWithFile` may not do; nothing in the node reads the capacity.
- `AtlasNodes.AtlasNode.SetTexture` requires a texture and an atlas on WebGL. The source would throw there on a null texture or atlas (lines 260 and 309).
- `AtlasNodes.AtlasNode.GetTexture` requires an atlas on WebGL. The source throws a TypeError on a null atlas (line 250).
- `AtlasNodes.AtlasNode.CalculateMaxItems` requires a texture in use. The source throws a TypeError reading the size of a null texture (line 299), or on WebGL of a null atlas (line 250).
- `AtlasNodes.AtlasNode.DeriveFromTexture` requires a texture in use, for the same reasons as the three steps it runs.
- `AtlasNodes.AtlasNode.UpdateBlendFunc` requires, on WebGL, an atlas holding a texture. The source throws a TypeError on a null atlas or texture (line 309).
- `AtlasNodes.AtlasNode.UpdateOpacityModifyRGB` requires, on WebGL, an atlas holding a texture. The source throws a TypeError on a null atlas or texture (line 317).
- `AtlasNodes.AtlasNode.InitWithTileFileAsWritten` requires a loaded tile image on WebGL. Without one the source throws a TypeError in `_updateBlendFunc` (line 309); `AtlasNodeScenarios.MissingTextureIsRefused` shows the state that reaches that call.

## Findings

| source | as written | input that shows it | evidently intended | confidence | as-written member | corrected member |
|---|---|---|---|---|---|---|
| cocos2d/base_nodes/CCAtlasNode.js:91-110 | on WebGL the failure test checks `this._textureAtlas`, which is the object just made with `new` and never null; a tile image that did not load is not refused, and `_updateBlendFunc` then calls `hasPremultipliedAlpha` on the atlas's missing texture | WebGL backend, tile image that fails to load (`AtlasNodeScenarios.MissingTextureIsRefused`: the loading step succeeds and the atlas has no texture) | return false when the atlas has no texture, as the Canvas branch and the log message do | medium, not executed; relies on `cc.TextureAtlas.initWithFile` leaving its texture null | `AtlasNodes.AtlasNode.LoadTileTextureAsWritten`, `AtlasNodes.AtlasNode.InitWithTileFileAsWritten` | `AtlasNodes.AtlasNode.LoadTileTexture`, `AtlasNodes.AtlasNode.InitWithTileFile` |
