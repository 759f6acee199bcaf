/** cc.AtlasNode: a scene-graph node that draws a fixed-capacity texture atlas
    and keeps a colour/opacity state for it. Colours and blend functions are
    mutable objects that the node stores by reference, as the engine does. */
module AtlasNodes {
  import opened JsNumber

  datatype Option<T> = None | Some(value: T)

  /** The render backend, fixed when the node is made (the engine reads it
      from the global `cc.renderContextType`). */
  datatype Backend = Canvas | WebGL

  /** A texture, as far as the node looks at it. */
  datatype Texture = Texture(width: real, height: real, hasPremultipliedAlpha: bool)

  /** The values the WebGL colour uniform (`_colorF32Array`) is computed
      from: the colour channels as stored and the opacity. */
  datatype UniformColor = UniformColor(r: real, g: real, b: real, opacity: real)

  /** OpenGL blend factors. */
  const ONE: int := 1
  const SRC_ALPHA: int := 0x0302
  const ONE_MINUS_SRC_ALPHA: int := 0x0303

  /** The engine's default blend factors `cc.BLEND_SRC` and `cc.BLEND_DST`
      (the premultiplied-alpha defaults). */
  const BLEND_SRC: int := ONE
  const BLEND_DST: int := ONE_MINUS_SRC_ALPHA

  /** A mutable `cc.Color3B`. */
  class Color3 {
    var r: real
    var g: real
    var b: real

    constructor (r: real, g: real, b: real)
      ensures this.r == r && this.g == g && this.b == b
    {
      this.r, this.g, this.b := r, g, b;
    }
  }

  /** The componentwise comparison setColor uses to skip redundant updates. */
  predicate SameRGB(x: Color3, y: Color3)
    reads x, y
  {
    x.r == y.r && x.g == y.g && x.b == y.b
  }

  /** A mutable `{src, dst}` blend-function record. */
  class BlendFunc {
    var src: int
    var dst: int

    constructor (src: int, dst: int)
      ensures this.src == src && this.dst == dst
    {
      this.src, this.dst := src, dst;
    }
  }

  /** The texture atlas collaborator, reduced to the one texture it holds and
      the capacity it was made with. */
  class TextureAtlas {
    var texture: Option<Texture>
    const capacity: int

    /** `new cc.TextureAtlas()` followed by `initWithFile(tile, capacity)`;
        `loaded` is what loading the tile image produced. */
    constructor (loaded: Option<Texture>, capacity: int)
      ensures texture == loaded && this.capacity == capacity
    {
      texture := loaded;
      this.capacity := capacity;
    }

    method SetTexture(t: Texture)
      modifies this`texture
      ensures texture == Some(t)
    {
      texture := Some(t);
    }
  }

  class AtlasNode {
    const backend: Backend
    var itemsPerRow: int
    var itemsPerColumn: int
    var itemWidth: real
    var itemHeight: real
    var colorUnmodified: Color3
    var textureAtlas: TextureAtlas?
    var isOpacityModifyRGB: bool
    var blendFunc: BlendFunc
    var opacity: real
    var color: Color3
    /** `_colorF32Array`; None until first computed. */
    var colorUniform: Option<UniformColor>
    var quadsToDraw: int
    var originalTexture: Option<Texture>
    var textureForCanvas: Option<Texture>

    /** `white` is the engine-wide `cc.WHITE` object, shared by every node:
        the node keeps it as its unmodified colour and makes its own white
        copy for `color`. */
    constructor (backend: Backend, white: Color3)
      ensures this.backend == backend
      ensures colorUnmodified == white && fresh(color)
      ensures color.r == 255.0 && color.g == 255.0 && color.b == 255.0
      ensures ColorsAgree() <==> white.r == 255.0 && white.g == 255.0 && white.b == 255.0
      ensures fresh(blendFunc) && blendFunc.src == BLEND_SRC && blendFunc.dst == BLEND_DST
      ensures opacity == 255.0 && !isOpacityModifyRGB
      ensures itemsPerRow == 0 && itemsPerColumn == 0 && itemWidth == 0.0 && itemHeight == 0.0
      ensures textureAtlas == null && colorUniform == None && quadsToDraw == 0
      ensures originalTexture == None && textureForCanvas == None
    {
      this.backend := backend;
      itemsPerRow, itemsPerColumn := 0, 0;
      itemWidth, itemHeight := 0.0, 0.0;
      textureAtlas := null;
      isOpacityModifyRGB := false;
      colorUniform := None;
      quadsToDraw := 0;
      originalTexture, textureForCanvas := None, None;
      colorUnmodified := white;
      color := new Color3(255.0, 255.0, 255.0);
      blendFunc := new BlendFunc(BLEND_SRC, BLEND_DST);
      opacity := 255.0;
    }

    /** Initialises the node from a tile image. `loaded` is the outcome of
        loading that image (through the atlas on WebGL, through the texture
        cache on Canvas); the node is usable exactly when it is present. */
    method InitWithTileFile(loaded: Option<Texture>, tileWidth: real, tileHeight: real, itemsToRender: int)
      returns (ok: bool)
      modifies this`itemWidth, this`itemHeight, this`isOpacityModifyRGB, this`colorUniform,
               this`textureAtlas, this`originalTexture, this`textureForCanvas,
               this`itemsPerRow, this`itemsPerColumn, this`quadsToDraw, blendFunc
      ensures ok <==> loaded.Some?
      ensures itemWidth == tileWidth && itemHeight == tileHeight
      ensures backend == WebGL ==>
        && fresh(textureAtlas) && textureAtlas.texture == loaded && textureAtlas.capacity == itemsToRender
        && colorUniform == Some(UniformColor(color.r, color.g, color.b, opacity))
        && originalTexture == old(originalTexture) && textureForCanvas == old(textureForCanvas)
      ensures backend == Canvas ==>
        && textureAtlas == old(textureAtlas) && colorUniform == old(colorUniform)
        && originalTexture == loaded
        && textureForCanvas == (if ok then loaded else old(textureForCanvas))
      ensures !ok ==>
        && isOpacityModifyRGB && quadsToDraw == old(quadsToDraw)
        && itemsPerRow == old(itemsPerRow) && itemsPerColumn == old(itemsPerColumn)
        && unchanged(blendFunc)
      ensures ok ==>
        && GetTexture() == loaded
        && quadsToDraw == itemsToRender
        && itemsPerRow == TruncatedQuotient(loaded.value.width, tileWidth)
        && itemsPerColumn == TruncatedQuotient(loaded.value.height, tileHeight)
        && isOpacityModifyRGB == (backend == Canvas || loaded.value.hasPremultipliedAlpha)
        && (if backend == WebGL && !loaded.value.hasPremultipliedAlpha
            then blendFunc.src == SRC_ALPHA && blendFunc.dst == ONE_MINUS_SRC_ALPHA
            else unchanged(blendFunc))
    {
      itemWidth := tileWidth;
      itemHeight := tileHeight;
      isOpacityModifyRGB := true;
      ok := LoadTileTexture(loaded, itemsToRender);
      if !ok {
        return;
      }
      DeriveFromTexture();
      quadsToDraw := itemsToRender;
    }

    /** The steps of initialisation that follow a successful load: re-derive
        the blend function and the opacity-modifies-RGB flag from the texture
        in use, then recompute the tile grid from its size. */
    method DeriveFromTexture()
      requires backend == WebGL ==> textureAtlas != null
      requires GetTexture().Some?
      modifies this`isOpacityModifyRGB, this`itemsPerRow, this`itemsPerColumn,
               if backend == WebGL then {blendFunc} else {}
      ensures isOpacityModifyRGB ==
        if backend == WebGL then GetTexture().value.hasPremultipliedAlpha else old(isOpacityModifyRGB)
      ensures if backend == WebGL && !GetTexture().value.hasPremultipliedAlpha
        then blendFunc.src == SRC_ALPHA && blendFunc.dst == ONE_MINUS_SRC_ALPHA
        else unchanged(blendFunc)
      ensures itemsPerRow == TruncatedQuotient(GetTexture().value.width, itemWidth)
      ensures itemsPerColumn == TruncatedQuotient(GetTexture().value.height, itemHeight)
    {
      UpdateBlendFunc();
      UpdateOpacityModifyRGB();
      CalculateMaxItems();
    }

    /** The backend-specific part of initialisation: on WebGL, computes the
        colour uniform and installs a new atlas made from the tile image; on
        Canvas, keeps the loaded image as the original and current texture.
        Fails exactly when the image did not load. */
    method LoadTileTexture(loaded: Option<Texture>, itemsToRender: int) returns (ok: bool)
      modifies this`colorUniform, this`textureAtlas, this`originalTexture, this`textureForCanvas
      ensures ok <==> loaded.Some?
      ensures backend == WebGL ==>
        && fresh(textureAtlas) && textureAtlas.texture == loaded && textureAtlas.capacity == itemsToRender
        && colorUniform == Some(UniformColor(color.r, color.g, color.b, opacity))
        && originalTexture == old(originalTexture) && textureForCanvas == old(textureForCanvas)
      ensures backend == Canvas ==>
        && textureAtlas == old(textureAtlas) && colorUniform == old(colorUniform)
        && originalTexture == loaded
        && textureForCanvas == (if ok then loaded else old(textureForCanvas))
    {
      if backend == WebGL {
        colorUniform := Some(UniformColor(color.r, color.g, color.b, opacity));
        var newAtlas := new TextureAtlas(loaded, itemsToRender);
        SetTextureAtlas(newAtlas);
        if textureAtlas.texture == None {
          return false;
        }
      }

      if backend == Canvas {
        originalTexture := loaded;
        if originalTexture == None {
          return false;
        }
        textureForCanvas := originalTexture;
      }
      return true;
    }

    /** `initWithTileFile` as written. It differs from `InitWithTileFile` only
        in the loading step, and on WebGL it can go through only with a tile
        image that loaded: with none, the loading step still reports success
        and `_updateBlendFunc` is reached without a texture. */
    method InitWithTileFileAsWritten(loaded: Option<Texture>, tileWidth: real, tileHeight: real, itemsToRender: int)
      returns (ok: bool)
      requires backend == WebGL ==> loaded.Some?
      modifies this`itemWidth, this`itemHeight, this`isOpacityModifyRGB, this`colorUniform,
               this`textureAtlas, this`originalTexture, this`textureForCanvas,
               this`itemsPerRow, this`itemsPerColumn, this`quadsToDraw, blendFunc
      ensures backend == WebGL ==> ok
      ensures ok <==> loaded.Some?
      ensures itemWidth == tileWidth && itemHeight == tileHeight
      ensures backend == WebGL ==>
        && fresh(textureAtlas) && textureAtlas.texture == loaded && textureAtlas.capacity == itemsToRender
        && colorUniform == Some(UniformColor(color.r, color.g, color.b, opacity))
        && originalTexture == old(originalTexture) && textureForCanvas == old(textureForCanvas)
      ensures backend == Canvas ==>
        && textureAtlas == old(textureAtlas) && colorUniform == old(colorUniform)
        && originalTexture == loaded
        && textureForCanvas == (if ok then loaded else old(textureForCanvas))
      ensures !ok ==>
        && isOpacityModifyRGB && quadsToDraw == old(quadsToDraw)
        && itemsPerRow == old(itemsPerRow) && itemsPerColumn == old(itemsPerColumn)
        && unchanged(blendFunc)
      ensures ok ==>
        && GetTexture() == loaded
        && quadsToDraw == itemsToRender
        && itemsPerRow == TruncatedQuotient(loaded.value.width, tileWidth)
        && itemsPerColumn == TruncatedQuotient(loaded.value.height, tileHeight)
        && isOpacityModifyRGB == (backend == Canvas || loaded.value.hasPremultipliedAlpha)
        && (if backend == WebGL && !loaded.value.hasPremultipliedAlpha
            then blendFunc.src == SRC_ALPHA && blendFunc.dst == ONE_MINUS_SRC_ALPHA
            else unchanged(blendFunc))
    {
      itemWidth := tileWidth;
      itemHeight := tileHeight;
      isOpacityModifyRGB := true;
      ok := LoadTileTextureAsWritten(loaded, itemsToRender);
      if !ok {
        return;
      }
      DeriveFromTexture();
      quadsToDraw := itemsToRender;
    }

    /** The loading step of `initWithTileFile` as written. On WebGL the
        failure test looks at the atlas just installed, which is never null,
        so the step succeeds whether or not the tile image loaded, and a
        missing image leaves an atlas without a texture. */
    method LoadTileTextureAsWritten(loaded: Option<Texture>, itemsToRender: int) returns (ok: bool)
      modifies this`colorUniform, this`textureAtlas, this`originalTexture, this`textureForCanvas
      ensures backend == WebGL ==>
        && ok
        && fresh(textureAtlas) && textureAtlas.texture == loaded && textureAtlas.capacity == itemsToRender
        && (TexturedAtlas() <==> loaded.Some?)
        && colorUniform == Some(UniformColor(color.r, color.g, color.b, opacity))
        && originalTexture == old(originalTexture) && textureForCanvas == old(textureForCanvas)
      ensures backend == Canvas ==>
        && (ok <==> loaded.Some?)
        && textureAtlas == old(textureAtlas) && colorUniform == old(colorUniform)
        && originalTexture == loaded
        && textureForCanvas == (if ok then loaded else old(textureForCanvas))
    {
      if backend == WebGL {
        colorUniform := Some(UniformColor(color.r, color.g, color.b, opacity));
        var newAtlas := new TextureAtlas(loaded, itemsToRender);
        SetTextureAtlas(newAtlas);
        if textureAtlas == null {
          return false;
        }
      }

      if backend == Canvas {
        originalTexture := loaded;
        if originalTexture == None {
          return false;
        }
        textureForCanvas := originalTexture;
      }
      return true;
    }

    /** What `_updateBlendFunc` and `_updateOpacityModifyRGB` dereference
        without a check: on WebGL, an atlas that holds a texture. */
    predicate TexturedAtlas()
      reads this, textureAtlas
    {
      backend == WebGL ==> textureAtlas != null && textureAtlas.texture.Some?
    }

    /** The stored and the unmodified colour have the same channels; the
        invariant the node keeps as long as nobody else changes its colour
        objects (it holds from construction while `cc.WHITE` is still white). */
    predicate ColorsAgree()
      reads this, color, colorUnmodified
    {
      SameRGB(color, colorUnmodified)
    }

    /** `cc.AtlasNode.create`: a new node, initialised, or null when
        initialisation fails. */
    static method Create(backend: Backend, white: Color3, loaded: Option<Texture>,
                         tileWidth: real, tileHeight: real, itemsToRender: int)
      returns (node: AtlasNode?)
      ensures node != null <==> loaded.Some?
      ensures node != null ==>
        && fresh(node) && node.backend == backend
        && (backend == WebGL ==> node.textureAtlas != null)
        && node.GetTexture() == loaded && node.quadsToDraw == itemsToRender
        && node.itemWidth == tileWidth && node.itemHeight == tileHeight
        && node.itemsPerRow == TruncatedQuotient(loaded.value.width, tileWidth)
        && node.itemsPerColumn == TruncatedQuotient(loaded.value.height, tileHeight)
      ensures node != null ==>
        && node.colorUnmodified == white && fresh(node.color)
        && node.color.r == 255.0 && node.color.g == 255.0 && node.color.b == 255.0
        && (node.ColorsAgree() <==> white.r == 255.0 && white.g == 255.0 && white.b == 255.0)
        && node.opacity == 255.0
        && node.isOpacityModifyRGB == (backend == Canvas || loaded.value.hasPremultipliedAlpha)
        && fresh(node.blendFunc)
        && (if backend == WebGL && !loaded.value.hasPremultipliedAlpha
            then node.blendFunc.src == SRC_ALPHA && node.blendFunc.dst == ONE_MINUS_SRC_ALPHA
            else node.blendFunc.src == BLEND_SRC && node.blendFunc.dst == BLEND_DST)
        && node.colorUniform == (if backend == WebGL then Some(UniformColor(255.0, 255.0, 255.0, 255.0)) else None)
    {
      node := new AtlasNode(backend, white);
      var ok := node.InitWithTileFile(loaded, tileWidth, tileHeight, itemsToRender);
      if !ok {
        node := null;
      }
    }

    /** The colour a caller sees: the unmodified one while opacity modifies
        RGB, the stored one otherwise. Returns the object itself. */
    function GetColor(): (c: Color3)
      reads this
      ensures isOpacityModifyRGB ==> c == colorUnmodified
      ensures !isOpacityModifyRGB ==> c == color
    {
      if isOpacityModifyRGB then colorUnmodified else color
    }

    /** Stores `color3` by reference as both colours and, while opacity
        modifies RGB, scales its channels in place. Nothing happens when
        `color3` already matches the stored colour. On Canvas, `tinted` is
        the texture cache's tint of the original texture, or None when the
        cache holds no colour table for it. */
    method SetColor(color3: Color3, tinted: Option<Texture>)
      modifies this`color, this`colorUnmodified, this`colorUniform, this`textureForCanvas,
               this`isOpacityModifyRGB, color3
      ensures isOpacityModifyRGB == old(isOpacityModifyRGB)
      ensures old(ColorsAgree()) || !old(SameRGB(color, color3)) ==> ColorsAgree()
      ensures old(SameRGB(color, color3)) ==>
        && color == old(color) && colorUnmodified == old(colorUnmodified)
        && colorUniform == old(colorUniform) && textureForCanvas == old(textureForCanvas)
        && unchanged(color3)
      ensures !old(SameRGB(color, color3)) ==>
        && color == color3 && colorUnmodified == color3
        && (isOpacityModifyRGB ==>
              && color3.r == Modulate(old(color3.r), opacity)
              && color3.g == Modulate(old(color3.g), opacity)
              && color3.b == Modulate(old(color3.b), opacity))
        && (!isOpacityModifyRGB ==> unchanged(color3))
        && colorUniform == (if backend == WebGL then Some(UniformColor(color3.r, color3.g, color3.b, opacity))
                            else old(colorUniform))
        && textureForCanvas == (if backend == Canvas && old(textureForCanvas).Some? && tinted.Some?
                                then tinted else old(textureForCanvas))
    {
      if color.r == color3.r && color.g == color3.g && color.b == color3.b {
        return;
      }
      color := color3;
      colorUnmodified := color3;

      if backend == Canvas {
        if GetTexture().Some? {
          if tinted.Some? {
            SetTexture(tinted);
          }
        }
      }

      if isOpacityModifyRGB {
        color.r := Modulate(color3.r, opacity);
        color.g := Modulate(color3.g, opacity);
        color.b := Modulate(color3.b, opacity);
      }

      if backend == WebGL {
        colorUniform := Some(UniformColor(color.r, color.g, color.b, opacity));
      }
    }

    function GetOpacity(): real
      reads this
    {
      opacity
    }

    /** Stores the opacity; while opacity modifies RGB, re-applies the
        unmodified colour through SetColor, otherwise recomputes the WebGL
        uniform from the stored colour. */
    method SetOpacity(o: real, tinted: Option<Texture>)
      modifies this`opacity, this`color, this`colorUnmodified, this`colorUniform,
               this`textureForCanvas, this`isOpacityModifyRGB, colorUnmodified
      ensures GetOpacity() == o
      ensures isOpacityModifyRGB == old(isOpacityModifyRGB)
      ensures old(ColorsAgree()) ==> ColorsAgree()
      ensures !isOpacityModifyRGB ==>
        && color == old(color) && colorUnmodified == old(colorUnmodified)
        && unchanged(old(colorUnmodified)) && textureForCanvas == old(textureForCanvas)
        && colorUniform == (if backend == WebGL then Some(UniformColor(color.r, color.g, color.b, o))
                            else old(colorUniform))
      ensures isOpacityModifyRGB && old(SameRGB(color, colorUnmodified)) ==>
        && color == old(color) && colorUnmodified == old(colorUnmodified)
        && unchanged(old(colorUnmodified))
        && colorUniform == old(colorUniform) && textureForCanvas == old(textureForCanvas)
      ensures isOpacityModifyRGB && !old(SameRGB(color, colorUnmodified)) ==>
        && color == old(colorUnmodified) && colorUnmodified == old(colorUnmodified)
        && color.r == Modulate(old(colorUnmodified.r), o)
        && color.g == Modulate(old(colorUnmodified.g), o)
        && color.b == Modulate(old(colorUnmodified.b), o)
        && colorUniform == (if backend == WebGL then Some(UniformColor(color.r, color.g, color.b, o))
                            else old(colorUniform))
        && textureForCanvas == (if backend == Canvas && old(textureForCanvas).Some? && tinted.Some?
                                then tinted else old(textureForCanvas))
    {
      opacity := o;
      if isOpacityModifyRGB {
        SetColor(colorUnmodified, tinted);
      } else {
        if backend == WebGL {
          colorUniform := Some(UniformColor(color.r, color.g, color.b, opacity));
        }
      }
    }

    /** Sets the flag, then re-applies through SetColor the colour object
        GetColor returned before the flag changed. */
    method SetOpacityModifyRGB(v: bool, tinted: Option<Texture>)
      modifies this`isOpacityModifyRGB, this`color, this`colorUnmodified, this`colorUniform,
               this`textureForCanvas, GetColor()
      ensures IsOpacityModifyRGB() == v
      ensures old(ColorsAgree()) ==> ColorsAgree()
      ensures old(SameRGB(color, GetColor())) ==>
        && color == old(color) && colorUnmodified == old(colorUnmodified)
        && unchanged(old(GetColor()))
        && colorUniform == old(colorUniform) && textureForCanvas == old(textureForCanvas)
      ensures !old(SameRGB(color, GetColor())) ==>
        && color == old(GetColor()) && colorUnmodified == old(GetColor())
        && (v ==>
              && color.r == Modulate(old(GetColor().r), opacity)
              && color.g == Modulate(old(GetColor().g), opacity)
              && color.b == Modulate(old(GetColor().b), opacity))
        && (!v ==> unchanged(old(GetColor())))
        && colorUniform == (if backend == WebGL then Some(UniformColor(color.r, color.g, color.b, opacity))
                            else old(colorUniform))
        && textureForCanvas == (if backend == Canvas && old(textureForCanvas).Some? && tinted.Some?
                                then tinted else old(textureForCanvas))
      // Leaving a mode in which GetColor returned `color` changes no colour.
      ensures !old(isOpacityModifyRGB) ==>
        color == old(color) && colorUnmodified == old(colorUnmodified) && unchanged(old(color))
    {
      var oldColor := GetColor();
      isOpacityModifyRGB := v;
      SetColor(oldColor, tinted);
    }

    function IsOpacityModifyRGB(): bool
      reads this
    {
      isOpacityModifyRGB
    }

    function GetBlendFunc(): BlendFunc
      reads this
    {
      blendFunc
    }

    /** The two-argument form: a new `{src, dst}` record. */
    method SetBlendFunc(src: int, dst: int)
      modifies this`blendFunc
      ensures fresh(GetBlendFunc())
      ensures GetBlendFunc().src == src && GetBlendFunc().dst == dst
    {
      blendFunc := new BlendFunc(src, dst);
    }

    /** The one-argument form: the caller's record itself is stored. */
    method SetBlendFuncObject(f: BlendFunc)
      modifies this`blendFunc
      ensures GetBlendFunc() == f && unchanged(f)
    {
      blendFunc := f;
    }

    /** The texture in use: the Canvas texture, or the atlas's on WebGL. */
    function GetTexture(): (t: Option<Texture>)
      requires backend == WebGL ==> textureAtlas != null
      reads this, textureAtlas
      ensures backend == Canvas ==> t == textureForCanvas
      ensures backend == WebGL ==> t == textureAtlas.texture
    {
      if backend == Canvas then textureForCanvas else textureAtlas.texture
    }

    /** What SetTexture may change beyond the node's own fields. */
    ghost function TextureFrame(): set<object>
      reads this
    {
      if backend == WebGL && textureAtlas != null then {textureAtlas as object, blendFunc} else {}
    }

    /** Binds a texture and re-derives the blend function and the
        opacity-modifies-RGB flag from it. */
    method SetTexture(t: Option<Texture>)
      requires backend == WebGL ==> textureAtlas != null && t.Some?
      modifies this`textureForCanvas, this`isOpacityModifyRGB, TextureFrame()
      ensures GetTexture() == t
      ensures backend == Canvas ==>
        isOpacityModifyRGB == old(isOpacityModifyRGB) && unchanged(blendFunc)
      ensures backend == WebGL ==>
        && textureForCanvas == old(textureForCanvas)
        && isOpacityModifyRGB == t.value.hasPremultipliedAlpha
        && (if t.value.hasPremultipliedAlpha then unchanged(blendFunc)
            else blendFunc.src == SRC_ALPHA && blendFunc.dst == ONE_MINUS_SRC_ALPHA)
    {
      if backend == Canvas {
        textureForCanvas := t;
      } else {
        textureAtlas.SetTexture(t.value);
      }
      UpdateBlendFunc();
      UpdateOpacityModifyRGB();
    }

    function GetTextureAtlas(): TextureAtlas?
      reads this
    {
      textureAtlas
    }

    method SetTextureAtlas(a: TextureAtlas?)
      modifies this`textureAtlas
      ensures GetTextureAtlas() == a
    {
      textureAtlas := a;
    }

    function GetQuadsToDraw(): int
      reads this
    {
      quadsToDraw
    }

    /** Stores the count as given; it is not clamped to the atlas capacity. */
    method SetQuadsToDraw(n: int)
      modifies this`quadsToDraw
      ensures GetQuadsToDraw() == n
    {
      quadsToDraw := n;
    }

    /** Recomputes the tile grid from the size of the texture in use. */
    method CalculateMaxItems()
      requires backend == WebGL ==> textureAtlas != null
      requires GetTexture().Some?
      modifies this`itemsPerRow, this`itemsPerColumn
      ensures itemsPerColumn == TruncatedQuotient(GetTexture().value.height, itemHeight)
      ensures itemsPerRow == TruncatedQuotient(GetTexture().value.width, itemWidth)
    {
      var size := GetTexture().value;
      itemsPerColumn := TruncatedQuotient(size.height, itemHeight);
      itemsPerRow := TruncatedQuotient(size.width, itemWidth);
    }

    /** On WebGL, a texture without premultiplied alpha forces the blend
        function to (SRC_ALPHA, ONE_MINUS_SRC_ALPHA), changing the stored
        record in place. Nothing happens on Canvas. */
    method UpdateBlendFunc()
      requires TexturedAtlas()
      modifies if backend == WebGL then {blendFunc} else {}
      ensures backend == WebGL && !textureAtlas.texture.value.hasPremultipliedAlpha ==>
        blendFunc.src == SRC_ALPHA && blendFunc.dst == ONE_MINUS_SRC_ALPHA
      ensures backend == Canvas || textureAtlas.texture.value.hasPremultipliedAlpha ==>
        unchanged(blendFunc)
    {
      if backend == Canvas {
        return;
      }
      if !textureAtlas.texture.value.hasPremultipliedAlpha {
        blendFunc.src := SRC_ALPHA;
        blendFunc.dst := ONE_MINUS_SRC_ALPHA;
      }
    }

    /** On WebGL, opacity modifies RGB exactly for premultiplied-alpha
        textures. Nothing happens on Canvas. */
    method UpdateOpacityModifyRGB()
      requires TexturedAtlas()
      modifies this`isOpacityModifyRGB
      ensures isOpacityModifyRGB ==
        if backend == WebGL then textureAtlas.texture.value.hasPremultipliedAlpha
        else old(isOpacityModifyRGB)
    {
      if backend == WebGL {
        isOpacityModifyRGB := textureAtlas.texture.value.hasPremultipliedAlpha;
      }
    }
  }
}
