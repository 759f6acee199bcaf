/** Call sequences on fresh nodes, showing what the reference semantics of
    colours imply for callers. */
module AtlasNodeScenarios {
  import opened JsNumber
  import opened AtlasNodes

  /** A WebGL node initialised from a premultiplied-alpha texture, so that
      opacity modifies RGB. */
  method NewModulatingNode(white: Color3) returns (node: AtlasNode)
    ensures fresh(node) && fresh(node.color) && node.colorUnmodified == white
    ensures node.backend == WebGL && node.isOpacityModifyRGB && node.opacity == 255.0
    ensures node.color.r == 255.0 && node.color.g == 255.0 && node.color.b == 255.0
    ensures node.quadsToDraw == 10 && node.itemsPerRow == 16 && node.itemsPerColumn == 8
  {
    node := new AtlasNode(WebGL, white);
    TruncatedQuotientUnique(256.0, 16.0, 16);
    TruncatedQuotientUnique(128.0, 16.0, 8);
    var ok := node.InitWithTileFile(Some(Texture(256.0, 128.0, true)), 16.0, 16.0, 10);
  }

  /** Setting a colour and then an opacity does not give what setting the
      opacity first gives: after setColor the stored and the unmodified colour
      are one object, so the setColor that setOpacity issues finds nothing to
      change, and the colour keeps the scale of the old opacity. Neither is
      the WebGL uniform recomputed, so it still carries opacity 255. */
  method ColorThenOpacityDiffersFromOpacityThenColor() returns (colorFirst: real, opacityFirst: real, uniformOpacity: real)
    ensures colorFirst == 200.0
    ensures opacityFirst == Modulate(200.0, 128.0)
    ensures colorFirst != opacityFirst
    ensures uniformOpacity == 255.0
  {
    var white := new Color3(255.0, 255.0, 255.0);

    var a := NewModulatingNode(white);
    var c := new Color3(200.0, 200.0, 200.0);
    a.SetColor(c, None);
    a.SetOpacity(128.0, None);
    colorFirst := a.color.r;
    uniformOpacity := a.colorUniform.value.opacity;

    var b := NewModulatingNode(white);
    var d := new Color3(200.0, 200.0, 200.0);
    b.SetOpacity(128.0, None);
    b.SetColor(d, None);
    opacityFirst := b.color.r;
  }

  /** The caller's colour object is the one that gets scaled: after
      setColor it holds the scaled channels, and so does what getColor
      returns. */
  method SetColorScalesCallersObject() returns (callerR: real, gotR: real)
    ensures callerR == 40.0 && gotR == 40.0
  {
    var white := new Color3(255.0, 255.0, 255.0);
    var node := NewModulatingNode(white);
    node.SetOpacity(51.0, None);
    var c := new Color3(200.0, 100.0, 0.0);
    node.SetColor(c, None);
    callerR := c.r;
    gotR := node.GetColor().r;
  }

  /** Passing the shared white object to setColor scales it in place, and a
      node made afterwards reports the damaged white as its colour. */
  method SharedWhiteIsScaled() returns (whiteR: real, laterR: real)
    ensures whiteR == 51.0 && laterR == 51.0
  {
    var white := new Color3(255.0, 255.0, 255.0);
    var node := NewModulatingNode(white);
    node.SetOpacity(51.0, None);
    var red := new Color3(255.0, 0.0, 0.0);
    node.SetColor(red, None);
    node.SetColor(white, None);
    whiteR := white.r;

    var later := NewModulatingNode(white);
    laterR := later.GetColor().r;
  }

  /** Switching opacity-modifies-RGB on and off again leaves getColor where it
      was: each switch re-applies a colour equal to the stored one. */
  method ModeRoundTripKeepsColor() returns (before: real, after: real)
    ensures before == after == 200.0
  {
    var white := new Color3(255.0, 255.0, 255.0);
    var node := NewModulatingNode(white);
    var c := new Color3(200.0, 200.0, 200.0);
    node.SetColor(c, None);
    before := node.GetColor().r;
    node.SetOpacity(128.0, None);
    node.SetOpacityModifyRGB(false, None);
    node.SetOpacityModifyRGB(true, None);
    after := node.GetColor().r;
  }

  /** A tile image that did not load: the corrected initialisation refuses
      it on either backend. On WebGL the loading step as written reports
      success instead, and leaves an atlas without the texture that
      `_updateBlendFunc` goes on to dereference. */
  method MissingTextureIsRefused(backend: Backend) returns (ok: bool, loadOkAsWritten: bool, texturedAsWritten: bool)
    ensures !ok
    ensures loadOkAsWritten <==> backend == WebGL
    ensures backend == WebGL ==> !texturedAsWritten
  {
    var white := new Color3(255.0, 255.0, 255.0);
    var node := new AtlasNode(backend, white);
    ok := node.InitWithTileFile(None, 16.0, 16.0, 10);

    var asWritten := new AtlasNode(backend, white);
    loadOkAsWritten := asWritten.LoadTileTextureAsWritten(None, 10);
    texturedAsWritten := asWritten.TexturedAtlas();
  }
}
