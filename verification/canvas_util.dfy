/** The UI construction helpers: the rectangle descriptor `RectData`, the
    transform record it is copied into, the anchor/pivot layout arithmetic
    that record stands for, and the panel, text, image and button builders.
    A scene node is modelled only as the record of the fields these helpers
    set; engine object identities (nodes, fonts, sprites, click actions) are
    opaque numbers supplied by the caller. */
module CanvasUtil {
  import opened Geometry
  import opened Wrappers

  type NodeId = nat
  type FontId = nat
  type SpriteId = nat
  type ActionId = nat

  /** The default anchor and pivot `(0.5, 0.5)`: the centre of the parent. */
  const Centre: Vec2 := Vec2(0.5, 0.5)

  /** A rectangle's size, shape and position relative to its parent, in the
      engine's anchor terms. Anchors and pivot are fractions of a box;
      `RectSizeDelta` and `AnchorPosition` are in parent units. */
  datatype RectData = RectData(
    AnchorMax: Vec2,
    AnchorMin: Vec2,
    AnchorPivot: Vec2,
    AnchorPosition: Vec2,
    RectSizeDelta: Vec2)

  /** The full constructor: every argument is stored unchanged. */
  function NewRectDataWithPivot(sizeDelta: Vec2, anchorPosition: Vec2, min: Vec2, max: Vec2,
                                pivot: Vec2): (rd: RectData)
    ensures rd.RectSizeDelta == sizeDelta && rd.AnchorPosition == anchorPosition
    ensures rd.AnchorMin == min && rd.AnchorMax == max && rd.AnchorPivot == pivot
  {
    RectData(max, min, pivot, anchorPosition, sizeDelta)
  }

  /** The constructor with explicit anchors: the pivot defaults to the centre. */
  function NewRectDataWithAnchors(sizeDelta: Vec2, anchorPosition: Vec2, min: Vec2, max: Vec2): (rd: RectData)
    ensures rd.RectSizeDelta == sizeDelta && rd.AnchorPosition == anchorPosition
    ensures rd.AnchorMin == min && rd.AnchorMax == max
    ensures rd.AnchorPivot == Centre
  {
    NewRectDataWithPivot(sizeDelta, anchorPosition, min, max, Centre)
  }

  /** The two-argument constructor: anchored at, and pivoting on, the centre. */
  function NewRectData(sizeDelta: Vec2, anchorPosition: Vec2): (rd: RectData)
    ensures rd.RectSizeDelta == sizeDelta && rd.AnchorPosition == anchorPosition
    ensures rd.AnchorMin == Centre && rd.AnchorMax == Centre && rd.AnchorPivot == Centre
  {
    NewRectDataWithPivot(sizeDelta, anchorPosition, Centre, Centre, Centre)
  }

  /** The shorter constructors are the longer ones with centre defaults filled in. */
  lemma ConstructorsAgree(sizeDelta: Vec2, anchorPosition: Vec2, min: Vec2, max: Vec2)
    ensures NewRectData(sizeDelta, anchorPosition)
         == NewRectDataWithAnchors(sizeDelta, anchorPosition, Centre, Centre)
    ensures NewRectDataWithAnchors(sizeDelta, anchorPosition, min, max)
         == NewRectDataWithPivot(sizeDelta, anchorPosition, min, max, Centre)
  {
  }

  /** The engine's rectangle transform, with the five fields the helpers set. */
  datatype RectTransform = RectTransform(
    anchorMax: Vec2,
    anchorMin: Vec2,
    pivot: Vec2,
    sizeDelta: Vec2,
    anchoredPosition: Vec2)

  /** Reads a transform back as the descriptor it was made from. */
  function ToRectData(rt: RectTransform): (d: RectData) {
    RectData(rt.anchorMax, rt.anchorMin, rt.pivot, rt.anchoredPosition, rt.sizeDelta)
  }

  datatype TextAnchor =
    | UpperLeft | UpperCenter | UpperRight
    | MiddleLeft | MiddleCenter | MiddleRight
    | LowerLeft | LowerCenter | LowerRight

  datatype TextComponent = TextComponent(font: FontId, text: string, supportRichText: bool,
                                         fontSize: int, alignment: TextAnchor)

  datatype ImageComponent = ImageComponent(sprite: SpriteId, preserveAspect: bool)

  /** How a button shows its states; the engine's default for a new button is `ColorTint`. */
  datatype Transition = NoTransition | ColorTint | SpriteSwap

  datatype SpriteState = SpriteState(highlighted: SpriteId, pressed: SpriteId, disabled: SpriteId)

  /** A click handler that calls `action` with `argument`. */
  datatype ClickListener = ClickListener(action: ActionId, argument: int)

  datatype ButtonComponent = ButtonComponent(targetGraphic: ImageComponent, onClick: seq<ClickListener>,
                                             transition: Transition, spriteState: Option<SpriteState>)

  /** A scene node, as the record of what the helpers set on it. `None` means
      the helpers left that part as the engine created it. */
  datatype Node = Node(
    parent: Option<NodeId>,
    localScale: Option<Vec3>,
    canvasRenderer: bool,
    rect: Option<RectTransform>,
    text: Option<TextComponent>,
    image: Option<ImageComponent>,
    button: Option<ButtonComponent>)

  /** A freshly created node. */
  const EmptyNode: Node := Node(None, None, false, None, None, None, None)

  /** Attach a rectangle transform carrying the descriptor: each of the five
      descriptor fields lands in its matching transform field, and nothing
      else of the node changes. */
  function AddRectTransform(go: Node, rd: RectData): (r: Node)
    ensures r.rect.Some?
    ensures r.rect.value.anchorMax == rd.AnchorMax
    ensures r.rect.value.anchorMin == rd.AnchorMin
    ensures r.rect.value.pivot == rd.AnchorPivot
    ensures r.rect.value.sizeDelta == rd.RectSizeDelta
    ensures r.rect.value.anchoredPosition == rd.AnchorPosition
    ensures r.(rect := go.rect) == go
  {
    var rt := RectTransform(rd.AnchorMax, rd.AnchorMin, rd.AnchorPivot, rd.RectSizeDelta, rd.AnchorPosition);
    go.(rect := Some(rt))
  }

  /** The descriptor can be read back unchanged from the node it was attached to. */
  lemma AddRectTransformRoundTrip(go: Node, rd: RectData)
    ensures ToRectData(AddRectTransform(go, rd).rect.value) == rd
  {
  }

  /** A panel: parented (with unit local scale) only when a parent is given,
      with a canvas renderer and the descriptor's transform, and nothing else. */
  function CreateBasePanel(parent: Option<NodeId>, rd: RectData): (n: Node)
    ensures n.parent == parent
    ensures parent.Some? ==> n.localScale == Some(UnitScale)
    ensures parent.None? ==> n.localScale.None?
    ensures n.canvasRenderer
    ensures n.rect.Some? && ToRectData(n.rect.value) == rd
    ensures n.text.None? && n.image.None? && n.button.None?
  {
    var basePanel := EmptyNode;
    var placed :=
      if parent.Some? then basePanel.(parent := parent, localScale := Some(UnitScale))
      else basePanel;
    AddRectTransform(placed.(canvasRenderer := true), rd)
  }

  /** A panel carrying rich text in the given font, size and alignment. */
  function CreateTextPanel(parent: Option<NodeId>, text: string, fontSize: int, textAnchor: TextAnchor,
                           rd: RectData, font: FontId): (n: Node)
    ensures n.(text := None) == CreateBasePanel(parent, rd)
    ensures n.text.Some?
    ensures n.text.value.text == text && n.text.value.font == font
    ensures n.text.value.fontSize == fontSize && n.text.value.alignment == textAnchor
    ensures n.text.value.supportRichText
  {
    var panel := CreateBasePanel(parent, rd);
    panel.(text := Some(TextComponent(font, text, true, fontSize, textAnchor)))
  }

  /** A panel showing a sprite with its aspect ratio preserved. */
  function CreateImagePanel(parent: Option<NodeId>, sprite: SpriteId, rd: RectData): (n: Node)
    ensures n.(image := None) == CreateBasePanel(parent, rd)
    ensures n.image.Some? && n.image.value.sprite == sprite && n.image.value.preserveAspect
  {
    var panel := CreateBasePanel(parent, rd);
    panel.(image := Some(ImageComponent(sprite, true)))
  }

  /** A button is a panel with an image and a button component, plus a text
      panel created under it with the same descriptor. */
  datatype ButtonParts = ButtonParts(panel: Node, caption: Node)

  /** Build a button. `panelId` is the identity the engine gives the new
      panel. Clicking calls `action(id)`. Sprite swapping is used exactly when
      three extra sprites (highlighted, pressed, disabled) are given; any other
      number turns state transitions off. */
  function CreateButton(parent: Option<NodeId>, panelId: NodeId, action: ActionId, id: int,
                        spr: SpriteId, text: string, font: FontId, fontSize: int,
                        textAnchor: TextAnchor, rd: RectData, extraSprites: seq<SpriteId>): (b: ButtonParts)
    ensures b.panel.(image := None, button := None) == CreateBasePanel(parent, rd)
    ensures b.caption == CreateTextPanel(Some(panelId), text, fontSize, textAnchor, rd, font)
    ensures b.panel.image == Some(ImageComponent(spr, false))
    ensures b.panel.button.Some?
    ensures b.panel.button.value.targetGraphic == b.panel.image.value
    ensures b.panel.button.value.onClick == [ClickListener(action, id)]
    ensures b.panel.button.value.transition == SpriteSwap <==> |extraSprites| == 3
    ensures |extraSprites| != 3 ==> b.panel.button.value.transition == NoTransition
    ensures |extraSprites| == 3 ==>
              b.panel.button.value.spriteState == Some(SpriteState(extraSprites[0], extraSprites[1], extraSprites[2]))
    ensures |extraSprites| != 3 ==> b.panel.button.value.spriteState.None?
  {
    var panel := CreateBasePanel(parent, rd);
    var caption := CreateTextPanel(Some(panelId), text, fontSize, textAnchor, rd, font);
    var img := ImageComponent(spr, false);
    var button := ButtonComponent(img, [ClickListener(action, id)], ColorTint, None);
    var button' :=
      if |extraSprites| == 3 then
        button.(transition := SpriteSwap, targetGraphic := img,
                spriteState := Some(SpriteState(extraSprites[0], extraSprites[1], extraSprites[2])))
      else
        button.(transition := NoTransition);
    ButtonParts(panel.(image := Some(img), button := Some(button')), caption)
  }

  // ---------------------------------------------------------------------------
  // Layout arithmetic: what a transform means inside a parent of a given size.

  /** Size along one axis: the anchors' share of the parent plus the delta. */
  function AxisSize(lo: real, hi: real, delta: real, parent: real): (size: real)
    ensures lo == hi ==> size == delta
    ensures lo == 0.0 && hi == 1.0 ==> size == parent + delta
  {
    (hi - lo) * parent + delta
  }

  /** Where the pivot sits along one axis: the anchor span interpolated at the
      pivot fraction, in parent units, plus the anchored offset. */
  function AxisPivot(lo: real, hi: real, pivot: real, pos: real, parent: real): (at: real)
    ensures lo == hi ==> at == parent * lo + pos
  {
    parent * (lo + (hi - lo) * pivot) + pos
  }

  /** The rule above measures `anchoredPosition` from the anchor span taken at
      the pivot fraction. It agrees with measuring from the centre of the
      anchors exactly when the pivot is centred or the anchors coincide. */
  lemma PivotAtAnchorCentre(lo: real, hi: real, pivot: real, pos: real, parent: real)
    requires pivot == 0.5 || lo == hi
    ensures AxisPivot(lo, hi, pivot, pos, parent) == parent * (lo + hi) / 2.0 + pos
  {
  }

  /** Away from those cases the two readings differ: stretched anchors with a
      pivot at the lower edge put the pivot at the parent's edge, not its centre. */
  lemma PivotOffCentreDiffers()
    ensures AxisPivot(0.0, 1.0, 0.0, 0.0, 100.0) == 0.0
    ensures AxisPivot(0.0, 1.0, 0.0, 0.0, 100.0) != 100.0 * (0.0 + 1.0) / 2.0 + 0.0
  {
  }

  /** Size on each axis: the anchors' share of the parent plus `sizeDelta`. */
  function EffectiveSize(rt: RectTransform, parentSize: Vec2): (size: Vec2)
    ensures rt.anchorMin.x == rt.anchorMax.x ==> size.x == rt.sizeDelta.x
    ensures rt.anchorMin.y == rt.anchorMax.y ==> size.y == rt.sizeDelta.y
  {
    Vec2(AxisSize(rt.anchorMin.x, rt.anchorMax.x, rt.sizeDelta.x, parentSize.x),
         AxisSize(rt.anchorMin.y, rt.anchorMax.y, rt.sizeDelta.y, parentSize.y))
  }

  /** Where the pivot ends up, measured from the parent's lower-left corner:
      the anchor box interpolated at the pivot, offset by `anchoredPosition`. */
  function PivotPoint(rt: RectTransform, parentSize: Vec2): (at: Vec2)
    ensures rt.anchorMin.x == rt.anchorMax.x ==> at.x == parentSize.x * rt.anchorMin.x + rt.anchoredPosition.x
    ensures rt.anchorMin.y == rt.anchorMax.y ==> at.y == parentSize.y * rt.anchorMin.y + rt.anchoredPosition.y
  {
    Vec2(AxisPivot(rt.anchorMin.x, rt.anchorMax.x, rt.pivot.x, rt.anchoredPosition.x, parentSize.x),
         AxisPivot(rt.anchorMin.y, rt.anchorMax.y, rt.pivot.y, rt.anchoredPosition.y, parentSize.y))
  }

  /** The rectangle's lower-left corner: the pivot point less the pivot's share of the size. */
  function LowerLeft(rt: RectTransform, parentSize: Vec2): (corner: Vec2) {
    var size, at := EffectiveSize(rt, parentSize), PivotPoint(rt, parentSize);
    Vec2(at.x - rt.pivot.x * size.x, at.y - rt.pivot.y * size.y)
  }

  function UpperRight(rt: RectTransform, parentSize: Vec2): (corner: Vec2) {
    var size, ll := EffectiveSize(rt, parentSize), LowerLeft(rt, parentSize);
    Vec2(ll.x + size.x, ll.y + size.y)
  }

  lemma AxisCorners(lo: real, hi: real, pivot: real, delta: real, pos: real, parent: real)
    ensures var size := AxisSize(lo, hi, delta, parent);
            var at := AxisPivot(lo, hi, pivot, pos, parent);
            && at - pivot * size == lo * parent + (pos - pivot * delta)
            && at - pivot * size + size == hi * parent + (pos + (1.0 - pivot) * delta)
  {
  }

  /** The corners, independently: each corner is its anchor on the parent plus
      an offset made of `anchoredPosition` and the pivot's share of `sizeDelta`. */
  lemma CornersFromAnchors(rt: RectTransform, parentSize: Vec2)
    ensures LowerLeft(rt, parentSize)
         == Vec2(rt.anchorMin.x * parentSize.x + (rt.anchoredPosition.x - rt.pivot.x * rt.sizeDelta.x),
                 rt.anchorMin.y * parentSize.y + (rt.anchoredPosition.y - rt.pivot.y * rt.sizeDelta.y))
    ensures UpperRight(rt, parentSize)
         == Vec2(rt.anchorMax.x * parentSize.x + (rt.anchoredPosition.x + (1.0 - rt.pivot.x) * rt.sizeDelta.x),
                 rt.anchorMax.y * parentSize.y + (rt.anchoredPosition.y + (1.0 - rt.pivot.y) * rt.sizeDelta.y))
  {
    AxisCorners(rt.anchorMin.x, rt.anchorMax.x, rt.pivot.x, rt.sizeDelta.x, rt.anchoredPosition.x, parentSize.x);
    AxisCorners(rt.anchorMin.y, rt.anchorMax.y, rt.pivot.y, rt.sizeDelta.y, rt.anchoredPosition.y, parentSize.y);
  }

  /** Stretched over the whole parent, the size is the parent's plus `sizeDelta`. */
  lemma StretchedSize(rt: RectTransform, parentSize: Vec2)
    requires rt.anchorMin == Vec2(0.0, 0.0) && rt.anchorMax == Vec2(1.0, 1.0)
    ensures EffectiveSize(rt, parentSize) == Add(parentSize, rt.sizeDelta)
  {
  }

  /** With the anchors on one point the size is `sizeDelta`, whatever the parent. */
  lemma PointAnchorSize(rt: RectTransform, parentSize: Vec2)
    requires rt.anchorMin == rt.anchorMax
    ensures EffectiveSize(rt, parentSize) == rt.sizeDelta
  {
  }

  /** The worked examples of the source comments: stretched horizontally on a
      1920-wide parent, a width delta of -1820 gives a 100-wide box and a delta
      of 0 a full-width one. */
  lemma StretchedWidthExamples(anchorPosition: Vec2, minY: real, maxY: real, height: real)
    ensures var rd := NewRectDataWithAnchors(Vec2(-1820.0, 0.0), anchorPosition, Vec2(0.0, minY), Vec2(1.0, maxY));
            EffectiveSize(CreateBasePanel(None, rd).rect.value, Vec2(1920.0, height)).x == 100.0
    ensures var rd := NewRectDataWithAnchors(Vec2(0.0, 0.0), anchorPosition, Vec2(0.0, minY), Vec2(1.0, maxY));
            EffectiveSize(CreateBasePanel(None, rd).rect.value, Vec2(1920.0, height)).x == 1920.0
  {
  }

  /** Centre anchors on a 1920x1080 parent with an offset of (100, 100) put
      the pivot at (1060, 640). */
  lemma CentredOffsetExample(sizeDelta: Vec2)
    ensures PivotPoint(CreateBasePanel(None, NewRectData(sizeDelta, Vec2(100.0, 100.0))).rect.value,
                       Vec2(1920.0, 1080.0))
         == Vec2(1060.0, 640.0)
  {
  }

  /** A 100x100 square anchored at a point: with pivot (1, 1) its upper-right
      corner sits on the pivot point, which moves the square by (-50, -50)
      compared with the default centre pivot. */
  lemma PivotCornerExample(anchor: Vec2, anchorPosition: Vec2, parentSize: Vec2)
    ensures var centred := CreateBasePanel(None, NewRectDataWithPivot(Vec2(100.0, 100.0), anchorPosition, anchor, anchor, Centre)).rect.value;
            var cornered := CreateBasePanel(None, NewRectDataWithPivot(Vec2(100.0, 100.0), anchorPosition, anchor, anchor, Vec2(1.0, 1.0))).rect.value;
            && UpperRight(cornered, parentSize) == PivotPoint(cornered, parentSize)
            && PivotPoint(cornered, parentSize) == PivotPoint(centred, parentSize)
            && LowerLeft(cornered, parentSize) == Add(LowerLeft(centred, parentSize), Vec2(-50.0, -50.0))
  {
  }
}
