/**
 * The two-column card block: its card list, the whole-value card edits (image
 * upload, image deletion, size commit), and the editor instance that drives an
 * eight-handle drag-resize of a card image and tracks which card is hovered.
 *
 * Pointer coordinates are integers. `onUpdate` is taken to hand the edited block
 * back to the component, so the editor keeps the current block in a field.
 */
module TwoColumnCard {
  import opened Strings
  import opened Decimal

  /** The smallest width or height a handle can drive an image to. */
  const MinSize: int := 100
  /** Start size used when a card has no (or a zero) image width / height. */
  const DefaultWidth: int := 300
  const DefaultHeight: int := 200

  datatype Card = Card(
    id: string,
    image: string,
    imageAlt: string,
    imageWidth: Option<int>,
    imageHeight: Option<int>,
    backgroundColor: string,
    textColor: string,
    margin: int,
    padding: int,
    borderRadius: int,
    title: string,
    description: string)

  datatype TwoColumnCardBlock = TwoColumnCardBlock(id: string, width: int, widthUnit: string, cards: seq<Card>)

  /** A card's image dimensions are both set or both unset. */
  predicate DimensionsPaired(c: Card) {
    c.imageWidth.Some? <==> c.imageHeight.Some?
  }

  predicate AllDimensionsPaired(cards: seq<Card>) {
    forall i :: 0 <= i < |cards| ==> DimensionsPaired(cards[i])
  }

  function Ids(cards: seq<Card>): (r: seq<string>)
    ensures |r| == |cards| && forall i :: 0 <= i < |cards| ==> r[i] == cards[i].id
  {
    seq(|cards|, i requires 0 <= i < |cards| => cards[i].id)
  }

  /** Every card other than those with id `cardId` is kept as it is, in place. */
  predicate OnlyTargetChanged(before: seq<Card>, after: seq<Card>, cardId: string) {
    |after| == |before| &&
    forall i :: 0 <= i < |before| ==> after[i].id == before[i].id && (before[i].id != cardId ==> after[i] == before[i])
  }

  // ---------------------------------------------------------------------------
  // Card-list edits (`block.cards.map(card => card.id === cardId ? {...} : card)`)
  // ---------------------------------------------------------------------------

  /** Image read finished: the target cards get the data string and the file name as alt text. */
  function WithImage(cards: seq<Card>, cardId: string, data: string, fileName: string): (r: seq<Card>)
    ensures OnlyTargetChanged(cards, r, cardId)
    ensures forall i :: 0 <= i < |cards| && cards[i].id == cardId ==>
      r[i].image == data && r[i].imageAlt == fileName &&
      r[i] == cards[i].(image := r[i].image, imageAlt := r[i].imageAlt)
  {
    seq(|cards|, i requires 0 <= i < |cards| =>
      if cards[i].id == cardId then cards[i].(image := data, imageAlt := fileName) else cards[i])
  }

  /** Delete image: image and alt text emptied and both dimensions unset, together. */
  function WithoutImage(cards: seq<Card>, cardId: string): (r: seq<Card>)
    ensures OnlyTargetChanged(cards, r, cardId)
    ensures forall i :: 0 <= i < |cards| && cards[i].id == cardId ==>
      r[i].image == "" && r[i].imageAlt == "" && r[i].imageWidth.None? && r[i].imageHeight.None? &&
      r[i] == cards[i].(image := "", imageAlt := "", imageWidth := None, imageHeight := None)
  {
    seq(|cards|, i requires 0 <= i < |cards| =>
      if cards[i].id == cardId then cards[i].(image := "", imageAlt := "", imageWidth := None, imageHeight := None)
      else cards[i])
  }

  /** A resize frame: both dimensions of the target cards are written. */
  function WithImageSize(cards: seq<Card>, cardId: string, width: int, height: int): (r: seq<Card>)
    ensures OnlyTargetChanged(cards, r, cardId)
    ensures forall i :: 0 <= i < |cards| && cards[i].id == cardId ==>
      r[i] == cards[i].(imageWidth := Some(width), imageHeight := Some(height))
  {
    seq(|cards|, i requires 0 <= i < |cards| =>
      if cards[i].id == cardId then cards[i].(imageWidth := Some(width), imageHeight := Some(height))
      else cards[i])
  }

  /** An edit addressed to an id that no card has leaves the list unchanged. */
  lemma EditsOfAbsentIdChangeNothing(cards: seq<Card>, cardId: string, data: string, name: string, w: int, h: int)
    requires cardId !in Ids(cards)
    ensures WithImage(cards, cardId, data, name) == cards
    ensures WithoutImage(cards, cardId) == cards
    ensures WithImageSize(cards, cardId, w, h) == cards
  {
    assert forall i :: 0 <= i < |cards| ==> cards[i].id != cardId by {
      forall i | 0 <= i < |cards| ensures cards[i].id != cardId {
        assert Ids(cards)[i] == cards[i].id;
      }
    }
  }

  /** No edit breaks the pairing of image width and height. */
  lemma EditsKeepDimensionsPaired(cards: seq<Card>, cardId: string, data: string, name: string, w: int, h: int)
    requires AllDimensionsPaired(cards)
    ensures AllDimensionsPaired(WithImage(cards, cardId, data, name))
    ensures AllDimensionsPaired(WithoutImage(cards, cardId))
    ensures AllDimensionsPaired(WithImageSize(cards, cardId, w, h))
  {
  }

  /** Each resize frame overwrites the previous one: only the last frame's size survives. */
  lemma LastResizeFrameWins(cards: seq<Card>, cardId: string, w1: int, h1: int, w2: int, h2: int)
    ensures WithImageSize(WithImageSize(cards, cardId, w1, h1), cardId, w2, h2) == WithImageSize(cards, cardId, w2, h2)
  {
  }

  /** Deleting an image twice is the same as deleting it once. */
  lemma DeleteImageIdempotent(cards: seq<Card>, cardId: string)
    ensures WithoutImage(WithoutImage(cards, cardId), cardId) == WithoutImage(cards, cardId)
  {
  }

  /** Deleting after a resize leaves no trace of the resize. */
  lemma DeleteAfterResizeForgetsSize(cards: seq<Card>, cardId: string, w: int, h: int)
    ensures WithoutImage(WithImageSize(cards, cardId, w, h), cardId) == WithoutImage(cards, cardId)
  {
  }

  // ---------------------------------------------------------------------------
  // Resize geometry
  // ---------------------------------------------------------------------------

  /** `Math.max(100, v)` */
  function AtLeastMin(v: int): (r: int)
    ensures r >= MinSize && r >= v && (r == v || r == MinSize)
  {
    if v < MinSize then MinSize else v
  }

  /** The handles the editor draws on a hovered card image (corners only). */
  const DrawnHandles: seq<string> := ["nw", "ne", "sw", "se"]

  /** Handles whose drag changes the width, and the sign the horizontal delta enters with. */
  predicate DrivesWidth(handle: string) { handle in {"se", "sw", "ne", "nw", "e", "w"} }
  predicate DrivesHeight(handle: string) { handle in {"se", "sw", "ne", "nw", "n", "s"} }
  /** East-side handles grow the width as the pointer moves right, west-side ones shrink it. */
  function WidthSign(handle: string): int { if handle in {"sw", "nw", "w"} then -1 else 1 }
  /** South-side handles grow the height as the pointer moves down, north-side ones shrink it. */
  function HeightSign(handle: string): int { if handle in {"ne", "nw", "n"} then -1 else 1 }

  /**
   * The size the `switch (resizeHandle)` of the move handler computes from the start size
   * and the pointer delta.
   */
  function ResizedSize(handle: string, startWidth: int, startHeight: int, dx: int, dy: int): (r: (int, int))
    ensures r.0 == if DrivesWidth(handle) then AtLeastMin(startWidth + WidthSign(handle) * dx) else startWidth
    ensures r.1 == if DrivesHeight(handle) then AtLeastMin(startHeight + HeightSign(handle) * dy) else startHeight
  {
    match handle
    case "se" => (AtLeastMin(startWidth + dx), AtLeastMin(startHeight + dy))
    case "sw" => (AtLeastMin(startWidth - dx), AtLeastMin(startHeight + dy))
    case "ne" => (AtLeastMin(startWidth + dx), AtLeastMin(startHeight - dy))
    case "nw" => (AtLeastMin(startWidth - dx), AtLeastMin(startHeight - dy))
    case "e" => (AtLeastMin(startWidth + dx), startHeight)
    case "w" => (AtLeastMin(startWidth - dx), startHeight)
    case "n" => (startWidth, AtLeastMin(startHeight - dy))
    case "s" => (startWidth, AtLeastMin(startHeight + dy))
    case _ => (startWidth, startHeight)
  }

  /** A driven dimension never ends below 100; an undriven one keeps the start value. */
  lemma ResizeFloor(handle: string, startWidth: int, startHeight: int, dx: int, dy: int)
    ensures var r := ResizedSize(handle, startWidth, startHeight, dx, dy);
      (DrivesWidth(handle) ==> r.0 >= MinSize) && (!DrivesWidth(handle) ==> r.0 == startWidth) &&
      (DrivesHeight(handle) ==> r.1 >= MinSize) && (!DrivesHeight(handle) ==> r.1 == startHeight)
  {
  }

  /** Every handle drawn on the card drives both dimensions. */
  lemma DrawnHandlesDriveBoth(handle: string)
    requires handle in DrawnHandles
    ensures DrivesWidth(handle) && DrivesHeight(handle)
  {
  }

  /** Worked examples of the handle table. */
  lemma ResizeExamples()
    ensures ResizedSize("se", 300, 200, 50, 30) == (350, 230)
    ensures ResizedSize("nw", 300, 200, 50, 30) == (250, 170)
    ensures ResizedSize("nw", 120, 120, 250, 250) == (100, 100)
    ensures ResizedSize("diagonal", 120, 80, 250, 250) == (120, 80)
  {
  }

  /** Index of the first card with the given id. */
  function FirstIndexOf(cards: seq<Card>, cardId: string): (r: Option<nat>)
    ensures r.None? <==> forall i :: 0 <= i < |cards| ==> cards[i].id != cardId
    ensures r.Some? ==>
      r.value < |cards| && cards[r.value].id == cardId && forall j :: 0 <= j < r.value ==> cards[j].id != cardId
  {
    if cards == [] then None
    else if cards[0].id == cardId then Some(0)
    else
      var r := FirstIndexOf(cards[1..], cardId);
      if r.Some? then Some(r.value + 1) else None
  }

  /** `block.cards.find(c => c.id === cardId)` */
  function FindCard(cards: seq<Card>, cardId: string): (r: Option<Card>)
    ensures r.None? <==> cardId !in Ids(cards)
    ensures r.Some? ==> r.value.id == cardId && r.value in cards
    ensures r.Some? ==> exists k :: 0 <= k < |cards| && cards[k] == r.value && forall j :: 0 <= j < k ==> cards[j].id != cardId
  {
    var k := FirstIndexOf(cards, cardId);
    if k.Some? then Some(cards[k.value])
    else
      assert cardId !in Ids(cards);
      None
  }

  /** `card?.imageWidth || 300`: a missing card, an unset width and a zero width all fall back. */
  function StartWidth(card: Option<Card>): (w: int)
    ensures w == DefaultWidth || (card.Some? && card.value.imageWidth == Some(w) && w != 0)
    ensures card.Some? && card.value.imageWidth.Some? && card.value.imageWidth.value != 0 ==> w == card.value.imageWidth.value
  {
    if card.Some? && card.value.imageWidth.Some? && card.value.imageWidth.value != 0 then card.value.imageWidth.value
    else DefaultWidth
  }

  /** `card?.imageHeight || 200` */
  function StartHeight(card: Option<Card>): (h: int)
    ensures h == DefaultHeight || (card.Some? && card.value.imageHeight == Some(h) && h != 0)
    ensures card.Some? && card.value.imageHeight.Some? && card.value.imageHeight.value != 0 ==> h == card.value.imageHeight.value
  {
    if card.Some? && card.value.imageHeight.Some? && card.value.imageHeight.value != 0 then card.value.imageHeight.value
    else DefaultHeight
  }

  /** A string-valued state slot that JavaScript treats as set: present and non-empty. */
  predicate IsSet(o: Option<string>) {
    o.Some? && o.value != ""
  }

  // ---------------------------------------------------------------------------
  // Rendering of one card's image area
  // ---------------------------------------------------------------------------

  /** `card.imageWidth ? `${card.imageWidth}px` : "auto"` */
  function ImageDimensionStyle(d: Option<int>): (r: string)
    ensures r == "auto" <==> d.None? || d.value == 0
    ensures d.Some? && d.value != 0 ==> r == IntToString(d.value) + "px"
  {
    if d.Some? && d.value != 0 then
      assert (IntToString(d.value) + "px")[0] != 'a';
      IntToString(d.value) + "px"
    else "auto"
  }

  /** After a delete the image area is the upload prompt and both sizes render as "auto". */
  lemma DeletedCardRendersAuto(cards: seq<Card>, cardId: string, i: nat)
    requires i < |cards| && cards[i].id == cardId
    ensures var c := WithoutImage(cards, cardId)[i];
      c.image == "" && ImageDimensionStyle(c.imageWidth) == "auto" && ImageDimensionStyle(c.imageHeight) == "auto"
  {
  }

  /** After a resize frame the image renders at explicit pixel sizes, never "auto". */
  lemma ResizedCardRendersPixels(cards: seq<Card>, cardId: string, i: nat, handle: string, w0: int, h0: int, dx: int, dy: int)
    requires i < |cards| && cards[i].id == cardId
    requires w0 != 0 && h0 != 0
    ensures var size := ResizedSize(handle, w0, h0, dx, dy);
      var c := WithImageSize(cards, cardId, size.0, size.1)[i];
      ImageDimensionStyle(c.imageWidth) == IntToString(size.0) + "px" &&
      ImageDimensionStyle(c.imageHeight) == IntToString(size.1) + "px"
  {
  }

  /** A resize frame keeps every card's id and image, so the controls of a hovered card stay up. */
  lemma ResizeKeepsImages(cards: seq<Card>, cardId: string, width: int, height: int)
    ensures var r := WithImageSize(cards, cardId, width, height);
      |r| == |cards| && forall i :: 0 <= i < |cards| ==> r[i].id == cards[i].id && r[i].image == cards[i].image
  {
  }

  // ---------------------------------------------------------------------------
  // The editor instance
  // ---------------------------------------------------------------------------

  /** The resize controller's abstract state. */
  datatype ResizeState =
    | Idle
    | Resizing(cardId: string, handle: string, startX: int, startY: int, startWidth: int, startHeight: int)

  class CardBlockEditor {
    /** The block as last handed back through `onUpdate`. */
    var block: TwoColumnCardBlock
    var hoveredCardId: Option<string>
    var resizingCardId: Option<string>
    var isResizing: bool
    var resizeHandle: Option<string>
    var startX: int
    var startY: int
    var startWidth: int
    var startHeight: int

    /** The three resize flags move together: all set while resizing, all clear otherwise. */
    ghost predicate Valid()
      reads this
    {
      (isResizing <==> resizeHandle.Some?) && (isResizing <==> resizingCardId.Some?)
    }

    function State(): ResizeState
      reads this
      requires Valid()
    {
      if isResizing then Resizing(resizingCardId.value, resizeHandle.value, startX, startY, startWidth, startHeight)
      else Idle
    }

    constructor (block: TwoColumnCardBlock)
      ensures Valid() && State() == Idle
      ensures this.block == block && hoveredCardId == None
    {
      this.block := block;
      hoveredCardId := None;
      resizingCardId := None;
      isResizing := false;
      resizeHandle := None;
      startX, startY, startWidth, startHeight := 0, 0, 0, 0;
    }

    /**
     * A press on a handle: records the card, the handle, the pointer and the start size.
     * A press while already resizing replaces the recorded resize.
     */
    method ResizeStart(cardId: string, handle: string, clientX: int, clientY: int)
      requires Valid()
      modifies this
      ensures Valid()
      ensures State() == Resizing(cardId, handle, clientX, clientY,
                                  StartWidth(FindCard(block.cards, cardId)), StartHeight(FindCard(block.cards, cardId)))
      ensures block == old(block) && hoveredCardId == old(hoveredCardId)
    {
      isResizing := true;
      resizingCardId := Some(cardId);
      resizeHandle := Some(handle);
      startX := clientX;
      startY := clientY;
      var card := FindCard(block.cards, cardId);
      startWidth := StartWidth(card);
      startHeight := StartHeight(card);
    }

    /**
     * A pointer move anywhere in the document. While resizing with a set handle and card id,
     * the size computed from the start size and the delta is written into that card;
     * otherwise nothing happens.
     */
    method MouseMove(clientX: int, clientY: int)
      requires Valid()
      modifies this
      ensures Valid() && State() == old(State())
      ensures hoveredCardId == old(hoveredCardId)
      ensures block == match old(State())
        case Resizing(id, handle, x0, y0, w0, h0) =>
          if id != "" && handle != "" then
            var size := ResizedSize(handle, w0, h0, clientX - x0, clientY - y0);
            old(block).(cards := WithImageSize(old(block.cards), id, size.0, size.1))
          else old(block)
        case Idle => old(block)
    {
      if !isResizing || !IsSet(resizeHandle) || !IsSet(resizingCardId) {
        return;
      }
      var deltaX := clientX - startX;
      var deltaY := clientY - startY;
      var newWidth := startWidth;
      var newHeight := startHeight;
      match resizeHandle.value {
        case "se" =>
          newWidth := AtLeastMin(startWidth + deltaX);
          newHeight := AtLeastMin(startHeight + deltaY);
        case "sw" =>
          newWidth := AtLeastMin(startWidth - deltaX);
          newHeight := AtLeastMin(startHeight + deltaY);
        case "ne" =>
          newWidth := AtLeastMin(startWidth + deltaX);
          newHeight := AtLeastMin(startHeight - deltaY);
        case "nw" =>
          newWidth := AtLeastMin(startWidth - deltaX);
          newHeight := AtLeastMin(startHeight - deltaY);
        case "e" =>
          newWidth := AtLeastMin(startWidth + deltaX);
        case "w" =>
          newWidth := AtLeastMin(startWidth - deltaX);
        case "n" =>
          newHeight := AtLeastMin(startHeight - deltaY);
        case "s" =>
          newHeight := AtLeastMin(startHeight + deltaY);
        case _ =>
      }
      block := block.(cards := WithImageSize(block.cards, resizingCardId.value, newWidth, newHeight));
    }

    /** Pointer release anywhere: back to Idle; the block is not touched. */
    method MouseUp()
      requires Valid()
      modifies this
      ensures Valid() && State() == Idle
      ensures block == old(block) && hoveredCardId == old(hoveredCardId)
    {
      if isResizing {
        isResizing := false;
        resizeHandle := None;
        resizingCardId := None;
      }
    }

    /** Pointer enters a card: its controls show. Resizing is unaffected. */
    method MouseEnter(cardId: string)
      requires Valid()
      modifies this
      ensures Valid() && State() == old(State()) && block == old(block)
      ensures hoveredCardId == Some(cardId)
      ensures forall c :: ControlsVisible(c) <==> c.id == cardId && c.image != ""
    {
      hoveredCardId := Some(cardId);
    }

    /** Pointer leaves a card: no card is hovered. Resizing is unaffected. */
    method MouseLeave()
      requires Valid()
      modifies this
      ensures Valid() && State() == old(State()) && block == old(block)
      ensures hoveredCardId == None
      ensures forall c :: !ControlsVisible(c)
    {
      hoveredCardId := None;
    }

    /**
     * Completion of a card image read: the data string and file name land in that card.
     * The read's handler closes over `captured`, the block rendered when the file was
     * chosen, and hands back that block with the image set: an edit made to the block
     * while the file was being read is dropped.
     */
    method ImageLoaded(captured: TwoColumnCardBlock, cardId: string, data: string, fileName: string)
      requires Valid()
      modifies this
      ensures Valid() && State() == old(State()) && hoveredCardId == old(hoveredCardId)
      ensures block == captured.(cards := WithImage(captured.cards, cardId, data, fileName))
      ensures captured == old(block) ==> block == old(block).(cards := WithImage(old(block.cards), cardId, data, fileName))
    {
      block := captured.(cards := WithImage(captured.cards, cardId, data, fileName));
    }

    /** The delete button on a card image. */
    method DeleteImage(cardId: string)
      requires Valid()
      modifies this
      ensures Valid() && State() == old(State()) && hoveredCardId == old(hoveredCardId)
      ensures block == old(block).(cards := WithoutImage(old(block.cards), cardId))
    {
      block := block.(cards := WithoutImage(block.cards, cardId));
    }

    /** The upload/delete overlay and the resize handles show on a hovered card that has an image. */
    function ControlsVisible(c: Card): (r: bool)
      reads this
      ensures r <==> hoveredCardId == Some(c.id) && c.image != ""
    {
      c.image != "" && hoveredCardId == Some(c.id)
    }
  }
}
