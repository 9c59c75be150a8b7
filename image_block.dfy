/**
 * The single-image block: the style values its `<img>` is drawn with, the upload
 * prompt shown instead when there is no image, and what an upload does.
 * Widths and heights are integers; the original also accepts fractional numbers.
 */
module ImageBlock {
  import opened Strings
  import opened Decimal

  /** Files strictly larger than this many bytes draw the size advisory. */
  const AdvisoryBytes: nat := 1024 * 1024

  datatype ImageBlock = ImageBlock(
    id: string,
    src: string,
    alt: string,
    width: int,
    height: int,
    widthUnit: string,
    heightUnit: string,
    alignment: string)

  /** The style attributes of the `<img>` element that depend on the block. */
  datatype ImageStyle = ImageStyle(width: string, height: string, display: string, margin: string)

  /** What the block draws: the upload prompt, or the image. */
  datatype ImageView =
    | UploadPrompt
    | Picture(src: string, alt: string, style: ImageStyle)

  /** `${block.width}${block.widthUnit}`: the width is always printed with its own unit. */
  function WidthStyle(b: ImageBlock): (r: string)
    ensures |r| > |b.widthUnit|
    ensures r[..|r| - |b.widthUnit|] == IntToString(b.width) && r[|r| - |b.widthUnit|..] == b.widthUnit
  {
    IntToString(b.width) + b.widthUnit
  }

  /**
   * The height is printed with "%" when its unit is "%", and with "px" for every other
   * unit value, whatever the stored unit says.
   */
  function HeightStyle(b: ImageBlock): (r: string)
    ensures b.heightUnit == "%" ==> r == IntToString(b.height) + "%"
    ensures b.heightUnit != "%" ==> r == IntToString(b.height) + "px"
  {
    if b.heightUnit == "%" then IntToString(b.height) + b.heightUnit else IntToString(b.height) + "px"
  }

  /** `block.alt || "Image"` */
  function AltText(b: ImageBlock): (r: string)
    ensures r != ""
    ensures b.alt != "" ==> r == b.alt
    ensures b.alt == "" ==> r == "Image"
  {
    if b.alt != "" then b.alt else "Image"
  }

  function Style(b: ImageBlock): (r: ImageStyle)
    ensures r.display == "block" <==> b.alignment == "center"
    ensures r.display == "inline" <==> b.alignment != "center"
    ensures r.margin == "0 auto" <==> b.alignment == "center"
    ensures r.margin == "0" <==> b.alignment != "center"
    ensures r.width == WidthStyle(b) && r.height == HeightStyle(b)
  {
    ImageStyle(
      WidthStyle(b),
      HeightStyle(b),
      if b.alignment == "center" then "block" else "inline",
      if b.alignment == "center" then "0 auto" else "0")
  }

  /** An empty `src` draws only the upload prompt; otherwise the image with its style. */
  function Render(b: ImageBlock): (r: ImageView)
    ensures r.UploadPrompt? <==> b.src == ""
    ensures r.Picture? ==> r.src == b.src && r.alt == AltText(b) && r.style == Style(b)
  {
    if b.src != "" then Picture(b.src, AltText(b), Style(b)) else UploadPrompt
  }

  /**
   * Unlike the width, the height is printed with its stored unit only when that unit is
   * "%" or "px"; any other stored unit is replaced by "px".
   */
  lemma HeightUnitAsymmetry(b: ImageBlock)
    ensures HeightStyle(b) == IntToString(b.height) + b.heightUnit <==> b.heightUnit == "%" || b.heightUnit == "px"
    ensures HeightStyle(b)[|HeightStyle(b)| - 1] == '%' <==> b.heightUnit == "%"
  {
    var d := IntToString(b.height);
    assert (d + b.heightUnit)[|d|..] == b.heightUnit;
    assert (d + "px")[|d|..] == "px";
  }

  // ---------------------------------------------------------------------------
  // Upload
  // ---------------------------------------------------------------------------

  /** How the asynchronous read of the chosen file ends. */
  datatype ReadOutcome = Loaded(result: string) | ReadFailed

  datatype PickedFile = PickedFile(name: string, size: nat, read: ReadOutcome)

  /** What an upload causes: the advisory, the call to `onSrcChange`, the read-error report. */
  datatype UploadEffects = UploadEffects(sizeAdvisory: bool, srcChange: Option<string>, readErrorLogged: bool)

  /**
   * `handleImageUpload`: no file does nothing; a file larger than 1 MiB draws the advisory
   * and is read anyway; only a non-empty read result is passed on.
   */
  function Upload(file: Option<PickedFile>): (r: UploadEffects)
    ensures r.sizeAdvisory <==> file.Some? && file.value.size > AdvisoryBytes
    ensures r.srcChange.Some? <==> file.Some? && file.value.read.Loaded? && file.value.read.result != ""
    ensures r.srcChange.Some? ==> r.srcChange.value == file.value.read.result && r.srcChange.value != ""
    ensures r.readErrorLogged <==> file.Some? && file.value.read.ReadFailed?
  {
    match file
    case None => UploadEffects(false, None, false)
    case Some(f) =>
      var change := if f.read.Loaded? && f.read.result != "" then Some(f.read.result) else None;
      UploadEffects(f.size > AdvisoryBytes, change, f.read.ReadFailed?)
  }

  /** The size advisory never changes what is committed. */
  lemma AdvisoryDoesNotBlock(name: string, small: nat, large: nat, read: ReadOutcome)
    ensures Upload(Some(PickedFile(name, small, read))).srcChange == Upload(Some(PickedFile(name, large, read))).srcChange
  {
  }

  /** A committed source turns the upload prompt into the image. */
  lemma CommittedUploadShowsImage(b: ImageBlock, file: Option<PickedFile>)
    requires Upload(file).srcChange.Some?
    ensures Render(b.(src := Upload(file).srcChange.value)).Picture?
  {
  }
}
