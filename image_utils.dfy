/** The pure helpers of src/lib/image-utils.ts: prompt truncation, the size
    table of the aspect ratios, the file extension of an image URL's path,
    and the two option tables the form offers. */
module ImageUtils {
  import opened Options
  import opened JsStrings
  import opened ImageTypes
  import Api

  // ---------------------------------------------------------------------
  // truncatePrompt

  const DefaultTruncateLength := 50
  const Ellipsis := "..."

  /** truncatePrompt: a prompt within the limit is returned as it is; a
      longer one is cut to the limit, trimmed, and given "...". */
  function TruncatePrompt(prompt: string, maxLength: int := DefaultTruncateLength): (r: string)
    ensures |prompt| <= maxLength ==> r == prompt
    ensures |prompt| > maxLength ==> EndsWith(r, Ellipsis)
    ensures |prompt| > maxLength >= 0 ==> |r| <= maxLength + 3
  {
    if |prompt| <= maxLength then prompt
    else Trim(SliceTo(prompt, maxLength)) + Ellipsis
  }

  /** What precedes the "..." is the cut prefix with its leading and
      trailing whitespace removed. */
  lemma TruncatedIsTrimmedPrefix(prompt: string, maxLength: int)
    requires |prompt| > maxLength
    ensures var r := TruncatePrompt(prompt, maxLength);
      IsTrimOf(r[..|r| - 3], SliceTo(prompt, maxLength))
  {
    var r := TruncatePrompt(prompt, maxLength);
    TrimSpecified(SliceTo(prompt, maxLength));
    assert r[..|r| - 3] == Trim(SliceTo(prompt, maxLength));
  }

  /** Without a limit the cut falls after 50 characters. */
  lemma TruncateDefaultLimit(prompt: string)
    ensures TruncatePrompt(prompt) == TruncatePrompt(prompt, 50)
  {
  }

  /** A cut that ends in spaces loses them before the "...". */
  lemma TruncateExample()
    ensures TruncatePrompt("a red fox  jumps", 10) == "a red fox..."
  {
    var cut := SliceTo("a red fox  jumps", 10);
    assert cut == "a red fox ";
    assert LeadingWhitespace(cut) == 0;
    assert TrailingWhitespace(cut) == 9;
    assert cut[0..9] == "a red fox";
  }

  // ---------------------------------------------------------------------
  // getImageDimensions

  datatype Dimensions = Dimensions(width: nat, height: nat)

  /** getImageDimensions: the pixel size the UI shows for a ratio. */
  function ImageDimensions(a: AspectRatio): (d: Dimensions)
    ensures d.width > 0 && d.height > 0
  {
    match a
    case Square => Dimensions(1024, 1024)
    case Wide16x9 => Dimensions(1920, 1080)
    case Tall9x16 => Dimensions(1080, 1920)
    case Landscape3x2 => Dimensions(1536, 1024)
    case Portrait2x3 => Dimensions(1024, 1536)
    case Standard4x3 => Dimensions(1280, 960)
    case Vertical3x4 => Dimensions(960, 1280)
  }

  /** The two numbers a ratio is named by, width part first. */
  function RatioParts(a: AspectRatio): (nat, nat) {
    match a
    case Square => (1, 1)
    case Wide16x9 => (16, 9)
    case Tall9x16 => (9, 16)
    case Landscape3x2 => (3, 2)
    case Portrait2x3 => (2, 3)
    case Standard4x3 => (4, 3)
    case Vertical3x4 => (3, 4)
  }

  /** The ratio with width and height exchanged. */
  function Transposed(a: AspectRatio): (t: AspectRatio)
    ensures RatioParts(t) == (RatioParts(a).1, RatioParts(a).0)
  {
    match a
    case Square => Square
    case Wide16x9 => Tall9x16
    case Tall9x16 => Wide16x9
    case Landscape3x2 => Portrait2x3
    case Portrait2x3 => Landscape3x2
    case Standard4x3 => Vertical3x4
    case Vertical3x4 => Standard4x3
  }

  /** A ratio's name is its two parts in decimal around a colon. */
  lemma RatioNameIsParts(a: AspectRatio)
    ensures RatioName(a) == NatToDecimal(RatioParts(a).0) + ":" + NatToDecimal(RatioParts(a).1)
  {
    match a
    case Wide16x9 =>
      assert NatToDecimal(16) == "16";
    case Tall9x16 =>
      assert NatToDecimal(16) == "16";
    case _ =>
  }

  /** Every size has exactly the proportions its ratio names. */
  lemma DimensionsMatchRatio(a: AspectRatio)
    ensures ImageDimensions(a).width * RatioParts(a).1 == ImageDimensions(a).height * RatioParts(a).0
  {
  }

  /** The square is square, and each transposed pair swaps width and
      height. */
  lemma DimensionsOfTransposed(a: AspectRatio)
    ensures ImageDimensions(Transposed(a)) == Dimensions(ImageDimensions(a).height, ImageDimensions(a).width)
    ensures a == Square ==> ImageDimensions(a).width == ImageDimensions(a).height
  {
  }

  // ---------------------------------------------------------------------
  // getImageFileExtension

  const AllowedExtensions: seq<string> := ["jpg", "jpeg", "png", "webp", "gif"]
  const FallbackExtension := "png"

  /** `pathname.split(".").pop()`: what follows the last dot, or the whole
      path when there is none. */
  function LastDotSegment(path: string): (r: string)
    ensures EndsWith(path, r)
    ensures forall k :: 0 <= k < |r| ==> r[k] != '.'
    ensures |r| < |path| ==> path[|path| - |r| - 1] == '.'
  {
    if path == [] || path[|path| - 1] == '.' then []
    else
      var r := LastDotSegment(path[..|path| - 1]);
      assert path[..|path| - 1][|path| - 1 - |r|..] == path[|path| - 1 - |r|..|path| - 1];
      r + [path[|path| - 1]]
  }

  /** The three properties of LastDotSegment pin it down: any dot-free
      suffix that is the whole path or follows a dot is that segment. */
  lemma LastDotSegmentUnique(path: string, r: string)
    requires EndsWith(path, r)
    requires forall k :: 0 <= k < |r| ==> r[k] != '.'
    requires |r| < |path| ==> path[|path| - |r| - 1] == '.'
    ensures r == LastDotSegment(path)
  {
    var l := LastDotSegment(path);
    assert |r| == |l|;
  }

  /** getImageFileExtension on the path the URL parser produced; `None`
      stands for a URL the parser rejects. The lower-cased last segment is
      returned when it is listed, "png" otherwise. */
  function ImageFileExtension(pathname: Option<string>): (r: string)
    ensures r in AllowedExtensions
    ensures pathname.Some? && LowerAscii(LastDotSegment(pathname.value)) in AllowedExtensions ==>
      r == LowerAscii(LastDotSegment(pathname.value))
    ensures pathname.None? || LowerAscii(LastDotSegment(pathname.value)) !in AllowedExtensions ==>
      r == FallbackExtension
  {
    if pathname.None? then FallbackExtension
    else
      var extension := LowerAscii(LastDotSegment(pathname.value));
      if extension in AllowedExtensions && extension != "" then extension else FallbackExtension
  }

  /** An upper-case listed extension comes back in lower case. */
  lemma ImageFileExtensionUpperCase()
    ensures ImageFileExtension(Some("/cat.JPEG")) == "jpeg"
  {
    var path := "/cat.JPEG";
    assert path[|path| - 4..] == "JPEG";
    LastDotSegmentUnique(path, "JPEG");
    assert LowerAscii("JPEG") == "jpeg";
  }

  /** Only the last segment counts, so a double extension falls back. */
  lemma ImageFileExtensionDoubleDot()
    ensures ImageFileExtension(Some("/a.png.gz")) == "png"
  {
    assert LastDotSegment("/a.png.gz") == "gz";
  }

  // ---------------------------------------------------------------------
  // STYLE_OPTIONS and ASPECT_RATIOS

  const StyleOptions: seq<StyleOption> := [
    StyleOption("none", "Default", "No specific style applied", ""),
    StyleOption("photorealistic", "Photorealistic", "Realistic, detailed photography style",
      "photorealistic, highly detailed, professional photography"),
    StyleOption("artistic", "Artistic", "Creative and expressive artistic style",
      "artistic, creative, expressive, unique style"),
    StyleOption("cinematic", "Cinematic", "Movie-like dramatic lighting and composition",
      "cinematic lighting, dramatic, movie-like composition"),
    StyleOption("fantasy", "Fantasy", "Magical and mystical atmosphere",
      "fantasy art, magical, ethereal, mystical atmosphere"),
    StyleOption("abstract", "Abstract", "Geometric shapes and creative interpretation",
      "abstract art, geometric shapes, creative interpretation"),
    StyleOption("vintage", "Vintage", "Retro aesthetic with nostalgic atmosphere",
      "vintage style, retro aesthetic, nostalgic atmosphere")
  ]

  /** `label` is spelled `caption` here, `label` being a Dafny keyword. */
  datatype AspectRatioOption = AspectRatioOption(value: AspectRatio, caption: string, description: string)

  const AspectRatioOptions: seq<AspectRatioOption> := [
    AspectRatioOption(Square, "Square (1:1)", "Perfect for social media posts"),
    AspectRatioOption(Wide16x9, "Landscape (16:9)", "Widescreen, great for wallpapers"),
    AspectRatioOption(Tall9x16, "Portrait (9:16)", "Vertical, perfect for mobile"),
    AspectRatioOption(Landscape3x2, "Photo (3:2)", "Classic photography format"),
    AspectRatioOption(Portrait2x3, "Portrait Photo (2:3)", "Vertical photography format"),
    AspectRatioOption(Standard4x3, "Standard (4:3)", "Traditional computer screen"),
    AspectRatioOption(Vertical3x4, "Vertical (3:4)", "Tall vertical format")
  ]

  /** The values the option table lists, in order. */
  function ListedRatios(): (r: seq<AspectRatio>)
    ensures |r| == |AspectRatioOptions|
    ensures forall k :: 0 <= k < |r| ==> r[k] == AspectRatioOptions[k].value
  {
    seq(|AspectRatioOptions|, k requires 0 <= k < |AspectRatioOptions| => AspectRatioOptions[k].value)
  }

  /** Each of the seven ratios is offered exactly once. */
  lemma AspectRatioOptionsListEachOnce()
    ensures forall a: AspectRatio :: a in ListedRatios()
    ensures forall j, k :: 0 <= j < k < |ListedRatios()| ==> ListedRatios()[j] != ListedRatios()[k]
  {
    var listed := [Square, Wide16x9, Tall9x16, Landscape3x2, Portrait2x3, Standard4x3, Vertical3x4];
    assert ListedRatios() == listed;
    forall a: AspectRatio ensures a in listed {
      match a
      case Square => assert listed[0] == a;
      case Wide16x9 => assert listed[1] == a;
      case Tall9x16 => assert listed[2] == a;
      case Landscape3x2 => assert listed[3] == a;
      case Portrait2x3 => assert listed[4] == a;
      case Standard4x3 => assert listed[5] == a;
      case Vertical3x4 => assert listed[6] == a;
    }
  }

  /** Every style the form offers has, as its prompt, exactly the phrase
      buildPrompt appends for it; "none" has none. And every style
      buildPrompt knows is offered. */
  lemma StyleOptionsAgreeWithBuildPrompt()
    ensures forall k :: 0 <= k < |StyleOptions| && StyleOptions[k].id != "none" ==>
      Api.StyleModifier(StyleOptions[k].id) == Some(StyleOptions[k].prompt)
    ensures forall k :: 0 <= k < |StyleOptions| && StyleOptions[k].id == "none" ==>
      StyleOptions[k].prompt == "" && Api.StyleModifier("none").None?
    ensures forall style :: Api.StyleModifier(style).Some? ==>
      exists k :: 0 <= k < |StyleOptions| && StyleOptions[k].id == style
  {
    forall style | Api.StyleModifier(style).Some?
      ensures exists k :: 0 <= k < |StyleOptions| && StyleOptions[k].id == style
    {
      var k := if style == "photorealistic" then 1 else if style == "artistic" then 2
        else if style == "cinematic" then 3 else if style == "fantasy" then 4
        else if style == "abstract" then 5 else 6;
      assert StyleOptions[k].id == style;
    }
  }
}
