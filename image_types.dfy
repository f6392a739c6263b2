/** The record and enumeration types shared by the generation pipeline and
    the history store (src/types/image.ts). */
module ImageTypes {
  import opened Options
  import opened JsonValues

  /** The seven aspect ratios a request may ask for. */
  datatype AspectRatio = Square | Wide16x9 | Tall9x16 | Landscape3x2 | Portrait2x3 | Standard4x3 | Vertical3x4

  /** The string literal that stands for the ratio. */
  function RatioName(a: AspectRatio): string {
    match a
    case Square => "1:1"
    case Wide16x9 => "16:9"
    case Tall9x16 => "9:16"
    case Landscape3x2 => "3:2"
    case Portrait2x3 => "2:3"
    case Standard4x3 => "4:3"
    case Vertical3x4 => "3:4"
  }

  datatype ImageQuality = StandardQuality | HighQuality | UltraQuality

  /** What the form submits. `style` is any text, since `buildPrompt` looks
      it up with a fallback for unknown ids; the ratio and the quality are
      the declared unions. */
  datatype GenerationRequest = GenerationRequest(
    prompt: string,
    style: Option<string>,
    aspectRatio: Option<AspectRatio>,
    quality: Option<ImageQuality>)

  datatype Metadata = Metadata(model: string, processingTime: int, prompt: string)

  /** The two shapes `generateImage` returns. `imageUrl` is whatever value
      the response held at the place the URL was found. */
  datatype GenerationResponse =
    | Success(imageUrl: Json, metadata: Metadata)
    | Failure(error: string)

  /** A generated image as the page hands it to the history store;
      `createdAt` is the ISO text its `Date` serialises to. */
  datatype GeneratedImage = GeneratedImage(
    id: string,
    url: string,
    prompt: string,
    style: Option<string>,
    aspectRatio: Option<string>,
    createdAt: string,
    downloadUrl: Option<string>)

  datatype StyleOption = StyleOption(id: string, name: string, description: string, prompt: string)
}
