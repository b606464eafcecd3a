/** The foreign services the AI controller calls. Nothing here runs them:
    each call is recorded with the arguments the controller passes, and
    how the service answers is an input of the request (an Env). */
module Providers {
  import opened Results
  import opened Creations

  newtype byte = x: int | 0 <= x < 256

  /** Arguments of the `chat` helper's completion request. */
  const GroqModel: string := "llama-3.3-70b-versatile"
  const Temperature: real := 0.7
  /** The default value of `chat`'s `max_tokens` parameter. */
  const DefaultMaxTokens: int := 400
  const BlogTitleMaxTokens: int := 100
  const ResumeReviewMaxTokens: int := 1000

  /** The error JavaScript throws for `image.path` when no file was uploaded. */
  const UndefinedPathMessage: string := "Cannot read properties of undefined (reading 'path')"

  /** What is handed to the asset service's upload: the PNG bytes the
      text-to-image service returned (sent as a base64 data URL) or the
      path of the file the caller uploaded. */
  datatype Source = GeneratedImage(png: seq<byte>) | LocalFile(path: string)

  /** The upload-time transformation: none, or the background-removal effect
      (`effect: "background_removal"`, `background_removal: "remove_the_background"`). */
  datatype Transformation = Untransformed | RemoveBackground

  /** The fields of an upload's answer that the handlers read. */
  datatype Uploaded = Uploaded(secureUrl: string, publicId: string)

  /** One external call, with the arguments the controller passes to it. */
  datatype Call =
    | Chat(model: string, prompt: string, temperature: real, maxTokens: int)
    | TextToImage(prompt: string)
    | Upload(source: Source, transformation: Transformation)
    | BuildUrl(publicId: string, effect: string)
    | ReadFile(path: string)
    | ParsePdf(data: seq<byte>)
    | InsertCreation(row: Creation)
    | UpdateFreeUsage(userId: string, value: int)

  /** How each service answers during one request: the completion text, the
      generated image, the upload, the derived URL, the file read, the PDF
      text, the SQL insert and the metadata update. */
  datatype Env = Env(
    chat: Result<string>,
    textToImage: Result<seq<byte>>,
    upload: Result<Uploaded>,
    url: Result<string>,
    readFile: Result<seq<byte>>,
    parsePdf: Result<string>,
    insert: Result<()>,
    update: Result<()>)

  /** Whether `call` succeeds under `env`, and the error message if it does not. */
  function Answer(env: Env, call: Call): Result<()>
  {
    match call
    case Chat(_, _, _, _) => env.chat.Status()
    case TextToImage(_) => env.textToImage.Status()
    case Upload(_, _) => env.upload.Status()
    case BuildUrl(_, _) => env.url.Status()
    case ReadFile(_) => env.readFile.Status()
    case ParsePdf(_) => env.parsePdf.Status()
    case InsertCreation(_) => env.insert
    case UpdateFreeUsage(_, _) => env.update
  }

  /** The completion request `chat(prompt, maxTokens)` sends; an absent
      `maxTokens` takes the parameter's default. */
  function ChatRequest(prompt: string, maxTokens: Option<int>): Call
  {
    Chat(GroqModel, prompt, Temperature, maxTokens.GetOr(DefaultMaxTokens))
  }

  /** A request field interpolated into a template literal: an absent
      field prints as "undefined". */
  function TemplateText(v: Option<string>): string
  {
    if v.Some? then v.value else "undefined"
  }

  /** The generative-removal effect for the object the caller names. */
  function RemovalEffect(obj: string): string
  {
    "gen_remove:" + obj
  }

  /** The ledger prompt of an object removal. */
  function RemovalPrompt(obj: string): string
  {
    "Removed " + obj
  }

  /** The completion prompt of a resume review, whitespace included. */
  function ResumePrompt(text: string): string
  {
    "\n      Review this resume and provide detailed feedback:\n      " + text + "\n    "
  }
}
