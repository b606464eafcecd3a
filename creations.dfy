/** Rows of the `creations` table that every successful handler appends to. */
module Creations {

  /** The `type` column. */
  datatype CreationType = Article | BlogTitle | Image | ResumeReview
  {
    /** The string literal the handlers write into the `type` column. */
    function Column(): string
    {
      match this
      case Article => "article"
      case BlogTitle => "blog-title"
      case Image => "image"
      case ResumeReview => "resume-review"
    }
  }

  /** One row: `user_id`, `prompt`, `content`, `type` and `publish`.
      Handlers that do not name `publish` store the column default, false. */
  datatype Creation = Creation(userId: string, prompt: string, content: string, kind: CreationType, publish: bool)

  /** The `type` column tells the four kinds of creation apart. */
  lemma ColumnIdentifiesType(a: CreationType, b: CreationType)
    ensures a.Column() == b.Column() <==> a == b
  {
  }
}
