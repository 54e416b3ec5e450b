/**
 * The value types the message-transformer context works with. None of them
 * is mutated after construction, so each is a datatype.
 */
module CopybaraTypes {

  /** A committer identity: display name and e-mail address, compared by value. */
  datatype Author = Author(name: string, email: string)

  /**
   * One unit of source history. `R` is the origin's reference type; the
   * context only ever turns a reference into its display string.
   */
  datatype Change<R> = Change(
    reference: R,
    originalAuthor: Author,
    message: string,
    labels: map<string, string>)

  /**
   * The read-only view of a change handed to a message transformer: the
   * original author already passed through the authoring policy and the
   * reference already rendered as a string.
   */
  datatype SkylarkChange = SkylarkChange(
    author: Author,
    reference: string,
    message: string,
    labels: map<string, string>)

  /**
   * The authoring policy, reduced to the one operation the context uses.
   * Its resolution rules are not modelled: `resolve` is any total function,
   * fixed for the lifetime of a context.
   */
  datatype Authoring = Authoring(resolve: Author -> Author)
}
