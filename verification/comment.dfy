/** The Comment document of models/Comment.js: a reference to the outfit it
    belongs to, a reference to its author, its text, and the two timestamps
    that `timestamps: true` maintains. */
module CommentModel {
  import opened Base

  /** `outfitId` and `userId` are references (ids), not embedded records. */
  datatype Comment = Comment(
    outfitId: Id,
    userId: Id,
    text: string,
    createdAt: nat,
    updatedAt: nat)

  /** The schema's `required: true` on its three paths: an ObjectId path
      must be set, and a String path must also be non-empty. */
  predicate Conforms(c: Comment)
  {
    c.outfitId != "" && c.userId != "" && c.text != ""
  }

  /** Building and validating a new comment (`new Comment({...})` followed
      by `save()`): None when validation fails, so nothing is stored. */
  function Create(outfitId: Field, userId: Field, text: Field, now: nat): (r: Option<Comment>)
    ensures r.Some? <==> Given(outfitId) && Given(userId) && Given(text)
    ensures r.Some? ==> Conforms(r.value)
    ensures r.Some? ==> r.value.outfitId == outfitId.value && r.value.userId == userId.value
                        && r.value.text == text.value
    ensures r.Some? ==> r.value.createdAt == now && r.value.updatedAt == now
  {
    if Given(outfitId) && Given(userId) && Given(text) then
      Some(Comment(outfitId.value, userId.value, text.value, now, now))
    else
      None
  }

  /** An update through `findByIdAndUpdate(id, { text })`: the text is
      replaced and `updatedAt` refreshed; `createdAt` and both references
      are kept. Update queries do not run validators, so the schema is not
      re-checked. */
  function Touch(c: Comment, text: string, now: nat): (r: Comment)
    ensures r.outfitId == c.outfitId && r.userId == c.userId && r.createdAt == c.createdAt
    ensures r.text == text && r.updatedAt == now
    ensures Conforms(c) ==> (Conforms(r) <==> text != "")
  {
    c.(text := text, updatedAt := now)
  }
}
