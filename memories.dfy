/** The records the gallery components pass between each other. */
module Memories {

  datatype Option<T> = None | Some(value: T)

  /** One gallery entry, `{id, src, date, caption}`: a numeric id, the image
      URL (a bundled asset or an object URL) and two free-text labels. */
  datatype Image = Image(id: int, src: string, date: string, caption: string)

  /** The own keys of an object that is spread over an Image
      (`{...img, ...newData}`): a key that is present overrides the field,
      an absent key leaves the field as it was. */
  datatype Patch = Patch(id: Option<int>, src: Option<string>, date: Option<string>, caption: Option<string>)

  /** The patch `{date, caption}` that the memory modal hands to `onUpdate`. */
  function DraftPatch(date: string, caption: string): Patch
  {
    Patch(None, None, Some(date), Some(caption))
  }

  function Layer<T>(field: T, key: Option<T>): T
  {
    if key.Some? then key.value else field
  }

  /** `{...img, ...p}` */
  function Merge(img: Image, p: Patch): Image
  {
    Image(Layer(img.id, p.id), Layer(img.src, p.src), Layer(img.date, p.date), Layer(img.caption, p.caption))
  }

  /** Spreading the same patch a second time changes nothing, and every
      field the patch does not name keeps its old value. */
  lemma MergeIdempotent(img: Image, p: Patch)
    ensures Merge(Merge(img, p), p) == Merge(img, p)
    ensures p.src.None? ==> Merge(img, p).src == img.src
    ensures p.id.None? ==> Merge(img, p).id == img.id
  {
  }

  /** The modal's patch sets exactly `date` and `caption`. */
  lemma DraftPatchMerge(img: Image, date: string, caption: string)
    ensures Merge(img, DraftPatch(date, caption)) == Image(img.id, img.src, date, caption)
  {
  }
}
