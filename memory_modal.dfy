/** The memory modal: two draft text fields, re-synchronised from the image
    it is shown and written back through `onUpdate` when saved. */
module MemoryModal {
  import opened Memories

  /** The callbacks the modal invokes on its host, in call order. */
  datatype Callback = OnUpdate(id: int, data: Patch) | OnClose

  /** `value || ''` for a text field: a falsy value (here, the empty
      string) falls back to the empty string. */
  function OrEmpty(value: string): (r: string)
    ensures r == value
  {
    if value == "" then "" else value
  }

  /** The modal renders nothing unless it is open and has an image. */
  predicate Renders(isOpen: bool, image: Option<Image>)
  {
    isOpen && image.Some?
  }

  /** The callbacks `handleSave` fires for a given draft: none unless there
      is an image and editing is allowed, otherwise `onUpdate` with the
      image's id and exactly the two drafts, then `onClose`. */
  function SaveCalls(image: Option<Image>, canEdit: bool, date: string, caption: string): seq<Callback>
  {
    if image.Some? && canEdit then [OnUpdate(image.value.id, DraftPatch(date, caption)), OnClose] else []
  }

  lemma SaveCallsShape(image: Option<Image>, canEdit: bool, date: string, caption: string)
    ensures var calls := SaveCalls(image, canEdit, date, caption);
      && (calls == [] <==> !canEdit || image.None?)
      && (calls != [] ==> |calls| == 2 && calls[1] == OnClose
                          && calls[0] == OnUpdate(image.value.id, Patch(None, None, Some(date), Some(caption))))
  {
  }

  class Modal {
    var date: string
    var caption: string

    constructor ()
      ensures date == "" && caption == ""
    {
      date := "";
      caption := "";
    }

    /** The effect that runs when the `image` prop changes: a present image
        overwrites both drafts, an absent one leaves them alone. */
    method ImageChanged(image: Option<Image>)
      modifies this
      ensures image.Some? ==> date == image.value.date && caption == image.value.caption
      ensures image.None? ==> date == old(date) && caption == old(caption)
    {
      if image.Some? {
        date := OrEmpty(image.value.date);
        caption := OrEmpty(image.value.caption);
      }
    }

    /** Typing into the date input changes only the date draft. */
    method EditDate(value: string)
      modifies this
      ensures date == value && caption == old(caption)
    {
      date := value;
    }

    /** Typing into the caption input changes only the caption draft. */
    method EditCaption(value: string)
      modifies this
      ensures caption == value && date == old(date)
    {
      caption := value;
    }

    /** `handleSave`: returns the callbacks it fires, in order; the drafts
        themselves are not changed. */
    method HandleSave(image: Option<Image>, canEdit: bool) returns (calls: seq<Callback>)
      ensures calls == SaveCalls(image, canEdit, date, caption)
    {
      calls := [];
      if image.Some? && canEdit {
        calls := calls + [OnUpdate(image.value.id, DraftPatch(date, caption))];
        calls := calls + [OnClose];
      }
    }
  }
}
