/** The gallery: an ordered list of image records, an optional selected
    record shown in the memory modal, multi-file upload and in-place
    editing of a record's fields. */
module Gallery {
  import opened Memories
  import MemoryModal

  /** The gallery passes no `canEdit` to its modal, so the modal sees a
      falsy flag. */
  const WiredCanEdit: bool := false

  /** The five bundled records the gallery starts with. */
  function InitialImages(img1: string, img2: string, img3: string, img4: string, img5: string): (r: seq<Image>)
    ensures |r| == 5
    ensures forall k :: 0 <= k < |r| ==> r[k].id == k + 1 && r[k].date == "" && r[k].caption == ""
    ensures r[0].src == img1 && r[1].src == img2 && r[2].src == img3 && r[3].src == img4 && r[4].src == img5
  {
    [Image(1, img1, "", ""), Image(2, img2, "", ""), Image(3, img3, "", ""),
     Image(4, img4, "", ""), Image(5, img5, "", "")]
  }

  function Ids(s: seq<Image>): (r: seq<int>)
    ensures |r| == |s| && forall k :: 0 <= k < |s| ==> r[k] == s[k].id
  {
    seq(|s|, k requires 0 <= k < |s| => s[k].id)
  }

  predicate DistinctIds(s: seq<Image>)
  {
    forall i, j :: 0 <= i < j < |s| ==> s[i].id != s[j].id
  }

  lemma InitialIdsDistinct(img1: string, img2: string, img3: string, img4: string, img5: string)
    ensures DistinctIds(InitialImages(img1, img2, img3, img4, img5))
  {
  }

  // ---------------------------------------------------------------------
  // Editing a record: `prev.map(img => img.id === id ? {...img, ...newData} : img)`

  function UpdateOne(img: Image, id: int, p: Patch): Image
  {
    if img.id == id then Merge(img, p) else img
  }

  function UpdateImages(s: seq<Image>, id: int, p: Patch): (r: seq<Image>)
    ensures |r| == |s|
  {
    if s == [] then [] else [UpdateOne(s[0], id, p)] + UpdateImages(s[1..], id, p)
  }

  /** The list transform is a position-by-position map: same length, every
      record with a different id untouched, every record with the id
      receiving the patch over its own fields. */
  lemma {:induction false} UpdateImagesAt(s: seq<Image>, id: int, p: Patch)
    ensures |UpdateImages(s, id, p)| == |s|
    ensures forall k :: 0 <= k < |s| ==> UpdateImages(s, id, p)[k] == UpdateOne(s[k], id, p)
  {
    if s != [] {
      UpdateImagesAt(s[1..], id, p);
      var r := UpdateImages(s, id, p);
      forall k | 0 <= k < |s| ensures r[k] == UpdateOne(s[k], id, p) {
        if k > 0 { assert r[k] == UpdateImages(s[1..], id, p)[k - 1]; }
      }
    }
  }

  lemma UpdateImagesFields(s: seq<Image>, id: int, p: Patch, k: int)
    requires 0 <= k < |s|
    ensures |UpdateImages(s, id, p)| == |s|
    ensures s[k].id != id ==> UpdateImages(s, id, p)[k] == s[k]
    ensures s[k].id == id ==>
      UpdateImages(s, id, p)[k] ==
        Image(Layer(id, p.id), Layer(s[k].src, p.src), Layer(s[k].date, p.date), Layer(s[k].caption, p.caption))
  {
    UpdateImagesAt(s, id, p);
  }

  /** A patch without an `id` key keeps the order of ids. */
  lemma UpdateKeepsIds(s: seq<Image>, id: int, p: Patch)
    requires p.id.None?
    ensures Ids(UpdateImages(s, id, p)) == Ids(s)
  {
    UpdateImagesAt(s, id, p);
  }

  /** An id that no record carries leaves the list as it was. */
  lemma UpdateAbsentId(s: seq<Image>, id: int, p: Patch)
    requires id !in Ids(s)
    ensures UpdateImages(s, id, p) == s
  {
    UpdateImagesAt(s, id, p);
    forall k | 0 <= k < |s| ensures UpdateImages(s, id, p)[k] == s[k] {
      assert Ids(s)[k] == s[k].id;
    }
  }

  /** Applying the same edit twice is the same as applying it once. */
  lemma UpdateIdempotent(s: seq<Image>, id: int, p: Patch)
    ensures UpdateImages(UpdateImages(s, id, p), id, p) == UpdateImages(s, id, p)
  {
    var r := UpdateImages(s, id, p);
    UpdateImagesAt(s, id, p);
    UpdateImagesAt(r, id, p);
    forall k | 0 <= k < |s| ensures UpdateImages(r, id, p)[k] == r[k] {
      MergeIdempotent(s[k], p);
    }
  }

  /** Editing without an `id` key keeps ids pairwise distinct. */
  lemma UpdateKeepsDistinct(s: seq<Image>, id: int, p: Patch)
    requires p.id.None? && DistinctIds(s)
    ensures DistinctIds(UpdateImages(s, id, p))
  {
    UpdateKeepsIds(s, id, p);
    var r := UpdateImages(s, id, p);
    forall i, j | 0 <= i < j < |r| ensures r[i].id != r[j].id {
      assert Ids(r)[i] == Ids(s)[i] && Ids(r)[j] == Ids(s)[j];
    }
  }

  /** `prev && prev.id === id ? {...prev, ...newData} : prev` */
  function UpdateSelection(sel: Option<Image>, id: int, p: Patch): (r: Option<Image>)
    ensures sel.None? ==> r.None?
    ensures sel.Some? && sel.value.id != id ==> r == sel
    ensures sel.Some? && sel.value.id == id ==> r == Some(UpdateImages([sel.value], id, p)[0])
  {
    if sel.Some? && sel.value.id == id then Some(Merge(sel.value, p)) else sel
  }

  /** A selection that is one of the records stays equal to that record
      after an edit. */
  lemma SelectionStaysInSync(s: seq<Image>, sel: Option<Image>, id: int, p: Patch, k: int)
    requires 0 <= k < |s| && sel == Some(s[k])
    ensures UpdateSelection(sel, id, p) == Some(UpdateImages(s, id, p)[k])
  {
    UpdateImagesAt(s, id, p);
  }

  // ---------------------------------------------------------------------
  // Upload: `Array.from(files).map((file, index) => ({id: Date.now() + index, ...}))`

  /** What the environment supplies for one chosen file:
      `URL.createObjectURL(file)` and the clock reading `Date.now()` taken
      while that file's record is built. */
  datatype Pick = Pick(objectUrl: string, now: int)

  function NewImages(files: seq<Pick>, index: nat): (r: seq<Image>)
    ensures |r| == |files|
  {
    if files == [] then []
    else [Image(files[0].now + index, files[0].objectUrl, "", "")] + NewImages(files[1..], index + 1)
  }

  lemma {:induction false} NewImagesAt(files: seq<Pick>, index: nat)
    ensures |NewImages(files, index)| == |files|
    ensures forall k :: 0 <= k < |files| ==>
      NewImages(files, index)[k] == Image(files[k].now + index + k, files[k].objectUrl, "", "")
  {
    if files != [] {
      NewImagesAt(files[1..], index + 1);
      var r := NewImages(files, index);
      forall k | 0 <= k < |files|
        ensures r[k] == Image(files[k].now + index + k, files[k].objectUrl, "", "")
      {
        if k > 0 { assert r[k] == NewImages(files[1..], index + 1)[k - 1]; }
      }
    }
  }

  /** `files ? [...prev, ...newImages] : prev` */
  function AfterUpload(s: seq<Image>, files: Option<seq<Pick>>): seq<Image>
  {
    if files.None? then s else s + NewImages(files.value, 0)
  }

  /** No file list: the list is unchanged. With a list of n files: the old
      records are an untouched prefix followed by n new records, in file
      order, each with the file's object URL and empty labels. */
  lemma UploadAppends(s: seq<Image>, files: Option<seq<Pick>>)
    ensures files.None? ==> AfterUpload(s, files) == s
    ensures files.Some? ==>
      var r := AfterUpload(s, files);
      && |r| == |s| + |files.value|
      && r[..|s|] == s
      && forall k :: 0 <= k < |files.value| ==>
           r[|s| + k] == Image(files.value[k].now + k, files.value[k].objectUrl, "", "")
  {
    if files.Some? {
      NewImagesAt(files.value, 0);
      var r := AfterUpload(s, files);
      assert r[..|s|] == s;
      forall k | 0 <= k < |files.value|
        ensures r[|s| + k] == Image(files.value[k].now + k, files.value[k].objectUrl, "", "")
      {
        assert r[|s| + k] == NewImages(files.value, 0)[k];
      }
    }
  }

  /** When every reading of the clock in a batch is `base`, the new ids are
      `base + 0, ..., base + n - 1`. */
  lemma ConsecutiveIds(files: seq<Pick>, base: int)
    requires forall k :: 0 <= k < |files| ==> files[k].now == base
    ensures Ids(NewImages(files, 0)) == seq(|files|, k => base + k)
  {
    NewImagesAt(files, 0);
  }

  predicate ClockNonDecreasing(files: seq<Pick>)
  {
    forall i, j :: 0 <= i <= j < |files| ==> files[i].now <= files[j].now
  }

  /** Within one batch the ids are strictly increasing, hence distinct,
      as long as the clock does not run backwards. */
  lemma BatchIdsIncreasing(files: seq<Pick>)
    requires ClockNonDecreasing(files)
    ensures forall i, j :: 0 <= i < j < |files| ==> NewImages(files, 0)[i].id < NewImages(files, 0)[j].id
  {
    NewImagesAt(files, 0);
  }

  /** If the records already present have distinct ids, the clock does not
      run backwards during the batch and it is ahead of every existing id,
      the list after the upload has distinct ids too. */
  lemma UploadKeepsDistinct(s: seq<Image>, files: seq<Pick>)
    requires DistinctIds(s) && ClockNonDecreasing(files)
    requires forall m, k :: 0 <= m < |s| && 0 <= k < |files| ==> s[m].id < files[k].now
    ensures DistinctIds(AfterUpload(s, Some(files)))
  {
    UploadAppends(s, Some(files));
    BatchIdsIncreasing(files);
    var r := AfterUpload(s, Some(files));
    var n := NewImages(files, 0);
    forall i, j | 0 <= i < j < |r| ensures r[i].id != r[j].id {
      if j < |s| {
        assert r[i] == s[i] && r[j] == s[j];
      } else if i < |s| {
        var k := j - |s|;
        assert r[i] == s[i];
        assert r[j].id == files[k].now + k;
        assert s[i].id < files[k].now;
      } else {
        assert r[i] == n[i - |s|] && r[j] == n[j - |s|];
        assert n[i - |s|].id < n[j - |s|].id;
      }
    }
  }

  // ---------------------------------------------------------------------
  // The modal's callbacks, replayed against the gallery's state

  datatype View = View(images: seq<Image>, selected: Option<Image>)

  /** `onUpdate` is `handleUpdateImage`; `onClose` is `setSelectedImage(null)`. */
  function Step(v: View, c: MemoryModal.Callback): View
  {
    match c
    case OnUpdate(id, p) => View(UpdateImages(v.images, id, p), UpdateSelection(v.selected, id, p))
    case OnClose => View(v.images, None)
  }

  function Replay(v: View, calls: seq<MemoryModal.Callback>): View
  {
    if calls == [] then v else Step(Replay(v, calls[..|calls| - 1]), calls[|calls| - 1])
  }

  /** Saving from the modal: with editing allowed and a record selected, the
      drafts are written into every record with the selected id and the
      modal closes; otherwise nothing changes. */
  lemma SaveEffect(v: View, canEdit: bool, date: string, caption: string)
    ensures var r := Replay(v, MemoryModal.SaveCalls(v.selected, canEdit, date, caption));
      if canEdit && v.selected.Some? then
        r == View(UpdateImages(v.images, v.selected.value.id, DraftPatch(date, caption)), None)
      else r == v
  {
    var calls := MemoryModal.SaveCalls(v.selected, canEdit, date, caption);
    if canEdit && v.selected.Some? {
      assert calls[..1][..0] == [];
      assert Replay(v, calls[..1]) == Step(v, calls[0]);
      assert Replay(v, calls) == Step(Step(v, calls[0]), calls[1]);
    }
  }

  /** As wired (no `canEdit`), saving from the modal never changes the
      gallery. */
  lemma WiredSaveIsNoOp(v: View, date: string, caption: string)
    ensures Replay(v, MemoryModal.SaveCalls(v.selected, WiredCanEdit, date, caption)) == v
  {
    SaveEffect(v, WiredCanEdit, date, caption);
  }

  class GalleryView {
    var images: seq<Image>
    var selected: Option<Image>

    /** The selection, when there is one, is one of the displayed records:
        it is set only from a clicked record and kept in step by edits. */
    ghost predicate Valid()
      reads this
    {
      selected.None? || selected.value in images
    }

    constructor (img1: string, img2: string, img3: string, img4: string, img5: string)
      ensures Valid()
      ensures images == InitialImages(img1, img2, img3, img4, img5)
      ensures selected == None
    {
      images := InitialImages(img1, img2, img3, img4, img5);
      selected := None;
    }

    function State(): View
      reads this
    {
      View(images, selected)
    }

    /** The `isOpen` prop handed to the modal: `!!selectedImage`. */
    predicate ModalIsOpen()
      reads this
    {
      selected.Some?
    }

    method HandleUpload(files: Option<seq<Pick>>)
      requires Valid()
      modifies this
      ensures Valid()
      ensures images == AfterUpload(old(images), files)
      ensures selected == old(selected)
    {
      if files.Some? {
        var newImages := NewImages(files.value, 0);
        images := images + newImages;
      }
    }

    /** Only a rendered record can be clicked. The modal then opens on it
        and renders. */
    method HandleImageClick(image: Image)
      requires Valid() && image in images
      modifies this
      ensures Valid()
      ensures selected == Some(image) && images == old(images)
      ensures ModalIsOpen() && MemoryModal.Renders(ModalIsOpen(), selected)
    {
      selected := Some(image);
    }

    method HandleUpdateImage(id: int, newData: Patch)
      requires Valid()
      modifies this
      ensures Valid()
      ensures images == UpdateImages(old(images), id, newData)
      ensures selected == UpdateSelection(old(selected), id, newData)
    {
      if selected.Some? {
        ghost var k :| 0 <= k < |images| && images[k] == selected.value;
        SelectionStaysInSync(images, selected, id, newData, k);
      }
      images := UpdateImages(images, id, newData);
      selected := UpdateSelection(selected, id, newData);
    }

    /** The modal's `onClose`: the modal is closed and renders nothing. */
    method CloseModal()
      modifies this
      ensures Valid()
      ensures selected == None && images == old(images)
      ensures !ModalIsOpen() && !MemoryModal.Renders(ModalIsOpen(), selected)
    {
      selected := None;
    }

    /** Runs the modal's callbacks in the order it fired them. */
    method Dispatch(calls: seq<MemoryModal.Callback>)
      requires Valid()
      modifies this
      ensures Valid()
      ensures State() == Replay(old(State()), calls)
    {
      var i := 0;
      while i < |calls|
        invariant 0 <= i <= |calls|
        invariant Valid()
        invariant State() == Replay(old(State()), calls[..i])
      {
        match calls[i] {
          case OnUpdate(id, p) => HandleUpdateImage(id, p);
          case OnClose => CloseModal();
        }
        assert calls[..i + 1][..i] == calls[..i];
        i := i + 1;
      }
      assert calls[..i] == calls;
    }

    /** The modal's save button as the gallery wires it. */
    method SaveFromModal(modal: MemoryModal.Modal)
      requires Valid()
      modifies this
      ensures Valid()
      ensures images == old(images) && selected == old(selected)
    {
      var calls := modal.HandleSave(selected, WiredCanEdit);
      WiredSaveIsNoOp(State(), modal.date, modal.caption);
      Dispatch(calls);
    }
  }
}
