# MeandHer gallery components, modelled in Dafny

This project models the three stateful React components of a commemorative photo site:

- **Gallery** (`src/components/Gallery.jsx`) keeps an ordered list of image records `{id, src, date, caption}` and an optional selected record.
  - It starts from five bundled records.
  - It appends uploaded files as new records.
  - It merges edited fields into every record with a given id. If the selection has that id, it is merged too.
  - It shows the selected record in a memory modal.
- **MemoryModal** (`src/components/MemoryModal.jsx`) keeps two draft fields, `date` and `caption`.
  - The drafts are re-synchronised when the `image` prop changes.
  - Saving calls `onUpdate(id, {date, caption})` and then `onClose`, but only when an image is shown and `canEdit` is truthy.
  - The inputs and the save button are rendered only when `canEdit` is truthy (src/components/MemoryModal.jsx:46-73). Otherwise the modal shows a read-only view (lines 74-79).
- **SecretUpload** (`src/components/SecretUpload.jsx`) is a passcode-gated panel.
  - A passcode form unlocks an upload control.
  - Choosing a file runs three steps in order: storage upload under a generated key, the public URL for that key, and a database insert.
  - Each step can fail, and so can a missing backend client and the host's `onUploadSuccess` callback.

Each component is a module with a class whose fields are the component's `useState` variables. Each handler is a method.

- The list and state transforms are pure functions. The methods are proved equal to them.
- The properties the components promise are lemmas about those functions.
- React's setter calls are field assignments. Callbacks into the host (`onUpdate`, `onClose`, `onUploadSuccess`) and outside calls (storage, database) are returned as ordered logs.
- The gallery replays the modal's callback log against its own state (`Gallery.Replay`).

Environment values are parameters:
- `Date.now()`: one clock reading per file in the gallery, one per upload in the panel.
- `URL.createObjectURL(file)`.
- The bundled asset URLs.
- The `VITE_SECRET_PASSCODE` secret: `None` when the variable is undefined.
- The backend's outcomes (`SecretUpload.Backend`).

Modules: `Memories` (shared record and patch types, `memories.dfy`), `Gallery` (`gallery.dfy`), `MemoryModal` (`memory_modal.dfy`), `SecretUpload` (`secret_upload.dfy`).

Points where the model follows the code rather than a looser reading:

- In `handleUpload`, `Date.now()` is evaluated once per file inside the `map`. The model therefore takes one clock reading per file and gives file `k` the id `now_k + k`.
  - The ids are `base, base+1, …` only when every reading is the same (`ConsecutiveIds`).
  - Within a batch they are distinct whenever the clock does not run backwards (`BatchIdsIncreasing`).
  - Ids are not guaranteed distinct across batches. `UploadKeepsDistinct` states the clock condition under which they are.
- `{...img, ...newData}` is modelled for any patch (`Memories.Patch`), including one that carries an `id` or `src` key. The only caller passes `{date, caption}` (`Memories.DraftPatch`).
- `Gallery.jsx` renders `MemoryModal` without a `canEdit` prop (`Gallery.WiredCanEdit`). As wired, saving from the modal never changes the gallery (`Gallery.WiredSaveIsNoOp`, `Gallery.GalleryView.SaveFromModal`).
  - The actual fact is stronger: without `canEdit` the modal renders neither its inputs nor its save button (src/components/MemoryModal.jsx:46-79). The model still lets `MemoryModal.Modal.EditDate`, `MemoryModal.Modal.EditCaption`, `MemoryModal.Modal.HandleSave` and `Gallery.GalleryView.SaveFromModal` be called. It proves that such calls change nothing in the gallery.
- Uploading is modelled as failing in these cases:
  - The backend client is missing. `supabase` is `null` when its URL is not configured, so `supabase.storage` throws before any outside call is made (`Backend.clientReady` false, log `[UploadFailed]`).
  - The storage upload reports an error.
  - `getPublicUrl` yields no `data` object, or throws. The destructuring `{ data: { publicUrl } }` then throws, and no insert is made (`Backend.urlOk` false, log `[StorageUpload, PublicUrl, UploadFailed]`).
  - The insert reports an error.
  - The host's `onUploadSuccess` throws. The `catch` then runs after the callback, so the panel stays open.
- An insert that returns no rows calls `onUploadSuccess(undefined)`, modelled as `UploadSucceeded(None)`.
- Where the source's handlers are defined as functions without contracts of their own, their properties are the lemmas listed under "## Model":
  - `SecretUpload.Unlock` models `handleUnlock` (src/components/SecretUpload.jsx:16-26).
  - `SecretUpload.FileChange` models `handleFileChange` (lines 28-65).
  - `SecretUpload.FileName` models the storage key (line 34).
  - `MemoryModal.SaveCalls` models `handleSave` (src/components/MemoryModal.jsx:12-17).
  - `MemoryModal.Renders` is the modal's render-nothing condition (line 19).
  - `Gallery.AfterUpload` models `handleUpload` (src/components/Gallery.jsx:27-36).
  - `Memories.Merge` models the spread `{...img, ...newData}` (lines 45 and 47).
- `MemoryModal.jsx` contains no `import` lines. The model assumes React's `useState`/`useEffect` are available there.

## Model

| member | source | states |
|---|---|---|
| Memories.MergeIdempotent | src/components/Gallery.jsx:45 | spreading the same patch twice equals spreading it once; a field the patch lacks (`src`, `id`) keeps its value |
| Memories.DraftPatchMerge | src/components/MemoryModal.jsx:14 | the modal's patch `{date, caption}` replaces exactly those two fields and keeps `id` and `src` |
| Gallery.InitialImages | src/components/Gallery.jsx:14-20 | the seed is five records with ids 1..5 in order, the five asset URLs, and empty date and caption |
| Gallery.InitialIdsDistinct | src/components/Gallery.jsx:14-20 | the seed ids are pairwise distinct |
| Gallery.GalleryView.constructor | src/components/Gallery.jsx:23-24 | the gallery starts with the seed list and no selection, and the invariant `Valid` (the selection is one of the records) holds |
| Gallery.UpdateImages | src/components/Gallery.jsx:44-46 | the edited list has exactly as many records as the old one |
| Gallery.UpdateImagesAt | src/components/Gallery.jsx:44-46 | editing is a position-by-position map: same length, each record transformed on its own |
| Gallery.UpdateImagesFields | src/components/Gallery.jsx:44-45 | a record with a different id is unchanged; a record with the id gets each present patch field and keeps each absent one |
| Gallery.UpdateKeepsIds | src/components/Gallery.jsx:44-46 | a patch without an `id` key keeps the sequence of ids, so length and order are preserved |
| Gallery.UpdateAbsentId | src/components/Gallery.jsx:44-45 | editing an id that no record carries leaves the list unchanged |
| Gallery.UpdateIdempotent | src/components/Gallery.jsx:44-46 | applying the same edit twice equals applying it once |
| Gallery.UpdateKeepsDistinct | src/components/Gallery.jsx:44-46 | editing without an `id` key keeps ids pairwise distinct |
| Gallery.UpdateSelection | src/components/Gallery.jsx:47 | no selection stays none; a selection with another id is unchanged; a selection with the id receives the same merge as the list's records |
| Gallery.SelectionStaysInSync | src/components/Gallery.jsx:44-47 | a selection equal to the k-th record is still equal to the k-th record after an edit |
| Gallery.NewImages | src/components/Gallery.jsx:29-34 | one new record is built per chosen file |
| Gallery.NewImagesAt | src/components/Gallery.jsx:29-34 | the k-th new record has id `now_k + k`, the k-th object URL, and empty date and caption |
| Gallery.UploadAppends | src/components/Gallery.jsx:27-36 | no file list leaves the list unchanged; n files give the old list as an untouched prefix followed by n new records in file order |
| Gallery.ConsecutiveIds | src/components/Gallery.jsx:29-30 | with a constant clock reading `base`, the new ids are `base+0 … base+n-1` |
| Gallery.BatchIdsIncreasing | src/components/Gallery.jsx:29-30 | with a clock that does not run backwards, the new ids strictly increase, so they are distinct within a batch |
| Gallery.UploadKeepsDistinct | src/components/Gallery.jsx:29-35 | distinct ids stay distinct after an upload when the clock does not run backwards and is ahead of every existing id |
| Gallery.SaveEffect | src/components/Gallery.jsx:101-106 | replaying the modal's save calls with editing allowed and a selection writes the drafts into every record with the selected id and clears the selection; otherwise nothing changes |
| Gallery.WiredSaveIsNoOp | src/components/Gallery.jsx:101-106 | with `canEdit` not passed, saving from the modal leaves images and selection unchanged |
| Gallery.GalleryView.HandleUpload | src/components/Gallery.jsx:26-37 | the new list is the upload transform of the old list; the selection is unchanged and is still one of the records |
| Gallery.GalleryView.HandleImageClick | src/components/Gallery.jsx:39-41 | clicking a rendered record makes exactly that record the selection and leaves the list unchanged; the modal's `isOpen` (`!!selectedImage`) is then true and the modal renders |
| Gallery.GalleryView.HandleUpdateImage | src/components/Gallery.jsx:43-48 | list and selection become their edited forms, and the edited selection is still one of the records |
| Gallery.GalleryView.CloseModal | src/components/Gallery.jsx:103 | closing clears the selection and leaves the list unchanged; `isOpen` is then false and the modal renders nothing |
| Gallery.GalleryView.Dispatch | src/components/Gallery.jsx:103-105 | running the modal's callbacks in order gives the state that `Replay` describes |
| Gallery.GalleryView.SaveFromModal | src/components/Gallery.jsx:101-106 | the modal's save button, as wired, changes neither the list nor the selection |
| MemoryModal.OrEmpty | src/components/MemoryModal.jsx:7-8 | defaulting a falsy text value to `''` gives back that value |
| MemoryModal.SaveCallsShape | src/components/MemoryModal.jsx:12-17 | no calls iff `canEdit` is false or there is no image; otherwise exactly `onUpdate(image.id, {date, caption})` with the current drafts, then `onClose` |
| MemoryModal.Modal.constructor | src/components/MemoryModal.jsx:2-3 | both drafts start empty |
| MemoryModal.Modal.ImageChanged | src/components/MemoryModal.jsx:5-10 | a present image overwrites both drafts with its date and caption; an absent image leaves them |
| MemoryModal.Modal.EditDate | src/components/MemoryModal.jsx:52 | the date input changes only `date` |
| MemoryModal.Modal.EditCaption | src/components/MemoryModal.jsx:62 | the caption input changes only `caption` |
| MemoryModal.Modal.HandleSave | src/components/MemoryModal.jsx:12-17 | returns the calls `handleSave` makes, in order, and leaves the drafts unchanged |
| SecretUpload.Sanitize | src/components/SecretUpload.jsx:34 | the sanitised name has the length of the original |
| SecretUpload.SanitizeAt | src/components/SecretUpload.jsx:34 | position by position, whitespace becomes `_` and every other character is kept |
| SecretUpload.SanitizeNoWhitespace | src/components/SecretUpload.jsx:34 | the sanitised name contains no `\s` character |
| SecretUpload.SanitizeIdempotent | src/components/SecretUpload.jsx:34 | a name without whitespace is unchanged, so sanitising twice equals sanitising once |
| SecretUpload.DecimalDigits | src/components/SecretUpload.jsx:34 | the decimal text of the clock reading is non-empty and all digits |
| SecretUpload.DecimalRoundTrip | src/components/SecretUpload.jsx:34 | reading the decimal text back gives the clock reading |
| SecretUpload.FileNameRoundTrip | src/components/SecretUpload.jsx:34 | the key `timestamp-sanitised` splits at its first `-` into the clock reading and the sanitised name |
| SecretUpload.FileNameInjectiveInTime | src/components/SecretUpload.jsx:34 | equal keys imply equal clock readings and equal sanitised names |
| SecretUpload.UnlockAccepts | src/components/SecretUpload.jsx:18-20 | the right passcode sets `isUnlocked`, clears `error`, keeps the passcode and touches nothing else |
| SecretUpload.UnlockRejects | src/components/SecretUpload.jsx:21-24 | any other passcode sets `error`, clears the passcode and leaves `isUnlocked` |
| SecretUpload.UndefinedSecretNeverUnlocks | src/components/SecretUpload.jsx:14-18 | with the secret undefined, submitting never changes `isUnlocked` |
| SecretUpload.NoFileNoChange | src/components/SecretUpload.jsx:29-30 | with no file, the panel is unchanged and nothing is called |
| SecretUpload.UploadProtocol | src/components/SecretUpload.jsx:34-57 | with a backend client the first call uploads the generated key, and without one nothing is called before the failure; the insert happens only after a successful upload and a public URL for that key, and sends that URL with empty date and caption; `onUploadSuccess` runs once, with the first returned row, exactly when all three remote steps succeed |
| SecretUpload.UploadEndState | src/components/SecretUpload.jsx:32-62 | after a file, `isUploading` is false in every outcome; the panel ends open exactly when it was open before and one of the client, the upload, the public URL, the insert or the callback fails; gate fields are unchanged |
| SecretUpload.StaysUnlocked | src/components/SecretUpload.jsx:10-19 | once unlocked, the panel stays unlocked through any sequence of user actions |
| SecretUpload.UndefinedSecretUploadsNothing | src/components/SecretUpload.jsx:92-125 | with the secret undefined, a locked panel stays locked and makes no outside call through any sequence of user actions |
| SecretUpload.UploadPanel.constructor | src/components/SecretUpload.jsx:8-12 | closed, empty passcode, locked, not uploading, no error |
| SecretUpload.UploadPanel.ClickTrigger | src/components/SecretUpload.jsx:69 | the trigger opens the panel and changes nothing else |
| SecretUpload.UploadPanel.ClickBackdrop | src/components/SecretUpload.jsx:83 | the backdrop closes the panel and changes nothing else |
| SecretUpload.UploadPanel.TypePasscode | src/components/SecretUpload.jsx:101 | typing sets only the passcode |
| SecretUpload.UploadPanel.HandleUnlock | src/components/SecretUpload.jsx:16-26 | the new state is `Unlock` of the old one; `isUnlocked` never goes from true to false |
| SecretUpload.UploadPanel.HandleFileChange | src/components/SecretUpload.jsx:28-65 | the new state and the ordered outside calls are those of `FileChange`; `isUnlocked` is unchanged |

## Left out

- The two-second timer that clears `error` after a wrong passcode (`setTimeout`, src/components/SecretUpload.jsx:23) is left out: it is timer-driven.
- `alert` and `console.error` are left out. A failed upload appears only as an `UploadFailed` entry in the call log.
- The intermediate `isUploading = true` state is not modelled as a separate state. It exists only while the remote calls are awaited. The model proves only the final state.
- One upload is treated as a single atomic step. `disabled={isUploading}` (src/components/SecretUpload.jsx:126) disables only the file input. The trigger (line 69) and the backdrop (line 83) still respond while the storage upload and the insert are awaited. The model leaves out such clicks during the awaits.
- SecretUpload.UploadEndState: its `isOpen` clause (the panel ends open iff it was open and the sequence did not complete) depends on that atomicity. A backdrop click during the awaits would leave a failed upload with the panel closed.
- React's scheduling is not modelled. `MemoryModal.Modal.ImageChanged` is a method the host calls when the `image` prop changes. React compares that prop by object identity, and value equality does not capture this.
- The gallery does not call `ImageChanged` on the modal when its selection changes. The drafts' re-synchronisation is proved separately, in the modal.
- A non-string `date` or `caption` (for example `undefined`) cannot be represented: fields are strings. The `|| ''` default is therefore the identity (`MemoryModal.OrEmpty`).
- Exact JavaScript number behaviour is not modelled:
  - Ids and clock readings are unbounded integers.
  - `Date.now()` is a non-negative integer printed in decimal. A JavaScript number prints this way below 10^21.
- The storage, public-URL and insert calls are modelled only through their outcomes (`SecretUpload.Backend`): success or failure of each call, the URL returned for a key, and the rows returned.
- The file body, MIME filtering (`accept="image/*"`) and the real Unicode tables are not modelled. `IsWhitespace` lists the ECMAScript `\s` code points explicitly.
- Markup, animation and styling are left out. So are the other components (hero, story, moments, ending, lazy image, music player) and the backend client construction.
- `SecretUpload` is not rendered by any shown component, so its `onUploadSuccess` has no host in this model.
