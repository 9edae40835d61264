/** The passcode-gated upload panel: a passcode form that unlocks an upload
    control, and the three-step upload of one photo (storage upload, public
    URL, database insert) whose outcomes come from the backend. */
module SecretUpload {
  import opened Memories

  const Bucket: string := "gallery-images"
  const Table: string := "memories"

  // ---------------------------------------------------------------------
  // The storage key: `${Date.now()}-${file.name.replace(/\s/g, '_')}`

  /** The characters matched by `\s` in an ECMAScript regular expression:
      the WhiteSpace code points (TAB, VT, FF, SP, NBSP, ZWNBSP and the
      other space separators) and the LineTerminator code points (LF, CR,
      LS, PS). */
  predicate IsWhitespace(c: char)
  {
    || c == '\t' || c == '\n' || c == '\U{000B}' || c == '\U{000C}' || c == '\r' || c == ' '
    || c == '\U{00A0}' || c == '\U{1680}' || ('\U{2000}' <= c <= '\U{200A}')
    || c == '\U{2028}' || c == '\U{2029}' || c == '\U{202F}' || c == '\U{205F}'
    || c == '\U{3000}' || c == '\U{FEFF}'
  }

  function SanitizeChar(c: char): char
  {
    if IsWhitespace(c) then '_' else c
  }

  /** `name.replace(/\s/g, '_')` */
  function Sanitize(name: string): (r: string)
    ensures |r| == |name|
  {
    if name == [] then [] else [SanitizeChar(name[0])] + Sanitize(name[1..])
  }

  /** Character by character: whitespace becomes `_`, everything else stays. */
  lemma {:induction false} SanitizeAt(name: string)
    ensures |Sanitize(name)| == |name|
    ensures forall k :: 0 <= k < |name| ==>
      Sanitize(name)[k] == (if IsWhitespace(name[k]) then '_' else name[k])
  {
    if name != [] {
      SanitizeAt(name[1..]);
      var r := Sanitize(name);
      forall k | 0 <= k < |name| ensures r[k] == SanitizeChar(name[k]) {
        if k > 0 { assert r[k] == Sanitize(name[1..])[k - 1]; }
      }
    }
  }

  lemma SanitizeNoWhitespace(name: string)
    ensures forall k :: 0 <= k < |Sanitize(name)| ==> !IsWhitespace(Sanitize(name)[k])
  {
    SanitizeAt(name);
  }

  /** A name without whitespace is its own sanitised form, so sanitising
      twice is the same as sanitising once. */
  lemma SanitizeIdempotent(name: string)
    ensures (forall k :: 0 <= k < |name| ==> !IsWhitespace(name[k])) ==> Sanitize(name) == name
    ensures Sanitize(Sanitize(name)) == Sanitize(name)
  {
    SanitizeAt(name);
    SanitizeAt(Sanitize(name));
  }

  predicate IsDigit(c: char)
  {
    '0' <= c <= '9'
  }

  predicate AllDigits(s: string)
  {
    forall k :: 0 <= k < |s| ==> IsDigit(s[k])
  }

  function DigitChar(d: nat): (c: char)
    requires d < 10
    ensures IsDigit(c) && c as int - '0' as int == d
  {
    ('0' as int + d) as char
  }

  /** The decimal text of a non-negative integer, as a template literal
      writes `Date.now()`. */
  function Decimal(n: nat): (r: string)
    decreases n
  {
    if n < 10 then [DigitChar(n)] else Decimal(n / 10) + [DigitChar(n % 10)]
  }

  function ParseDecimal(s: string): nat
    requires AllDigits(s)
  {
    if s == [] then 0 else 10 * ParseDecimal(s[..|s| - 1]) + (s[|s| - 1] as int - '0' as int)
  }

  lemma {:induction false} DecimalDigits(n: nat)
    ensures |Decimal(n)| >= 1 && AllDigits(Decimal(n))
    decreases n
  {
    if n >= 10 {
      DecimalDigits(n / 10);
    }
  }

  lemma {:induction false} DecimalRoundTrip(n: nat)
    ensures AllDigits(Decimal(n)) && ParseDecimal(Decimal(n)) == n
    decreases n
  {
    DecimalDigits(n);
    if n >= 10 {
      DecimalRoundTrip(n / 10);
      var s := Decimal(n);
      assert s[..|s| - 1] == Decimal(n / 10);
    }
  }

  /** The storage key for a file chosen at clock reading `now`. */
  function FileName(now: nat, name: string): string
  {
    Decimal(now) + "-" + Sanitize(name)
  }

  function IndexOf(s: string, c: char): (r: Option<nat>)
    ensures r.Some? ==> r.value < |s| && s[r.value] == c && forall k :: 0 <= k < r.value ==> s[k] != c
    ensures r.None? ==> forall k :: 0 <= k < |s| ==> s[k] != c
  {
    if s == [] then None
    else if s[0] == c then Some(0)
    else match IndexOf(s[1..], c)
      case None => None
      case Some(i) => Some(i + 1)
  }

  /** Reads a storage key back into its clock reading and sanitised name. */
  function SplitFileName(f: string): Option<(nat, string)>
  {
    match IndexOf(f, '-')
    case None => None
    case Some(i) =>
      if 0 < i && AllDigits(f[..i]) then Some((ParseDecimal(f[..i]), f[i + 1..])) else None
  }

  /** The key can be taken apart again: the clock reading and the sanitised
      name are recovered, so keys built at different times differ. */
  lemma FileNameRoundTrip(now: nat, name: string)
    ensures SplitFileName(FileName(now, name)) == Some((now, Sanitize(name)))
  {
    DecimalRoundTrip(now);
    DecimalDigits(now);
    var d := Decimal(now);
    var f := FileName(now, name);
    assert f[|d|] == '-';
    forall k | 0 <= k < |d| ensures f[k] != '-' {
      assert f[k] == d[k] && IsDigit(d[k]);
    }
    assert IndexOf(f, '-') == Some(|d|);
    assert f[..|d|] == d;
    assert f[|d| + 1..] == Sanitize(name);
  }

  lemma FileNameInjectiveInTime(now1: nat, now2: nat, name1: string, name2: string)
    requires FileName(now1, name1) == FileName(now2, name2)
    ensures now1 == now2 && Sanitize(name1) == Sanitize(name2)
  {
    FileNameRoundTrip(now1, name1);
    FileNameRoundTrip(now2, name2);
  }

  // ---------------------------------------------------------------------
  // The panel's state and its transitions

  datatype Panel = Panel(isOpen: bool, passcode: string, isUnlocked: bool, isUploading: bool, error: bool)

  const InitialPanel: Panel := Panel(false, "", false, false, false)

  /** `handleUnlock`, against the configured secret (`None` when the
      environment variable is undefined). Strict equality: only a string
      equal to a defined secret unlocks. */
  function Unlock(p: Panel, secret: Option<string>): Panel
  {
    if secret == Some(p.passcode) then p.(isUnlocked := true, error := false)
    else p.(error := true, passcode := "")
  }

  lemma UnlockAccepts(p: Panel, secret: Option<string>)
    requires secret == Some(p.passcode)
    ensures var r := Unlock(p, secret);
      r.isUnlocked && !r.error && r.passcode == p.passcode && r.isOpen == p.isOpen && r.isUploading == p.isUploading
  {
  }

  lemma UnlockRejects(p: Panel, secret: Option<string>)
    requires secret != Some(p.passcode)
    ensures var r := Unlock(p, secret);
      r.error && r.passcode == "" && r.isUnlocked == p.isUnlocked && r.isOpen == p.isOpen && r.isUploading == p.isUploading
  {
  }

  /** With the secret undefined, no passcode unlocks. */
  lemma UndefinedSecretNeverUnlocks(p: Panel)
    ensures Unlock(p, None).isUnlocked == p.isUnlocked
  {
  }

  /** The file the user picked; only its name is used. */
  datatype FileInfo = FileInfo(name: string)

  /** A row as the database returns it from `.insert(...).select()`. */
  datatype Record = Record(id: int, imageUrl: string, date: string, caption: string, createdAt: string)

  /** The fields sent to the insert. */
  datatype NewRow = NewRow(imageUrl: string, date: string, caption: string)

  /** What the backend and the host do during one upload: whether the
      backend client exists (it is `null` when its URL is not configured,
      and then `supabase.storage` throws before any call is made), whether
      the storage upload completes without error, whether `getPublicUrl`
      returns a `data` object (it throws otherwise, or when the destructuring
      of `{ data: { publicUrl } }` fails), the public URL the storage gives
      for a key, the rows the insert returns (`None` for an error), and
      whether the host's `onUploadSuccess` throws. */
  datatype Backend = Backend(clientReady: bool, uploadOk: bool, urlOk: bool, publicUrl: string -> string, inserted: Option<seq<Record>>, callbackThrows: bool)

  /** The outside calls of one upload, in order. */
  datatype Effect =
    | StorageUpload(bucket: string, key: string)
    | PublicUrl(bucket: string, key: string)
    | DbInsert(table: string, row: NewRow)
    | UploadSucceeded(first: Option<Record>)
    | UploadFailed

  function FirstRow(rows: seq<Record>): Option<Record>
  {
    if |rows| > 0 then Some(rows[0]) else None
  }

  /** `handleFileChange`: the new panel and the outside calls made. */
  function FileChange(p: Panel, file: Option<FileInfo>, now: nat, b: Backend): (Panel, seq<Effect>)
  {
    if file.None? then (p, [])
    else
      var key := FileName(now, file.value.name);
      if !b.clientReady then (p.(isUploading := false), [UploadFailed])
      else if !b.uploadOk then (p.(isUploading := false), [StorageUpload(Bucket, key), UploadFailed])
      else if !b.urlOk then (p.(isUploading := false), [StorageUpload(Bucket, key), PublicUrl(Bucket, key), UploadFailed])
      else
        var calls := [StorageUpload(Bucket, key), PublicUrl(Bucket, key), DbInsert(Table, NewRow(b.publicUrl(key), "", ""))];
        if b.inserted.None? then (p.(isUploading := false), calls + [UploadFailed])
        else if b.callbackThrows then
          (p.(isUploading := false), calls + [UploadSucceeded(FirstRow(b.inserted.value)), UploadFailed])
        else (p.(isOpen := false, isUploading := false), calls + [UploadSucceeded(FirstRow(b.inserted.value))])
  }

  function Inserts(effects: seq<Effect>): seq<NewRow>
  {
    if effects == [] then []
    else (if effects[0].DbInsert? then [effects[0].row] else []) + Inserts(effects[1..])
  }

  function Successes(effects: seq<Effect>): seq<Option<Record>>
  {
    if effects == [] then []
    else (if effects[0].UploadSucceeded? then [effects[0].first] else []) + Successes(effects[1..])
  }

  lemma {:induction false} InsertsAppend(a: seq<Effect>, b: seq<Effect>)
    ensures Inserts(a + b) == Inserts(a) + Inserts(b)
  {
    if a != [] {
      assert (a + b)[0] == a[0] && (a + b)[1..] == a[1..] + b;
      InsertsAppend(a[1..], b);
    } else {
      assert a + b == b;
    }
  }

  lemma {:induction false} SuccessesAppend(a: seq<Effect>, b: seq<Effect>)
    ensures Successes(a + b) == Successes(a) + Successes(b)
  {
    if a != [] {
      assert (a + b)[0] == a[0] && (a + b)[1..] == a[1..] + b;
      SuccessesAppend(a[1..], b);
    } else {
      assert a + b == b;
    }
  }

  /** No file: nothing changes and nothing is called. */
  lemma NoFileNoChange(p: Panel, now: nat, b: Backend)
    ensures FileChange(p, None, now, b) == (p, [])
  {
  }

  /** With a file and a backend client, the first call is the storage
      upload of the key for that file; without a client nothing is called
      before the failure. The database insert happens only after a
      successful upload
      and sends the public URL of that same key with empty labels;
      `onUploadSuccess` is called once, with the first returned row,
      exactly when the three remote steps succeeded. */
  lemma UploadProtocol(p: Panel, file: FileInfo, now: nat, b: Backend)
    ensures var (_, effects) := FileChange(p, Some(file), now, b);
      var key := FileName(now, file.name);
      && (b.clientReady ==> effects[0] == StorageUpload(Bucket, key))
      && (!b.clientReady ==> effects == [UploadFailed])
      && Inserts(effects) == (if b.clientReady && b.uploadOk && b.urlOk then [NewRow(b.publicUrl(key), "", "")] else [])
      && Successes(effects) ==
           (if b.clientReady && b.uploadOk && b.urlOk && b.inserted.Some? then [FirstRow(b.inserted.value)] else [])
  {
    var key := FileName(now, file.name);
    var up := StorageUpload(Bucket, key);
    if !b.clientReady {
      assert FileChange(p, Some(file), now, b).1[1..] == [];
    } else if !b.uploadOk {
      InsertsAppend([up], [UploadFailed]);
      SuccessesAppend([up], [UploadFailed]);
    } else if !b.urlOk {
      assert FileChange(p, Some(file), now, b).1 == [up] + [PublicUrl(Bucket, key)] + [UploadFailed];
      InsertsAppend([up], [PublicUrl(Bucket, key)]);
      InsertsAppend([up] + [PublicUrl(Bucket, key)], [UploadFailed]);
      SuccessesAppend([up], [PublicUrl(Bucket, key)]);
      SuccessesAppend([up] + [PublicUrl(Bucket, key)], [UploadFailed]);
    } else {
      var calls := [up, PublicUrl(Bucket, key), DbInsert(Table, NewRow(b.publicUrl(key), "", ""))];
      assert calls == [up] + [PublicUrl(Bucket, key)] + [DbInsert(Table, NewRow(b.publicUrl(key), "", ""))];
      InsertsAppend([up], [PublicUrl(Bucket, key)]);
      InsertsAppend([up] + [PublicUrl(Bucket, key)], [DbInsert(Table, NewRow(b.publicUrl(key), "", ""))]);
      SuccessesAppend([up], [PublicUrl(Bucket, key)]);
      SuccessesAppend([up] + [PublicUrl(Bucket, key)], [DbInsert(Table, NewRow(b.publicUrl(key), "", ""))]);
      var tail := FileChange(p, Some(file), now, b).1[3..];
      assert FileChange(p, Some(file), now, b).1 == calls + tail;
      InsertsAppend(calls, tail);
      SuccessesAppend(calls, tail);
      if b.inserted.Some? && b.callbackThrows {
        InsertsAppend([tail[0]], [UploadFailed]);
        SuccessesAppend([tail[0]], [UploadFailed]);
      }
    }
  }

  /** With a file, uploading is off again afterwards whatever happens, and
      the panel closes exactly when the whole sequence completed. */
  lemma UploadEndState(p: Panel, file: FileInfo, now: nat, b: Backend)
    ensures var (r, _) := FileChange(p, Some(file), now, b);
      && !r.isUploading
      && (r.isOpen <==> p.isOpen && !(b.clientReady && b.uploadOk && b.urlOk && b.inserted.Some? && !b.callbackThrows))
      && r.isUnlocked == p.isUnlocked && r.passcode == p.passcode && r.error == p.error
  {
  }

  // ---------------------------------------------------------------------
  // Sessions: what the user can do on what is rendered

  datatype Action =
    | ClickTrigger
    | ClickBackdrop
    | TypePasscode(value: string)
    | Submit
    | ChooseFile(file: Option<FileInfo>, now: nat, backend: Backend)

  /** Whether the control an action uses is rendered and enabled: the
      trigger always; the backdrop while open; the passcode form while open
      and locked; the file input while open, unlocked and not uploading. */
  predicate Available(p: Panel, a: Action)
  {
    match a
    case ClickTrigger => true
    case ClickBackdrop => p.isOpen
    case TypePasscode(_) => p.isOpen && !p.isUnlocked
    case Submit => p.isOpen && !p.isUnlocked
    case ChooseFile(_, _, _) => p.isOpen && p.isUnlocked && !p.isUploading
  }

  function Step(p: Panel, secret: Option<string>, a: Action): (Panel, seq<Effect>)
  {
    if !Available(p, a) then (p, [])
    else match a
      case ClickTrigger => (p.(isOpen := true), [])
      case ClickBackdrop => (p.(isOpen := false), [])
      case TypePasscode(v) => (p.(passcode := v), [])
      case Submit => (Unlock(p, secret), [])
      case ChooseFile(file, now, b) => FileChange(p, file, now, b)
  }

  function Run(p: Panel, secret: Option<string>, actions: seq<Action>): (Panel, seq<Effect>)
    decreases |actions|
  {
    if actions == [] then (p, [])
    else
      var (q, first) := Step(p, secret, actions[0]);
      var (r, rest) := Run(q, secret, actions[1..]);
      (r, first + rest)
  }

  /** Once unlocked, the panel stays unlocked for the rest of the session:
      the only write to `isUnlocked` sets it. */
  lemma {:induction false} StaysUnlocked(p: Panel, secret: Option<string>, actions: seq<Action>)
    requires p.isUnlocked
    ensures Run(p, secret, actions).0.isUnlocked
    decreases |actions|
  {
    if actions != [] {
      StaysUnlocked(Step(p, secret, actions[0]).0, secret, actions[1..]);
    }
  }

  /** With the secret undefined, a locked panel stays locked and never
      makes an outside call, whatever the user does. */
  lemma {:induction false} UndefinedSecretUploadsNothing(p: Panel, actions: seq<Action>)
    requires !p.isUnlocked
    ensures !Run(p, None, actions).0.isUnlocked && Run(p, None, actions).1 == []
    decreases |actions|
  {
    if actions != [] {
      UndefinedSecretUploadsNothing(Step(p, None, actions[0]).0, actions[1..]);
    }
  }

  /** The component's state, updated field by field by its handlers. */
  class UploadPanel {
    var isOpen: bool
    var passcode: string
    var isUnlocked: bool
    var isUploading: bool
    var error: bool

    function State(): Panel
      reads this
    {
      Panel(isOpen, passcode, isUnlocked, isUploading, error)
    }

    constructor ()
      ensures State() == InitialPanel
    {
      isOpen, passcode, isUnlocked, isUploading, error := false, "", false, false, false;
    }

    /** The trigger button: `setIsOpen(true)`. */
    method ClickTrigger()
      modifies this
      ensures State() == old(State()).(isOpen := true)
    {
      isOpen := true;
    }

    /** A click on the backdrop: `setIsOpen(false)`. */
    method ClickBackdrop()
      modifies this
      ensures State() == old(State()).(isOpen := false)
    {
      isOpen := false;
    }

    /** Typing into the passcode input. */
    method TypePasscode(value: string)
      modifies this
      ensures State() == old(State()).(passcode := value)
    {
      passcode := value;
    }

    method HandleUnlock(secret: Option<string>)
      modifies this
      ensures State() == Unlock(old(State()), secret)
      ensures old(isUnlocked) ==> isUnlocked
    {
      if secret == Some(passcode) {
        isUnlocked := true;
        error := false;
      } else {
        error := true;
        passcode := "";
      }
    }

    /** `handleFileChange`: returns the outside calls it makes, in order. */
    method HandleFileChange(file: Option<FileInfo>, now: nat, b: Backend) returns (effects: seq<Effect>)
      modifies this
      ensures (State(), effects) == FileChange(old(State()), file, now, b)
      ensures isUnlocked == old(isUnlocked)
    {
      effects := [];
      if file.None? {
        return;
      }
      isUploading := true;
      var fileName := FileName(now, file.value.name);
      if !b.clientReady {
        isUploading := false;
        effects := effects + [UploadFailed];
        assert effects == [UploadFailed];
        return;
      }
      effects := effects + [StorageUpload(Bucket, fileName)];
      if !b.uploadOk {
        isUploading := false;
        effects := effects + [UploadFailed];
        assert effects == [StorageUpload(Bucket, fileName), UploadFailed];
        return;
      }
      effects := effects + [PublicUrl(Bucket, fileName)];
      if !b.urlOk {
        isUploading := false;
        effects := effects + [UploadFailed];
        assert effects == [StorageUpload(Bucket, fileName), PublicUrl(Bucket, fileName), UploadFailed];
        return;
      }
      var publicUrl := b.publicUrl(fileName);
      effects := effects + [DbInsert(Table, NewRow(publicUrl, "", ""))];
      ghost var calls := effects;
      assert calls == [StorageUpload(Bucket, fileName), PublicUrl(Bucket, fileName), DbInsert(Table, NewRow(publicUrl, "", ""))];
      if b.inserted.None? {
        isUploading := false;
        effects := effects + [UploadFailed];
        return;
      }
      effects := effects + [UploadSucceeded(FirstRow(b.inserted.value))];
      if b.callbackThrows {
        isUploading := false;
        effects := effects + [UploadFailed];
        assert effects == calls + [UploadSucceeded(FirstRow(b.inserted.value)), UploadFailed];
        return;
      }
      isOpen := false;
      isUploading := false;
    }
  }
}
