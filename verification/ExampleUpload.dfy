/**
 * The example application's server actions (examples/aws-x-prisma/app/lib/upload.ts):
 * the upload policy, and the two callbacks that keep a table of pending signed files
 * and a table of uploaded files. The two Prisma tables are the fields of class
 * RecordStore; `signedFile.filename` is a unique column (rows are deleted by it), so
 * that table is a map keyed by file name, while `file` rows are kept in creation order.
 * `Date.now()` is a parameter.
 */
module ExampleUpload {
  import opened Wrappers
  import opened Strings
  import opened EasyS3
  import opened UploadHook

  /** A row of the `signedFile` table: an issued, not yet confirmed upload. */
  datatype SignedFile = SignedFile(
    filename: string,
    folder: string,
    size: int,
    mimeType: string,
    signedUrl: string,
    objectUrl: string,
    originalName: string,
    expiresAt: int)

  /** A row of the `file` table: a confirmed upload. */
  datatype StoredFile = StoredFile(
    name: string,
    originalName: string,
    size: int,
    mimeType: string,
    url: string)

  /** Both tables at one moment. */
  datatype Tables = Tables(signedFiles: map<string, SignedFile>, files: seq<StoredFile>)

  /** One call of a callback against the tables. */
  datatype StoreOp = Created(options: SignedURLOptions, now: int) | Uploaded(filename: string)

  /** The form posted to `validateUpload`. */
  datatype ConfirmForm = ConfirmForm(filename: string)

  /** The rejection of `prisma.signedFile.create` when the file name is already pending. */
  const UniqueFilenameMessage := "Unique constraint failed on the fields: (`filename`)"

  /** Every pending row is stored under its own file name. */
  predicate Keyed(t: Tables) {
    forall f :: f in t.signedFiles ==> t.signedFiles[f].filename == f
  }

  /** The `options` policy of the example: 5 MB, three image types, 60 seconds, root folder. */
  function ExampleOptions(bucket: string): UploadOptions {
    UploadOptions(
      expires := 60,
      maxSize := 1024 * 1024 * 5,
      types := ["image/png", "image/jpeg", "image/jpg"],
      bucket := bucket,
      metadata := map[],
      folder := "")
  }

  /** The pending row written by `signedURLCreated`; `now` and `expiresAt` are in milliseconds. */
  function PendingRecord(o: SignedURLOptions, now: int): SignedFile {
    SignedFile(o.filename, o.folder, o.size, o.mimeType, o.signedUrl, o.objectUrl, o.originalName,
               now + o.expiresIn * 1000)
  }

  /** The `file` row `fileUploaded` creates from a pending row. */
  function Promote(s: SignedFile): StoredFile {
    StoredFile(s.filename, s.originalName, s.size, s.mimeType, s.objectUrl)
  }

  /**
   * `signedURLCreated`: exactly one pending row is added, copied from the callback
   * argument; it fails, changing nothing, when that file name is already pending.
   */
  function Insert(t: Tables, o: SignedURLOptions, now: int): (r: (Tables, bool))
    ensures r.1 <==> o.filename !in t.signedFiles
    ensures r.0.files == t.files
    ensures !r.1 ==> r.0 == t
    ensures r.1 ==>
      && r.0.signedFiles.Keys == t.signedFiles.Keys + {o.filename}
      && |r.0.signedFiles| == |t.signedFiles| + 1
      && r.0.signedFiles[o.filename] == PendingRecord(o, now)
      && r.0.signedFiles[o.filename].expiresAt == now + o.expiresIn * 1000
      && forall f :: f in t.signedFiles ==> r.0.signedFiles[f] == t.signedFiles[f]
    ensures Keyed(t) ==> Keyed(r.0)
  {
    if o.filename in t.signedFiles then (t, false)
    else (t.(signedFiles := t.signedFiles[o.filename := PendingRecord(o, now)]), true)
  }

  /**
   * `fileUploaded`: with no pending row for the name it answers false and changes
   * nothing; otherwise it appends one `file` row built from the pending row, removes
   * that pending row, leaves every other pending row alone and answers true.
   */
  function Confirm(t: Tables, filename: string): (r: (Tables, bool))
    ensures r.1 <==> filename in t.signedFiles
    ensures !r.1 ==> r.0 == t
    ensures r.1 ==>
      && |r.0.files| == |t.files| + 1
      && r.0.files[..|t.files|] == t.files
      && r.0.files[|t.files|] == Promote(t.signedFiles[filename])
      && r.0.signedFiles.Keys == t.signedFiles.Keys - {filename}
      && forall f :: f in r.0.signedFiles ==> r.0.signedFiles[f] == t.signedFiles[f]
    ensures Keyed(t) && r.1 ==> r.0.files[|t.files|].name == filename
    ensures Keyed(t) ==> Keyed(r.0)
  {
    if filename !in t.signedFiles then (t, false)
    else
      var row := t.signedFiles[filename];
      var files := t.files + [Promote(row)];
      assert files[..|t.files|] == t.files;
      (Tables(t.signedFiles - {filename}, files), true)
  }

  /** One callback call. */
  function Apply(t: Tables, op: StoreOp): Tables {
    match op
    case Created(o, now) => Insert(t, o, now).0
    case Uploaded(f) => Confirm(t, f).0
  }

  /** A sequence of callback calls, in order. */
  function Run(t: Tables, ops: seq<StoreOp>): Tables
    decreases |ops|
  {
    if ops == [] then t else Run(Apply(t, ops[0]), ops[1..])
  }

  /** The file names a sequence of calls tried to make pending. */
  function Issued(ops: seq<StoreOp>): set<string> {
    set i | 0 <= i < |ops| && ops[i].Created? :: ops[i].options.filename
  }

  /** How many calls in a sequence tried to make a name pending. */
  function CreatedCount(ops: seq<StoreOp>): nat
    decreases |ops|
  {
    if ops == [] then 0 else (if ops[0].Created? then 1 else 0) + CreatedCount(ops[1..])
  }

  /**
   * Promotion moves a row from one table to the other: the total number of rows in
   * the two tables never changes when confirming.
   */
  lemma ConfirmConserves(t: Tables, filename: string)
    ensures var r := Confirm(t, filename).0;
      |r.files| + |r.signedFiles| == |t.files| + |t.signedFiles|
  {
    var r := Confirm(t, filename).0;
    if filename in t.signedFiles {
      assert r.signedFiles.Keys == t.signedFiles.Keys - {filename};
      assert |r.signedFiles.Keys| == |t.signedFiles.Keys| - 1;
    }
  }

  /**
   * Confirming the same name twice: the second call answers false and adds no
   * second `file` row, because the first removed the pending row.
   */
  lemma ConfirmTwice(t: Tables, filename: string)
    ensures var once := Confirm(t, filename).0;
      Confirm(once, filename) == (once, false)
  {
  }

  /** Confirming another name leaves a pending row untouched. */
  lemma ConfirmOtherKeepsPending(t: Tables, filename: string, other: string)
    requires filename in t.signedFiles && other != filename
    ensures var r := Confirm(t, other).0;
      filename in r.signedFiles && r.signedFiles[filename] == t.signedFiles[filename]
  {
  }

  /**
   * Issue then confirm: the `file` row carries the generated name, the original name,
   * size, type and object URL given at issue time, and no pending row remains.
   */
  lemma InsertThenConfirm(t: Tables, o: SignedURLOptions, now: int)
    requires o.filename !in t.signedFiles
    ensures var (issued, created) := Insert(t, o, now);
      var (confirmed, promoted) := Confirm(issued, o.filename);
      && created && promoted
      && confirmed.files == t.files + [StoredFile(o.filename, o.originalName, o.size, o.mimeType, o.objectUrl)]
      && confirmed.signedFiles == t.signedFiles
  {
    var issued := Insert(t, o, now).0;
    var confirmed := Confirm(issued, o.filename).0;
    assert confirmed.files == confirmed.files[..|t.files|] + [confirmed.files[|t.files|]];
  }

  /** The names issued by the tail of a run, and by its first call, are names issued by the run. */
  lemma IssuedSplit(ops: seq<StoreOp>)
    requires ops != []
    ensures Issued(ops[1..]) <= Issued(ops)
    ensures ops[0].Created? ==> ops[0].options.filename in Issued(ops)
  {
    var rest := ops[1..];
    forall f | f in Issued(rest) ensures f in Issued(ops) {
      var i :| 0 <= i < |rest| && rest[i].Created? && rest[i].options.filename == f;
      assert ops[i + 1] == rest[i];
    }
  }

  /**
   * One callback call: rows are only appended to `file`, an appended row names a
   * file that was pending, pending names only grow by the issued name, and the two
   * tables grow by at most one row, and only on an issue call.
   */
  lemma ApplyStep(t: Tables, op: StoreOp)
    requires Keyed(t)
    ensures var r := Apply(t, op);
      && Keyed(r)
      && |t.files| <= |r.files| && r.files[..|t.files|] == t.files
      && (forall i :: |t.files| <= i < |r.files| ==> r.files[i].name in t.signedFiles)
      && r.signedFiles.Keys <= t.signedFiles.Keys + (if op.Created? then {op.options.filename} else {})
      && |r.files| + |r.signedFiles| <= |t.files| + |t.signedFiles| + (if op.Created? then 1 else 0)
  {
    if op.Uploaded? {
      ConfirmConserves(t, op.filename);
    }
  }

  /**
   * Over any sequence of callback calls: rows are only appended to `file`; every
   * appended row, and every pending row, names a file that was pending at the start
   * or was issued during the run (no permanent record without a prior reservation).
   */
  lemma {:induction false} RunProvenance(t: Tables, ops: seq<StoreOp>)
    requires Keyed(t)
    ensures var r := Run(t, ops);
      && Keyed(r)
      && |t.files| <= |r.files| && r.files[..|t.files|] == t.files
      && (forall i :: |t.files| <= i < |r.files| ==> r.files[i].name in t.signedFiles.Keys + Issued(ops))
      && r.signedFiles.Keys <= t.signedFiles.Keys + Issued(ops)
    decreases |ops|
  {
    if ops != [] {
      var t1 := Apply(t, ops[0]);
      var r := Run(t1, ops[1..]);
      ApplyStep(t, ops[0]);
      IssuedSplit(ops);
      RunProvenance(t1, ops[1..]);
      assert r.files[..|t.files|] == t1.files[..|t.files|];
      forall i | |t.files| <= i < |r.files|
        ensures r.files[i].name in t.signedFiles.Keys + Issued(ops)
      {
        if i < |t1.files| {
          assert r.files[i] == t1.files[i];
        }
      }
    }
  }

  /** Promotion never multiplies rows: the two tables grow by at most one row per issue call. */
  lemma {:induction false} RunCount(t: Tables, ops: seq<StoreOp>)
    requires Keyed(t)
    ensures var r := Run(t, ops);
      |r.files| + |r.signedFiles| <= |t.files| + |t.signedFiles| + CreatedCount(ops)
    decreases |ops|
  {
    if ops != [] {
      ApplyStep(t, ops[0]);
      RunCount(Apply(t, ops[0]), ops[1..]);
    }
  }

  class RecordStore {
    /** The `signedFile` table, keyed by its unique `filename` column. */
    var signedFiles: map<string, SignedFile>
    /** The `file` table, in creation order. */
    var files: seq<StoredFile>

    function State(): Tables
      reads this
    {
      Tables(signedFiles, files)
    }

    constructor ()
      ensures signedFiles == map[] && files == []
    {
      signedFiles := map[];
      files := [];
    }

    /** The `signedURLCreated` callback: `prisma.signedFile.create`. */
    method SignedURLCreated(o: SignedURLOptions, now: int) returns (created: bool)
      modifies this
      ensures (State(), created) == Insert(old(State()), o, now)
      ensures created <==> o.filename !in old(signedFiles)
      ensures created ==> signedFiles == old(signedFiles)[o.filename := PendingRecord(o, now)]
      ensures !created ==> signedFiles == old(signedFiles)
      ensures files == old(files)
    {
      if o.filename in signedFiles {
        return false;
      }
      signedFiles := signedFiles[o.filename := PendingRecord(o, now)];
      created := true;
    }

    /**
     * The `fileUploaded` callback: `findFirst` the pending row, `file.create` from it,
     * `signedFile.delete` it.
     */
    method FileUploaded(filename: string) returns (promoted: bool)
      modifies this
      ensures (State(), promoted) == Confirm(old(State()), filename)
      ensures promoted <==> filename in old(signedFiles)
      ensures promoted ==>
        && files == old(files) + [Promote(old(signedFiles)[filename])]
        && signedFiles == old(signedFiles) - {filename}
      ensures !promoted ==> files == old(files) && signedFiles == old(signedFiles)
    {
      if filename !in signedFiles {
        return false;
      }
      var signedFile := signedFiles[filename];
      files := files + [Promote(signedFile)];
      signedFiles := signedFiles - {filename};
      promoted := true;
    }
  }

  /**
   * `uploadImage`: `handle` with the example policy, running `signedURLCreated`
   * (awaited) before the result is returned. A duplicate pending name makes the
   * callback, and so the action, reject.
   */
  method UploadImage(
    store: RecordStore, client: Client, bucket: string, form: UploadForm,
    uuid: string, presign: PresignRequest -> string, now: int)
    returns (reply: Outcome<S3Result>)
    modifies store
    ensures var h := Handle(client, form, ExampleOptions(bucket), uuid, presign);
      && (h.Threw? ==> reply == Threw(h.message) && store.State() == old(store.State()))
      && (h.Ok? && h.value.created.None? ==>
            reply == Ok(h.value.result) && store.State() == old(store.State()))
      && (h.Ok? && h.value.created.Some? ==>
            var (tables, created) := Insert(old(store.State()), h.value.created.value, now);
            && store.State() == tables
            && reply == if created then Ok(h.value.result) else Threw(UniqueFilenameMessage))
  {
    var h := Handle(client, form, ExampleOptions(bucket), uuid, presign);
    if h.Threw? {
      return Threw(h.message);
    }
    var issuance := h.value;
    if issuance.created.Some? {
      var created := store.SignedURLCreated(issuance.created.value, now);
      if !created {
        return Threw(UniqueFilenameMessage);
      }
    }
    reply := Ok(issuance.result);
  }

  /** `validateUpload`: `validate` forwards the posted file name to `fileUploaded`. */
  method ValidateUpload(store: RecordStore, form: ConfirmForm) returns (promoted: bool)
    modifies store
    ensures (store.State(), promoted) == Confirm(old(store.State()), form.filename)
  {
    promoted := store.FileUploaded(form.filename);
  }

  /**
   * The example's dropzone: the hook drives `uploadImage` and `validateUpload`
   * against the same store. A file the policy refuses leaves both tables untouched
   * and shows the policy message. A file it accepts, whose PUT succeeds, ends with one
   * new `file` row for the generated name, the pending table as it was before, the
   * object URL handed to `onSuccess`, and progress 100.
   */
  method EndToEnd(
    store: RecordStore, hook: Hook, client: Client, bucket: string,
    file: BrowserFile, sha256: seq<bv8> -> string, uuid: string,
    presign: PresignRequest -> string, now: int,
    progressEvents: seq<int>, transferError: Option<string>)
    returns (a: Attempt)
    requires hook.confirmsOnServer && hook.notifiesSuccess
    modifies store, hook
    ensures var iss := GenerateSignedURL(client, file.info, sha256(file.content), ExampleOptions(bucket), uuid, presign);
      !iss.result.success ==>
        && store.State() == old(store.State())
        && a.put == None && a.exit == Returned
        && !hook.isUploading && hook.error == iss.result.error.value
    ensures var iss := GenerateSignedURL(client, file.info, sha256(file.content), ExampleOptions(bucket), uuid, presign);
      && iss.result.success && uuid != "" && iss.created.value.signedUrl != ""
      && iss.created.value.filename !in old(store.signedFiles) && transferError.None? ==>
        var ev := iss.created.value;
        && store.files == old(store.files) + [StoredFile(ev.filename, file.info.name, file.info.size, file.info.mimeType, ev.objectUrl)]
        && store.signedFiles == old(store.signedFiles)
        && a.notified == Some(ev.objectUrl) && a.exit == Returned
        && !hook.isUploading && hook.error == "" && hook.progress == 100
  {
    var form := UploadForm(sha256(file.content), Some(file.info));
    ghost var before := store.State();
    var reply := UploadImage(store, client, bucket, form, uuid, presign, now);
    var confirmed := false;
    if reply.Ok? && reply.value.success && Truthy(reply.value.data) && transferError.None?
       && Truthy(reply.value.url) && Truthy(reply.value.filename) {
      confirmed := ValidateUpload(store, ConfirmForm(reply.value.filename.value));
    }
    a := hook.StartUpload(file, sha256, reply, progressEvents, transferError, Ok(confirmed));
    ghost var iss := GenerateSignedURL(client, file.info, sha256(file.content), ExampleOptions(bucket), uuid, presign);
    if iss.result.success && uuid != "" && iss.created.value.signedUrl != ""
       && iss.created.value.filename !in before.signedFiles && transferError.None? {
      InsertThenConfirm(before, iss.created.value, now);
    }
  }

  /**
   * The example policy accepts `cat.png` (1000 bytes, image/png) and issues it a name
   * that keeps the `.png` extension.
   */
  lemma ExampleAcceptsCat(
    client: Client, bucket: string, checksum: string, uuid: string, presign: PresignRequest -> string)
    requires '.' !in uuid
    ensures var cat := GenerateSignedURL(client, FileInfo("cat.png", 1000, "image/png"), checksum,
                                         ExampleOptions(bucket), uuid, presign);
      && cat.result.success
      && cat.created.value.filename == uuid + ".png"
      && Extension(cat.created.value.filename) == ".png"
  {
    ExtensionFromLastDot("cat.png", 3);
    ExtensionPreserved(uuid, "cat.png");
  }

  /**
   * The example policy's limits: 5 MB is 5242880 bytes and a file of exactly that
   * size passes; `movie.mp4` (video/mp4) is refused as the wrong format with no signed
   * URL and no pending row requested; one byte over the limit is too big even with a
   * wrong type.
   */
  lemma ExamplePolicyLimits(
    client: Client, bucket: string, checksum: string, uuid: string, presign: PresignRequest -> string)
    ensures ExampleOptions(bucket).maxSize == 5242880
    ensures var movie := GenerateSignedURL(client, FileInfo("movie.mp4", 10, "video/mp4"), checksum,
                                           ExampleOptions(bucket), uuid, presign);
      movie.result == Failed(WrongFormatMessage) && movie.presigned.None? && movie.created.None?
    ensures GenerateSignedURL(client, FileInfo("big.png", 5242880, "image/png"), checksum,
                              ExampleOptions(bucket), uuid, presign).result.success
    ensures GenerateSignedURL(client, FileInfo("big.png", 5242881, "video/mp4"), checksum,
                              ExampleOptions(bucket), uuid, presign).result == Failed(TooBigMessage)
  {
  }
}
