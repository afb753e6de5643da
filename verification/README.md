# next-easy-s3-upload — a Dafny model of the upload protocol

The library lets a browser upload a file straight to an S3-compatible bucket. A server
action checks the declared size and MIME type against a policy, and builds a
random file name that keeps the original extension. It asks the AWS presigner for a
time-limited PUT URL and tells the application through the `signedURLCreated` callback.
The browser then PUTs the bytes to that URL and asks the server to confirm. In the
Prisma example application, confirmation promotes the pending `signedFile` row to a
`file` row.

The model has five modules:

- `Wrappers` (Wrappers.dfy): `Option` for values that may be `undefined`, and `Outcome` for a promise that resolves or rejects.
- `Strings` (Strings.dfy): JavaScript's `split` on a one-character separator, with `Join` as its inverse. Both round trips are proved.
- `EasyS3` (EasyS3.dfy): the server half of `index.ts` as pure functions. The presigner is a function parameter and the random id is a plain parameter. `GenerateSignedURL` returns its result together with the presign request it made and the argument it gave `signedURLCreated`. Each of these is `None` when the call was not made.
- `UploadHook` (UploadHook.dfy): the `useEasyS3Upload` hook as class `Hook`. Its fields `error`, `isUploading` and `progress` are updated by `InitState`, `HandleError` and `StartUpload`. The method gets its injected inputs as parameters: the hash function, the server action's reply, the progress events, the PUT outcome and the confirmation reply.
- `ExampleUpload` (ExampleUpload.dfy): the example's `upload.ts`. The two Prisma tables are the fields of class `RecordStore`, and their pure counterparts are `Insert` and `Confirm` over `Tables`. It also holds the example policy, the two server actions, and the dropzone wiring of hook and actions (`EndToEnd`).

The model keeps the following behaviour of the code as written, even where a stricter protocol would differ:

- A failed confirmation shows "Something went wrong!" but leaves `isUploading` set. A PUT failure or a missing URL rejects the promise and leaves `isUploading` set as well.
- `expiresAt` is written but never checked on confirmation.
- The storage key is `folder + "/" + name`, while the object URL is `endpoint/bucket/` followed by `folder + name` with no separator. `ObjectUrlDiffersFromKey` proves the two paths never coincide, whatever the folder.
- The pending table treats `filename` as unique, because rows are deleted by it. A second `create` for a pending name rejects and changes nothing.

## Model

| member | source | states |
|---|---|---|
| Strings.Split | index.ts:113 | `split('.')` yields at least one piece and no piece contains the separator. Joining the pieces gives the input back. |
| Strings.SplitMany | index.ts:113-114 | There is more than one piece exactly when the input contains the separator, which is the `split.length > 1` test. |
| Strings.SplitJoin | index.ts:113 | Splitting a join of separator-free pieces gives back exactly those pieces (the other round trip). |
| EasyS3.FromFormData | index.ts:65-82 | Throws "Invalid file JSON format" exactly when the file entry does not parse; otherwise returns the posted checksum and file metadata. |
| EasyS3.Handle | index.ts:84-87 | Rejects with the JSON error exactly when the form's file entry does not parse; otherwise its value is exactly `GenerateSignedURL` applied to the parsed file and checksum. |
| EasyS3.Extension | index.ts:113-114 | The extension is empty exactly when the name has no dot. Otherwise it starts with a dot, has no other dot, and is a suffix of the name. |
| EasyS3.ExtensionFromLastDot | index.ts:113-114 | The extension is the suffix of the name that starts at its last dot. |
| EasyS3.ExtensionLastPieceExample | index.ts:113-114 | `"a.b.c"` gives `".c"`. |
| EasyS3.ExtensionTrailingDotExample | index.ts:113-114 | `"name."` gives `"."`. |
| EasyS3.ExtensionKeepsCaseExample | index.ts:113-114 | `"photo.PNG"` gives `".PNG"`, so case is kept. |
| EasyS3.ExtensionPreserved | index.ts:113-116 | With a dot-free random id, the generated name has the original name's extension; a name without a dot gives a generated name without one. |
| EasyS3.GenerateSignedURL | index.ts:94-151 | Success holds exactly when `size <= maxSize` (strict `>` rejects) and the type is allowed. Size is checked first: too big gives "The file is too big!" whatever the type, then a wrong type gives "The format of the file is wrong!". A failure makes no presign request and no `signedURLCreated` call. On success there is exactly one presign request, for key `StorageKey(folder, name)` = `folder/name` with the declared type, length, checksum, metadata and `expires`. The name is the id followed by the extension and ends with it. There is exactly one callback, with the signed URL, the object URL `ObjectUrl(endpoint, bucket, folder, name)`, the name, type, size, `expiresIn`, folder and original name. The result returns that same signed URL, object URL and name. |
| EasyS3.ObjectUrlDiffersFromKey | index.ts:118-131 | The object URL (`ObjectUrl`, index.ts:131) is one character shorter than `endpoint/bucket/` + storage key (`StorageKey`, index.ts:120), so it never names the stored key. Both end with the file name. |
| UploadHook.Hook.constructor | index.ts:161-164 | The hook starts with no error, not uploading, and progress 0. |
| UploadHook.Hook.InitState | index.ts:166-170 | Sets uploading, clears the error, and sets progress to 0. |
| UploadHook.Hook.HandleError | index.ts:172-175 | Shows the result's error and clears uploading; progress is unchanged. |
| UploadHook.Hook.StartUpload | index.ts:177-229 | Posts the checksum of the bytes with the file metadata. Action rejected: uploading, no error, progress 0. Issuer refused: its message, not uploading. Success without a URL: rejects with "URL is missing although success is true". The PUT is issued exactly when the issuer succeeded with a URL; it sends the file's bytes to that URL with the file's type. PUT failure: rejects, progress stays at the last event. Confirmation rejected: rejects with its message, still uploading, no error. Confirmation answered false: "Something went wrong!", still uploading. Otherwise: no error, not uploading, progress 100. Confirmation and `onSuccess(url)` happen only when both URL and file name are present. |
| ExampleUpload.Insert | examples/aws-x-prisma/app/lib/upload.ts:25-37 | `signedURLCreated` adds exactly one pending row under the new name. The row is `PendingRecord(o, now)`: filename, folder, size, type, signed URL, object URL and original name copied from the callback argument, and `expiresAt = now + expiresIn * 1000`. Every other row is unchanged and the `file` table is untouched. A name that is already pending makes it fail with no change. Rows stay keyed by their own name. |
| ExampleUpload.Confirm | examples/aws-x-prisma/app/lib/upload.ts:39-68 | Returns true exactly when a pending row exists for the name. If none: false, nothing changes. If one: exactly one `file` row is appended, `Promote(row)`, which copies name, original name, size, type and object URL (as `url`) from the pending row; that pending row is removed; every other pending row is unchanged. |
| ExampleUpload.ConfirmConserves | examples/aws-x-prisma/app/lib/upload.ts:51-65 | Confirming moves a row between the tables; the total row count is unchanged. |
| ExampleUpload.ConfirmTwice | examples/aws-x-prisma/app/lib/upload.ts:43-65 | Confirming the same name a second time returns false and adds no second `file` row. |
| ExampleUpload.ConfirmOtherKeepsPending | examples/aws-x-prisma/app/lib/upload.ts:43-65 | Confirming another name leaves a pending row untouched. |
| ExampleUpload.InsertThenConfirm | examples/aws-x-prisma/app/lib/upload.ts:25-67 | Issue then confirm succeeds. It leaves one new `file` row with the generated name, original name, size, type and object URL, and no pending row for that name. |
| ExampleUpload.ApplyStep | examples/aws-x-prisma/app/lib/upload.ts:24-69 | One callback call only appends `file` rows, each for a name that was pending. Pending names grow only by the issued name. The tables grow by at most one row, and only on an issue call. |
| ExampleUpload.RunProvenance | examples/aws-x-prisma/app/lib/upload.ts:24-69 | Over any sequence of callback calls, `file` rows are only appended. Every new `file` row and every pending row names a file that was pending at the start or issued during the run, so there is no permanent record without a prior reservation. |
| ExampleUpload.RunCount | examples/aws-x-prisma/app/lib/upload.ts:24-69 | Over any sequence of callback calls, the two tables together grow by at most one row per issue call: promotion never multiplies rows. |
| ExampleUpload.RecordStore.SignedURLCreated | examples/aws-x-prisma/app/lib/upload.ts:25-38 | Updates the tables as `Insert` does: one pending row copied from the callback argument, the `file` table unchanged, and a rejection on a duplicate name. |
| ExampleUpload.RecordStore.FileUploaded | examples/aws-x-prisma/app/lib/upload.ts:39-68 | Updates the tables as `Confirm` does: find, create, delete and return true; false with no change when nothing is pending under the name. |
| ExampleUpload.UploadImage | examples/aws-x-prisma/app/lib/upload.ts:72-74 | Runs `handle` with the example policy. A JSON error or a policy refusal leaves the tables unchanged. On success the pending row is inserted before the result is returned, and a duplicate pending name rejects. |
| ExampleUpload.ValidateUpload | examples/aws-x-prisma/app/lib/upload.ts:77-79 | Forwards the posted file name to `fileUploaded` and changes the tables as `Confirm` does. |
| ExampleUpload.EndToEnd | examples/aws-x-prisma/app/dropzone.tsx:16-19 | A file the policy refuses leaves both tables unchanged and shows the policy message without any PUT. An accepted file with a successful PUT adds one `file` row for the generated name and leaves the pending table as before. The object URL goes to `onSuccess`, and the hook ends at progress 100, not uploading, with no error. |
| ExampleUpload.ExampleAcceptsCat | examples/aws-x-prisma/app/lib/upload.ts:13-23 | Under the example policy `ExampleOptions`, `cat.png` (1000 B, image/png) is accepted and issued `<id>.png`, whose extension is `.png`. |
| ExampleUpload.ExamplePolicyLimits | examples/aws-x-prisma/app/lib/upload.ts:13-23 | `ExampleOptions` has the limit 5242880 bytes (5 MB, 60-second expiry, root folder, png/jpeg/jpg) and a file of exactly that size passes. `video/mp4` is refused as the wrong format with no presign and no callback. One byte over the limit gives "too big" even for a wrong type. |

## Left out

- The S3 SDK client and its construction (index.ts:52-63) are not modelled. `getSignedUrl` is a function parameter of the issuer, so the signed URL is an opaque string.
- `crypto.randomUUID` is a parameter. Its uniqueness cannot be proved, so a repeated id is modelled only through the duplicate-name rejection of the pending table.
- The SHA-256 hash over the file bytes (index.ts:154-158) is a function parameter. It is deterministic by construction; collision resistance is not modelled.
- The `axios.put` transfer is an injected outcome and a sequence of progress values. `Math.round` over floating-point byte counts is not modelled.
- Form parsing in `fromFormData` is reduced to "the file entry parses or not". JSON that parses to a value of the wrong shape, and a missing `checksum` entry, are not modelled.
- React state, re-rendering, asynchronous scheduling and overlapping `startUpload` calls are not modelled; the hook's state is plain fields updated in program order.
- Prisma failures other than the unique-name rejection of `signedFile.create` are not modelled. This includes a failing `file.create` or `signedFile.delete` in the middle of a confirmation, so the window between them is not modelled either.
- `Date.now()` is a parameter `now` in milliseconds.
- Expiry is never enforced, because the code never reads `expiresAt`.
- `getSignedUrl` rejecting (index.ts:127) is not modelled: the presigner parameter always yields a URL, so `handle` never rejects for that reason.
- `file.arrayBuffer()` rejecting inside `computeSHA256` (index.ts:155, 180) is not modelled: the hash function parameter always yields a checksum.
- An `onSuccess` callback that throws (index.ts:222) is not modelled: `onSuccess` is recorded as called and never fails, so the final state setters always run after it.
- JavaScript numbers (`size`, `maxSize`, `expires`, `expiresIn * 1000`, `Date.now()`) are unbounded integers in the model: floating-point rounding and non-integral values are not modelled, and no realistic value reaches the range where they would matter.
- `EasyS3.ObjectUrlDiffersFromKey`: the model does not say which of the two paths the storage service serves; it only proves they differ.
- `UploadHook.Hook.HandleError`: a failed result without an error message sets the source's `error` state to `undefined`; the model stores the empty string.
- The dropzone's and page's rendering (examples/aws-x-prisma/app/dropzone.tsx, page.tsx) is not modelled, beyond the wiring of the hook to the two server actions.
