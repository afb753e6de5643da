/**
 * The browser half of index.ts: the `useEasyS3Upload` hook. Its three pieces of
 * observable state (`error`, `isUploading`, `progress`) are the fields of class Hook,
 * and `startUpload` is a method that updates them step by step. Everything the hook
 * waits for is injected: the SHA-256 of the file bytes (a deterministic function),
 * the server action's reply, the progress events and outcome of the direct PUT, and
 * the reply, or the rejection, of the confirmation action.
 */
module UploadHook {
  import opened Wrappers
  import opened EasyS3

  /** A browser `File`: its metadata and its bytes. */
  datatype BrowserFile = BrowserFile(info: FileInfo, content: seq<bv8>)

  /** How a `startUpload` call ended: it returned, or its promise rejected with a message. */
  datatype Exit = Returned | Rejected(reason: string)

  /** A direct write of the file bytes to a signed URL with the declared content type. */
  datatype Put = Put(url: string, body: seq<bv8>, contentType: string)

  /**
   * What one `startUpload` call asked of the outside world: the form posted to the
   * server action, the PUT it issued, the file name posted for confirmation, the URL
   * handed to `onSuccess`, and how it ended.
   */
  datatype Attempt = Attempt(
    request: UploadForm,
    put: Option<Put>,
    confirmation: Option<string>,
    notified: Option<string>,
    exit: Exit)

  const UrlMissingMessage := "URL is missing although success is true"
  const ConfirmFailedMessage := "Something went wrong!"

  /** JavaScript truthiness of an optional string: present and not empty. */
  predicate Truthy(o: Option<string>) {
    o.Some? && o.value != ""
  }

  /** The value the progress callback last reported, 0 when it never ran. */
  function LastProgress(events: seq<int>): int {
    if events == [] then 0 else events[|events| - 1]
  }

  class Hook {
    var error: string
    var isUploading: bool
    var progress: int
    /** An `onSuccessServer` confirmation action was supplied. */
    const confirmsOnServer: bool
    /** An `onSuccess` callback was supplied. */
    const notifiesSuccess: bool

    /** `useEasyS3Upload(action, onSuccess?, onSuccessServer?)`: the initial state. */
    constructor (confirmsOnServer: bool, notifiesSuccess: bool)
      ensures error == "" && !isUploading && progress == 0
      ensures this.confirmsOnServer == confirmsOnServer && this.notifiesSuccess == notifiesSuccess
    {
      error := "";
      isUploading := false;
      progress := 0;
      this.confirmsOnServer := confirmsOnServer;
      this.notifiesSuccess := notifiesSuccess;
    }

    /** `initState`: a new attempt is in progress, with no error and no progress. */
    method InitState()
      modifies this
      ensures isUploading && error == "" && progress == 0
    {
      isUploading := true;
      error := "";
      progress := 0;
    }

    /** `handleError`: shows the result's error and ends the attempt; progress is left alone. */
    method HandleError(result: S3Result)
      modifies this
      ensures error == result.error.GetOr("") && !isUploading && progress == old(progress)
    {
      error := result.error.GetOr("");
      isUploading := false;
    }

    /**
     * `startUpload`. After it, the state depends only on the injected replies:
     * an issuer refusal shows the issuer's message and clears `isUploading`; a
     * rejected call (the action, the PUT or the confirmation action) leaves the attempt
     * marked in progress with no error; a confirmation answering false shows
     * "Something went wrong!" and also leaves `isUploading` set;
     * every other path ends with no error, not uploading, and progress 100.
     */
    method StartUpload(
      file: BrowserFile, sha256: seq<bv8> -> string, reply: Outcome<S3Result>,
      progressEvents: seq<int>, transferError: Option<string>, confirmReply: Outcome<bool>)
      returns (a: Attempt)
      modifies this
      ensures a.request == UploadForm(sha256(file.content), Some(file.info))
      // the action rejected
      ensures reply.Threw? ==>
        && a == Attempt(a.request, None, None, None, Rejected(reply.message))
        && isUploading && error == "" && progress == 0
      // the issuer refused
      ensures reply.Ok? && !reply.value.success ==>
        && a == Attempt(a.request, None, None, None, Returned)
        && !isUploading && error == reply.value.error.GetOr("") && progress == 0
      // success without a signed URL
      ensures reply.Ok? && reply.value.success && !Truthy(reply.value.data) ==>
        && a == Attempt(a.request, None, None, None, Rejected(UrlMissingMessage))
        && isUploading && error == "" && progress == 0
      // the PUT is issued exactly when the issuer succeeded with a signed URL
      ensures a.put.Some? <==> reply.Ok? && reply.value.success && Truthy(reply.value.data)
      ensures a.put.Some? ==> a.put.value == Put(reply.value.data.value, file.content, file.info.mimeType)
      // the PUT failed
      ensures a.put.Some? && transferError.Some? ==>
        && a.confirmation == None && a.notified == None && a.exit == Rejected(transferError.value)
        && isUploading && error == "" && progress == LastProgress(progressEvents)
      // the PUT succeeded
      ensures a.put.Some? && transferError.None? ==>
        var r := reply.value;
        var named := Truthy(r.url) && Truthy(r.filename);
        && a.confirmation == (if named && confirmsOnServer then Some(r.filename.value) else None)
        && if named && confirmsOnServer && confirmReply.Threw? then
             && a.notified == None && a.exit == Rejected(confirmReply.message)
             && isUploading && error == "" && progress == LastProgress(progressEvents)
           else if named && confirmsOnServer && !confirmReply.value then
             && a.notified == None && a.exit == Returned
             && isUploading && error == ConfirmFailedMessage && progress == LastProgress(progressEvents)
           else
             && a.exit == Returned
             && a.notified == (if named && notifiesSuccess then Some(r.url.value) else None)
             && !isUploading && error == "" && progress == 100
      // summary: success is reported only at the end of a finished attempt
      ensures a.notified.Some? ==> a.confirmation.Some? || !confirmsOnServer
      ensures a.notified.Some? ==> !isUploading && error == "" && progress == 100
    {
      InitState();
      var request := UploadForm(sha256(file.content), Some(file.info));
      a := Attempt(request, None, None, None, Returned);
      if reply.Threw? {
        a := a.(exit := Rejected(reply.message));
        return;
      }
      var result := reply.value;
      if !result.success {
        HandleError(result);
        return;
      }
      if !Truthy(result.data) {
        a := a.(exit := Rejected(UrlMissingMessage));
        return;
      }
      a := a.(put := Some(Put(result.data.value, file.content, file.info.mimeType)));
      // the progress callback, once per progress event of the PUT
      for i := 0 to |progressEvents|
        invariant isUploading && error == ""
        invariant progress == LastProgress(progressEvents[..i])
      {
        progress := progressEvents[i];
        assert progressEvents[..i + 1][i] == progressEvents[i];
      }
      assert progressEvents[..|progressEvents|] == progressEvents;
      if transferError.Some? {
        a := a.(exit := Rejected(transferError.value));
        return;
      }
      if Truthy(result.url) && Truthy(result.filename) {
        if confirmsOnServer {
          a := a.(confirmation := Some(result.filename.value));
          if confirmReply.Threw? {
            a := a.(exit := Rejected(confirmReply.message));
            return;
          }
          if !confirmReply.value {
            error := ConfirmFailedMessage;
            return;
          }
        }
        if notifiesSuccess {
          a := a.(notified := Some(result.url.value));
        }
      }
      isUploading := false;
      error := "";
      progress := 100;
    }
  }
}
