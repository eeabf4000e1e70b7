/**
 * The transfer side of s3.go: every object of a user lives under the key
 * prefix `users/{user}/`; `UploadFile` chooses between one `PutObject` and a
 * multipart upload driven by a read loop; `ListFiles` strips the prefix from
 * the backend's listing and cuts one page out of it.
 *
 * The object store is not modelled: what the backend answers (an upload id,
 * an ETag, a failure) and what each read of the uploaded file returns are
 * inputs, and the calls the handler makes are its output, in order.
 */
module Transfer {
  import opened Outcomes
  import opened Text
  import Registry

  newtype byte = x: int | 0 <= x < 256

  // ------------------------------------------------------------ object keys

  /** The key prefix of one user's objects (s3.go:289, 444, 581). */
  function UserPrefix(userId: string): string {
    "users/" + userId + "/"
  }

  /** The object key a user's file name denotes. */
  function ObjectKey(userId: string, name: string): (k: string)
    ensures HasPrefix(k, UserPrefix(userId))
    ensures TrimPrefix(k, UserPrefix(userId)) == name
  {
    assert (UserPrefix(userId) + name)[..|UserPrefix(userId)|] == UserPrefix(userId);
    UserPrefix(userId) + name
  }

  /** Within one user the file name is recovered from the key, so distinct
      names are distinct objects. */
  lemma ObjectKeyInjective(userId: string, a: string, b: string)
    requires ObjectKey(userId, a) == ObjectKey(userId, b)
    ensures a == b
  {
    assert TrimPrefix(ObjectKey(userId, a), UserPrefix(userId)) == a;
  }

  /** User names are not restricted, and a `/` inside one makes two tenants
      name the same object key: the file `x` of user `a/b` lies under user
      `a`'s prefix as `b/x`, so user `a`'s listing shows it (see
      `ListingShowsNestedTenant`). */
  lemma TenantsShareKeys()
    ensures ObjectKey("a", "b/x") == ObjectKey("a/b", "x")
    ensures HasPrefix(ObjectKey("a/b", "x"), UserPrefix("a"))
  {
  }

  /** Without a `/` in either user name, different users never share a key. */
  lemma ObjectKeysSeparateTenants(u: string, v: string, a: string, b: string)
    requires '/' !in u && '/' !in v
    requires ObjectKey(u, a) == ObjectKey(v, b)
    ensures u == v && a == b
  {
    if |u| < |v| {
      SlashInLonger(v, u, b, a);
    } else if |v| < |u| {
      SlashInLonger(u, v, a, b);
    } else {
      var k := ObjectKey(u, a);
      assert u == k[6..6 + |u|] == v;
      ObjectKeyInjective(u, a, b);
    }
  }

  /** Of two user names giving the same key, the longer one has a `/` where
      the shorter one's prefix ends. */
  lemma SlashInLonger(u: string, v: string, a: string, b: string)
    requires |v| < |u| && ObjectKey(u, a) == ObjectKey(v, b)
    ensures '/' in u
  {
    var k := ObjectKey(u, a);
    assert k[6 + |v|] == '/' && k[6 + |v|] == u[|v|];
  }

  // ---------------------------------------------------------------- upload

  const MultipartThreshold: int := 5 * 1024 * 1024
  const PartSize: int := 5 * 1024 * 1024

  /** The three outcomes of one `file.Read(buffer)`. */
  datatype ReadStatus = ReadOk | ReadEof | ReadFailed(err: string)

  /** One read: the bytes placed in the buffer and the error returned. */
  datatype Chunk = Chunk(data: seq<byte>, status: ReadStatus)

  /** The uploaded file as the loop sees it: reads past the supplied ones
      report end of file with no data. */
  function ChunkAt(chunks: seq<Chunk>, i: nat): Chunk {
    if i < |chunks| then chunks[i] else Chunk([], ReadEof)
  }

  /** A read the loop sends as a part: anything but an empty read that
      reports end of file or an error. */
  predicate Uploadable(c: Chunk) {
    |c.data| > 0 || c.status == ReadOk
  }

  /** A read after which the loop reads again. */
  predicate Continues(c: Chunk) {
    Uploadable(c) && c.status != ReadEof
  }

  datatype Part = Part(etag: string, number: int)

  /** The backend calls of the upload handlers, each naming its object. */
  datatype Call =
    | PutObject(key: string)
    | CreateUpload(key: string)
    | UploadPart(key: string, uploadId: string, number: int, body: seq<byte>)
    | AbortUpload(key: string, uploadId: string)
    | CompleteUpload(key: string, uploadId: string, parts: seq<Part>)

  /** The `UploadPart` calls for the first `k` reads: part `j + 1` carries
      the bytes of read `j`. */
  function Sends(key: string, uploadId: string, chunks: seq<Chunk>, k: nat): (r: seq<Call>)
    requires k <= |chunks|
    ensures |r| == k
  {
    if k == 0 then [] else Sends(key, uploadId, chunks, k - 1) + [UploadPart(key, uploadId, k, chunks[k - 1].data)]
  }

  /** Call `j` of the first `k` is the upload of read `j` as part `j + 1`. */
  lemma {:induction false} SendsAt(key: string, uploadId: string, chunks: seq<Chunk>, k: nat)
    requires k <= |chunks|
    ensures forall j :: 0 <= j < k ==> Sends(key, uploadId, chunks, k)[j] == UploadPart(key, uploadId, j + 1, chunks[j].data)
  {
    if k > 0 {
      SendsAt(key, uploadId, chunks, k - 1);
    }
  }

  /** The upload calls, and the calls around them, all name one object. */
  lemma SentKeys(key: string, uploadId: string, chunks: seq<Chunk>, k: nat, after: seq<Call>)
    requires k <= |chunks|
    requires forall j :: 0 <= j < |after| ==> after[j].key == key
    ensures var calls := [CreateUpload(key)] + Sends(key, uploadId, chunks, k) + after;
            forall j :: 0 <= j < |calls| ==> calls[j].key == key
  {
    SendsAt(key, uploadId, chunks, k);
    var sends := Sends(key, uploadId, chunks, k);
    var calls := [CreateUpload(key)] + sends + after;
    forall j | 0 <= j < |calls| ensures calls[j].key == key {
      if 0 < j <= k {
        assert calls[j] == sends[j - 1];
      } else if j > k {
        assert calls[j] == after[j - 1 - k];
      }
    }
  }

  /** The completed-part list after `k` successful `UploadPart` calls. */
  function PartsOf(uploads: seq<Result<string>>, k: nat): (r: seq<Part>)
    requires k <= |uploads| && forall j :: 0 <= j < k ==> uploads[j].Ok?
    ensures |r| == k
  {
    if k == 0 then [] else PartsOf(uploads, k - 1) + [Part(uploads[k - 1].value, k)]
  }

  /** Part `j` of the list is numbered `j + 1` and carries the tag the
      backend returned for it. */
  lemma {:induction false} PartsAt(uploads: seq<Result<string>>, k: nat)
    requires k <= |uploads| && forall j :: 0 <= j < k ==> uploads[j].Ok?
    ensures forall j :: 0 <= j < k ==> PartsOf(uploads, k)[j] == Part(uploads[j].value, j + 1)
  {
    if k > 0 {
      PartsAt(uploads, k - 1);
    }
  }

  /** How the part loop ends. */
  datatype LoopExit = StreamDone | ReadError(err: string) | PartError(err: string)

  /**
   * The part loop of `UploadFile` (s3.go:312-362). Read `i` becomes part
   * `i + 1`; `uploads[i]` is the backend's answer to that part. The loop
   * stops at an empty end-of-file read, after sending a non-empty read that
   * reported end of file, at an empty read that reported an error (without
   * aborting), or at the first failing part, which it aborts.
   */
  method PartLoop(key: string, uploadId: string, chunks: seq<Chunk>, uploads: seq<Result<string>>)
    returns (calls: seq<Call>, parts: seq<Part>, exit: LoopExit)
    requires |uploads| >= |chunks|
    ensures |parts| <= |chunks|
    ensures forall j :: 0 <= j < |parts| ==> uploads[j].Ok?
    ensures parts == PartsOf(uploads, |parts|)
    ensures forall j :: 0 <= j < |parts| - 1 ==> Continues(chunks[j])
    ensures exit == StreamDone ==>
              calls == Sends(key, uploadId, chunks, |parts|)
              && ((ChunkAt(chunks, |parts|) == Chunk([], ReadEof) && (|parts| > 0 ==> Continues(chunks[|parts| - 1])))
                  || (|parts| > 0 && chunks[|parts| - 1].status == ReadEof && |chunks[|parts| - 1].data| > 0))
    ensures exit.ReadError? ==>
              calls == Sends(key, uploadId, chunks, |parts|)
              && ChunkAt(chunks, |parts|) == Chunk([], ReadFailed(exit.err))
              && (|parts| > 0 ==> Continues(chunks[|parts| - 1]))
    ensures exit.PartError? ==>
              |parts| < |chunks|
              && calls == Sends(key, uploadId, chunks, |parts| + 1) + [AbortUpload(key, uploadId)]
              && uploads[|parts|] == Err(exit.err)
              && Uploadable(chunks[|parts|])
              && (|parts| > 0 ==> Continues(chunks[|parts| - 1]))
  {
    calls, parts := [], [];
    var partNumber := 1;
    while true
      invariant |parts| <= |chunks| && partNumber == |parts| + 1
      invariant forall j :: 0 <= j < |parts| ==> uploads[j].Ok?
      invariant parts == PartsOf(uploads, |parts|)
      invariant forall j :: 0 <= j < |parts| ==> Continues(chunks[j])
      invariant calls == Sends(key, uploadId, chunks, |parts|)
      decreases |chunks| - |parts|
    {
      var chunk := ChunkAt(chunks, |parts|);
      if |chunk.data| == 0 && chunk.status == ReadEof {
        exit := StreamDone;
        return;
      }
      if |chunk.data| == 0 && chunk.status != ReadOk {
        exit := ReadError(chunk.status.err);
        return;
      }
      calls := calls + [UploadPart(key, uploadId, partNumber, chunk.data)];
      var answer := uploads[|parts|];
      if answer.Err? {
        calls := calls + [AbortUpload(key, uploadId)];
        exit := PartError(answer.msg);
        return;
      }
      parts := parts + [Part(answer.value, partNumber)];
      partNumber := partNumber + 1;
      if chunk.status == ReadEof {
        exit := StreamDone;
        return;
      }
    }
  }

  /** The stage recorded in the audit details of an upload. */
  datatype Stage = InitiateMultipart | ReadPart | UploadPartStage | CompleteMultipart | MultipartUpload | PutObjectStage

  /** One audit event of `UploadFile`: success, error text, stage, and the
      optional `part_number` and `parts` details (the file name and size
      are recorded in every event and not repeated here). */
  datatype Note = Note(success: bool, err: string, stage: Stage, partNumber: Option<int>, parts: Option<int>)

  /** The replies of the transfer handlers. */
  datatype Answer =
    | ConfigMissing
    | ClientMissing
    | FileRequired
    | InitiateFailed(err: string)
    | ReadFailedAnswer(err: string)
    | PartFailed(err: string)
    | CompleteFailed(err: string)
    | UploadedMultipart
    | PutFailed(err: string)
    | Uploaded
    | ListFailed(err: string)
    | Recovered
    | Listed

  function Status(a: Answer): int {
    match a
    case ConfigMissing => 404
    case FileRequired => 400
    case UploadedMultipart => 200
    case Uploaded => 200
    case Listed => 200
    case _ => 500
  }

  /** The answer when no client can be built for a configuration of
      `storageType`: `createS3Client` returns nil for `minio`, and for any
      other type `session.Must` panics, which the router's recovery
      middleware answers 500 with an empty body. */
  function ClientFailure(storageType: string): Answer {
    if storageType == "minio" then ClientMissing else Recovered
  }

  function AnswerText(a: Answer): string {
    match a
    case ConfigMissing => "Configuration not found"
    case ClientMissing => "Failed to create storage client"
    case FileRequired => "File required"
    case InitiateFailed(e) => "Failed to initiate multipart upload: " + e
    case ReadFailedAnswer(e) => "Failed to read file part: " + e
    case PartFailed(e) => "Failed to upload part: " + e
    case CompleteFailed(e) => "Failed to complete multipart upload: " + e
    case UploadedMultipart => "File uploaded successfully (multipart)"
    case PutFailed(e) => "Failed to upload file: " + e
    case Uploaded => "File uploaded successfully"
    case ListFailed(e) => "Failed to list files: " + e
    case Recovered => ""
    case Listed => ""
  }

  /** The multipart form's file: its name and declared size. */
  datatype FileHeader = FileHeader(filename: string, size: int)

  /**
   * What a multipart upload of `key` did, as the replies, backend calls and
   * audit events of s3.go:296-388 show it. After the upload is created,
   * the calls are the parts sent, numbered from 1 in read order, then
   * exactly one of: nothing (an empty read reported an error: no abort),
   * an abort under the same upload id (a part failed), or the completion
   * with every part's ETag (the stream ended and every part succeeded).
   */
  predicate MultipartOutcome(key: string, initiate: Result<string>, chunks: seq<Chunk>, uploads: seq<Result<string>>,
                             complete: Option<string>, answer: Answer, calls: seq<Call>, note: Option<Note>)
    requires |uploads| >= |chunks|
  {
    |calls| >= 1 && calls[0] == CreateUpload(key)
    && (initiate.Err? ==>
          calls == [CreateUpload(key)]
          && answer == InitiateFailed(initiate.msg)
          && note == Some(Note(false, initiate.msg, InitiateMultipart, None, None)))
    && (initiate.Ok? ==>
          var id := initiate.value;
          (answer.ReadFailedAnswer? || answer.PartFailed? || answer == UploadedMultipart || answer.CompleteFailed?)
          && (answer.ReadFailedAnswer? ==>
                |calls| - 1 <= |chunks|
                && calls == [CreateUpload(key)] + Sends(key, id, chunks, |calls| - 1)
                && ChunkAt(chunks, |calls| - 1) == Chunk([], ReadFailed(answer.err))
                && note == Some(Note(false, answer.err, ReadPart, Some(|calls|), None)))
          && (answer.PartFailed? ==>
                3 <= |calls| <= |chunks| + 2
                && calls == [CreateUpload(key)] + Sends(key, id, chunks, |calls| - 2) + [AbortUpload(key, id)]
                && uploads[|calls| - 3] == Err(answer.err)
                && note == Some(Note(false, answer.err, UploadPartStage, Some(|calls| - 2), None)))
          && (answer == UploadedMultipart || answer.CompleteFailed? ==>
                2 <= |calls| <= |chunks| + 2
                && (forall j :: 0 <= j < |calls| - 2 ==> uploads[j].Ok?)
                && calls == [CreateUpload(key)] + Sends(key, id, chunks, |calls| - 2)
                             + [CompleteUpload(key, id, PartsOf(uploads, |calls| - 2))]
                && (answer == UploadedMultipart <==> complete.None?)
                && (answer == UploadedMultipart ==> note == Some(Note(true, "", MultipartUpload, None, Some(|calls| - 2))))
                && (answer.CompleteFailed? ==>
                      complete == Some(answer.err) && note == Some(Note(false, answer.err, CompleteMultipart, None, None)))))
  }

  /** The multipart branch of `UploadFile` (s3.go:296-388). */
  method UploadMultipart(key: string, initiate: Result<string>, chunks: seq<Chunk>, uploads: seq<Result<string>>,
                         complete: Option<string>)
    returns (answer: Answer, calls: seq<Call>, note: Option<Note>)
    requires |uploads| >= |chunks|
    ensures MultipartOutcome(key, initiate, chunks, uploads, complete, answer, calls, note)
    ensures forall j :: 0 <= j < |calls| ==> calls[j].key == key
  {
    calls := [CreateUpload(key)];
    if initiate.Err? {
      note := Some(Note(false, initiate.msg, InitiateMultipart, None, None));
      answer := InitiateFailed(initiate.msg);
      return;
    }
    var id := initiate.value;
    var sent, parts, exit := PartLoop(key, id, chunks, uploads);
    calls := calls + sent;
    match exit {
      case ReadError(e) =>
        note := Some(Note(false, e, ReadPart, Some(|parts| + 1), None));
        answer := ReadFailedAnswer(e);
        ReadErrorOutcome(key, id, chunks, uploads, complete, |parts|, e);
      case PartError(e) =>
        note := Some(Note(false, e, UploadPartStage, Some(|parts| + 1), None));
        answer := PartFailed(e);
        PartErrorOutcome(key, id, chunks, uploads, complete, |parts|, e);
      case StreamDone =>
        calls := calls + [CompleteUpload(key, id, parts)];
        if complete.Some? {
          note := Some(Note(false, complete.value, CompleteMultipart, None, None));
          answer := CompleteFailed(complete.value);
        } else {
          note := Some(Note(true, "", MultipartUpload, None, Some(|parts|)));
          answer := UploadedMultipart;
        }
        StreamDoneOutcome(key, id, chunks, uploads, complete, |parts|);
    }
  }

  /** The outcome after `k` parts when the next read fails empty. */
  lemma ReadErrorOutcome(key: string, id: string, chunks: seq<Chunk>, uploads: seq<Result<string>>,
                         complete: Option<string>, k: nat, e: string)
    requires |uploads| >= |chunks| && k <= |chunks|
    requires ChunkAt(chunks, k) == Chunk([], ReadFailed(e))
    ensures var calls := [CreateUpload(key)] + Sends(key, id, chunks, k);
            MultipartOutcome(key, Ok(id), chunks, uploads, complete, ReadFailedAnswer(e), calls,
                             Some(Note(false, e, ReadPart, Some(k + 1), None)))
            && forall j :: 0 <= j < |calls| ==> calls[j].key == key
  {
    SentKeys(key, id, chunks, k, []);
    assert [CreateUpload(key)] + Sends(key, id, chunks, k) + [] == [CreateUpload(key)] + Sends(key, id, chunks, k);
  }

  /** The outcome when part `k + 1` fails. */
  lemma PartErrorOutcome(key: string, id: string, chunks: seq<Chunk>, uploads: seq<Result<string>>,
                         complete: Option<string>, k: nat, e: string)
    requires |uploads| >= |chunks| && k < |chunks|
    requires uploads[k] == Err(e)
    ensures var calls := [CreateUpload(key)] + (Sends(key, id, chunks, k + 1) + [AbortUpload(key, id)]);
            MultipartOutcome(key, Ok(id), chunks, uploads, complete, PartFailed(e), calls,
                             Some(Note(false, e, UploadPartStage, Some(k + 1), None)))
            && forall j :: 0 <= j < |calls| ==> calls[j].key == key
  {
    SentKeys(key, id, chunks, k + 1, [AbortUpload(key, id)]);
    assert [CreateUpload(key)] + (Sends(key, id, chunks, k + 1) + [AbortUpload(key, id)])
        == [CreateUpload(key)] + Sends(key, id, chunks, k + 1) + [AbortUpload(key, id)];
  }

  /** The outcome when the stream ended after `k` successful parts. */
  lemma StreamDoneOutcome(key: string, id: string, chunks: seq<Chunk>, uploads: seq<Result<string>>,
                          complete: Option<string>, k: nat)
    requires |uploads| >= |chunks| && k <= |chunks|
    requires forall j :: 0 <= j < k ==> uploads[j].Ok?
    ensures var calls := [CreateUpload(key)] + Sends(key, id, chunks, k) + [CompleteUpload(key, id, PartsOf(uploads, k))];
            MultipartOutcome(key, Ok(id), chunks, uploads, complete,
                             if complete.Some? then CompleteFailed(complete.value) else UploadedMultipart, calls,
                             if complete.Some? then Some(Note(false, complete.value, CompleteMultipart, None, None))
                             else Some(Note(true, "", MultipartUpload, None, Some(k))))
            && forall j :: 0 <= j < |calls| ==> calls[j].key == key
  {
    SentKeys(key, id, chunks, k, [CompleteUpload(key, id, PartsOf(uploads, k))]);
  }

  /**
   * `UploadFile` (s3.go:255-412). The configuration comes from `config_id`
   * or the user's default; `clientOk` is whether a client could be built;
   * `file` is the form's file, if any. Backend answers: `initiate` (upload
   * id or error), `uploads` (one per part), `complete` and `put` (an error
   * or none); `chunks` are the successive reads of the file.
   */
  method UploadFile(db: Registry.Db, userId: string, configId: string, clientOk: bool, file: Option<FileHeader>,
                    initiate: Result<string>, chunks: seq<Chunk>, uploads: seq<Result<string>>,
                    complete: Option<string>, put: Option<string>)
    returns (answer: Answer, calls: seq<Call>, note: Option<Note>)
    requires Registry.WellFormed(db)
    requires |uploads| >= |chunks|
    ensures Registry.ResolveConfig(db, userId, configId).Err? ==> answer == ConfigMissing && calls == [] && note == None
    ensures Registry.ResolveConfig(db, userId, configId).Ok? && !clientOk ==>
              answer == ClientFailure(Registry.ResolveConfig(db, userId, configId).value.storageType)
              && calls == [] && note == None
    ensures Registry.ResolveConfig(db, userId, configId).Ok? && clientOk && file.None? ==>
              answer == FileRequired && calls == [] && note == None
    ensures Registry.ResolveConfig(db, userId, configId).Ok? && clientOk && file.Some? ==>
              var key := ObjectKey(userId, file.value.filename);
              (forall j :: 0 <= j < |calls| ==> calls[j].key == key)
              // at most 5 MiB: one PutObject
              && (file.value.size <= MultipartThreshold ==>
                    calls == [PutObject(key)]
                    && (put.None? ==> answer == Uploaded && note == Some(Note(true, "", PutObjectStage, None, None)))
                    && (put.Some? ==> answer == PutFailed(put.value)
                                       && note == Some(Note(false, put.value, PutObjectStage, None, None))))
              // more: a multipart upload
              && (file.value.size > MultipartThreshold ==>
                    MultipartOutcome(key, initiate, chunks, uploads, complete, answer, calls, note))
  {
    calls, note := [], None;
    var config := Registry.ResolveConfig(db, userId, configId);
    if config.Err? {
      answer := ConfigMissing;
      return;
    }
    if !clientOk {
      answer := ClientFailure(config.value.storageType);
      return;
    }
    if file.None? {
      answer := FileRequired;
      return;
    }
    var key := ObjectKey(userId, file.value.filename);
    if file.value.size > MultipartThreshold {
      answer, calls, note := UploadMultipart(key, initiate, chunks, uploads, complete);
    } else {
      calls := [PutObject(key)];
      if put.Some? {
        note := Some(Note(false, put.value, PutObjectStage, None, None));
        answer := PutFailed(put.value);
      } else {
        note := Some(Note(true, "", PutObjectStage, None, None));
        answer := Uploaded;
      }
    }
  }

  /** Every part the loop sends holds at most one buffer of bytes, and is
      empty only when the read behind it returned no data and no error. */
  lemma SentPartsBounded(key: string, uploadId: string, chunks: seq<Chunk>, k: nat)
    requires k <= |chunks|
    requires forall i :: 0 <= i < |chunks| ==> |chunks[i].data| <= PartSize
    requires forall i :: 0 <= i < k ==> Uploadable(chunks[i])
    ensures forall j :: 0 <= j < k ==>
              var c := Sends(key, uploadId, chunks, k)[j];
              c.UploadPart? && c.number == j + 1 && |c.body| <= PartSize
              && (|c.body| == 0 ==> chunks[j] == Chunk([], ReadOk))
  {
    SendsAt(key, uploadId, chunks, k);
  }

  // --------------------------------------------------------------- listing

  /** One object of the backend's listing. */
  datatype ObjectInfo = ObjectInfo(key: string, size: int, modified: int)

  /** One entry of the `files` array of `ListFiles`. */
  datatype FileEntry = FileEntry(name: string, fullKey: string, size: int, modified: int)

  function Entry(o: ObjectInfo, prefix: string): FileEntry {
    FileEntry(TrimPrefix(o.key, prefix), o.key, o.size, o.modified)
  }

  /** The listing as shown to the user, in backend order: the user's prefix
      is cut from every key and an object whose name is then empty (the
      prefix itself) is left out. */
  function Shown(objects: seq<ObjectInfo>, prefix: string): (r: seq<FileEntry>)
    ensures |r| <= |objects|
    ensures forall e :: e in r ==> e.name != "" && e.name == TrimPrefix(e.fullKey, prefix)
    ensures forall o :: o in objects && TrimPrefix(o.key, prefix) != "" ==> Entry(o, prefix) in r
    ensures forall e :: e in r ==> exists o :: o in objects && e == Entry(o, prefix)
  {
    if |objects| == 0 then []
    else
      var init := Shown(objects[..|objects| - 1], prefix);
      var last := objects[|objects| - 1];
      assert objects == objects[..|objects| - 1] + [last];
      if TrimPrefix(last.key, prefix) == "" then init else init + [Entry(last, prefix)]
  }

  /** User `a`'s listing of a bucket holding the file `x` of user `a/b`
      shows that file to `a` under the name `b/x`. */
  lemma ListingShowsNestedTenant(o: ObjectInfo)
    requires o.key == ObjectKey("a/b", "x")
    ensures Shown([o], UserPrefix("a")) == [FileEntry("b/x", ObjectKey("a/b", "x"), o.size, o.modified)]
  {
    TenantsShareKeys();
    assert TrimPrefix(o.key, UserPrefix("a")) == "b/x";
    assert [o][..0] == [];
  }

  /** The loop of `ListFiles` that builds the `files` array (s3.go:519-531). */
  method ShowObjects(objects: seq<ObjectInfo>, prefix: string) returns (files: seq<FileEntry>)
    ensures files == Shown(objects, prefix)
  {
    files := [];
    for i := 0 to |objects|
      invariant files == Shown(objects[..i], prefix)
    {
      assert objects[..i + 1][..i] == objects[..i];
      var name := TrimPrefix(objects[i].key, prefix);
      if name == "" {
        continue;
      }
      files := files + [FileEntry(name, objects[i].key, objects[i].size, objects[i].modified)];
    }
    assert objects[..|objects|] == objects;
  }

  /** `page` and `page_size` of `ListFiles` (s3.go:480-493): each is read
      with `Sscanf` when present, then a page below 1 becomes 1 and a size
      outside 1..100 becomes 10. */
  function PageQuery(pageQ: string, sizeQ: string): (r: (int, int))
    ensures 1 <= r.0 <= MaxInt64 && 1 <= r.1 <= 100
    ensures ScanInt(pageQ, 1) >= 1 ==> r.0 == ScanInt(pageQ, 1)
    ensures ScanInt(pageQ, 1) < 1 ==> r.0 == 1
    ensures 1 <= ScanInt(sizeQ, 10) <= 100 ==> r.1 == ScanInt(sizeQ, 10)
    ensures !(1 <= ScanInt(sizeQ, 10) <= 100) ==> r.1 == 10
  {
    var page := if pageQ != "" then ScanInt(pageQ, 1) else 1;
    var size := if sizeQ != "" then ScanInt(sizeQ, 10) else 10;
    (if page < 1 then 1 else page, if size < 1 || size > 100 then 10 else size)
  }

  /** A page and size written in decimal are read back as they are. */
  lemma PageQueryReadsBack(page: int, size: int)
    requires 1 <= page <= MaxInt64 && 1 <= size <= 100
    ensures PageQuery(FormatInt(page), FormatInt(size)) == (page, size)
  {
    ScanIntFormatInt(page, "", 1);
    ScanIntFormatInt(size, "", 10);
    assert FormatInt(page) + "" == FormatInt(page);
    assert FormatInt(size) + "" == FormatInt(size);
  }

  /** The slice `files[start:end]`, or the run-time panic the slice
      expression raises. */
  datatype Window = Panic | Slice(lo: int, hi: int)

  /** The page window as s3.go:532-541 computes it, in Go's 64-bit `int`:
      `start = (page-1)*pageSize` and `end = start+pageSize` wrap around,
      are clamped to the total from above only, and a negative start
      makes the slice expression panic. */
  function PageWindowAsWritten(page: int, size: int, total: nat): (w: Window)
    requires InInt64(page) && InInt64(size)
    ensures w.Slice? ==> 0 <= w.lo <= w.hi <= total
  {
    var start := Wrap64(Wrap64(page - 1) * size);
    var end := Wrap64(start + size);
    var start' := if start > total then total else start;
    var end' := if end > total then total else end;
    if 0 <= start' <= end' then Slice(start', end') else Panic
  }

  /** The page window meant: the items from `(page-1)*size` on, at most
      `size` of them, computed without overflow. */
  function PageWindow(page: int, size: int, total: nat): (w: (nat, nat))
    requires page >= 1 && size >= 1
    ensures w.0 <= w.1 <= total && w.1 - w.0 <= size
  {
    var start := (page - 1) * size;
    (if start > total then total else start, if start + size > total then total else start + size)
  }

  /** Consecutive pages tile the listing from its start, each holding
      `size` items until the listing runs out, and a page past the end is
      empty. */
  lemma PagesTile(page: int, size: int, total: nat)
    requires page >= 1 && size >= 1
    ensures PageWindow(1, size, total).0 == 0
    ensures PageWindow(page + 1, size, total).0 == PageWindow(page, size, total).1
    ensures (page - 1) * size + size <= total ==> PageWindow(page, size, total).1 - PageWindow(page, size, total).0 == size
    ensures (page - 1) * size >= total ==> PageWindow(page, size, total).0 == PageWindow(page, size, total).1 == total
  {
    assert (page + 1 - 1) * size == (page - 1) * size + size;
  }

  /** When `page * size` fits a 64-bit `int` the code computes the window
      meant. */
  lemma PageWindowAgrees(page: int, size: int, total: nat)
    requires 1 <= page && 1 <= size && InInt64(page) && InInt64(page * size)
    ensures PageWindowAsWritten(page, size, total) == Slice(PageWindow(page, size, total).0, PageWindow(page, size, total).1)
  {
    assert 0 <= (page - 1) * size <= page * size by {
      assert page * size == (page - 1) * size + size;
    }
    assert (page - 1) * size + size == page * size;
  }

  /** Page 2^61 + 1 of size 4: the start wraps to -2^63 and the slice
      expression panics whatever the listing. */
  lemma PageOverflowPanics(total: nat)
    ensures PageWindowAsWritten(0x2000_0000_0000_0001, 4, total) == Panic
  {
    assert Wrap64(0x2000_0000_0000_0000 * 4) == MinInt64;
  }

  /** Page 2^62 + 1 of size 4: the start wraps to 0 and the reply is the
      first page, where the page meant is empty. */
  lemma PageOverflowRestarts(total: nat)
    requires 4 <= total <= MaxInt64
    ensures PageWindowAsWritten(0x4000_0000_0000_0001, 4, total) == Slice(0, 4)
    ensures PageWindow(0x4000_0000_0000_0001, 4, total) == (total, total)
  {
    assert Wrap64(0x4000_0000_0000_0000 * 4) == 0;
  }

  /** Both pages are what the query strings `2305843009213693953` and
      `4611686018427387905` with `page_size=4` ask for. */
  lemma OverflowPagesReachable()
    ensures PageQuery(FormatInt(0x2000_0000_0000_0001), FormatInt(4)) == (0x2000_0000_0000_0001, 4)
    ensures PageQuery(FormatInt(0x4000_0000_0000_0001), FormatInt(4)) == (0x4000_0000_0000_0001, 4)
  {
    PageQueryReadsBack(0x2000_0000_0000_0001, 4);
    PageQueryReadsBack(0x4000_0000_0000_0001, 4);
  }

  /** The reply of `ListFiles`: a page of entries with the listing's total,
      the normalised page and size, and the configuration used. */
  datatype ListReply =
    | ListFailure(answer: Answer)
    | FilePage(files: seq<FileEntry>, total: int, page: int, pageSize: int, configId: string, configName: string)

  /**
   * `ListFiles` (s3.go:476-550). `listing` is the backend's answer to the
   * listing under the user's prefix. The page window is computed as the
   * code does; a panic is turned into an empty 500 reply by the router's
   * recovery middleware.
   */
  method ListFiles(db: Registry.Db, userId: string, configId: string, pageQ: string, sizeQ: string,
                   clientOk: bool, listing: Result<seq<ObjectInfo>>)
    returns (reply: ListReply)
    requires Registry.WellFormed(db)
    ensures Registry.ResolveConfig(db, userId, configId).Err? ==> reply == ListFailure(ConfigMissing)
    ensures Registry.ResolveConfig(db, userId, configId).Ok? && !clientOk ==>
              reply == ListFailure(ClientFailure(Registry.ResolveConfig(db, userId, configId).value.storageType))
    ensures Registry.ResolveConfig(db, userId, configId).Ok? && clientOk && listing.Err? ==>
              reply == ListFailure(ListFailed(listing.msg))
    ensures Registry.ResolveConfig(db, userId, configId).Ok? && clientOk && listing.Ok? ==>
              var files := Shown(listing.value, UserPrefix(userId));
              var (page, size) := PageQuery(pageQ, sizeQ);
              var config := Registry.ResolveConfig(db, userId, configId).value;
              match PageWindowAsWritten(page, size, |files|)
              case Panic => reply == ListFailure(Recovered)
              case Slice(lo, hi) => reply == FilePage(files[lo..hi], |files|, page, size, config.id, config.name)
  {
    var page, pageSize := 1, 10;
    if pageQ != "" {
      page := ScanInt(pageQ, page);
    }
    if sizeQ != "" {
      pageSize := ScanInt(sizeQ, pageSize);
    }
    if page < 1 {
      page := 1;
    }
    if pageSize < 1 || pageSize > 100 {
      pageSize := 10;
    }
    var config := Registry.ResolveConfig(db, userId, configId);
    if config.Err? {
      return ListFailure(ConfigMissing);
    }
    if !clientOk {
      return ListFailure(ClientFailure(config.value.storageType));
    }
    if listing.Err? {
      return ListFailure(ListFailed(listing.msg));
    }
    var files := ShowObjects(listing.value, UserPrefix(userId));
    match PageWindowAsWritten(page, pageSize, |files|)
    case Panic =>
      reply := ListFailure(Recovered);
    case Slice(start, end) =>
      reply := FilePage(files[start..end], |files|, page, pageSize, config.value.id, config.value.name);
  }
}
