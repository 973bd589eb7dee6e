/** What both administration screens do with a document file: validate the
    form, name the stored object, record it, notify the processing webhook,
    and recover the object's path from its public URL when deleting.
    Storage, database and webhook outcomes are inputs. */
module DocumentStore {
  import opened Options
  import opened Text
  import opened Identity

  datatype FileInfo = FileInfo(name: string, size: int)

  /** The upload schema's file rule: a file was chosen and it is not empty. */
  function FileAccepted(file: Option<FileInfo>): (ok: bool)
    ensures ok <==> file.Some? && file.value.size > 0
  {
    match file
    case Some(f) => f.size > 0
    case None => false
  }

  /** A row of the `documents` listing query. */
  datatype Row = Row(id: string, fileName: string, fileUrl: string, createdAt: string, status: string)

  /** `name.split('.').pop()`: the text after the last dot, or the whole
      name when it has none. */
  function Extension(name: string): (ext: string)
    ensures ext == AfterLast(name, '.')
    ensures '.' !in ext
    ensures |ext| <= |name| && ext == name[|name| - |ext|..]
    ensures '.' in name ==> name[|name| - |ext| - 1] == '.'
    ensures '.' !in name ==> ext == name
  {
    var parts := Split(name, '.');
    LastPieceIsAfterLast(name, '.');
    var a := AfterLast(name, '.');
    assert parts[|parts| - 1] == a;
    parts[|parts| - 1]
  }

  /** The storage object name, `${companyId}/${uuid}.${ext}`: it sits in the
      company's folder, keeps the file's extension, and, when none of its
      parts holds a slash, splits into exactly the folder and `uuid.ext`. */
  function StoragePath(companyId: string, uuid: string, fileName: string): (path: string)
    ensures |path| == |companyId| + |uuid| + |Extension(fileName)| + 2
    ensures path[..|companyId| + 1] == companyId + "/"
    ensures path[|companyId| + 1 + |uuid|..] == "." + Extension(fileName)
    ensures '/' !in companyId && '/' !in uuid && '/' !in fileName ==>
              Split(path, '/') == [companyId, uuid + "." + Extension(fileName)]
  {
    var file := uuid + "." + Extension(fileName);
    StoragePathLayout(companyId, uuid, Extension(fileName));
    if '/' !in companyId && '/' !in uuid && '/' !in fileName then
      StoragePathSplit(companyId, uuid, fileName);
      companyId + "/" + file
    else companyId + "/" + file
  }

  /** Where the folder, the id and the extension sit in the object name. */
  lemma StoragePathLayout(companyId: string, uuid: string, ext: string)
    ensures var path := companyId + "/" + (uuid + "." + ext);
            && |path| == |companyId| + |uuid| + |ext| + 2
            && path[..|companyId| + 1] == companyId + "/"
            && path[|companyId| + 1 + |uuid|..] == "." + ext
  {
  }

  /** Without slashes in its parts, the object name splits back into the
      company folder and the file name. */
  lemma StoragePathSplit(companyId: string, uuid: string, fileName: string)
    requires '/' !in companyId && '/' !in uuid && '/' !in fileName
    ensures Split(companyId + "/" + (uuid + "." + Extension(fileName)), '/')
            == [companyId, uuid + "." + Extension(fileName)]
  {
    var file := uuid + "." + Extension(fileName);
    FileNameSlashFree(uuid, fileName);
    assert companyId + "/" + file == companyId + ['/'] + file;
    SplitTwo(companyId, file);
  }

  /** The extension holds no slash when the file name holds none. */
  lemma ExtensionSlashFree(fileName: string)
    requires '/' !in fileName
    ensures '/' !in Extension(fileName)
  {
  }

  /** Two slash-free names joined by one slash split back into the two. */
  lemma SplitTwo(a: string, b: string)
    requires '/' !in a && '/' !in b
    ensures Split(a + ['/'] + b, '/') == [a, b]
  {
    SplitAround(a, '/', b);
    SplitWithoutSep(a, '/');
    SplitWithoutSep(b, '/');
  }

  /** The generated file name `uuid.ext` holds no slash. */
  lemma FileNameSlashFree(uuid: string, fileName: string)
    requires '/' !in uuid && '/' !in fileName
    ensures '/' !in uuid + "." + Extension(fileName)
  {
    ExtensionSlashFree(fileName);
  }

  /** The last two pieces, as `slice(-2)` takes them. */
  function LastTwo(parts: seq<string>): (r: seq<string>)
    ensures |r| == if |parts| >= 2 then 2 else |parts|
    ensures r == parts[|parts| - |r|..]
    ensures forall i :: 0 <= i < |r| ==> r[i] == parts[|parts| - |r| + i]
  {
    if |parts| >= 2 then parts[|parts| - 2..] else parts
  }

  /** `fileUrl.split('/').slice(-2).join('/')`: the object path the delete
      handler derives from the stored public URL. It is a tail of the URL
      and consists of exactly the URL's last two slash-separated pieces. */
  function DeletePath(url: string): (path: string)
    ensures Split(path, '/') == LastTwo(Split(url, '/'))
    ensures |path| <= |url| && path == url[|url| - |path|..]
  {
    DeletePathFacts(url);
    Join(LastTwo(Split(url, '/')), '/')
  }

  /** The facts `DeletePath` states, about its defining expression. */
  lemma DeletePathFacts(url: string)
    ensures var path := Join(LastTwo(Split(url, '/')), '/');
            && Split(path, '/') == LastTwo(Split(url, '/'))
            && |path| <= |url| && path == url[|url| - |path|..]
  {
    LastTwoSlashFree(url);
    JoinLastTwoSplitsBack(LastTwo(Split(url, '/')));
    LastPiecesAreTail(url);
  }

  /** The last two pieces of a split on `/` hold no slash. */
  lemma LastTwoSlashFree(url: string)
    ensures var parts := LastTwo(Split(url, '/'));
            forall i :: 0 <= i < |parts| ==> '/' !in parts[i]
  {
    var all := Split(url, '/');
    var parts := LastTwo(all);
    forall i | 0 <= i < |parts|
      ensures '/' !in parts[i]
    {
      var j := |all| - |parts| + i;
      assert parts[i] == all[j];
      assert '/' !in all[j];
    }
  }

  /** The last two pieces, joined, are what follows the third-to-last slash. */
  lemma LastPiecesAreTail(url: string)
    ensures var tail := Join(LastTwo(Split(url, '/')), '/');
            |tail| <= |url| && tail == url[|url| - |tail|..]
  {
    var all := Split(url, '/');
    var parts := LastTwo(all);
    JoinSplit(url, '/');
    if |all| > 2 {
      var head := all[..|all| - 2];
      assert all == head + parts;
      JoinConcat(head, parts, '/');
    }
  }

  lemma JoinLastTwoSplitsBack(parts: seq<string>)
    requires |parts| <= 2
    requires forall i :: 0 <= i < |parts| ==> '/' !in parts[i]
    ensures |parts| > 0 ==> Split(Join(parts, '/'), '/') == parts
  {
    if |parts| == 1 {
      SplitWithoutSep(parts[0], '/');
    } else if |parts| == 2 {
      SplitAround(parts[0], '/', parts[1]);
      SplitWithoutSep(parts[0], '/');
      SplitWithoutSep(parts[1], '/');
    }
  }

  /** Round trip: when the public URL ends with `/` and the stored object
      name, and neither the company id, the generated id nor the file name
      holds a slash, the delete handler removes exactly the uploaded object. */
  lemma DeletePathRecoversStoragePath(urlPrefix: string, companyId: string, uuid: string, fileName: string)
    requires '/' !in companyId && '/' !in uuid && '/' !in fileName
    ensures DeletePath(urlPrefix + "/" + StoragePath(companyId, uuid, fileName))
            == StoragePath(companyId, uuid, fileName)
  {
    var path := StoragePath(companyId, uuid, fileName);
    var file := uuid + "." + Extension(fileName);
    SplitAround(urlPrefix, '/', path);
    var pieces := Split(urlPrefix, '/') + [companyId, file];
    assert Split(urlPrefix + "/" + path, '/') == pieces;
    assert LastTwo(pieces) == [companyId, file];
    assert Join([companyId, file], '/') == companyId + "/" + file;
  }

  /** The optional form fields. */
  datatype UploadForm = UploadForm(context: Option<string>, important: Option<string>, instructions: Option<string>)

  /** `value || null`: a blank field is stored as `null`. */
  function NullIfBlank(s: Option<string>): (r: Option<string>)
    ensures r.None? <==> !Truthy(s)
    ensures r.Some? ==> r == s
  {
    if Truthy(s) then s else None
  }

  /** The `documents` row inserted after the file is stored. */
  datatype DocumentRecord = DocumentRecord(
    companyId: string,
    fileName: string,
    storagePath: string,
    fileUrl: string,
    adminContext: Option<string>,
    importantPoints: Option<string>,
    customInstructions: Option<string>,
    status: string,
    uploadedBy: Option<UserId>)

  const UploadedStatus: string := "uploaded"

  function NewRecord(companyId: string, file: FileInfo, path: string, url: string,
                     form: UploadForm, uploader: Option<User>): (rec: DocumentRecord)
    ensures rec.status == UploadedStatus
    ensures rec.storagePath == path && rec.fileUrl == url && rec.fileName == file.name
    ensures rec.companyId == companyId
    ensures rec.adminContext == NullIfBlank(form.context)
    ensures rec.importantPoints == NullIfBlank(form.important)
    ensures rec.customInstructions == NullIfBlank(form.instructions)
    ensures rec.uploadedBy.Some? <==> uploader.Some?
    ensures uploader.Some? ==> rec.uploadedBy == Some(uploader.value.id)
  {
    DocumentRecord(companyId, file.name, path, url,
                   NullIfBlank(form.context), NullIfBlank(form.important), NullIfBlank(form.instructions),
                   UploadedStatus, if uploader.Some? then Some(uploader.value.id) else None)
  }

  /** The processing webhook's body; the documents screen also sends the
      inserted row's id, the upload screen does not. Blank fields are sent
      as empty strings. */
  datatype ProcessRequest = ProcessRequest(
    documentId: Option<string>,
    fileUrl: string,
    fileName: string,
    companyId: string,
    adminContext: string,
    importantPoints: string,
    customInstructions: string)

  datatype InsertOutcome = Inserted(id: string) | InsertFailed(message: string)

  /** The processing webhook call: it answered (with `ok` or not), or
      `fetch` itself threw with a message. */
  datatype WebhookOutcome = Responded(ok: bool) | FetchThrew(message: string)

  /** The remote outcomes of one upload, in the order they happen. */
  datatype UploadSteps = UploadSteps(
    storageError: Option<string>,
    publicUrl: string,
    uploader: Option<User>,
    insert: InsertOutcome,
    webhook: WebhookOutcome)

  /** What an upload did: the object name, the row inserted (if storing
      succeeded), the webhook call (if inserting succeeded), and the error
      message shown if some step failed. */
  datatype UploadResult = UploadResult(
    path: string,
    record: Option<DocumentRecord>,
    notified: Option<ProcessRequest>,
    error: Option<string>)

  const ProcessingFailed: string := "AI processing failed"

  function Upload(companyId: string, uuid: string, file: FileInfo, form: UploadForm,
                  steps: UploadSteps, sendsDocumentId: bool): (r: UploadResult)
    ensures r.path == StoragePath(companyId, uuid, file.name)
    // each step runs only if the previous one succeeded
    ensures r.record.Some? <==> steps.storageError.None?
    ensures r.notified.Some? <==> steps.storageError.None? && steps.insert.Inserted?
    ensures r.error.None? <==> steps.storageError.None? && steps.insert.Inserted? && steps.webhook == Responded(true)
    ensures r.record.Some? ==>
              r.record.value == NewRecord(companyId, file, r.path, steps.publicUrl, form, steps.uploader)
    // the webhook is pointed at the stored file and, on the documents screen, at the new row
    ensures r.notified.Some? ==> r.notified.value.fileUrl == steps.publicUrl
                                 && r.notified.value.companyId == companyId
                                 && r.notified.value.fileName == file.name
    // blank form fields are sent as empty strings
    ensures r.notified.Some? ==> r.notified.value.adminContext == OrElse(form.context, "")
                                 && r.notified.value.importantPoints == OrElse(form.important, "")
                                 && r.notified.value.customInstructions == OrElse(form.instructions, "")
    ensures r.notified.Some? ==>
              r.notified.value.documentId == (if sendsDocumentId then Some(steps.insert.id) else None)
    ensures steps.storageError.Some? ==> r.error == steps.storageError
    ensures steps.storageError.None? && steps.insert.InsertFailed? ==> r.error == Some(steps.insert.message)
    ensures steps.storageError.None? && steps.insert.Inserted? && steps.webhook == Responded(false) ==>
              r.error == Some(ProcessingFailed)
    ensures steps.storageError.None? && steps.insert.Inserted? && steps.webhook.FetchThrew? ==>
              r.error == Some(steps.webhook.message)
  {
    var path := StoragePath(companyId, uuid, file.name);
    if steps.storageError.Some? then UploadResult(path, None, None, steps.storageError)
    else
      var record := NewRecord(companyId, file, path, steps.publicUrl, form, steps.uploader);
      match steps.insert
      case InsertFailed(message) => UploadResult(path, Some(record), None, Some(message))
      case Inserted(id) =>
        var notice := ProcessRequest(
          if sendsDocumentId then Some(id) else None, steps.publicUrl, file.name, companyId,
          OrElse(form.context, ""), OrElse(form.important, ""), OrElse(form.instructions, ""));
        var error := match steps.webhook
          case Responded(ok) => if ok then None else Some(ProcessingFailed)
          case FetchThrew(message) => Some(message);
        UploadResult(path, Some(record), Some(notice), error)
  }

  /** The remote outcomes of one delete: the confirmation dialog, then the
      storage removal, then the row deletion. */
  datatype DeleteSteps = DeleteSteps(confirmed: bool, storageOk: bool, rowDeleted: bool)

  /** The storage object a delete asks to remove, if the user confirmed. */
  function RemovalRequest(fileUrl: string, steps: DeleteSteps): (r: Option<string>)
    ensures r.Some? <==> steps.confirmed
    ensures r.Some? ==> r.value == DeletePath(fileUrl)
  {
    if steps.confirmed then Some(DeletePath(fileUrl)) else None
  }

  /** A delete succeeded: confirmed, object removed, row removed. */
  predicate Deleted(steps: DeleteSteps) {
    steps.confirmed && steps.storageOk && steps.rowDeleted
  }
}
