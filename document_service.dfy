/**
 * The document service (backend/app/services/document_service.py): it hands
 * uploads and listings to the store, runs detection on a stored document and
 * writes the category back, and maps a delete's status to a message.
 */
module Services {
  import opened Wrappers
  import opened Json
  import opened DocumentUtils
  import opened S3Storage
  import opened Classification

  const NotFoundMessage: string := "Document not found"
  const DeletedMessage: string := "Document deleted"
  const DeleteFailedMessage: string := "Error while deleting document"

  /** `{'error': 'Document not found'}`. */
  function NotFoundResult(): (d: Dict)
    ensures d.Keys == {"error"} && d["error"] == JString(NotFoundMessage)
  {
    map["error" := JString(NotFoundMessage)]
  }

  /** A category as the response carries it: a string, or `null` for `None`. */
  function CategoryJson(category: Option<string>): (j: Json)
    ensures category.Some? <==> j.JString?
    ensures category.Some? ==> j.str == category.value
    ensures category.None? ==> j == JNull
  {
    match category
    case Some(c) => JString(c)
    case None => JNull
  }

  /**
   * `{'document_id': ..., 'detected_category': ...}`: exactly these two keys, and
   * never an `error` key.
   */
  function DetectedResult(documentId: string, category: Option<string>): (d: Dict)
    ensures d.Keys == {"document_id", "detected_category"} && "error" !in d
    ensures d["document_id"] == JString(documentId) && d["detected_category"] == CategoryJson(category)
  {
    map["document_id" := JString(documentId), "detected_category" := CategoryJson(category)]
  }

  /** `{'message': ...}` for a delete: never an `error` key. */
  function DeleteResult(deleted: bool): (d: Dict)
    ensures d.Keys == {"message"} && "error" !in d
    ensures d["message"] == JString(if deleted then DeletedMessage else DeleteFailedMessage)
  {
    map["message" := JString(if deleted then DeletedMessage else DeleteFailedMessage)]
  }

  /**
   * The outcome of classifying a stored document: an exception escapes and
   * nothing is written; a category is answered with the detected-result
   * dictionary, and a present category replaces the document's `category`
   * metadata (a `None` category writes nothing).
   */
  ghost predicate Stored(documentId: string, detection: Detection, now: string,
                         before: map<string, StoredObject>, r: Result<Dict>, after: map<string, StoredObject>)
    requires DocumentKey(documentId) in before
  {
    after == StoreAfterDetection(documentId, detection, now, before)
    && match detection
       case Raised(e) => r == Failure(e)
       case Category(c) => r == Success(DetectedResult(documentId, c))
  }

  /** The store once a found document's detection is written back: only a present category changes it. */
  ghost function StoreAfterDetection(documentId: string, detection: Detection, now: string,
                                     before: map<string, StoredObject>): map<string, StoredObject>
    requires DocumentKey(documentId) in before
  {
    var key := DocumentKey(documentId);
    match detection
    case Raised(_) => before
    case Category(c) => if c.Some? then before[key := WithCategory(before[key], c.value, now)] else before
  }

  class DocumentService {
    const storage: S3FileStorage
    const classifier: DocumentClassifier

    constructor (storage: S3FileStorage, classifier: DocumentClassifier)
      ensures this.storage == storage && this.classifier == classifier
    {
      this.storage := storage;
      this.classifier := classifier;
    }

    /** `upload_document`: the store's result, unchanged. */
    method UploadDocument(file: FileStream, fileName: string, uuid: string, safeName: string, now: string)
      returns (r: Result<string>)
      modifies storage`objects, file`position
      ensures storage.reachable ==> r == Success(DocumentId(uuid, safeName))
      ensures storage.reachable ==> var id := DocumentId(uuid, safeName);
        storage.objects == old(storage.objects)[DocumentKey(id) :=
          StoredObject(file.data, Metadata(fileName, |file.data|, now, id), now)]
      ensures !storage.reachable ==> r == Failure(UploadErrorMessage) && storage.objects == old(storage.objects)
    {
      r := storage.UploadFile(file, fileName, uuid, safeName, now);
    }

    /** `list_documents`: the store's listing under `documents`, unchanged. */
    method ListDocuments() returns (r: Result<seq<FileData>>, ghost listed: seq<string>)
      ensures r.Failure? <==> !storage.reachable
      ensures r.Success? ==> |r.value| == |listed| && Distinct(listed)
      ensures r.Success? ==> forall k :: k in listed <==> k in MatchingKeys(storage.objects, DefaultListPrefix)
      ensures r.Success? ==> forall i :: 0 <= i < |listed| ==>
        listed[i] in storage.objects && r.value[i] == storage.FileRecord(listed[i])
    {
      r, listed := storage.RetrieveS3Objects();
    }

    /**
     * `detect_and_update_category` as written: the store's lookup raises for a
     * missing document as for a client failure, and that exception escapes, so
     * the not-found answer is never given. A found document is classified and
     * its category written back as `ClassifyAndStore` says.
     */
    method DetectAndUpdateCategoryAsWritten(documentId: string, now: string) returns (r: Result<Dict>)
      modifies storage`objects
      ensures !(storage.reachable && DocumentKey(documentId) in old(storage.objects))
              ==> r == Failure(FindErrorMessage(documentId)) && storage.objects == old(storage.objects)
      ensures r != Success(NotFoundResult())
      ensures storage.reachable && DocumentKey(documentId) in old(storage.objects) ==>
        Stored(documentId, classifier.Detect(documentId, old(storage.objects)[DocumentKey(documentId)].body),
               now, old(storage.objects), r, storage.objects)
    {
      var documentObject := storage.FindFileObjectByDocumentId(documentId);
      if documentObject.Failure? {
        return Failure(documentObject.error);
      }
      r := ClassifyAndStore(documentId, documentObject.value.body, now);
    }

    /**
     * `detect_and_update_category` over the corrected lookup. A missing document
     * answers `{'error': 'Document not found'}` without calling the classifier or
     * the store update; a found one is classified and its category written back
     * as `ClassifyAndStore` says. Exceptions escape.
     */
    method DetectAndUpdateCategory(documentId: string, now: string) returns (r: Result<Dict>)
      modifies storage`objects
      ensures !storage.reachable ==> r == Failure(FindErrorMessage(documentId))
      ensures storage.reachable && DocumentKey(documentId) !in old(storage.objects)
              ==> r == Success(NotFoundResult())
      ensures !(storage.reachable && DocumentKey(documentId) in old(storage.objects))
              ==> storage.objects == old(storage.objects)
      ensures storage.reachable && DocumentKey(documentId) in old(storage.objects) ==>
        Stored(documentId, classifier.Detect(documentId, old(storage.objects)[DocumentKey(documentId)].body),
               now, old(storage.objects), r, storage.objects)
    {
      var documentObject := storage.LookupDocumentObject(documentId);
      if documentObject.Failure? {
        return Failure(documentObject.error);
      }
      if documentObject.value.None? {
        return Success(NotFoundResult());
      }
      r := ClassifyAndStore(documentId, documentObject.value.value.body, now);
    }

    /**
     * The part of `detect_and_update_category` after the lookup found the
     * document's bytes: they are classified under the id as file name, and the
     * store update is issued for the same id with exactly the category the
     * result carries.
     */
    method ClassifyAndStore(documentId: string, body: seq<bv8>, now: string) returns (r: Result<Dict>)
      modifies storage`objects
      ensures storage.reachable && DocumentKey(documentId) in old(storage.objects) ==>
        Stored(documentId, classifier.Detect(documentId, body), now, old(storage.objects), r, storage.objects)
      ensures classifier.Detect(documentId, body).Raised? ==> storage.objects == old(storage.objects)
    {
      var detection := classifier.DetectCategory(documentId, body);
      if detection.Raised? {
        return Failure(detection.error);
      }
      var category := detection.value;
      storage.UpdateDocumentCategory(documentId, category, now);
      r := Success(DetectedResult(documentId, category));
    }

    /** `delete_document`: the message says whether the store's delete went through. */
    method DeleteDocument(documentId: string) returns (r: Dict)
      modifies storage`objects
      ensures r == DeleteResult(storage.reachable)
      ensures storage.objects == if storage.reachable then old(storage.objects) - {DocumentKey(documentId)}
                                 else old(storage.objects)
    {
      var deleted := storage.RemoveFileObjectByDocumentId(documentId);
      r := DeleteResult(deleted);
    }
  }
}
