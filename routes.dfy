/**
 * The HTTP handlers (backend/app/routes.py) as functions from the request and
 * the service's outcome to a status code and a JSON body.
 *
 * The handlers call `upload_file` and `list_files` on the service, which defines
 * neither: the attribute lookup raises, and the handlers' own `except` turns it
 * into a 500.
 */
module Routes {
  import opened Wrappers
  import opened Json
  import opened DocumentUtils
  import Services
  import S3Storage
  import Classification

  datatype Response = Response(status: int, body: Json)

  /** The methods the service object actually has. */
  const ServiceMethods: set<string> :=
    {"upload_document", "list_documents", "detect_and_update_category", "delete_document"}

  const NoFilePart: string := "No file part in the request"
  const NotAllowed: string := "Selected document not allowed"
  const TooHeavy: string := "Selected document is very heavy: Max 2MB"
  const InternalError: string := "Internal server error"
  const MissingDocumentId: string := "Missing document_id"
  const UploadedMessage: string := "File uploaded successfully"

  function ErrorBody(message: string): Json {
    JObject(map["error" := JString(message)])
  }

  /** The `file` part of a multipart upload: its name and its bytes. */
  datatype UploadedFile = UploadedFile(fileName: string, data: seq<bv8>)

  /**
   * `upload_document`: a missing part, then a refused name, then an oversized
   * file give 400, in that order; otherwise the service is called, and since it
   * has no `upload_file` the answer is a 500. `upload` is what the service call
   * would have done.
   */
  function UploadRoute(file: Option<UploadedFile>, upload: Result<string>): (r: Response)
    ensures r.status == 400 <==>
      file.None? || !AllowedFile(file.value.fileName) || SizeExceeded(|file.value.data|)
    ensures r.status == 400 ==> r.body == ErrorBody(
      if file.None? then NoFilePart
      else if !AllowedFile(file.value.fileName) then NotAllowed
      else TooHeavy)
    ensures r.status != 400 ==> r == Response(500, ErrorBody(InternalError))
  {
    if file.None? then Response(400, ErrorBody(NoFilePart))
    else if !AllowedFile(file.value.fileName) then Response(400, ErrorBody(NotAllowed))
    else if SizeExceeded(|file.value.data|) then Response(400, ErrorBody(TooHeavy))
    else if "upload_file" !in ServiceMethods then Response(500, ErrorBody(InternalError))
    else match upload
      case Success(_) => Response(200, JObject(map["message" := JString(UploadedMessage)]))
      case Failure(_) => Response(500, ErrorBody(InternalError))
  }

  /** No upload ever answers 200. */
  lemma UploadNeverSucceeds(file: Option<UploadedFile>, upload: Result<string>)
    ensures UploadRoute(file, upload).status != 200
  {
  }

  /** The name is checked before the size: an oversized file with a refused name is refused for its name. */
  lemma NameCheckedBeforeSize(data: seq<bv8>, upload: Result<string>)
    requires SizeExceeded(|data|)
    ensures UploadRoute(Some(UploadedFile("REPORT.PDF", data)), upload) == Response(400, ErrorBody(NotAllowed))
  {
    UpperCaseExtensionRefused();
  }

  /** A file of exactly 2 MiB with an accepted name passes both checks and reaches the service. */
  lemma SizeLimitInclusive(data: seq<bv8>, upload: Result<string>)
    requires |data| == MaxFileSizeBytes
    ensures UploadRoute(Some(UploadedFile("test.exe", data)), upload) == Response(500, ErrorBody(InternalError))
  {
    ExeAllowed();
  }

  /**
   * `list_documents`: the service has no `list_files`, so the answer is always
   * 500. `listing` is what the call would have returned.
   */
  function ListRoute(listing: Result<Json>): (r: Response)
    ensures r == Response(500, ErrorBody(InternalError))
  {
    if "list_files" !in ServiceMethods then Response(500, ErrorBody(InternalError))
    else match listing
      case Success(documents) => Response(200, documents)
      case Failure(_) => Response(500, ErrorBody(InternalError))
  }

  /** Python's truth value of a JSON value: exactly `None`, `False`, `0`, `''`, `{}` and `[]` are false. */
  predicate Truthy(j: Json)
    ensures Truthy(j) <==> j != JNull && j != JBool(false) && j != JNumber(0)
                           && j != JString("") && j != JObject(map[]) && j != JArray([])
  {
    match j
    case JNull => false
    case JBool(b) => b
    case JNumber(n) => n != 0
    case JString(s) => s != ""
    case JObject(fields) => fields != map[]
    case JArray(items) => items != []
  }

  /**
   * `request.json.get('document_id')` on a JSON object: the value under
   * `document_id`, or `None` when the key is absent (or the body is not an object).
   */
  function DocumentIdOf(request: Json): (id: Json)
    ensures id != JNull ==> request.JObject? && "document_id" in request.fields && request.fields["document_id"] == id
    ensures request.JObject? && "document_id" !in request.fields ==> id == JNull
    ensures request.JObject? && "document_id" in request.fields ==> id == request.fields["document_id"]
  {
    if request.JObject? && "document_id" in request.fields then request.fields["document_id"] else JNull
  }

  /**
   * `detect_document_category`. `request` is the parsed JSON body (`None` when
   * there is none); `result` is what the service returned or raised for the id.
   * A body that is not a JSON object makes `.get` raise, which gives a 500.
   */
  function DetectRoute(request: Option<Json>, result: Result<Dict>): (r: Response)
    ensures r.status == 400 <==> request.Some? && request.value.JObject? && !Truthy(DocumentIdOf(request.value))
    ensures r.status == 400 ==> r.body == ErrorBody(MissingDocumentId)
    ensures r.status == 404 <==>
      request.Some? && request.value.JObject? && Truthy(DocumentIdOf(request.value))
      && result.Success? && "error" in result.value && result.value["error"] == JString(Services.NotFoundMessage)
    ensures r.status == 200 <==>
      request.Some? && request.value.JObject? && Truthy(DocumentIdOf(request.value))
      && result.Success? && "error" !in result.value
    ensures r.status in {200, 404} ==> r.body == JObject(result.value)
    ensures r.status !in {200, 400, 404} ==> r.status == 500
    ensures r.status == 500 && result.Success? && "error" in result.value
            && request.Some? && request.value.JObject? && Truthy(DocumentIdOf(request.value))
            ==> r.body == JObject(result.value)
    ensures request.None? || !request.value.JObject? || (Truthy(DocumentIdOf(request.value)) && result.Failure?)
            ==> r == Response(500, ErrorBody(InternalError))
  {
    if request.None? || !request.value.JObject? then Response(500, ErrorBody(InternalError))
    else if !Truthy(DocumentIdOf(request.value)) then Response(400, ErrorBody(MissingDocumentId))
    else match result
      case Failure(_) => Response(500, ErrorBody(InternalError))
      case Success(body) =>
        if "error" in body then
          Response(if body["error"] == JString(Services.NotFoundMessage) then 404 else 500, JObject(body))
        else Response(200, JObject(body))
  }

  /**
   * The document id the handler passes on: the `document_id` string of a JSON
   * object body when it is truthy. Any other truthy value reaches the service
   * too, but the classifier cannot take it apart as a file name (`split` is a
   * string method), so detection raises for it whatever the store holds.
   */
  function RequestedId(request: Option<Json>): (id: Option<string>)
    ensures id.Some? <==> request.Some? && request.value.JObject? && DocumentIdOf(request.value).JString?
                          && DocumentIdOf(request.value).str != ""
    ensures id.Some? ==> DocumentIdOf(request.value) == JString(id.value) && Truthy(JString(id.value))
  {
    if request.Some? && request.value.JObject? && DocumentIdOf(request.value).JString?
       && DocumentIdOf(request.value).str != ""
    then Some(DocumentIdOf(request.value).str)
    else None
  }

  const NonStringIdMessage: string := "AttributeError: the document id has no split"

  /**
   * `detect_document_category` over the service as written. A missing
   * document makes the store's lookup raise, so it is answered 500 like a
   * client failure, never 404; a found one is answered 200 with its detected
   * category, or 500 when detection raises.
   */
  method DetectDocumentCategoryAsWritten(service: Services.DocumentService, request: Option<Json>, now: string)
    returns (r: Response)
    modifies service.storage`objects
    ensures r.status != 404
    ensures RequestedId(request).None? ==> r == DetectRoute(request, Failure(NonStringIdMessage))
    ensures RequestedId(request).None? ==> service.storage.objects == old(service.storage.objects)
    ensures RequestedId(request).Some?
            && !(service.storage.reachable && S3Storage.DocumentKey(RequestedId(request).value) in old(service.storage.objects))
            ==> r == Response(500, ErrorBody(InternalError)) && service.storage.objects == old(service.storage.objects)
    ensures RequestedId(request).Some?
            && service.storage.reachable && S3Storage.DocumentKey(RequestedId(request).value) in old(service.storage.objects)
            ==> var id := RequestedId(request).value;
                var detection := service.classifier.Detect(id, old(service.storage.objects)[S3Storage.DocumentKey(id)].body);
                Answered(id, detection, r)
                && service.storage.objects == Services.StoreAfterDetection(id, detection, now, old(service.storage.objects))
  {
    var id := RequestedId(request);
    if id.None? {
      return DetectRoute(request, Failure(NonStringIdMessage));
    }
    var result := service.DetectAndUpdateCategoryAsWritten(id.value, now);
    r := DetectRoute(request, result);
  }

  /**
   * `detect_document_category` over the service with the corrected lookup: a
   * missing document is answered 404 with `{'error': 'Document not found'}`.
   */
  method DetectDocumentCategory(service: Services.DocumentService, request: Option<Json>, now: string)
    returns (r: Response)
    modifies service.storage`objects
    ensures RequestedId(request).None? ==> r == DetectRoute(request, Failure(NonStringIdMessage))
    ensures RequestedId(request).None? ==> service.storage.objects == old(service.storage.objects)
    ensures RequestedId(request).Some? && !service.storage.reachable
            ==> r == Response(500, ErrorBody(InternalError)) && service.storage.objects == old(service.storage.objects)
    ensures RequestedId(request).Some? && service.storage.reachable
            && S3Storage.DocumentKey(RequestedId(request).value) !in old(service.storage.objects)
            ==> r == Response(404, JObject(Services.NotFoundResult()))
                && service.storage.objects == old(service.storage.objects)
    ensures RequestedId(request).Some?
            && service.storage.reachable && S3Storage.DocumentKey(RequestedId(request).value) in old(service.storage.objects)
            ==> var id := RequestedId(request).value;
                var detection := service.classifier.Detect(id, old(service.storage.objects)[S3Storage.DocumentKey(id)].body);
                Answered(id, detection, r)
                && service.storage.objects == Services.StoreAfterDetection(id, detection, now, old(service.storage.objects))
  {
    var id := RequestedId(request);
    if id.None? {
      return DetectRoute(request, Failure(NonStringIdMessage));
    }
    var result := service.DetectAndUpdateCategory(id.value, now);
    r := DetectRoute(request, result);
  }

  /** The answer for a found document: 200 with the detected category, or 500 when detection raised. */
  ghost predicate Answered(id: string, detection: Classification.Detection, r: Response) {
    match detection
    case Category(c) => r == Response(200, JObject(Services.DetectedResult(id, c)))
    case Raised(_) => r == Response(500, ErrorBody(InternalError))
  }
}
