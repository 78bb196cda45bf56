/**
 * The document store (backend/app/storage/s3_file_storage.py) over an in-memory
 * bucket: a map from object key to the object's bytes, user metadata and
 * modification time. `reachable` says whether calls to the S3 client succeed;
 * when it is false every client call raises.
 */
module S3Storage {
  import opened Wrappers
  import opened Strings
  import opened DocumentUtils

  /** One object of the bucket. */
  datatype StoredObject = StoredObject(body: seq<bv8>, metadata: map<string, string>, lastModified: string)

  /** The record `_build_file_data` makes for one listed object. */
  datatype FileData = FileData(filename: string, fileUrl: string, metadata: map<string, string>,
                               size: nat, lastModified: string)

  const KeyPrefix: string := "documents/"
  const DefaultListPrefix: string := "documents"

  const UploadErrorMessage: string := "Error uploading file to S3"
  /** The text of the exception the client raises; the client's own messages are not modelled. */
  const ClientErrorMessage: string := "An error occurred when calling the S3 client"

  function FindErrorMessage(documentId: string): string {
    "Error listing objects for document id " + documentId
  }

  /** `f'{uuid}_{secure_filename(file_name)}'`: the id starts with the uuid and ends with the safe name. */
  function DocumentId(uuid: string, safeName: string): (id: string)
    ensures StartsWith(id, uuid + "_") && EndsWith(id, safeName)
    ensures |id| == |uuid| + 1 + |safeName|
  {
    var id := uuid + "_" + safeName;
    assert id[..|uuid + "_"|] == uuid + "_";
    assert id[|id| - |safeName|..] == safeName;
    id
  }

  /** The object key of a document: `documents/` followed by the id. */
  function DocumentKey(documentId: string): (key: string)
    ensures StartsWith(key, KeyPrefix) && key[|KeyPrefix|..] == documentId
  {
    var key := KeyPrefix + documentId;
    assert key[..|KeyPrefix|] == KeyPrefix;
    assert key[|KeyPrefix|..] == documentId;
    key
  }

  /** Distinct ids give distinct keys. */
  lemma DocumentKeyInjective(a: string, b: string)
    requires DocumentKey(a) == DocumentKey(b)
    ensures a == b
  {
    assert a == DocumentKey(a)[|KeyPrefix|..];
  }

  /** The listing's `filename` of a document's key is the document id itself. */
  lemma FilenameIsDocumentId(documentId: string)
    requires '/' !in documentId
    ensures LastSegment(DocumentKey(documentId), '/') == documentId
  {
    assert DocumentKey(documentId) == "documents" + ['/'] + documentId;
    LastSegmentAfter("documents", '/', documentId);
  }

  /** Neither a uuid nor a name passed through `secure_filename` holds a `/`, so neither does the id. */
  lemma DocumentIdHasNoSlash(uuid: string, safeName: string)
    requires '/' !in uuid && '/' !in safeName
    ensures '/' !in DocumentId(uuid, safeName)
  {
    var id := DocumentId(uuid, safeName);
    forall i | 0 <= i < |id| ensures id[i] != '/' {
      if i < |uuid| {
        assert id[i] == uuid[i];
      } else if i > |uuid| {
        assert id[i] == safeName[i - |uuid| - 1];
      }
    }
  }

  /** `https://{bucket}.s3.amazonaws.com/{key}`: the key is the URL's tail after the host. */
  function FileUrl(bucket: string, key: string): (url: string)
    ensures |url| == |"https://"| + |bucket| + |".s3.amazonaws.com/" + key|
    ensures StartsWith(url, "https://") && EndsWith(url, ".s3.amazonaws.com/" + key)
    ensures url[|"https://"|..|"https://"| + |bucket|] == bucket
  {
    var host := "https://" + bucket;
    var url := host + ".s3.amazonaws.com/" + key;
    assert url[..|"https://"|] == "https://";
    assert url[|"https://"|..|"https://"| + |bucket|] == bucket;
    assert url[|url| - |".s3.amazonaws.com/" + key|..] == ".s3.amazonaws.com/" + key;
    url
  }

  /** The URL and the record agree on the file name: both end with the key's last segment. */
  lemma UrlEndsWithFilename(bucket: string, key: string)
    requires '/' in key
    ensures LastSegment(FileUrl(bucket, key), '/') == LastSegment(key, '/')
  {
    assert FileUrl(bucket, key) == ("https://" + bucket + ".s3.amazonaws.com/") + key;
    LastSegmentOfSuffix("https://" + bucket + ".s3.amazonaws.com/", key, '/');
  }

  /**
   * The object after `update_document_category` rewrote it: the same body, the
   * same metadata except `category`, which holds the new category, and a new
   * modification time.
   */
  function WithCategory(obj: StoredObject, category: string, now: string): (r: StoredObject)
    ensures r.body == obj.body && r.lastModified == now
    ensures r.metadata.Keys == obj.metadata.Keys + {"category"}
    ensures r.metadata["category"] == category
    ensures forall k :: k in obj.metadata && k != "category" ==> r.metadata[k] == obj.metadata[k]
  {
    StoredObject(obj.body, obj.metadata["category" := category], now)
  }

  /** Writing the same category twice leaves the object as writing it once. */
  lemma WithCategoryIdempotent(obj: StoredObject, category: string, now: string)
    ensures WithCategory(WithCategory(obj, category, now), category, now) == WithCategory(obj, category, now)
  {
    var once := WithCategory(obj, category, now);
    var twice := WithCategory(once, category, now);
    assert twice.metadata == once.metadata;
  }

  /** A later write of the category replaces an earlier one entirely. */
  lemma WithCategoryOverwrites(obj: StoredObject, first: string, second: string, t1: string, t2: string)
    ensures WithCategory(WithCategory(obj, first, t1), second, t2) == WithCategory(obj, second, t2)
  {
    var a := WithCategory(WithCategory(obj, first, t1), second, t2);
    var b := WithCategory(obj, second, t2);
    assert a.metadata == b.metadata;
  }

  /**
   * `list_objects_v2` with a prefix: the stored keys that start with it; the
   * empty prefix lists every key.
   */
  function MatchingKeys(objects: map<string, StoredObject>, prefix: string): (keys: set<string>)
    ensures keys <= objects.Keys
    ensures forall k :: k in keys ==> StartsWith(k, prefix)
    ensures forall k :: k in objects && StartsWith(k, prefix) ==> k in keys
    ensures prefix == "" ==> keys == objects.Keys
  {
    set k | k in objects && StartsWith(k, prefix)
  }

  predicate Distinct(keys: seq<string>) {
    forall i, j :: 0 <= i < j < |keys| ==> keys[i] != keys[j]
  }

  class S3FileStorage {
    const bucket: string
    const reachable: bool
    var objects: map<string, StoredObject>

    constructor (bucket: string, reachable: bool, objects: map<string, StoredObject>)
      ensures this.bucket == bucket && this.reachable == reachable && this.objects == objects
    {
      this.bucket := bucket;
      this.reachable := reachable;
      this.objects := objects;
    }

    /**
     * `upload_file`. The metadata is computed first (which measures the file and
     * rewinds it), then the client stores the bytes read from the rewound
     * stream under `documents/<id>`; the id is returned. A client failure raises.
     */
    method UploadFile(file: FileStream, fileName: string, uuid: string, safeName: string, now: string)
      returns (r: Result<string>)
      modifies this`objects, file`position
      ensures reachable ==> r == Success(DocumentId(uuid, safeName))
      ensures reachable ==> var id := DocumentId(uuid, safeName);
        objects == old(objects)[DocumentKey(id) := StoredObject(file.data, Metadata(fileName, |file.data|, now, id), now)]
      ensures !reachable ==> r == Failure(UploadErrorMessage) && objects == old(objects)
    {
      var documentId := DocumentId(uuid, safeName);
      var key := DocumentKey(documentId);
      var metadata := ExtractMetadata(file, fileName, documentId, now);
      if !reachable {
        return Failure(UploadErrorMessage);
      }
      var body := file.data[file.position..];
      file.Seek(0, true);
      objects := objects[key := StoredObject(body, metadata, now)];
      r := Success(documentId);
    }

    /**
     * The record `_build_file_data` makes for a listed key: the file name after
     * the key's last `/`, the public URL, the object's metadata, size and time.
     */
    function FileRecord(key: string): (d: FileData)
      requires key in objects
      reads this
      ensures d.filename == LastSegment(key, '/')
      ensures '/' !in d.filename && EndsWith(key, d.filename)
      ensures d.fileUrl == FileUrl(bucket, key)
      ensures d.metadata == objects[key].metadata && d.size == |objects[key].body|
      ensures d.lastModified == objects[key].lastModified
    {
      var filename := LastSegment(key, '/');
      assert key[|key| - |filename|..] == filename;
      FileData(filename, FileUrl(bucket, key), objects[key].metadata, |objects[key].body|,
               objects[key].lastModified)
    }

    /**
     * `get_s3_file_metadata`: the object's metadata, or `{'error': <message>}`
     * instead of an exception when the client call fails.
     */
    method GetS3FileMetadata(fileKey: string) returns (m: map<string, string>)
      ensures reachable && fileKey in objects ==> m == objects[fileKey].metadata
      ensures !(reachable && fileKey in objects) ==> m.Keys == {"error"} && m["error"] == ClientErrorMessage
    {
      if !reachable || fileKey !in objects {
        return map["error" := ClientErrorMessage];
      }
      m := objects[fileKey].metadata;
    }

    /**
     * The keys `list_objects_v2` reports for a prefix: each matching key once.
     * The order the service returns them in is left open.
     */
    method ListKeys(prefix: string) returns (keys: seq<string>)
      ensures Distinct(keys)
      ensures forall k :: k in keys <==> k in MatchingKeys(objects, prefix)
      ensures |keys| == |MatchingKeys(objects, prefix)|
    {
      var remaining := MatchingKeys(objects, prefix);
      keys := [];
      while remaining != {}
        invariant Distinct(keys)
        invariant forall k :: k in keys ==> k !in remaining
        invariant forall k :: k in MatchingKeys(objects, prefix) <==> k in keys || k in remaining
        invariant |keys| + |remaining| == |MatchingKeys(objects, prefix)|
        decreases |remaining|
      {
        var k :| k in remaining;
        keys := keys + [k];
        remaining := remaining - {k};
      }
    }

    /**
     * `retrieve_s3_objects`: one record per listed object, in listing order, and
     * `[]` when nothing matches; a client failure raises. `listed` is the
     * listing's key order.
     */
    method RetrieveS3Objects(prefix: string := DefaultListPrefix) returns (r: Result<seq<FileData>>, ghost listed: seq<string>)
      ensures r.Failure? <==> !reachable
      ensures r.Success? ==> |r.value| == |listed| && Distinct(listed)
      ensures r.Success? ==> forall k :: k in listed <==> k in MatchingKeys(objects, prefix)
      ensures r.Success? ==> forall i :: 0 <= i < |listed| ==> listed[i] in objects && r.value[i] == FileRecord(listed[i])
      ensures r.Success? && MatchingKeys(objects, prefix) == {} ==> r.value == []
    {
      listed := [];
      if !reachable {
        return Failure(ClientErrorMessage), listed;
      }
      var keys := ListKeys(prefix);
      listed := keys;
      var records: seq<FileData> := [];
      var i := 0;
      while i < |keys|
        invariant 0 <= i <= |keys|
        invariant |records| == i
        invariant forall j :: 0 <= j < i ==> keys[j] in objects && records[j] == FileRecord(keys[j])
      {
        var key := keys[i];
        assert key in MatchingKeys(objects, prefix);
        var metadata := GetS3FileMetadata(key);
        var obj := objects[key];
        var record := FileData(LastSegment(key, '/'), FileUrl(bucket, key), metadata, |obj.body|, obj.lastModified);
        assert record == FileRecord(key);
        records := records + [record];
        i := i + 1;
      }
      r := Success(records);
    }

    /**
     * `find_file_object_by_document_id` as written: `get_object` on
     * `documents/<id>`, and any exception, a missing key included, is re-raised.
     * It never returns an empty value.
     */
    method FindFileObjectByDocumentId(documentId: string) returns (r: Result<StoredObject>)
      ensures r.Success? <==> reachable && DocumentKey(documentId) in objects
      ensures r.Success? ==> r.value == objects[DocumentKey(documentId)]
      ensures r.Failure? ==> r.error == FindErrorMessage(documentId)
    {
      var key := DocumentKey(documentId);
      if !reachable || key !in objects {
        return Failure(FindErrorMessage(documentId));
      }
      r := Success(objects[key]);
    }

    /**
     * The lookup the service's not-found test needs: a missing key gives no
     * object instead of an exception; only a client failure raises.
     */
    method LookupDocumentObject(documentId: string) returns (r: Result<Option<StoredObject>>)
      ensures r.Failure? <==> !reachable
      ensures r.Failure? ==> r.error == FindErrorMessage(documentId)
      ensures r.Success? ==> (r.value.Some? <==> DocumentKey(documentId) in objects)
      ensures r.Success? && r.value.Some? ==> r.value.value == objects[DocumentKey(documentId)]
    {
      if !reachable {
        return Failure(FindErrorMessage(documentId));
      }
      var key := DocumentKey(documentId);
      if key !in objects {
        return Success(None);
      }
      r := Success(Some(objects[key]));
    }

    /**
     * `update_document_category`: reads the object's metadata, sets `category`
     * and writes the object back with that metadata. A failed read writes
     * nothing; a failed write (a client failure, or a `None` category, which is
     * not a valid metadata value) is swallowed. Nothing is raised.
     */
    method UpdateDocumentCategory(documentKey: string, category: Option<string>, now: string)
      modifies this`objects
      ensures var key := DocumentKey(documentKey);
        objects == if reachable && key in old(objects) && category.Some?
                   then old(objects)[key := WithCategory(old(objects)[key], category.value, now)]
                   else old(objects)
    {
      var key := DocumentKey(documentKey);
      if !reachable || key !in objects {
        return;
      }
      var current := objects[key];
      if category.None? {
        return;
      }
      objects := objects[key := StoredObject(current.body, current.metadata["category" := category.value], now)];
    }

    /** `remove_file_object_by_document_id`: true exactly when the delete call did not raise. */
    method RemoveFileObjectByDocumentId(documentId: string) returns (deleted: bool)
      modifies this`objects
      ensures deleted == reachable
      ensures objects == if reachable then old(objects) - {DocumentKey(documentId)} else old(objects)
    {
      if !reachable {
        return false;
      }
      objects := objects - {DocumentKey(documentId)};
      deleted := true;
    }
  }
}
