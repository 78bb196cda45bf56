/**
 * Upload validation and metadata building (backend/app/utils/document_utils.py):
 * the extension check, the 2 MiB size ceiling and the five-field metadata record.
 */
module DocumentUtils {
  import opened Strings

  /** Declared by the source as the allow-list; no function reads it. */
  const AllowedExtensions: set<string> := {"xls", "xlxs", "pdf", "docx", "doc", "txt"}

  const MaxFileSizeMb: nat := 2
  const MaxFileSizeBytes: nat := MaxFileSizeMb * 1024 * 1024

  /**
   * `allowed_file` as written: the name must contain a `.`, and the lower-cased
   * text after its last `.` must occur somewhere in the name. The allow-list is
   * never consulted.
   */
  predicate AllowedFile(fileName: string)
    ensures AllowedFile(fileName) ==> '.' in fileName
  {
    '.' in fileName && IsSubstring(Lower(LastSegment(fileName, '.')), fileName)
  }

  /**
   * Every dotted name whose extension has no upper-case letter is allowed,
   * whatever the extension is: the extension is a suffix of the name.
   */
  lemma {:induction false} LowerCaseExtensionAllowed(fileName: string)
    requires '.' in fileName && IsLower(LastSegment(fileName, '.'))
    ensures AllowedFile(fileName)
  {
    var ext := LastSegment(fileName, '.');
    LowerOfLower(ext);
    SuffixIsSubstring(fileName, |fileName| - |ext|);
  }

  /** A name made of any text, a `.` and an extension with no upper-case letter is allowed. */
  lemma DottedLowerAllowed(front: string, ext: string)
    requires '.' !in ext && IsLower(ext)
    ensures AllowedFile(front + ['.'] + ext)
  {
    LastSegmentAfter(front, '.', ext);
    LowerCaseExtensionAllowed(front + ['.'] + ext);
  }

  /** `test.exe` passes the check although `exe` is not on the allow-list. */
  lemma ExeAllowed()
    ensures AllowedFile("test.exe") && "exe" !in AllowedExtensions
  {
    assert "test.exe" == "test" + ['.'] + "exe";
    DottedLowerAllowed("test", "exe");
    assert forall e :: e in AllowedExtensions ==> |e| > 0 && e[0] != 'e';
  }

  /** A name ending in `.` passes the check: the empty extension occurs in every name. */
  lemma TrailingDotAllowed()
    ensures AllowedFile("file.")
  {
    assert "file." == "file" + ['.'] + "";
    DottedLowerAllowed("file", "");
  }

  /**
   * A dotted name is refused when the first letter of its lower-cased extension
   * occurs nowhere in the name.
   */
  lemma ExtensionLetterAbsentRefused(front: string, ext: string)
    requires '.' !in ext && ext != [] && LowerChar(ext[0]) !in front + ['.'] + ext
    ensures !AllowedFile(front + ['.'] + ext)
  {
    LastSegmentAfter(front, '.', ext);
    FirstCharAbsent(Lower(ext), front + ['.'] + ext);
  }

  /** `REPORT.PDF` is refused: `pdf` occurs nowhere in it. */
  lemma UpperCaseExtensionRefused()
    ensures !AllowedFile("REPORT.PDF")
  {
    assert "REPORT.PDF" == "REPORT" + ['.'] + "PDF";
    ExtensionLetterAbsentRefused("REPORT", "PDF");
  }

  /**
   * `is_file_size_exceeded` compares the size with the 2 MiB ceiling, strictly:
   * exactly 2097152 bytes is not too heavy, one byte more is.
   */
  predicate SizeExceeded(size: nat)
    ensures SizeExceeded(size) <==> size > 2097152
  {
    size > MaxFileSizeBytes
  }

  /** An uploaded file object: its bytes and the current stream position. */
  class FileStream {
    const data: seq<bv8>
    var position: nat

    constructor (data: seq<bv8>)
      ensures this.data == data && position == 0
    {
      this.data := data;
      position := 0;
    }

    /** `seek(offset, 0)` when `fromEnd` is false, `seek(offset, 2)` when it is true. */
    method Seek(offset: nat, fromEnd: bool)
      modifies this`position
      ensures position == if fromEnd then |data| + offset else offset
    {
      position := if fromEnd then |data| + offset else offset;
    }

    method Tell() returns (p: nat)
      ensures p == position
    {
      p := position;
    }
  }

  /**
   * `retreive_file_size`: seek to the end, read the position, seek back to 0.
   * Gives the stream's total length and leaves the stream rewound.
   */
  method RetrieveFileSize(file: FileStream, fileName: string) returns (size: nat)
    modifies file`position
    ensures size == |file.data|
    ensures file.position == 0
  {
    file.Seek(0, true);
    size := file.Tell();
    file.Seek(0, false);
  }

  /** `is_file_size_exceeded`: true exactly when the file is over 2 MiB; rewinds it. */
  method IsFileSizeExceeded(file: FileStream, fileName: string) returns (exceeded: bool)
    modifies file`position
    ensures exceeded <==> SizeExceeded(|file.data|)
    ensures file.position == 0
  {
    var size := RetrieveFileSize(file, fileName);
    exceeded := size > MaxFileSizeBytes;
  }

  const MetadataKeys: set<string> := {"original_name", "filesize", "upload_time", "key", "category"}

  /**
   * The metadata dictionary `extract_metadata` returns for a file of `size` bytes.
   * Exactly the five keys; the name and id verbatim; the size as `str(size)`, a
   * decimal string without leading zeros that reads back as the size.
   */
  function Metadata(fileName: string, size: nat, uploadTime: string, documentId: string,
                    category: string := "none"): (m: map<string, string>)
    ensures m.Keys == MetadataKeys
    ensures m["original_name"] == fileName && m["key"] == documentId
    ensures m["upload_time"] == uploadTime && m["category"] == category
    ensures m["filesize"] == NatToDecimal(size)
    ensures var f := m["filesize"];
      (forall i :: 0 <= i < |f| ==> '0' <= f[i] <= '9') && DecimalValue(f) == size
  {
    DecimalRoundTrip(size);
    map["original_name" := fileName, "filesize" := NatToDecimal(size),
        "upload_time" := uploadTime, "key" := documentId, "category" := category]
  }

  /** Without an explicit category the record says `none`. */
  lemma DefaultCategory(fileName: string, size: nat, uploadTime: string, documentId: string)
    ensures Metadata(fileName, size, uploadTime, documentId)["category"] == "none"
  {
  }

  /**
   * `extract_metadata`: measures the file (which rewinds it) and builds the record.
   * `uploadTime` stands for `datetime.utcnow().isoformat()`.
   */
  method ExtractMetadata(file: FileStream, fileName: string, documentId: string,
                         uploadTime: string, category: string := "none")
    returns (m: map<string, string>)
    modifies file`position
    ensures m == Metadata(fileName, |file.data|, uploadTime, documentId, category)
    ensures file.position == 0
  {
    var size := RetrieveFileSize(file, fileName);
    m := Metadata(fileName, size, uploadTime, documentId, category);
  }
}
