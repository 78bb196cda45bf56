/**
 * Extractor dispatch (backend/app/factories/processor_factory.py): a closed map
 * from a file extension to the kind of text extractor, with an error for anything else.
 */
module ProcessorFactory {
  import opened Wrappers

  /** The four text extractors the factory can hand out. */
  datatype Processor = Text | Pdf | Docx | Xlsx

  /**
   * A processor's `extract_text`: from the document's bytes to its text, or the
   * exception the underlying library raises. The libraries are not modelled.
   */
  type Extractor = (Processor, seq<bv8>) -> Result<string>

  /** The one extension each processor is selected by. */
  function ExtensionOf(p: Processor): string {
    match p
    case Text => "txt"
    case Pdf => "pdf"
    case Docx => "docx"
    case Xlsx => "xlsx"
  }

  const SupportedExtensions: set<string> := {"txt", "pdf", "docx", "xlsx"}

  /**
   * `get_processor`: exact, case-sensitive comparison with the four extensions;
   * any other string raises `ValueError` naming the extension.
   */
  function GetProcessor(fileExtension: string): (r: Result<Processor>)
    ensures r.Success? <==> fileExtension in SupportedExtensions
    ensures r.Success? ==> ExtensionOf(r.value) == fileExtension
    ensures r.Failure? ==> r.error == UnsupportedMessage(fileExtension)
  {
    if fileExtension == "txt" then Success(Text)
    else if fileExtension == "pdf" then Success(Pdf)
    else if fileExtension == "docx" then Success(Docx)
    else if fileExtension == "xlsx" then Success(Xlsx)
    else Failure(UnsupportedMessage(fileExtension))
  }

  function UnsupportedMessage(fileExtension: string): (msg: string)
    ensures |msg| >= |fileExtension| && msg[|msg| - |fileExtension|..] == fileExtension
  {
    "Unsupported file extension: " + fileExtension
  }

  /** Every processor is reached from its own extension, and from no other. */
  lemma DispatchRoundTrip(p: Processor, fileExtension: string)
    ensures GetProcessor(ExtensionOf(p)) == Success(p)
    ensures GetProcessor(fileExtension) == Success(p) <==> fileExtension == ExtensionOf(p)
  {
  }

  /**
   * Matching is case-sensitive, and `doc` and `xls` are refused although the
   * upload allow-list names them.
   */
  lemma NarrowerThanAllowList()
    ensures GetProcessor("PDF").Failure? && GetProcessor("TXT").Failure?
    ensures GetProcessor("doc").Failure? && GetProcessor("xls").Failure?
  {
  }
}
