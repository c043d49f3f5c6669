/** The start of `file_to_vector_store`: decide the file's type, refuse every
    type but PDF, and only then hand the file to the loader, the splitter and
    the vector store. The three libraries and MIME sniffing are function-typed
    fields of `Library`; whether one of them was consulted shows as whether the
    result depends on it. */
module Utils {
  import opened Common

  const PdfType: string := "application/pdf"

  /** `implemented_file_types`. */
  const ImplementedFileTypes: seq<string> := [PdfType]

  /** The message of the NotImplementedError. It is a plain string literal, not
      an f-string, so the list of types is not substituted into it. */
  const UnsupportedTypeMessage: string :=
    "Векторизация реализована только для следующих документов: {str(implemented_file_types)}"

  /** The placeholder that stays in the message verbatim. */
  const UnsubstitutedPlaceholder: string := "{str(implemented_file_types)}"

  /** The default `splitter_parameters`. */
  const DefaultChunkSize: nat := 1024
  const DefaultChunkOverlap: nat := 512

  /** The foreign calls `file_to_vector_store` makes. Each of them can raise. */
  datatype Library = Library(
    detectMime: Path -> Result<string>,                               // magic.from_file(path, mime=True)
    loadAndSplitPdf: Path -> Result<seq<Document>>,                   // PyPDFLoader(path).load_and_split()
    splitDocuments: (seq<Document>, nat, nat) -> Result<seq<Document>>, // RecursiveCharacterTextSplitter(size, overlap).split_documents
    fromDocuments: seq<Document> -> Result<VectorStore>)               // Chroma.from_documents(documents, embedding)

  /** The type the gate tests: the caller's, or the sniffed one when the caller
      gave none. A failure of the sniffer is the result. */
  function EffectiveFileType(path: Path, fileType: Option<string>, detectMime: Path -> Result<string>)
    : (t: Result<string>)
    ensures fileType.Some? ==> t == Ok(fileType.value)
    ensures fileType.None? ==> t == detectMime(path)
  {
    match fileType
    case Some(given) => Ok(given)
    case None => detectMime(path)
  }

  /** `file_to_vector_store(path, embedding, file_type, splitter_parameters)`. */
  function FileToVectorStore(path: Path, fileType: Option<string>, lib: Library, chunkSize: nat, chunkOverlap: nat)
    : (r: Result<VectorStore>)
    ensures EffectiveFileType(path, fileType, lib.detectMime).Err? ==>
      r == Err(EffectiveFileType(path, fileType, lib.detectMime).error)
    ensures var t := EffectiveFileType(path, fileType, lib.detectMime);
      t.Ok? && t.value != PdfType ==> r == Err(NotImplementedError(UnsupportedTypeMessage))
    ensures r.Ok? ==> EffectiveFileType(path, fileType, lib.detectMime) == Ok(PdfType)
    ensures r.Ok? ==> exists pages, documents ::
      && lib.loadAndSplitPdf(path) == Ok(pages)
      && lib.splitDocuments(pages, chunkSize, chunkOverlap) == Ok(documents)
      && lib.fromDocuments(documents) == r
  {
    var t :- EffectiveFileType(path, fileType, lib.detectMime);
    if t !in ImplementedFileTypes then
      Err(NotImplementedError(UnsupportedTypeMessage))
    else
      var pages :- lib.loadAndSplitPdf(path);
      var documents :- lib.splitDocuments(pages, chunkSize, chunkOverlap);
      lib.fromDocuments(documents)
  }

  /** A rejected type is rejected before anything is loaded, split or embedded:
      the result is the same whatever the three libraries would have done. */
  lemma RejectedTypeLoadsNothing(path: Path, fileType: Option<string>, lib: Library, other: Library,
                                 chunkSize: nat, chunkOverlap: nat)
    requires EffectiveFileType(path, fileType, lib.detectMime).Ok?
    requires EffectiveFileType(path, fileType, lib.detectMime).value != PdfType
    requires fileType.None? ==> other.detectMime(path) == lib.detectMime(path)
    ensures FileToVectorStore(path, fileType, other, chunkSize, chunkOverlap)
         == FileToVectorStore(path, fileType, lib, chunkSize, chunkOverlap)
         == Err(NotImplementedError(UnsupportedTypeMessage))
  {
  }

  /** A failing sniffer is the result: nothing is loaded, split or embedded. */
  lemma SniffFailureLoadsNothing(path: Path, lib: Library, other: Library, chunkSize: nat, chunkOverlap: nat)
    requires lib.detectMime(path).Err?
    requires other.detectMime(path) == lib.detectMime(path)
    ensures FileToVectorStore(path, None, other, chunkSize, chunkOverlap)
         == FileToVectorStore(path, None, lib, chunkSize, chunkOverlap)
         == Err(lib.detectMime(path).error)
  {
  }

  /** A type the caller supplies is used as given: the sniffer is never consulted. */
  lemma SuppliedTypeSkipsDetection(path: Path, fileType: string, lib: Library, detect: Path -> Result<string>,
                                   chunkSize: nat, chunkOverlap: nat)
    ensures FileToVectorStore(path, Some(fileType), lib.(detectMime := detect), chunkSize, chunkOverlap)
         == FileToVectorStore(path, Some(fileType), lib, chunkSize, chunkOverlap)
  {
  }

  /** A PDF goes through the whole pipeline: the first failure of the loader,
      the splitter or the vector store is the result, and otherwise the store
      built from the split pages. */
  lemma AcceptedTypeRunsPipeline(path: Path, fileType: Option<string>, lib: Library, chunkSize: nat, chunkOverlap: nat)
    requires EffectiveFileType(path, fileType, lib.detectMime) == Ok(PdfType)
    ensures var r := FileToVectorStore(path, fileType, lib, chunkSize, chunkOverlap);
      lib.loadAndSplitPdf(path).Err? ==> r == Err(lib.loadAndSplitPdf(path).error)
    ensures var r := FileToVectorStore(path, fileType, lib, chunkSize, chunkOverlap);
      var pages := lib.loadAndSplitPdf(path);
      pages.Ok? && lib.splitDocuments(pages.value, chunkSize, chunkOverlap).Err? ==>
        r == Err(lib.splitDocuments(pages.value, chunkSize, chunkOverlap).error)
    ensures var r := FileToVectorStore(path, fileType, lib, chunkSize, chunkOverlap);
      var pages := lib.loadAndSplitPdf(path);
      pages.Ok? && lib.splitDocuments(pages.value, chunkSize, chunkOverlap).Ok? ==>
        r == lib.fromDocuments(lib.splitDocuments(pages.value, chunkSize, chunkOverlap).value)
  {
  }

  /** The message ends in the placeholder, left unsubstituted: the list of
      accepted types is not filled in. Being a constant, the message does not
      name the offending type either. */
  lemma MessageIsNotFormatted()
    ensures |UnsupportedTypeMessage| >= |UnsubstitutedPlaceholder|
    ensures UnsupportedTypeMessage[|UnsupportedTypeMessage| - |UnsubstitutedPlaceholder|..] == UnsubstitutedPlaceholder
  {
  }
}
