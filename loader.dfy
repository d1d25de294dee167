/** `PDFLoader.load_all_pdfs` (src/rag/loader.py): every PDF under the report
    directory is loaded page by page, each page is tagged with the company id
    taken from the file name, and the accumulated pages go through the text
    splitter once. Directory listing, PDF parsing and the splitter are
    collaborators: the listing and each file's load outcome are data, the
    splitter is a parameter. */
module DocumentLoader {
  import opened Wrappers
  import opened Text

  /** Metadata key under which the company id is stored. */
  const CompanyKey: string := "company"

  /** A page or a chunk: its text and its metadata dictionary. */
  datatype Doc = Doc(pageContent: string, metadata: map<string, string>)

  /** One `*.pdf` file found by the directory walk: its stem (name without the
      extension) and what loading it gives — its pages, or the exception raised. */
  datatype PdfFile = PdfFile(stem: string, load: Result<seq<Doc>, string>)

  /** The report directory: absent, or present with the files in the order
      the recursive glob yields them. */
  datatype PdfDirectory = Missing | Present(files: seq<PdfFile>)

  /** The company id of a file: the part of its stem before the first `_`,
      or the whole stem when it has none. */
  function CompanyId(stem: string): (id: string)
    ensures id <= stem
    ensures '_' !in id
    ensures |id| == |stem| || stem[|id|] == '_'
  {
    if stem == [] || stem[0] == '_' then []
    else [stem[0]] + CompanyId(stem[1..])
  }

  /** The three properties above pin the company id down completely. */
  lemma CompanyIdUnique(stem: string, id: string)
    requires id <= stem && '_' !in id
    requires |id| == |stem| || stem[|id|] == '_'
    ensures id == CompanyId(stem)
  {
  }

  /** A page with its company entry set (other metadata untouched). */
  function Tag(d: Doc, company: string): Doc {
    d.(metadata := d.metadata[CompanyKey := company])
  }

  /** The pages a file contributes: all its pages tagged with its company id,
      or nothing when loading it raised. */
  function FilePages(f: PdfFile): seq<Doc> {
    match f.load
    case Failure(_) => []
    case Success(docs) => seq(|docs|, i requires 0 <= i < |docs| => Tag(docs[i], CompanyId(f.stem)))
  }

  /** A loaded file contributes each of its pages once, in order, with its
      text kept and its metadata extended by the same company id. */
  lemma FilePagesTagged(f: PdfFile)
    ensures f.load.Failure? ==> FilePages(f) == []
    ensures f.load.Success? ==> |FilePages(f)| == |f.load.value|
    ensures f.load.Success? ==> forall i | 0 <= i < |FilePages(f)| ::
      FilePages(f)[i].pageContent == f.load.value[i].pageContent &&
      FilePages(f)[i].metadata == f.load.value[i].metadata[CompanyKey := CompanyId(f.stem)]
  {
  }

  /** What each file contributes, file by file. */
  function PagesPerFile(files: seq<PdfFile>): (parts: seq<seq<Doc>>)
    ensures |parts| == |files|
  {
    seq(|files|, i requires 0 <= i < |files| => FilePages(files[i]))
  }

  /** The pages of a list of files, file after file. */
  function Accumulated(files: seq<PdfFile>): seq<Doc> {
    Flatten(PagesPerFile(files))
  }

  /** What `load_all_pdfs` returns. */
  function LoadedDocuments(dir: PdfDirectory, split: seq<Doc> -> seq<Doc>): seq<Doc> {
    match dir
    case Missing => []
    case Present(files) => split(Accumulated(files))
  }

  /** Accumulation is file order, then page order: the pages of `a + b` are
      those of `a` followed by those of `b`. */
  lemma AccumulatedAppend(a: seq<PdfFile>, b: seq<PdfFile>)
    ensures Accumulated(a + b) == Accumulated(a) + Accumulated(b)
  {
    assert PagesPerFile(a + b) == PagesPerFile(a) + PagesPerFile(b);
    FlattenAppend(PagesPerFile(a), PagesPerFile(b));
  }

  /** A single file contributes exactly its own pages. */
  lemma AccumulatedSingle(f: PdfFile)
    ensures Accumulated([f]) == FilePages(f)
  {
    assert PagesPerFile([f]) == [FilePages(f)];
    FlattenSingle(FilePages(f));
  }

  /** A file whose load raises contributes nothing, and the files after it
      still contribute. */
  lemma FailedFileSkipped(before: seq<PdfFile>, f: PdfFile, after: seq<PdfFile>)
    requires f.load.Failure?
    ensures Accumulated(before + [f] + after) == Accumulated(before) + Accumulated(after)
  {
    AccumulatedAppend(before + [f], after);
    AccumulatedAppend(before, [f]);
    AccumulatedSingle(f);
  }

  /** Every accumulated page carries the company id of some listed file. */
  lemma {:induction false} AccumulatedTagged(files: seq<PdfFile>)
    ensures forall d | d in Accumulated(files) ::
      CompanyKey in d.metadata &&
      exists j | 0 <= j < |files| :: d.metadata[CompanyKey] == CompanyId(files[j].stem)
    decreases |files|
  {
    if files == [] {
      assert Accumulated(files) == [];
    } else {
      var init, last := files[..|files| - 1], files[|files| - 1];
      assert files == init + [last];
      AccumulatedAppend(init, [last]);
      AccumulatedSingle(last);
      AccumulatedTagged(init);
      FilePagesTagged(last);
      forall d | d in Accumulated(files)
        ensures CompanyKey in d.metadata &&
          exists j | 0 <= j < |files| :: d.metadata[CompanyKey] == CompanyId(files[j].stem)
      {
        if d in Accumulated(init) {
          var j :| 0 <= j < |init| && d.metadata[CompanyKey] == CompanyId(init[j].stem);
          assert files[j] == init[j];
        } else {
          assert d in FilePages(last);
          assert d.metadata[CompanyKey] == CompanyId(files[|files| - 1].stem);
        }
      }
    }
  }

  /** The tagging loop: set the company entry of every page of one file. */
  method TagPages(pages: seq<Doc>, company: string) returns (tagged: seq<Doc>)
    ensures |tagged| == |pages|
    ensures forall k | 0 <= k < |pages| :: tagged[k] == Tag(pages[k], company)
  {
    tagged := pages;
    for j := 0 to |pages|
      invariant |tagged| == |pages|
      invariant forall k | 0 <= k < j :: tagged[k] == Tag(pages[k], company)
      invariant forall k | j <= k < |pages| :: tagged[k] == pages[k]
    {
      tagged := tagged[j := Tag(tagged[j], company)];
    }
  }

  /** `load_all_pdfs`: walk the files, skip those that fail to load, tag each
      page with the file's company id, and split the whole list once. */
  method LoadAllPdfs(dir: PdfDirectory, split: seq<Doc> -> seq<Doc>) returns (documents: seq<Doc>)
    ensures documents == LoadedDocuments(dir, split)
    ensures dir.Missing? ==> documents == []
  {
    documents := [];
    if dir.Missing? {
      return;
    }
    var files := dir.files;
    for i := 0 to |files|
      invariant documents == Accumulated(files[..i])
    {
      var f := files[i];
      assert files[..i + 1] == files[..i] + [f];
      AccumulatedAppend(files[..i], [f]);
      AccumulatedSingle(f);
      match f.load {
        case Failure(_) =>
          // the failure is reported and the walk goes on with the next file
        case Success(docs) =>
          var tagged := TagPages(docs, CompanyId(f.stem));
          assert tagged == FilePages(f);
          documents := documents + tagged;
      }
    }
    assert files[..|files|] == files;
    documents := split(documents);
  }
}
