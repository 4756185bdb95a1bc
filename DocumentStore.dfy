/** The process-wide vector store of streamlit_backend.py: absent until the first document is
    ingested, only appended to afterwards, and searched by ask_document. Embedding, the FAISS index,
    the similarity search and the text splitter are foreign libraries and come in as parameters;
    the store is modelled by the chunk texts it holds, in the order they were added. */
module DocumentStore {
  import opened Wrappers
  import opened PyText
  import opened JsonValue

  /** The reader add_document_directly chooses from the end of the file path. */
  datatype FileKind = Pdf | Docx | Txt | Unsupported

  /** The branch test as written: the Word case compares against ". docx", with a space. */
  function KindAsWritten(path: string): FileKind {
    if EndsWith(path, ".pdf") then Pdf
    else if EndsWith(path, ". docx") then Docx
    else if EndsWith(path, ".txt") then Txt
    else Unsupported
  }

  /** The branch test as intended: the three extensions the upload widget offers. */
  function Kind(path: string): FileKind {
    if EndsWith(path, ".pdf") then Pdf
    else if EndsWith(path, ".docx") then Docx
    else if EndsWith(path, ".txt") then Txt
    else Unsupported
  }

  /** As written, a temporary file that keeps the ".docx" suffix of its upload is never read as a
      Word document: it falls through to "Unsupported file type". */
  lemma DocxRejectedAsWritten(stem: string)
    ensures KindAsWritten(stem + ".docx") == Unsupported
  {
    var p := stem + ".docx";
    assert p[|p| - 4..] == "docx";
    if |p| >= 6 {
      assert p[|p| - 6..][1] == '.';
    }
  }

  /** As intended, each of the offered extensions selects its own reader. */
  lemma UploadExtensionsRecognised(stem: string)
    ensures Kind(stem + ".pdf") == Pdf
    ensures Kind(stem + ".docx") == Docx
    ensures Kind(stem + ".txt") == Txt
  {
    var pdf, docx, txt := stem + ".pdf", stem + ".docx", stem + ".txt";
    assert pdf[|pdf| - 4..] == ".pdf";
    assert docx[|docx| - 4..] == "docx" && docx[|docx| - 5..] == ".docx";
    assert txt[|txt| - 4..] == ".txt";
  }

  /** What a reader produced from the file: its text, or the exception it raised. */
  datatype Extracted = Text(text: string) | ReadRaised(reason: string)

  /** What `similarity_search` returned: the page contents of the hits in rank order, or an exception. */
  datatype SearchOutcome = Hits(texts: seq<string>) | SearchRaised(reason: string)

  /** A call of `vector_store.similarity_search(query, k=k)`. */
  datatype SearchCall = SearchCall(query: string, k: nat)

  /** The number of chunks ask_document retrieves. */
  const SearchK := 4

  function StoreError(message: string): Dict {
    map["status" := JStr("error"), "message" := JStr(message)]
  }

  function SearchError(message: string): Dict {
    map["status" := JStr("error"), "message" := JStr(message), "type" := JStr("document_search")]
  }

  /** The conditions under which a document is ingested: a supported path, a reader that did not
      raise, text that is not blank, and an embedding step that did not raise. */
  predicate Ingests(path: string, read: (string, FileKind) -> Extracted, split: string -> seq<string>,
                    embedError: seq<string> -> Option<string>)
  {
    && Kind(path) != Unsupported
    && read(path, Kind(path)).Text?
    && !IsBlank(read(path, Kind(path)).text)
    && embedError(split(read(path, Kind(path)).text)).None?
  }

  class VectorStore {
    /** `None` before the first successful ingest; then every chunk text added, in order. */
    var index: Option<seq<string>>

    /** `vector_store = None` at import time. */
    constructor ()
      ensures index == None
    {
      index := None;
    }

    /** add_document_directly. `read` extracts the text of the file for the chosen reader, `split`
        is the 800/100 character text splitter, and `embedError` says whether embedding the chunks
        raised (and with which message). */
    method AddDocument(path: string, read: (string, FileKind) -> Extracted, split: string -> seq<string>,
                       embedError: seq<string> -> Option<string>) returns (r: Dict)
      modifies this
      ensures IsSuccess(r) <==> Ingests(path, read, split, embedError)
      ensures IsSuccess(r) ==>
        var chunks := split(read(path, Kind(path)).text);
        && index == Some(old(index).GetOr([]) + chunks)
        && r == map["status" := JStr("success"), "message" := JStr("Added " + NatToString(|chunks|) + " chunks"),
                    "chunks" := JInt(|chunks|)]
      ensures !IsSuccess(r) ==> index == old(index) && Get(r, "status") == Some(JStr("error"))
      ensures Kind(path) == Unsupported ==> r == StoreError("Unsupported file type")
      ensures Kind(path) != Unsupported && read(path, Kind(path)).Text? && IsBlank(read(path, Kind(path)).text)
              ==> r == StoreError("Document is empty")
      ensures old(index).Some? ==> index.Some? && old(index).value <= index.value
    {
      var kind := Kind(path);
      if kind == Unsupported {
        return StoreError("Unsupported file type");
      }
      var extracted := read(path, kind);
      if extracted.ReadRaised? {
        return StoreError(extracted.reason);
      }
      var text := extracted.text;
      if StripsToEmpty(text) {
        return StoreError("Document is empty");
      }
      var chunks := split(text);
      var failure := embedError(chunks);
      if failure.Some? {
        return StoreError(failure.value);
      }
      if index == None {
        assert [] + chunks == chunks;
        index := Some(chunks);
      } else {
        index := Some(index.value + chunks);
      }
      var count := |chunks|;
      r := map["status" := JStr("success"), "message" := JStr("Added " + NatToString(count) + " chunks"),
               "chunks" := JInt(count)];
    }

    /** ask_document. `search` is the similarity search over the stored chunks. */
    method Ask(query: string, search: (seq<string>, string, nat) -> SearchOutcome) returns (r: Dict, call: Option<SearchCall>)
      ensures index.None? ==> call.None? && r == SearchError("No documents uploaded yet. Please upload a document first.")
      ensures index.Some? ==> call == Some(SearchCall(query, SearchK))
      ensures IsSuccess(r) <==> index.Some? && search(index.value, query, SearchK).Hits? && search(index.value, query, SearchK).texts != []
      ensures IsSuccess(r) ==>
        r == map["status" := JStr("success"), "context" := JStr(Join("\n\n", search(index.value, query, SearchK).texts)),
                 "type" := JStr("document_search")]
      ensures index.Some? && search(index.value, query, SearchK) == Hits([])
              ==> r == SearchError("No relevant information found in documents.")
      ensures !IsSuccess(r) ==> Get(r, "status") == Some(JStr("error")) && Get(r, "type") == Some(JStr("document_search"))
    {
      if index == None {
        return SearchError("No documents uploaded yet. Please upload a document first."), None;
      }
      call := Some(SearchCall(query, SearchK));
      var found := search(index.value, query, SearchK);
      if found.SearchRaised? {
        return SearchError(found.reason), call;
      }
      if found.texts == [] {
        return SearchError("No relevant information found in documents."), call;
      }
      var context := Join("\n\n", found.texts);
      r := map["status" := JStr("success"), "context" := JStr(context), "type" := JStr("document_search")];
    }
  }
}
