/** Shared value types: optional values, results in place of raised exceptions, and
    LangChain's `Document` as the retriever hands it to the rest of the pipeline. */
module Base {
  import opened Text

  datatype Option<T> = None | Some(value: T)

  /** A call that either returns a value or raises the error `error`. */
  datatype Result<T, E> = Ok(value: T) | Err(error: E)

  /** A call that returns nothing or raises the error `error`. */
  datatype Outcome<E> = Pass | Fail(error: E)

  /** A chunk of a source document: its text and its metadata dictionary. */
  datatype Document = Document(pageContent: string, metadata: map<string, string>)

  /** `doc.metadata.get("title", fallback)`. */
  function TitleOr(d: Document, fallback: string): string
  {
    if "title" in d.metadata then d.metadata["title"] else fallback
  }

  /** The synthetic title `f"doc_{i}"`. */
  function DefaultTitle(i: nat): string
  {
    "doc_" + Decimal(i)
  }

  /** Synthetic titles of different positions differ. */
  lemma DefaultTitleInjective(i: nat, j: nat)
    requires DefaultTitle(i) == DefaultTitle(j)
    ensures i == j
  {
    assert Decimal(i) == DefaultTitle(i)[4..] == DefaultTitle(j)[4..] == Decimal(j);
    DecimalInjective(i, j);
  }
}
