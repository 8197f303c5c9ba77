/** `carrega_arquivo`, the dispatch from a document kind to one loader of the `loaders` module,
    and the grounding system message built from the loaded text. */
module Documents {
  import opened Wrappers

  /** `TIPOS_ARQUIVOS_VALIDOS`, the kinds the sidebar offers. */
  const TiposArquivosValidos: seq<string> := ["Site", "Youtube", "PDF", "CSV", "TXT"]

  /** What the sidebar hands over as `arquivo`: the text typed into a box (a URL or a video
      code) or an uploaded file. */
  datatype Source = Typed(text: string) | Uploaded(bytes: seq<bv8>)

  /** The temporary file an upload is copied into before its loader runs. */
  datatype TempFile = TempFile(suffix: string, bytes: seq<bv8>)

  /** What loading gives back: the document text, or the exception raised on the way. */
  datatype Loaded = Doc(text: string) | Failed

  /** The five loader functions of the `loaders` module, whose bodies this model does not see. */
  datatype Loaders = Loaders(
    site: Source -> Loaded,
    youtube: Source -> Loaded,
    pdf: TempFile -> Loaded,
    csv: TempFile -> Loaded,
    txt: TempFile -> Loaded)

  /** `carrega_arquivo`: each recognised kind consults exactly its own loader, and every other
      kind yields the empty document without consulting any. */
  function CarregaArquivo(loaders: Loaders, kind: string, src: Source): (r: Loaded)
    ensures kind !in TiposArquivosValidos ==> r == Doc("")
    ensures kind == "Site" ==> r == loaders.site(src)
    ensures kind == "Youtube" ==> r == loaders.youtube(src)
    ensures kind == "PDF" && src.Uploaded? ==> r == loaders.pdf(TempFile(".pdf", src.bytes))
    ensures kind == "CSV" && src.Uploaded? ==> r == loaders.csv(TempFile(".csv", src.bytes))
    ensures kind == "TXT" && src.Uploaded? ==> r == loaders.txt(TempFile(".txt", src.bytes))
    ensures kind in ["PDF", "CSV", "TXT"] && src.Typed? ==> r == Failed
  {
    if kind == "Site" then loaders.site(src)
    else if kind == "Youtube" then loaders.youtube(src)
    else if kind == "PDF" then
      if src.Uploaded? then loaders.pdf(TempFile(".pdf", src.bytes)) else Failed
    else if kind == "CSV" then
      if src.Uploaded? then loaders.csv(TempFile(".csv", src.bytes)) else Failed
    else if kind == "TXT" then
      if src.Uploaded? then loaders.txt(TempFile(".txt", src.bytes)) else Failed
    else Doc("")
  }

  /** `a` and `b` have the same loader for `kind` (the others may differ arbitrarily). */
  ghost predicate SameLoaderFor(kind: string, a: Loaders, b: Loaders)
  {
    (kind == "Site" ==> forall s :: a.site(s) == b.site(s)) &&
    (kind == "Youtube" ==> forall s :: a.youtube(s) == b.youtube(s)) &&
    (kind == "PDF" ==> forall f :: a.pdf(f) == b.pdf(f)) &&
    (kind == "CSV" ==> forall f :: a.csv(f) == b.csv(f)) &&
    (kind == "TXT" ==> forall f :: a.txt(f) == b.txt(f))
  }

  /** No loader but the kind's own is consulted: replacing the other four changes nothing. */
  lemma CarregaArquivoUsesOneLoader(a: Loaders, b: Loaders, kind: string, src: Source)
    requires SameLoaderFor(kind, a, b)
    ensures CarregaArquivo(a, kind, src) == CarregaArquivo(b, kind, src)
  {
  }

  /** The fixed parts of the system message around the kind label and the document text. */
  const PromptHead: string :=
    "Você é um assistente amigável chamado Oráculo.\n" +
    "    Você possui acesso às seguintes informações vindas \n" +
    "    de um documento "
  const PromptMiddle: string := ": \n\n    ####\n    "
  const PromptTail: string :=
    "\n    ####\n\n" +
    "    Utilize as informações fornecidas para basear as suas respostas.\n\n" +
    "    Sempre que houver $ na sua saída, substita por S.\n\n" +
    "    Se a informação do documento for algo como \"Just a moment...Enable JavaScript and cookies to continue\" \n" +
    "    sugira ao usuário carregar novamente o Oráculo!"

  /** A system message template: the fixed text before the kind label, between the label and
      the document, and after the document. */
  datatype PromptText = PromptText(head: string, middle: string, tail: string)

  /** The template of `carrega_modelo` (lines 85-98). */
  const Oraculo: PromptText := PromptText(PromptHead, PromptMiddle, PromptTail)

  /** Where the document text starts in a message filled from `t` for a kind label `kind`. */
  function DocumentOffset(t: PromptText, kind: string): nat
  {
    |t.head| + |kind| + |t.middle|
  }

  /** `str.format` on the template: the kind label and the whole document text inserted
      verbatim between the fixed parts, nothing truncated. */
  function Fill(t: PromptText, kind: string, doc: string): (r: string)
    ensures |r| == DocumentOffset(t, kind) + |doc| + |t.tail|
    ensures r[..|t.head|] == t.head
    ensures r[|t.head|..|t.head| + |kind|] == kind
    ensures r[|t.head| + |kind|..DocumentOffset(t, kind)] == t.middle
    ensures r[DocumentOffset(t, kind)..DocumentOffset(t, kind) + |doc|] == doc
    ensures r[DocumentOffset(t, kind) + |doc|..] == t.tail
  {
    FiveParts(t.head, kind, t.middle, doc, t.tail);
    t.head + kind + t.middle + doc + t.tail
  }

  /** Where each part of a concatenation of five strings lies in it. */
  lemma FiveParts(a: string, b: string, c: string, d: string, e: string)
    ensures var r := a + b + c + d + e;
            var i, j, k, l := |a|, |a| + |b|, |a| + |b| + |c|, |a| + |b| + |c| + |d|;
            |r| == l + |e| && r[..i] == a && r[i..j] == b && r[j..k] == c && r[k..l] == d && r[l..] == e
  {
    var r := a + b + c + d + e;
    assert r == a + (b + (c + (d + e)));
  }

  /** The grounding system message for a document of kind `kind`. */
  function SystemMessage(kind: string, doc: string): string
  {
    Fill(Oraculo, kind, doc)
  }

  /** Reads the document text back out of a message filled from `t` for `kind`, if `prompt`
      has that shape. */
  function DocumentOf(t: PromptText, prompt: string, kind: string): (r: Option<string>)
  {
    var start := DocumentOffset(t, kind);
    if |prompt| >= start + |t.tail|
       && prompt[..start] == t.head + kind + t.middle
       && prompt[|prompt| - |t.tail|..] == t.tail
    then Some(prompt[start..|prompt| - |t.tail|])
    else None
  }

  /** The document can be read back unchanged from the message filled with it. */
  lemma DocumentOfFill(t: PromptText, kind: string, doc: string)
    ensures DocumentOf(t, Fill(t, kind, doc), kind) == Some(doc)
  {
    var p := Fill(t, kind, doc);
    assert p[..DocumentOffset(t, kind)] == t.head + kind + t.middle;
  }

  /** The document can be read back unchanged from the system message, so two different
      documents never give the same system message for the same kind. */
  lemma SystemMessageInjective(kind: string, doc1: string, doc2: string)
    requires SystemMessage(kind, doc1) == SystemMessage(kind, doc2)
    ensures doc1 == doc2
  {
    DocumentOfFill(Oraculo, kind, doc1);
    DocumentOfFill(Oraculo, kind, doc2);
  }
}
