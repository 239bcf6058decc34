/** The record `fetch_comprehensive_gene_data` (utils/gene_master.py) builds
    for the gene_master table from the HGNC lookup. The lookup is its
    outcome: the tuple `fetch_hgnc_data` returns, or the exception it
    raised. */
module GeneMaster {
  import opened Wrappers
  import Text
  import opened PyJson
  import FetchData

  /** A gene_master row. */
  datatype GeneRecord = GeneRecord(
    geneId: string,
    ensemblGeneId: string,
    hgncGeneId: string,
    ncbiGeneId: Option<int>,
    geneSymbol: string,
    geneSymbolAliases: string,
    geneName: string)

  /** `x or y` for strings. */
  function Or(x: string, y: string): string {
    if x != "" then x else y
  }

  /** `int(ncbi_gene_id) if ncbi_gene_id and ncbi_gene_id != "N/A" else
      None`: `Failure` where `int()` raises `ValueError`. */
  function NcbiGeneId(id: string): Result<Option<int>> {
    if FetchData.Unusable(id) then Success(None)
    else match Text.ParseInt(id)
      case None => Failure("invalid literal for int() with base 10: '" + id + "'")
      case Some(n) => Success(Some(n))
  }

  /** `json.dumps(aliases) if aliases else '[]'`. */
  function AliasesJson(aliases: seq<string>): string {
    if aliases != [] then DumpStrings(aliases) else "[]"
  }

  /** `fetch_comprehensive_gene_data(gene_symbol)`, lines 63-104: `None`
      when the HGNC lookup raises, when the Ensembl id is missing or "N/A",
      or when the NCBI id is not an integer (the `ValueError` is caught by
      the same handler). */
  function GeneRecordOf(symbol: string, hgnc: Result<FetchData.HgncData>): (r: Option<GeneRecord>)
    ensures hgnc.Failure? ==> r.None?
    ensures hgnc.Success? && FetchData.Unusable(hgnc.value.ensemblGeneId) ==> r.None?
    ensures r.Some? ==> r.value.geneId == r.value.ensemblGeneId == hgnc.value.ensemblGeneId
  {
    match hgnc
    case Failure(_) => None
    case Success(h) =>
      if FetchData.Unusable(h.ensemblGeneId) then None
      else match NcbiGeneId(h.geneId)
        case Failure(_) => None
        case Success(ncbi) =>
          Some(GeneRecord(h.ensemblGeneId, h.ensemblGeneId, h.hgncId, ncbi, Or(h.approvedSymbol, symbol),
                          AliasesJson(h.geneAliases), h.geneName))
  }

  /** A record exists exactly when the lookup succeeded with a usable
      Ensembl id and an NCBI id that is absent, "N/A" or an integer; it
      then carries the HGNC identifiers, the approved symbol (the input when
      that is empty) and the aliases as JSON. */
  lemma GeneRecordShape(symbol: string, hgnc: Result<FetchData.HgncData>)
    ensures GeneRecordOf(symbol, hgnc).Some? <==>
      hgnc.Success? && !FetchData.Unusable(hgnc.value.ensemblGeneId) && NcbiGeneId(hgnc.value.geneId).Success?
    ensures GeneRecordOf(symbol, hgnc).Some? ==>
      var h := hgnc.value; var g := GeneRecordOf(symbol, hgnc).value;
      && g.hgncGeneId == h.hgncId && g.geneName == h.geneName
      && g.ncbiGeneId == NcbiGeneId(h.geneId).value
      && (h.approvedSymbol != "" ==> g.geneSymbol == h.approvedSymbol)
      && (h.approvedSymbol == "" ==> g.geneSymbol == symbol)
      && g.geneSymbolAliases == DumpStrings(h.geneAliases)
  {
    if hgnc.Success? {
      DumpStringsShape(hgnc.value.geneAliases);
    }
  }

  /** `json.dumps([])` is "[]" already, so the `if aliases else '[]'` guard
      never changes the text. */
  lemma AliasesJsonIsDump(aliases: seq<string>)
    ensures AliasesJson(aliases) == DumpStrings(aliases)
  {
    DumpStringsShape(aliases);
  }

  /** The NCBI id is read back as the integer it spells; "N/A" and "" give
      `None`. */
  lemma NcbiGeneIdRoundTrip(n: int)
    ensures NcbiGeneId(Text.IntToString(n)) == Success(Some(n))
    ensures NcbiGeneId("N/A") == Success(None) && NcbiGeneId("") == Success(None)
  {
    Text.IntToStringRoundTrip(n);
    var s := Text.IntToString(n);
    assert s != "" && s != "N/A" by {
      if n < 0 {
        assert s[0] == '-';
      } else {
        assert Text.IsDigit(s[0]);
      }
    }
  }

  /** An NCBI id that `int()` refuses loses the whole record. */
  lemma BadNcbiIdLosesRecord(symbol: string, h: FetchData.HgncData)
    requires !FetchData.Unusable(h.ensemblGeneId)
    requires !FetchData.Unusable(h.geneId) && Text.ParseInt(h.geneId).None?
    ensures GeneRecordOf(symbol, Success(h)).None?
  {
  }
}
