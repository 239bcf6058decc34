/** The record `fetch_comprehensive_protein_data` (utils/protein_master.py)
    builds for the protein_master table. The HGNC and UniProt lookups are
    their outcomes (the tuple returned, or the exception raised); the
    Ensembl protein and RefSeq lookups, which catch their own errors, are
    functions of the id they are asked about. */
module ProteinMaster {
  import opened Wrappers
  import opened PyJson
  import FetchData
  import GeneMaster

  /** A protein_master row. */
  datatype ProteinRecord = ProteinRecord(
    proteinId: string,
    uniprotProteinId: string,
    ensemblProteinId: Json,
    refseqProteinId: string,
    proteinSymbol: string,
    proteinSymbolAliases: string,
    proteinName: string)

  /** The row for a usable UniProt entry, given the approved symbol and the
      NCBI gene id the HGNC lookup produced ("" when there is none). */
  function RecordFrom(symbol: string, approved: string, ncbi: string, u: FetchData.UniProtData,
                      ensemblProteinOf: string -> Json,
                      refseqOf: string -> (Option<string>, Option<string>)): ProteinRecord
  {
    var ensembl := ensemblProteinOf(u.proteinId);
    var refseq := if FetchData.Unusable(ncbi) then None else refseqOf(ncbi).1;
    ProteinRecord(u.proteinId, u.proteinId,
                  if Truthy(ensembl) then ensembl else JStr(""),
                  refseq.GetOr(""),
                  GeneMaster.Or(approved, symbol),
                  GeneMaster.AliasesJson(u.aliases),
                  u.proteinName)
  }

  /** `fetch_comprehensive_protein_data(protein_symbol)` as written
      (lines 69-137). When the HGNC lookup raises, its handler binds only
      `ncbi_gene_id`; `approved_symbol` stays unbound, its read at line 123
      raises `UnboundLocalError`, and the outer handler returns `None`. */
  function ProteinRecordAsWritten(symbol: string, hgnc: Result<FetchData.HgncData>, uniprot: Result<FetchData.UniProtData>,
                                  ensemblProteinOf: string -> Json,
                                  refseqOf: string -> (Option<string>, Option<string>)): (r: Option<ProteinRecord>)
    ensures hgnc.Failure? ==> r.None?
  {
    match uniprot
    case Failure(_) => None
    case Success(u) =>
      if FetchData.Unusable(u.proteinId) then None
      else match hgnc
        case Failure(_) => None
        case Success(h) => Some(RecordFrom(symbol, h.approvedSymbol, h.geneId, u, ensemblProteinOf, refseqOf))
  }

  /** `fetch_comprehensive_protein_data` as its HGNC handler intends: a
      failed lookup leaves no NCBI id and no approved symbol, and the record
      falls back on the input symbol. */
  function ProteinRecordOf(symbol: string, hgnc: Result<FetchData.HgncData>, uniprot: Result<FetchData.UniProtData>,
                           ensemblProteinOf: string -> Json,
                           refseqOf: string -> (Option<string>, Option<string>)): (r: Option<ProteinRecord>)
    ensures r.Some? <==> uniprot.Success? && !FetchData.Unusable(uniprot.value.proteinId)
  {
    match uniprot
    case Failure(_) => None
    case Success(u) =>
      if FetchData.Unusable(u.proteinId) then None
      else
        var approved := if hgnc.Success? then hgnc.value.approvedSymbol else "";
        var ncbi := if hgnc.Success? then hgnc.value.geneId else "";
        Some(RecordFrom(symbol, approved, ncbi, u, ensemblProteinOf, refseqOf))
  }

  /** As written, a usable UniProt entry is lost whenever the HGNC lookup
      fails; with the fallback the record is kept under the input symbol. */
  lemma UnboundSymbolLosesRecord(symbol: string, e: string, u: FetchData.UniProtData,
                                 ensemblProteinOf: string -> Json,
                                 refseqOf: string -> (Option<string>, Option<string>))
    requires !FetchData.Unusable(u.proteinId) && symbol != ""
    ensures ProteinRecordAsWritten(symbol, Failure(e), Success(u), ensemblProteinOf, refseqOf).None?
    ensures var r := ProteinRecordOf(symbol, Failure(e), Success(u), ensemblProteinOf, refseqOf);
      r.Some? && r.value.proteinSymbol == symbol && r.value.proteinId == u.proteinId
  {
  }

  /** The two agree whenever the HGNC lookup succeeds. */
  lemma AgreeWhenHgncSucceeds(symbol: string, h: FetchData.HgncData, uniprot: Result<FetchData.UniProtData>,
                              ensemblProteinOf: string -> Json,
                              refseqOf: string -> (Option<string>, Option<string>))
    ensures ProteinRecordOf(symbol, Success(h), uniprot, ensemblProteinOf, refseqOf)
         == ProteinRecordAsWritten(symbol, Success(h), uniprot, ensemblProteinOf, refseqOf)
  {
  }

  /** The record's fields: the UniProt id as both ids, the Ensembl protein id
      or "", the RefSeq protein id or "" (looked up only for a usable NCBI
      id), the approved symbol or the input, the aliases as JSON and the
      UniProt name. */
  lemma ProteinRecordShape(symbol: string, hgnc: Result<FetchData.HgncData>, u: FetchData.UniProtData,
                           ensemblProteinOf: string -> Json,
                           refseqOf: string -> (Option<string>, Option<string>))
    requires !FetchData.Unusable(u.proteinId)
    ensures var r := ProteinRecordOf(symbol, hgnc, Success(u), ensemblProteinOf, refseqOf).value;
      var ncbi := if hgnc.Success? then hgnc.value.geneId else "";
      var approved := if hgnc.Success? then hgnc.value.approvedSymbol else "";
      && r.proteinId == u.proteinId && r.uniprotProteinId == u.proteinId
      && (Truthy(ensemblProteinOf(u.proteinId)) ==> r.ensemblProteinId == ensemblProteinOf(u.proteinId))
      && (!Truthy(ensemblProteinOf(u.proteinId)) ==> r.ensemblProteinId == JStr(""))
      && (FetchData.Unusable(ncbi) ==> r.refseqProteinId == "")
      && (!FetchData.Unusable(ncbi) ==> r.refseqProteinId == refseqOf(ncbi).1.GetOr(""))
      && r.proteinSymbol == (if approved != "" then approved else symbol)
      && r.proteinSymbolAliases == DumpStrings(u.aliases)
      && r.proteinName == u.proteinName
  {
    GeneMaster.AliasesJsonIsDump(u.aliases);
  }

  /** Without a usable NCBI id the RefSeq lookup is never consulted: any two
      lookups give the same record. */
  lemma RefseqOnlyWithNcbiId(symbol: string, hgnc: Result<FetchData.HgncData>, uniprot: Result<FetchData.UniProtData>,
                             ensemblProteinOf: string -> Json,
                             refseqOf: string -> (Option<string>, Option<string>),
                             refseqOf': string -> (Option<string>, Option<string>))
    requires hgnc.Failure? || FetchData.Unusable(hgnc.value.geneId)
    ensures ProteinRecordOf(symbol, hgnc, uniprot, ensemblProteinOf, refseqOf)
         == ProteinRecordOf(symbol, hgnc, uniprot, ensemblProteinOf, refseqOf')
  {
  }
}
