/** The mapping records `fetch_comprehensive_gene_transcript_protein_data`
    (utils/gene_transcript_protein.py) builds for the gene_transcript_protein
    table. The HGNC and UniProt lookups are their outcomes (the tuple
    returned, or the exception raised); the Ensembl transcript, RefSeq
    transcript and Ensembl protein lookups, which catch their own errors,
    are functions of the id they are asked about. */
module GeneTranscriptProtein {
  import opened Wrappers
  import opened PyJson
  import FetchData
  import GeneMaster

  /** A gene_transcript_protein row. */
  datatype MappingRecord = MappingRecord(
    hgncGeneId: string,
    ensemblGeneId: string,
    geneSymbol: string,
    ensemblTranscriptId: Option<string>,
    refseqTranscriptId: Option<string>,
    uniprotProteinId: Option<string>,
    ensemblProteinId: Json,
    proteinSymbol: Option<string>)

  /** What every record of one gene shares (lines 82-134). */
  datatype GeneContext = GeneContext(
    hgncGeneId: string,
    ensemblGeneId: string,
    geneSymbol: string,
    refseqTranscriptId: Option<string>,
    uniprotProteinId: Option<string>,
    ensemblProteinId: Json,
    proteinSymbol: Option<string>)

  /** The lookups the function makes besides HGNC. */
  datatype Lookups = Lookups(
    transcriptsOf: string -> seq<FetchData.Transcript>,
    refseqTranscriptsOf: string -> seq<string>,
    uniprot: Result<FetchData.UniProtData>,
    ensemblProteinOf: string -> Json)

  /** The UniProt id when the lookup succeeded with a usable id (lines 115-124). */
  function UniprotId(uniprot: Result<FetchData.UniProtData>): Option<string> {
    if uniprot.Success? && !FetchData.Unusable(uniprot.value.proteinId) then Some(uniprot.value.proteinId) else None
  }

  /** The RefSeq transcripts, asked for only with a usable NCBI id (lines 104-112). */
  function RefseqTranscripts(ncbi: string, lookups: Lookups): seq<string> {
    if FetchData.Unusable(ncbi) then [] else lookups.refseqTranscriptsOf(ncbi)
  }

  function Context(symbol: string, h: FetchData.HgncData, lookups: Lookups): GeneContext {
    var uniprotId := UniprotId(lookups.uniprot);
    var refseq := RefseqTranscripts(h.geneId, lookups);
    GeneContext(h.hgncId, h.ensemblGeneId, GeneMaster.Or(h.approvedSymbol, symbol),
                if refseq != [] then Some(refseq[0]) else None,
                uniprotId,
                if uniprotId.Some? then lookups.ensemblProteinOf(uniprotId.value) else JNull,
                if uniprotId.Some? then Some(symbol) else None)
  }

  /** The record for one Ensembl transcript (lines 141-165): its own
      translation id when that is truthy, else the gene-level protein id. */
  function TranscriptRecord(c: GeneContext, t: FetchData.Transcript): MappingRecord {
    var translation := t.translationId;
    MappingRecord(c.hgncGeneId, c.ensemblGeneId, c.geneSymbol, Some(t.transcriptId), c.refseqTranscriptId,
                  c.uniprotProteinId,
                  if translation.Some? && translation.value != "" then JStr(translation.value) else c.ensemblProteinId,
                  c.proteinSymbol)
  }

  /** The loop over the transcripts, in order. */
  function TranscriptRecords(c: GeneContext, ts: seq<FetchData.Transcript>): (r: seq<MappingRecord>)
    ensures |r| == |ts|
    ensures forall i | 0 <= i < |ts| :: r[i] == TranscriptRecord(c, ts[i])
  {
    if ts == [] then [] else TranscriptRecords(c, ts[..|ts| - 1]) + [TranscriptRecord(c, ts[|ts| - 1])]
  }

  /** The single record made when there is no transcript (lines 166-178). */
  function GeneOnlyRecord(c: GeneContext): MappingRecord {
    MappingRecord(c.hgncGeneId, c.ensemblGeneId, c.geneSymbol, None, c.refseqTranscriptId,
                  c.uniprotProteinId, c.ensemblProteinId, c.proteinSymbol)
  }

  /** `fetch_comprehensive_gene_transcript_protein_data(gene_symbol)`:
      [] when the HGNC lookup raises or its Ensembl id is missing or "N/A". */
  function MappingRecords(symbol: string, hgnc: Result<FetchData.HgncData>, lookups: Lookups): seq<MappingRecord> {
    match hgnc
    case Failure(_) => []
    case Success(h) =>
      if FetchData.Unusable(h.ensemblGeneId) then []
      else
        var c := Context(symbol, h, lookups);
        var ts := lookups.transcriptsOf(h.ensemblGeneId);
        if ts != [] then TranscriptRecords(c, ts) else [GeneOnlyRecord(c)]
  }

  /** Lines 69-185, with the record loop of lines 137-178. */
  method FetchMappingRecords(symbol: string, hgnc: Result<FetchData.HgncData>, lookups: Lookups)
    returns (records: seq<MappingRecord>)
    ensures records == MappingRecords(symbol, hgnc, lookups)
  {
    if hgnc.Failure? {
      return [];
    }
    var h := hgnc.value;
    if h.ensemblGeneId == "" || h.ensemblGeneId == FetchData.NA {
      return [];
    }
    var transcripts := lookups.transcriptsOf(h.ensemblGeneId);
    var refseq: seq<string> := [];
    if h.geneId != "" && h.geneId != FetchData.NA {
      refseq := lookups.refseqTranscriptsOf(h.geneId);
    }
    var uniprotId: Option<string> := None;
    var proteinSymbol: Option<string> := None;
    if lookups.uniprot.Success? {
      var id := lookups.uniprot.value.proteinId;
      if id != "" && id != FetchData.NA {
        uniprotId := Some(id);
        proteinSymbol := Some(symbol);
      }
    }
    var ensemblProtein := JNull;
    if uniprotId.Some? {
      ensemblProtein := lookups.ensemblProteinOf(uniprotId.value);
    }
    var c := GeneContext(h.hgncId, h.ensemblGeneId, GeneMaster.Or(h.approvedSymbol, symbol),
                         if refseq != [] then Some(refseq[0]) else None,
                         uniprotId, ensemblProtein, proteinSymbol);
    assert c == Context(symbol, h, lookups);
    if transcripts == [] {
      return [GeneOnlyRecord(c)];
    }
    records := BuildTranscriptRecords(c, transcripts);
  }

  /** The loop of lines 141-165, appending one record per transcript. */
  method BuildTranscriptRecords(c: GeneContext, transcripts: seq<FetchData.Transcript>) returns (records: seq<MappingRecord>)
    ensures records == TranscriptRecords(c, transcripts)
  {
    records := [];
    var i := 0;
    while i < |transcripts|
      invariant 0 <= i <= |transcripts|
      invariant records == TranscriptRecords(c, transcripts[..i])
    {
      var t := transcripts[i];
      var proteinId := if t.translationId.Some? && t.translationId.value != "" then JStr(t.translationId.value)
                       else c.ensemblProteinId;
      records := records + [MappingRecord(c.hgncGeneId, c.ensemblGeneId, c.geneSymbol, Some(t.transcriptId),
                                          c.refseqTranscriptId, c.uniprotProteinId, proteinId, c.proteinSymbol)];
      assert transcripts[..i + 1][..i] == transcripts[..i];
      i := i + 1;
    }
    assert transcripts[..i] == transcripts;
  }

  /** A failed HGNC lookup, or one without a usable Ensembl id, yields no
      record; otherwise there is one record per Ensembl transcript, in
      order, or exactly one record without a transcript when there is none. */
  lemma RecordCount(symbol: string, hgnc: Result<FetchData.HgncData>, lookups: Lookups)
    ensures var r := MappingRecords(symbol, hgnc, lookups);
      && (hgnc.Failure? || FetchData.Unusable(hgnc.value.ensemblGeneId) ==> r == [])
      && (hgnc.Success? && !FetchData.Unusable(hgnc.value.ensemblGeneId) ==>
            var ts := lookups.transcriptsOf(hgnc.value.ensemblGeneId);
            && (ts != [] ==> |r| == |ts| && forall i | 0 <= i < |ts| :: r[i].ensemblTranscriptId == Some(ts[i].transcriptId))
            && (ts == [] ==> |r| == 1 && r[0].ensemblTranscriptId.None?))
  {
  }

  /** Every record carries the gene's HGNC id, Ensembl id and symbol (the
      approved symbol, or the input when that is empty), the first RefSeq
      transcript (None when there is none or no usable NCBI id), and the
      UniProt id and protein symbol, which are present together exactly
      when UniProt gave a usable id. */
  lemma SharedFields(symbol: string, h: FetchData.HgncData, lookups: Lookups)
    requires !FetchData.Unusable(h.ensemblGeneId)
    ensures var rs := MappingRecords(symbol, Success(h), lookups);
      var refseq := RefseqTranscripts(h.geneId, lookups);
      forall i | 0 <= i < |rs| ::
        && rs[i].hgncGeneId == h.hgncId && rs[i].ensemblGeneId == h.ensemblGeneId
        && rs[i].geneSymbol == (if h.approvedSymbol != "" then h.approvedSymbol else symbol)
        && rs[i].refseqTranscriptId == (if refseq == [] then None else Some(refseq[0]))
        && (rs[i].proteinSymbol == Some(symbol) <==>
              lookups.uniprot.Success? && !FetchData.Unusable(lookups.uniprot.value.proteinId))
        && (rs[i].proteinSymbol.Some? <==> rs[i].uniprotProteinId.Some?)
  {
  }

  /** A transcript's protein id is its own translation id when that is
      truthy, else the gene-level Ensembl protein id, which is `None`
      unless UniProt gave a usable id. */
  lemma ProteinIdChoice(symbol: string, h: FetchData.HgncData, lookups: Lookups)
    requires !FetchData.Unusable(h.ensemblGeneId)
    ensures var rs := MappingRecords(symbol, Success(h), lookups);
      var ts := lookups.transcriptsOf(h.ensemblGeneId);
      var geneLevel := Context(symbol, h, lookups).ensemblProteinId;
      && (UniprotId(lookups.uniprot).None? ==> geneLevel == JNull)
      && (ts != [] ==> forall i | 0 <= i < |ts| ::
            rs[i].ensemblProteinId ==
              if ts[i].translationId.Some? && ts[i].translationId.value != "" then JStr(ts[i].translationId.value)
              else geneLevel)
      && (ts == [] ==> rs[0].ensemblProteinId == geneLevel)
  {
  }

  /** The transcripts `fetch_ensembl_transcript_data` returns never carry a
      translation id, so with them every record holds the gene-level
      Ensembl protein id. */
  lemma {:induction false} EnsemblTranscriptsUseGeneLevelId(symbol: string, h: FetchData.HgncData, lookups: Lookups,
                                                            reply: Result<FetchData.OverlapReply>)
    requires !FetchData.Unusable(h.ensemblGeneId)
    requires lookups.transcriptsOf(h.ensemblGeneId) == FetchData.EnsemblTranscripts(h.ensemblGeneId, reply)
    ensures var rs := MappingRecords(symbol, Success(h), lookups);
      forall i | 0 <= i < |rs| :: rs[i].ensemblProteinId == Context(symbol, h, lookups).ensemblProteinId
  {
    var ts := lookups.transcriptsOf(h.ensemblGeneId);
    if ts != [] {
      FetchData.TranscriptsAreEnst(reply.value.body.value.items);
      assert forall i | 0 <= i < |ts| :: ts[i] in ts;
    }
    ProteinIdChoice(symbol, h, lookups);
  }

  /** The Ensembl protein lookup is consulted only for a usable UniProt id,
      and the RefSeq lookup only for a usable NCBI id. */
  lemma LookupsOnlyWhenNeeded(symbol: string, hgnc: Result<FetchData.HgncData>, lookups: Lookups,
                              ensemblProteinOf': string -> Json, refseqTranscriptsOf': string -> seq<string>)
    ensures UniprotId(lookups.uniprot).None? ==>
      MappingRecords(symbol, hgnc, lookups) == MappingRecords(symbol, hgnc, lookups.(ensemblProteinOf := ensemblProteinOf'))
    ensures hgnc.Success? && FetchData.Unusable(hgnc.value.geneId) ==>
      MappingRecords(symbol, hgnc, lookups) == MappingRecords(symbol, hgnc, lookups.(refseqTranscriptsOf := refseqTranscriptsOf'))
  {
  }
}
