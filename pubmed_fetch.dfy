/** The stand-alone abstract fetcher: the same PMID parsing, 200-PMID
    batching, record conversion and error record as the PubMed client's
    fetch, for a newline-separated string of PMIDs. */
module PubmedFetch {
  import opened Wrappers
  import Text
  import opened PubMed

  /** `fetch_abstracts(pmids)`. */
  method FetchAbstracts(pmids: string, efetch: seq<string> -> Result<seq<MedlineRecord>>) returns (papers: seq<Paper>)
    ensures ParsePmidText(pmids) == [] ==> papers == []
    ensures ParsePmidText(pmids) != [] ==>
      var fetched := FetchedFrom(Batches(ParsePmidText(pmids)), efetch);
      papers == if fetched.Failure? then [ErrorRecord(FetchErrorPrefix + fetched.error)] else fetched.value
    ensures papers == FetchSpec(PmidText(pmids), efetch)
  {
    var ids := ParsePmidText(pmids);
    if ids == [] {
      return [];
    }
    var r := FetchBatches(ids, efetch);
    if r.Failure? {
      papers := [ErrorRecord(FetchErrorPrefix + r.error)];
    } else {
      papers := r.value;
    }
  }

  /** Only blank lines means no request and no papers. */
  lemma {:induction false} BlankInputFetchesNothing(pmids: string)
    requires forall k | 0 <= k < |pmids| :: Text.IsSpace(pmids[k])
    ensures ParsePmidText(pmids) == []
  {
    AllBlank(Text.Split(pmids, '\n'));
  }

  lemma {:induction false} AllBlank(lines: seq<string>)
    requires forall k, j | 0 <= k < |lines| && 0 <= j < |lines[k]| :: Text.IsSpace(lines[k][j])
    ensures StrippedNonBlank(lines) == []
  {
    if lines != [] {
      AllBlank(lines[1..]);
      Text.StripEmpty(lines[0]);
    }
  }
}
