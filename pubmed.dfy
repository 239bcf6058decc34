/** The PubMed client: a filtered search that returns PMIDs, and a batched
    fetch that turns MEDLINE records into paper dicts. The Entrez services
    are parameters: `esearch` answers a term and a result limit with the
    `IdList` of its reply (`None` when the reply has none) or the message of
    the exception it raised; `efetch` answers one batch of PMIDs with the
    parsed MEDLINE records or an exception message. */
module PubMed {
  import opened Wrappers
  import Text

  /** A parsed MEDLINE record: the fields the fetch reads, `None` when absent. */
  datatype MedlineRecord = MedlineRecord(
    pmid: Option<string>,
    title: Option<string>,
    abstractText: Option<string>,
    date: Option<string>,
    journal: Option<string>,
    meshTerms: Option<seq<string>>)

  /** A paper dict as the fetch builds it, or the single `{"error": ...}`
      dict it returns instead of the papers when anything raised. */
  datatype Paper =
    | Paper(pmid: string, title: string, abstractText: string, year: Option<string>,
            journal: string, meshTerms: seq<string>)
    | ErrorRecord(error: string)

  // ---- search ----

  /** The filters appended to the parenthesised query. */
  function Filters(excludeReviews: bool, freeFullTextOnly: bool): string {
    (if excludeReviews then " NOT Review[Publication Type]" else "")
    + (if freeFullTextOnly then " AND free full text[Filter]" else "")
  }

  /** The filter suffix tells which filters were asked for. */
  lemma FiltersDetermineFlags(a: bool, b: bool, c: bool, d: bool)
    requires Filters(a, b) == Filters(c, d)
    ensures a == c && b == d
  {
    assert |Filters(a, b)| == (if a then 29 else 0) + (if b then 27 else 0);
    assert |Filters(c, d)| == (if c then 29 else 0) + (if d then 27 else 0);
  }

  /** Lines 54-60: the search term, built by appending to `(query)`. */
  method BuildSearchTerm(query: string, excludeReviews: bool, freeFullTextOnly: bool) returns (term: string)
    ensures Text.StartsWith(term, "(" + query + ")")
    ensures term[|query| + 2..] == Filters(excludeReviews, freeFullTextOnly)
  {
    term := "(" + query + ")";
    if excludeReviews {
      term := term + " NOT Review[Publication Type]";
    }
    if freeFullTextOnly {
      term := term + " AND free full text[Filter]";
    }
  }

  const SearchErrorPrefix := "Error searching PubMed: "

  /** What `search` returns: the `IdList` of the reply (empty when it has
      none), or a one-element list carrying the error message. */
  function SearchSpec(query: string, maxResults: int, excludeReviews: bool, freeFullTextOnly: bool,
                      esearch: (string, int) -> Result<Option<seq<string>>>): seq<string>
  {
    match esearch("(" + query + ")" + Filters(excludeReviews, freeFullTextOnly), maxResults)
    case Failure(e) => [SearchErrorPrefix + e]
    case Success(ids) => ids.GetOr([])
  }

  method Search(query: string, maxResults: int, excludeReviews: bool, freeFullTextOnly: bool,
                esearch: (string, int) -> Result<Option<seq<string>>>) returns (pmids: seq<string>)
    ensures pmids == SearchSpec(query, maxResults, excludeReviews, freeFullTextOnly, esearch)
    ensures esearch("(" + query + ")" + Filters(excludeReviews, freeFullTextOnly), maxResults).Failure? ==>
      |pmids| == 1 && Text.StartsWith(pmids[0], "Error searching PubMed:")
  {
    var term := BuildSearchTerm(query, excludeReviews, freeFullTextOnly);
    assert term == term[..|query| + 2] + term[|query| + 2..];
    var reply := esearch(term, maxResults);
    if reply.Failure? {
      pmids := [SearchErrorPrefix + reply.error];
      assert pmids[0][..|"Error searching PubMed:"|] == "Error searching PubMed:";
    } else {
      pmids := reply.value.GetOr([]);
    }
  }

  // ---- PMID normalisation ----

  /** One element of a list handed to `fetch`: a string, an int, or a falsy
      `None`. */
  datatype PmidItem = StrId(s: string) | IntId(n: int) | NoId

  /** `fetch` accepts either a newline-separated string or a list. */
  datatype PmidInput = PmidText(text: string) | PmidItems(items: seq<PmidItem>)

  /** `[p.strip() for p in lines if p.strip()]`. */
  function StrippedNonBlank(lines: seq<string>): (ids: seq<string>)
    ensures forall k | 0 <= k < |ids| :: ids[k] != [] && Text.Trimmed(ids[k])
    ensures |ids| <= |lines|
  {
    if lines == [] then []
    else
      var p := Text.Strip(lines[0]);
      var rest := StrippedNonBlank(lines[1..]);
      Text.StripEnds(lines[0]);
      if p == [] then rest
      else
        CleanPiecesCons(p, rest);
        [p] + rest
  }

  lemma CleanPiecesCons(p: string, rest: seq<string>)
    requires p != [] && Text.Trimmed(p)
    requires forall k | 0 <= k < |rest| :: rest[k] != [] && Text.Trimmed(rest[k])
    ensures forall k | 0 <= k < |[p] + rest| :: ([p] + rest)[k] != [] && Text.Trimmed(([p] + rest)[k])
  {
  }

  /** The PMIDs in a newline-separated string: its stripped non-blank lines. */
  function ParsePmidText(text: string): (ids: seq<string>)
    ensures forall k | 0 <= k < |ids| :: ids[k] != [] && '\n' !in ids[k]
  {
    var ids := StrippedNonBlank(Text.Split(text, '\n'));
    assert forall k | 0 <= k < |ids| :: '\n' !in ids[k] by {
      NoNewlineSurvives(Text.Split(text, '\n'));
    }
    ids
  }

  lemma {:induction false} NoNewlineSurvives(lines: seq<string>)
    requires forall k | 0 <= k < |lines| :: '\n' !in lines[k]
    ensures forall k | 0 <= k < |StrippedNonBlank(lines)| :: '\n' !in StrippedNonBlank(lines)[k]
  {
    if lines != [] {
      forall k | 0 <= k < |lines| - 1
        ensures '\n' !in lines[1..][k]
      {
        assert lines[1..][k] == lines[k + 1];
      }
      NoNewlineSurvives(lines[1..]);
      StripKeepsNoNewline(lines[0]);
      var p := Text.Strip(lines[0]);
      var rest := StrippedNonBlank(lines[1..]);
      assert StrippedNonBlank(lines) == if p == [] then rest else [p] + rest;
    }
  }

  lemma StripKeepsNoNewline(line: string)
    requires '\n' !in line
    ensures '\n' !in Text.Strip(line)
  {
    var p := Text.Strip(line);
    Text.StripSlice(line);
    var i := |line| - |Text.TrimLeft(line)|;
    forall j | 0 <= j < |p|
      ensures p[j] != '\n'
    {
      assert p[j] == line[i + j];
    }
  }

  /** A list of PMIDs that are already clean survives being written one per
      line and parsed back. */
  lemma {:induction false} PmidTextRoundTrip(ids: seq<string>)
    requires |ids| >= 1
    requires forall k | 0 <= k < |ids| :: ids[k] != [] && '\n' !in ids[k] && Text.Trimmed(ids[k])
    ensures ParsePmidText(Text.Join("\n", ids)) == ids
  {
    Text.JoinSplit(ids, '\n');
    KeepClean(ids);
  }

  lemma {:induction false} KeepClean(ids: seq<string>)
    requires forall k | 0 <= k < |ids| :: ids[k] != [] && Text.Trimmed(ids[k])
    ensures StrippedNonBlank(ids) == ids
  {
    if ids != [] {
      var x := ids[0];
      var tail := ids[1..];
      CleanPiecesTail(ids);
      KeepClean(tail);
      Text.NoSpaceStrip(x);
      StrippedNonBlankCons(ids);
      assert ids == [x] + tail;
    }
  }

  lemma CleanPiecesTail(ids: seq<string>)
    requires ids != []
    requires forall k | 0 <= k < |ids| :: ids[k] != [] && Text.Trimmed(ids[k])
    ensures forall k | 0 <= k < |ids| - 1 :: ids[1..][k] != [] && Text.Trimmed(ids[1..][k])
  {
    forall k | 0 <= k < |ids| - 1
      ensures ids[1..][k] != [] && Text.Trimmed(ids[1..][k])
    {
      assert ids[1..][k] == ids[k + 1];
    }
  }

  /** The first line's contribution followed by the rest's. */
  lemma StrippedNonBlankCons(lines: seq<string>)
    requires lines != []
    ensures var p := Text.Strip(lines[0]);
      StrippedNonBlank(lines) == (if p == [] then [] else [p]) + StrippedNonBlank(lines[1..])
  {
  }

  /** `str(p)` for a list element. */
  function ItemText(p: PmidItem): string
    requires !p.NoId?
  {
    match p
    case StrId(s) => s
    case IntId(n) => Text.IntToString(n)
  }

  /** `bool(p)` for a list element. */
  predicate ItemTruthy(p: PmidItem) {
    match p
    case StrId(s) => s != []
    case IntId(n) => n != 0
    case NoId => false
  }

  /** `[str(p) for p in items if p]`. */
  function ItemIds(items: seq<PmidItem>): (ids: seq<string>)
    ensures |ids| <= |items|
    ensures forall k | 0 <= k < |ids| :: ids[k] != []
  {
    if items == [] then []
    else
      (if ItemTruthy(items[0]) then [ItemText(items[0])] else []) + ItemIds(items[1..])
  }

  /** Lines 93-96: the PMID list, whatever form it was given in. */
  function NormalisePmids(input: PmidInput): (ids: seq<string>)
    ensures forall k | 0 <= k < |ids| :: ids[k] != []
  {
    match input
    case PmidText(text) => ParsePmidText(text)
    case PmidItems(items) => ItemIds(items)
  }

  /** Strings that are already PMIDs pass through unchanged. */
  lemma {:induction false} ItemIdsOfStrings(ids: seq<string>)
    requires forall k | 0 <= k < |ids| :: ids[k] != []
    ensures ItemIds(seq(|ids|, k requires 0 <= k < |ids| => StrId(ids[k]))) == ids
  {
    if ids != [] {
      var items := seq(|ids|, k requires 0 <= k < |ids| => StrId(ids[k]));
      ItemIdsOfStrings(ids[1..]);
      assert items[1..] == seq(|ids[1..]|, k requires 0 <= k < |ids[1..]| => StrId(ids[1..][k]));
      assert [ids[0]] + ids[1..] == ids;
    }
  }

  // ---- batching ----

  const BatchSize: nat := 200

  /** `ids[i:i + 200]` for `i` in `range(0, len(ids), 200)`. */
  function Batches(ids: seq<string>): (bs: seq<seq<string>>)
    ensures forall k | 0 <= k < |bs| :: 1 <= |bs[k]| <= BatchSize
    decreases |ids|
  {
    if ids == [] then []
    else if |ids| <= BatchSize then [ids]
    else [ids[..BatchSize]] + Batches(ids[BatchSize..])
  }

  function Flatten<T>(bs: seq<seq<T>>): seq<T> {
    if bs == [] then [] else bs[0] + Flatten(bs[1..])
  }

  /** The batches cover the list, in order, without overlap. */
  lemma {:induction false} BatchesFlatten(ids: seq<string>)
    ensures Flatten(Batches(ids)) == ids
    decreases |ids|
  {
    if |ids| > BatchSize {
      BatchesFlatten(ids[BatchSize..]);
      assert ids[..BatchSize] + ids[BatchSize..] == ids;
    }
  }

  /** Batch `k` is the slice starting at `200 * k`, and there are as many
      batches as 200-element slices needed. */
  lemma {:induction false} BatchAt(ids: seq<string>, k: nat)
    requires k < |Batches(ids)|
    ensures 200 * k < |ids|
    ensures Batches(ids)[k] == ids[200 * k..if 200 * k + 200 <= |ids| then 200 * k + 200 else |ids|]
    decreases |ids|
  {
    if k > 0 {
      BatchAt(ids[BatchSize..], k - 1);
      assert ids[BatchSize..][200 * (k - 1)..] == ids[200 * k..];
    }
  }

  lemma {:induction false} BatchCount(ids: seq<string>)
    ensures |Batches(ids)| == (|ids| + 199) / 200
    decreases |ids|
  {
    if |ids| > BatchSize {
      BatchCount(ids[BatchSize..]);
    }
  }

  // ---- record conversion ----

  /** `record.get("DP", "").split()[0] if record.get("DP") else None`:
      `None` for a missing or empty date, otherwise its first word; a date of
      only whitespace has no first word and indexing raises. */
  function Year(date: Option<string>): (r: Result<Option<string>>)
    ensures r == Success(None) <==> date.None? || date == Some("")
    ensures r.Failure? <==> date.Some? && date.value != [] && Text.FirstWord(date.value).None?
    ensures r.Success? && r.value.Some? ==>
      r.value.value != [] && Text.NoSpace(r.value.value) && Text.StartsWith(Text.TrimLeft(date.value), r.value.value)
  {
    match date
    case None => Success(None)
    case Some(d) =>
      if d == [] then Success(None)
      else match Text.FirstWord(d)
        case None => Failure("list index out of range")
        case Some(w) => Success(Some(w))
  }

  function ToPaper(rec: MedlineRecord): (r: Result<Paper>)
    ensures r.Success? ==> r.value.Paper?
  {
    match Year(rec.date)
    case Failure(e) => Failure(e)
    case Success(year) =>
      Success(Paper(rec.pmid.GetOr(""), rec.title.GetOr(""), rec.abstractText.GetOr(""), year,
                    rec.journal.GetOr(""), rec.meshTerms.GetOr([])))
  }

  /** The papers of one batch's records, in order; the first record that
      raises ends the fetch. */
  function ConvertAll(recs: seq<MedlineRecord>): (r: Result<seq<Paper>>)
    ensures r.Success? ==> |r.value| == |recs|
  {
    if recs == [] then Success([])
    else
      match ToPaper(recs[0])
      case Failure(e) => Failure(e)
      case Success(p) =>
        match ConvertAll(recs[1..])
        case Failure(e) => Failure(e)
        case Success(ps) => Success([p] + ps)
  }

  /** Papers gathered so far, followed by the outcome of the rest. */
  function Then(acc: seq<Paper>, r: Result<seq<Paper>>): Result<seq<Paper>> {
    match r
    case Failure(e) => Failure(e)
    case Success(ps) => Success(acc + ps)
  }

  lemma ThenThen(a: seq<Paper>, b: seq<Paper>, r: Result<seq<Paper>>)
    ensures Then(a, Then(b, r)) == Then(a + b, r)
  {
    if r.Success? {
      assert a + (b + r.value) == a + b + r.value;
    }
  }

  /** The batches fetched in order, each batch's records converted in order;
      the first exception ends everything. */
  function FetchedFrom(bs: seq<seq<string>>, efetch: seq<string> -> Result<seq<MedlineRecord>>): Result<seq<Paper>> {
    if bs == [] then Success([])
    else
      match efetch(bs[0])
      case Failure(e) => Failure(e)
      case Success(recs) =>
        match ConvertAll(recs)
        case Failure(e) => Failure(e)
        case Success(ps) => Then(ps, FetchedFrom(bs[1..], efetch))
  }

  lemma BatchesUnfold(ids: seq<string>, i: nat, end: nat)
    requires i < |ids| && end == if i + BatchSize <= |ids| then i + BatchSize else |ids|
    ensures Batches(ids[i..]) == [ids[i..end]] + Batches(ids[end..])
  {
    var t := ids[i..];
    if |t| <= BatchSize {
      assert ids[i..end] == t && ids[end..] == [];
    } else {
      assert t[..BatchSize] == ids[i..end] && t[BatchSize..] == ids[end..];
    }
  }

  /** Lines 101-131: the batch loop and the per-record loop inside it. */
  method FetchBatches(ids: seq<string>, efetch: seq<string> -> Result<seq<MedlineRecord>>)
    returns (r: Result<seq<Paper>>)
    ensures r == FetchedFrom(Batches(ids), efetch)
  {
    var papers: seq<Paper> := [];
    var i := 0;
    assert ids[i..] == ids;
    ghost var all := FetchedFrom(Batches(ids), efetch);
    assert all.Success? ==> [] + all.value == all.value;
    while i < |ids|
      invariant 0 <= i <= |ids|
      invariant Then(papers, FetchedFrom(Batches(ids[i..]), efetch)) == FetchedFrom(Batches(ids), efetch)
    {
      var end := if i + BatchSize <= |ids| then i + BatchSize else |ids|;
      var batch := ids[i..end];
      BatchesUnfold(ids, i, end);
      var fetched := efetch(batch);
      if fetched.Failure? {
        assert FetchedFrom(Batches(ids[i..]), efetch) == Failure(fetched.error);
        return Failure(fetched.error);
      }
      var recs := fetched.value;
      ghost var before := papers;
      var j := 0;
      assert recs[j..] == recs;
      while j < |recs|
        invariant 0 <= j <= |recs|
        invariant Then(before, ConvertAll(recs)) == Then(papers, ConvertAll(recs[j..]))
      {
        var paper := ToPaper(recs[j]);
        if paper.Failure? {
          assert ConvertAll(recs[j..]) == Failure(paper.error);
          assert FetchedFrom(Batches(ids[i..]), efetch) == Failure(paper.error);
          return Failure(paper.error);
        }
        assert recs[j..][1..] == recs[j + 1..];
        ThenThen(papers, [paper.value], ConvertAll(recs[j + 1..]));
        papers := papers + [paper.value];
        j := j + 1;
      }
      assert recs[j..] == [];
      ghost var converted := ConvertAll(recs);
      assert papers + [] == papers;
      assert Then(before, converted) == Success(papers);
      assert converted.Success? && before + converted.value == papers;
      assert FetchedFrom(Batches(ids[i..]), efetch) == Then(converted.value, FetchedFrom(Batches(ids[end..]), efetch));
      ThenThen(before, ConvertAll(recs).value, FetchedFrom(Batches(ids[end..]), efetch));
      i := end;
    }
    assert ids[i..] == [];
    assert papers + [] == papers;
    r := Success(papers);
  }

  const FetchErrorPrefix := "Error fetching abstracts: "

  /** What `fetch` returns for its input. */
  function FetchSpec(input: PmidInput, efetch: seq<string> -> Result<seq<MedlineRecord>>): seq<Paper> {
    var ids := NormalisePmids(input);
    if ids == [] then []
    else match FetchedFrom(Batches(ids), efetch)
      case Failure(e) => [ErrorRecord(FetchErrorPrefix + e)]
      case Success(ps) => ps
  }

  method Fetch(input: PmidInput, efetch: seq<string> -> Result<seq<MedlineRecord>>) returns (papers: seq<Paper>)
    ensures papers == FetchSpec(input, efetch)
    ensures NormalisePmids(input) == [] ==> papers == []
    ensures (exists k | 0 <= k < |papers| :: papers[k].ErrorRecord?) ==> |papers| == 1
  {
    var ids := NormalisePmids(input);
    if ids == [] {
      return [];
    }
    var r := FetchBatches(ids, efetch);
    if r.Failure? {
      papers := [ErrorRecord(FetchErrorPrefix + r.error)];
    } else {
      papers := r.value;
      FetchedPapersOnly(Batches(ids), efetch);
    }
  }

  lemma {:induction false} ConvertedPapersOnly(recs: seq<MedlineRecord>)
    ensures ConvertAll(recs).Success? ==> forall k | 0 <= k < |ConvertAll(recs).value| :: ConvertAll(recs).value[k].Paper?
  {
    if recs != [] {
      ConvertedPapersOnly(recs[1..]);
    }
  }

  /** A fetch that succeeds yields paper dicts only. */
  lemma {:induction false} FetchedPapersOnly(bs: seq<seq<string>>, efetch: seq<string> -> Result<seq<MedlineRecord>>)
    ensures FetchedFrom(bs, efetch).Success? ==>
      forall k | 0 <= k < |FetchedFrom(bs, efetch).value| :: FetchedFrom(bs, efetch).value[k].Paper?
  {
    if bs != [] {
      FetchedPapersOnly(bs[1..], efetch);
      if efetch(bs[0]).Success? {
        ConvertedPapersOnly(efetch(bs[0]).value);
      }
    }
  }

  /** When every batch comes back as one record with a readable date per requested
      PMID, the papers carry exactly the requested PMIDs, in order. */
  lemma {:induction false} FetchedPmidsInOrder(bs: seq<seq<string>>, efetch: seq<string> -> Result<seq<MedlineRecord>>)
    requires forall k | 0 <= k < |bs| :: efetch(bs[k]).Success? && |efetch(bs[k]).value| == |bs[k]|
    requires forall k, j | 0 <= k < |bs| && 0 <= j < |bs[k]| ::
      efetch(bs[k]).value[j].pmid == Some(bs[k][j]) && Year(efetch(bs[k]).value[j].date).Success?
    ensures FetchedFrom(bs, efetch).Success?
    ensures var ps := FetchedFrom(bs, efetch).value;
      |ps| == |Flatten(bs)| && forall k | 0 <= k < |ps| :: ps[k].Paper? && ps[k].pmid == Flatten(bs)[k]
  {
    if bs != [] {
      FetchedPmidsInOrder(bs[1..], efetch);
      ConvertPmids(efetch(bs[0]).value, bs[0]);
    }
  }

  lemma {:induction false} ConvertPmids(recs: seq<MedlineRecord>, ids: seq<string>)
    requires |recs| == |ids|
    requires forall j | 0 <= j < |ids| :: recs[j].pmid == Some(ids[j]) && Year(recs[j].date).Success?
    ensures ConvertAll(recs).Success?
    ensures forall k | 0 <= k < |ids| :: ConvertAll(recs).value[k].Paper? && ConvertAll(recs).value[k].pmid == ids[k]
  {
    if recs != [] {
      ConvertPmids(recs[1..], ids[1..]);
    }
  }

  /** `search_and_fetch`: a search error is passed on as an error record
      without fetching; otherwise the PMIDs are fetched. */
  method SearchAndFetch(query: string, maxResults: int, excludeReviews: bool, freeFullTextOnly: bool,
                        esearch: (string, int) -> Result<Option<seq<string>>>,
                        efetch: seq<string> -> Result<seq<MedlineRecord>>) returns (papers: seq<Paper>)
    ensures var pmids := SearchSpec(query, maxResults, excludeReviews, freeFullTextOnly, esearch);
      papers == if pmids != [] && Text.StartsWith(pmids[0], "Error") then [ErrorRecord(pmids[0])]
                else FetchSpec(PmidItems(seq(|pmids|, k requires 0 <= k < |pmids| => StrId(pmids[k]))), efetch)
    ensures esearch("(" + query + ")" + Filters(excludeReviews, freeFullTextOnly), maxResults).Failure? ==>
      |papers| == 1 && papers[0].ErrorRecord?
  {
    var pmids := Search(query, maxResults, excludeReviews, freeFullTextOnly, esearch);
    if pmids != [] && Text.StartsWith(pmids[0], "Error") {
      return [ErrorRecord(pmids[0])];
    }
    papers := Fetch(PmidItems(seq(|pmids|, k requires 0 <= k < |pmids| => StrId(pmids[k]))), efetch);
  }
}
