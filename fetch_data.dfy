/** The extraction logic of the database fetchers in utils/fetch_data.py.
    Every HTTP response is an input value: a response body the code reads
    through `.get` with a default is a datatype whose absent keys are `None`
    (or `[]` where the code defaults to an empty list), and one the code
    inspects with `isinstance` stays a `Json` value. A raised exception
    (a failed request, `raise_for_status`, a bad key) is `Failure(str(e))`. */
module FetchData {
  import opened Wrappers
  import Text
  import opened PyJson

  const NA: string := "N/A"

  /** The guard `not x or x == "N/A"` the fetchers and their callers use on ids. */
  predicate Unusable(id: string) {
    id == "" || id == NA
  }

  // ---------------------------------------------------------------------
  // Order-preserving deduplication (`seen` set plus `unique` list)
  // ---------------------------------------------------------------------

  /** `s` without its repeats, each kept at its first occurrence. */
  function Dedup<T(==)>(s: seq<T>): (r: seq<T>)
    ensures |r| <= |s|
  {
    if s == [] then []
    else
      var d := Dedup(s[..|s| - 1]);
      if s[|s| - 1] in d then d else d + [s[|s| - 1]]
  }

  predicate NoDuplicates<T(==)>(s: seq<T>) {
    forall i, j | 0 <= i < j < |s| :: s[i] != s[j]
  }

  /** Deduplication keeps exactly the elements of its input, once each. */
  lemma {:induction false} DedupElements<T>(s: seq<T>)
    ensures NoDuplicates(Dedup(s))
    ensures forall x :: x in Dedup(s) <==> x in s
  {
    if s != [] {
      var init := s[..|s| - 1];
      DedupElements(init);
      assert s == init + [s[|s| - 1]];
    }
  }

  /** First-occurrence order: deduplicating a prefix of the input gives a
      prefix of the deduplicated input. */
  lemma {:induction false} DedupPrefix<T>(s: seq<T>, k: nat)
    requires k <= |s|
    ensures Dedup(s[..k]) <= Dedup(s)
    decreases |s| - k
  {
    if k < |s| {
      DedupPrefix(s, k + 1);
      assert s[..k + 1][..k] == s[..k];
    } else {
      assert s[..k] == s;
    }
  }

  /** The non-empty strings of `s`, in order (`if alias` on each). */
  function NonEmpty(s: seq<string>): (r: seq<string>)
    ensures |r| <= |s|
  {
    if s == [] then []
    else
      var init := NonEmpty(s[..|s| - 1]);
      if s[|s| - 1] == "" then init else init + [s[|s| - 1]]
  }

  lemma {:induction false} NonEmptyElements(s: seq<string>)
    ensures forall x :: x in NonEmpty(s) <==> x in s && x != ""
  {
    if s != [] {
      NonEmptyElements(s[..|s| - 1]);
      assert s == s[..|s| - 1] + [s[|s| - 1]];
    }
  }

  /** One `if alias and alias not in aliases: aliases.append(alias)` step,
      stated on the candidates seen so far. */
  lemma AbsorbStep(seen: seq<string>, c: string)
    ensures var before := Dedup(NonEmpty(seen));
      Dedup(NonEmpty(seen + [c])) == if c != "" && c !in before then before + [c] else before
  {
    assert (seen + [c])[..|seen|] == seen;
    if c != "" {
      assert NonEmpty(seen + [c]) == NonEmpty(seen) + [c];
      assert (NonEmpty(seen) + [c])[..|NonEmpty(seen)|] == NonEmpty(seen);
    }
  }

  // ---------------------------------------------------------------------
  // HGNC (fetch_hgnc_data, lines 16-73)
  // ---------------------------------------------------------------------

  /** `alias_symbol` / `prev_symbol`: a list of symbols or a bare symbol. */
  datatype SymbolField = Single(s: string) | Listed(items: seq<string>)

  /** One entry of `response.docs`. */
  datatype HgncDoc = HgncDoc(
    hgncId: Option<string>,
    entrezId: Option<string>,
    ensemblGeneId: Option<string>,
    symbol: Option<string>,
    name: Option<string>,
    aliasSymbol: Option<SymbolField>,
    prevSymbol: Option<SymbolField>)

  /** The `response` object; `docs` is `None` when the key is absent. */
  datatype HgncBody = HgncBody(numFound: Option<int>, docs: Option<seq<HgncDoc>>)

  /** A decoded reply of `/fetch/<field>/<symbol>`. */
  datatype HgncReply = HgncReply(response: Option<HgncBody>)

  /** `(hgnc_id, gene_id, ensembl_gene_id, approved_symbol, gene_name, gene_aliases)`. */
  datatype HgncData = HgncData(
    hgncId: string,
    geneId: string,
    ensemblGeneId: string,
    approvedSymbol: string,
    geneName: string,
    geneAliases: seq<string>)

  /** `data.get("response", {}).get("numFound", 0)`. */
  function NumFound(d: HgncReply): int {
    if d.response.None? then 0 else d.response.value.numFound.GetOr(0)
  }

  /** What one field adds to `gene_aliases`: nothing when absent or falsy,
      a bare symbol wrapped as a one-element list, a list as it is. */
  function Contribution(f: Option<SymbolField>): (r: seq<string>)
    ensures f.None? ==> r == []
    ensures f.Some? && f.value.Single? ==> r == (if f.value.s == "" then [] else [f.value.s])
    ensures f.Some? && f.value.Listed? ==> r == f.value.items
  {
    if f.None? then []
    else match f.value
      case Single(s) => if s == "" then [] else [s]
      case Listed(items) => items
  }

  /** Lines 67-71: the alias symbols, then the previous symbols. */
  function GeneAliases(doc: HgncDoc): (aliases: seq<string>)
  {
    var aliases := Contribution(doc.aliasSymbol);
    aliases + Contribution(doc.prevSymbol)
  }

  /** The alias entries come first and the previous-symbol entries after
      them; a missing or empty field contributes nothing, and every alias
      is one of the doc's symbols. */
  lemma GeneAliasesShape(doc: HgncDoc)
    ensures var a := GeneAliases(doc);
      && a[..|Contribution(doc.aliasSymbol)|] == Contribution(doc.aliasSymbol)
      && a[|Contribution(doc.aliasSymbol)|..] == Contribution(doc.prevSymbol)
      && |a| == |Contribution(doc.aliasSymbol)| + |Contribution(doc.prevSymbol)|
      && (forall x | x in a :: x in Contribution(doc.aliasSymbol) || x in Contribution(doc.prevSymbol))
  {
  }

  /** A field holding the empty string or the empty list adds no alias. */
  lemma EmptyFieldsSkipped(doc: HgncDoc)
    requires doc.aliasSymbol in {None, Some(Single("")), Some(Listed([]))}
    requires doc.prevSymbol in {None, Some(Single("")), Some(Listed([]))}
    ensures GeneAliases(doc) == []
  {
  }

  /** The tuple built from the first doc (lines 57-73); `docs` missing is a
      `KeyError`, an empty `docs` an `IndexError`. */
  function FromReply(d: HgncReply): (r: Result<HgncData>)
    requires d.response.Some?
    ensures r.Failure? <==> d.response.value.docs.None? || d.response.value.docs.value == []
  {
    var body := d.response.value;
    if body.docs.None? then Failure("'docs'")
    else if body.docs.value == [] then Failure("list index out of range")
    else
      var doc := body.docs.value[0];
      Success(HgncData(doc.hgncId.GetOr(NA), doc.entrezId.GetOr(NA), doc.ensemblGeneId.GetOr(NA),
                       doc.symbol.GetOr(NA), doc.name.GetOr(NA), GeneAliases(doc)))
  }

  function NoGeneMessage(symbol: string): string {
    "No gene found in HGNC for symbol: " + symbol
  }

  /** `fetch_hgnc_data(symbol)`; `query(field)` is the decoded reply of
      `/fetch/<field>/<symbol>`, or the exception the request raised. */
  function FetchHgncData(symbol: string, query: string -> Result<HgncReply>): (r: Result<HgncData>)
  {
    match query("symbol")
    case Failure(e) => Failure(e)
    case Success(bySymbol) =>
      if NumFound(bySymbol) != 0 then FromReply(bySymbol)
      else match query("alias_symbol")
        case Failure(e) => Failure(e)
        case Success(byAlias) =>
          if NumFound(byAlias) != 0 then FromReply(byAlias)
          else match query("prev_symbol")
            case Failure(e) => Failure(e)
            case Success(byPrev) =>
              if NumFound(byPrev) != 0 then FromReply(byPrev)
              else Failure(NoGeneMessage(symbol))
  }

  /** When every request succeeds, the lookup raises the "No gene found"
      `ValueError` exactly when all three report `numFound` 0. */
  lemma NotFoundIffAllEmpty(symbol: string, query: string -> Result<HgncReply>)
    requires query("symbol").Success? && query("alias_symbol").Success? && query("prev_symbol").Success?
    ensures FetchHgncData(symbol, query) == Failure(NoGeneMessage(symbol)) <==>
      NumFound(query("symbol").value) == 0 && NumFound(query("alias_symbol").value) == 0
      && NumFound(query("prev_symbol").value) == 0
  {
    var m := NoGeneMessage(symbol);
    assert m[0] == 'N';
    assert "'docs'"[0] != 'N' && "list index out of range"[0] != 'N';
  }

  /** A tier that finds the gene decides the answer from its first doc:
      later tiers are never consulted. */
  lemma FirstHitDecides(symbol: string, q1: string -> Result<HgncReply>, q2: string -> Result<HgncReply>, field: string)
    requires field in ["symbol", "alias_symbol", "prev_symbol"]
    requires q1("symbol") == q2("symbol")
    requires field != "symbol" ==> q1("alias_symbol") == q2("alias_symbol")
    requires field == "prev_symbol" ==> q1("prev_symbol") == q2("prev_symbol")
    requires q1(field).Success? && NumFound(q1(field).value) != 0
    ensures FetchHgncData(symbol, q1) == FetchHgncData(symbol, q2)
  {
  }

  /** A successful lookup answers with the first doc of the first tier
      whose `numFound` is not 0, and with that doc's aliases. */
  lemma HitUsesFirstDoc(symbol: string, query: string -> Result<HgncReply>)
    requires FetchHgncData(symbol, query).Success?
    ensures exists field | field in ["symbol", "alias_symbol", "prev_symbol"] ::
      && query(field).Success? && NumFound(query(field).value) != 0
      && var body := query(field).value.response.value;
         body.docs.Some? && body.docs.value != []
         && FetchHgncData(symbol, query).value.geneAliases == GeneAliases(body.docs.value[0])
         && FetchHgncData(symbol, query).value.approvedSymbol == body.docs.value[0].symbol.GetOr(NA)
  {
    var bySymbol := query("symbol").value;
    if NumFound(bySymbol) != 0 {
      assert "symbol" in ["symbol", "alias_symbol", "prev_symbol"];
    } else {
      var byAlias := query("alias_symbol").value;
      if NumFound(byAlias) != 0 {
        assert "alias_symbol" in ["symbol", "alias_symbol", "prev_symbol"];
      } else {
        assert "prev_symbol" in ["symbol", "alias_symbol", "prev_symbol"];
      }
    }
  }

  // ---------------------------------------------------------------------
  // InterPro (fetch_interpro_data, lines 109-159)
  // ---------------------------------------------------------------------

  datatype Fragment = Fragment(start: Option<Json>, end: Option<Json>)
  datatype Location = Location(fragments: seq<Fragment>)
  datatype ProteinMatch = ProteinMatch(locations: seq<Location>)
  /** An entry's `metadata` fields (a missing `metadata` has none of them). */
  datatype Metadata = Metadata(accession: Option<string>, name: Option<string>, kind: Option<string>)
  datatype InterProEntry = InterProEntry(metadata: Metadata, proteins: seq<ProteinMatch>)

  /** A decoded InterPro reply with its HTTP status. */
  datatype InterProReply = InterProReply(statusCode: int, results: seq<InterProEntry>)

  /** One domain record: `accession`, `name`, `type`, `start`, `end`. */
  datatype Domain = Domain(accession: string, name: string, kind: string, start: Json, end: Json)

  function MakeDomain(m: Metadata, f: Fragment): Domain {
    Domain(m.accession.GetOr(NA), m.name.GetOr(NA), m.kind.GetOr(NA), f.start.GetOr(JStr(NA)), f.end.GetOr(JStr(NA)))
  }

  function FragmentDomains(m: Metadata, fs: seq<Fragment>): (r: seq<Domain>)
    ensures |r| == |fs|
  {
    if fs == [] then [] else FragmentDomains(m, fs[..|fs| - 1]) + [MakeDomain(m, fs[|fs| - 1])]
  }

  function LocationDomains(m: Metadata, ls: seq<Location>): seq<Domain> {
    if ls == [] then [] else LocationDomains(m, ls[..|ls| - 1]) + FragmentDomains(m, ls[|ls| - 1].fragments)
  }

  function ProteinDomains(m: Metadata, ps: seq<ProteinMatch>): seq<Domain> {
    if ps == [] then [] else ProteinDomains(m, ps[..|ps| - 1]) + LocationDomains(m, ps[|ps| - 1].locations)
  }

  /** The domains of all entries, in results, proteins, locations, fragments order. */
  function EntryDomains(es: seq<InterProEntry>): seq<Domain> {
    if es == [] then []
    else EntryDomains(es[..|es| - 1]) + ProteinDomains(es[|es| - 1].metadata, es[|es| - 1].proteins)
  }

  /** Lines 139-157: the nested loops that append one domain per fragment;
      the two innermost loops are in `AppendLocationDomains`. */
  method CollectDomains(entries: seq<InterProEntry>) returns (domains: seq<Domain>)
    ensures domains == EntryDomains(entries)
  {
    domains := [];
    var i := 0;
    while i < |entries|
      invariant 0 <= i <= |entries|
      invariant domains == EntryDomains(entries[..i])
    {
      var entry := entries[i];
      ghost var before := domains;
      var j := 0;
      while j < |entry.proteins|
        invariant 0 <= j <= |entry.proteins|
        invariant domains == before + ProteinDomains(entry.metadata, entry.proteins[..j])
      {
        domains := AppendLocationDomains(domains, entry.metadata, entry.proteins[j].locations);
        assert entry.proteins[..j + 1][..j] == entry.proteins[..j];
        j := j + 1;
      }
      assert entry.proteins[..j] == entry.proteins;
      assert entries[..i + 1][..i] == entries[..i];
      i := i + 1;
    }
    assert entries[..i] == entries;
  }

  /** The loops over one protein's locations and their fragments. */
  method AppendLocationDomains(acc: seq<Domain>, m: Metadata, locations: seq<Location>) returns (domains: seq<Domain>)
    ensures domains == acc + LocationDomains(m, locations)
  {
    domains := acc;
    var k := 0;
    while k < |locations|
      invariant 0 <= k <= |locations|
      invariant domains == acc + LocationDomains(m, locations[..k])
    {
      var fragments := locations[k].fragments;
      ghost var before := domains;
      var l := 0;
      while l < |fragments|
        invariant 0 <= l <= |fragments|
        invariant domains == before + FragmentDomains(m, fragments[..l])
      {
        domains := domains + [MakeDomain(m, fragments[l])];
        assert fragments[..l + 1][..l] == fragments[..l];
        l := l + 1;
      }
      assert fragments[..l] == fragments;
      assert locations[..k + 1][..k] == locations[..k];
      k := k + 1;
    }
    assert locations[..k] == locations;
  }

  function LocationFragments(ls: seq<Location>): nat {
    if ls == [] then 0 else LocationFragments(ls[..|ls| - 1]) + |ls[|ls| - 1].fragments|
  }

  function ProteinFragments(ps: seq<ProteinMatch>): nat {
    if ps == [] then 0 else ProteinFragments(ps[..|ps| - 1]) + LocationFragments(ps[|ps| - 1].locations)
  }

  /** The number of fragments below all entries. */
  function FragmentCount(es: seq<InterProEntry>): nat {
    if es == [] then 0 else FragmentCount(es[..|es| - 1]) + ProteinFragments(es[|es| - 1].proteins)
  }

  lemma {:induction false} LocationDomainsOf(m: Metadata, ls: seq<Location>)
    ensures |LocationDomains(m, ls)| == LocationFragments(ls)
    ensures forall d | d in LocationDomains(m, ls) ::
      d.accession == m.accession.GetOr(NA) && d.name == m.name.GetOr(NA) && d.kind == m.kind.GetOr(NA)
  {
    if ls != [] {
      LocationDomainsOf(m, ls[..|ls| - 1]);
      var fs := ls[|ls| - 1].fragments;
      FragmentDomainsOf(m, fs);
    }
  }

  lemma {:induction false} FragmentDomainsOf(m: Metadata, fs: seq<Fragment>)
    ensures forall d | d in FragmentDomains(m, fs) ::
      d.accession == m.accession.GetOr(NA) && d.name == m.name.GetOr(NA) && d.kind == m.kind.GetOr(NA)
  {
    if fs != [] {
      FragmentDomainsOf(m, fs[..|fs| - 1]);
    }
  }

  lemma {:induction false} ProteinDomainsOf(m: Metadata, ps: seq<ProteinMatch>)
    ensures |ProteinDomains(m, ps)| == ProteinFragments(ps)
    ensures forall d | d in ProteinDomains(m, ps) ::
      d.accession == m.accession.GetOr(NA) && d.name == m.name.GetOr(NA) && d.kind == m.kind.GetOr(NA)
  {
    if ps != [] {
      ProteinDomainsOf(m, ps[..|ps| - 1]);
      LocationDomainsOf(m, ps[|ps| - 1].locations);
    }
  }

  /** One domain per fragment, each carrying the accession, name and type of
      the entry it was found under ("N/A" where the metadata lacks one). */
  lemma {:induction false} DomainsPerFragment(es: seq<InterProEntry>)
    ensures |EntryDomains(es)| == FragmentCount(es)
    ensures forall d | d in EntryDomains(es) :: exists e | e in es ::
      d.accession == e.metadata.accession.GetOr(NA) && d.name == e.metadata.name.GetOr(NA)
      && d.kind == e.metadata.kind.GetOr(NA)
  {
    if es != [] {
      var init := es[..|es| - 1];
      var e := es[|es| - 1];
      DomainsPerFragment(init);
      ProteinDomainsOf(e.metadata, e.proteins);
      assert forall x | x in init :: x in es;
    }
  }

  function NotFoundInInterPro(uniprotId: string): string {
    "Protein not found in InterPro: " + uniprotId
  }

  /** The message `raise_for_status` gives; its wording is not modelled. */
  function HttpErrorMessage(code: int): string {
    "HTTP error " + Text.IntToString(code)
  }

  /** `fetch_interpro_data(uniprot_id)` over the decoded reply. */
  method FetchInterproData(uniprotId: string, reply: Result<InterProReply>) returns (r: Result<seq<Domain>>)
    ensures reply.Failure? ==> r == Failure(reply.error)
    ensures reply.Success? && reply.value.statusCode == 404 ==> r == Failure(NotFoundInInterPro(uniprotId))
    ensures reply.Success? && reply.value.statusCode != 404 && 400 <= reply.value.statusCode < 600 ==>
      r == Failure(HttpErrorMessage(reply.value.statusCode))
    ensures reply.Success? && !(400 <= reply.value.statusCode < 600) ==>
      r == Success(EntryDomains(reply.value.results))
  {
    if reply.Failure? {
      return Failure(reply.error);
    }
    if reply.value.statusCode == 404 {
      return Failure(NotFoundInInterPro(uniprotId));
    }
    if 400 <= reply.value.statusCode < 600 {
      return Failure(HttpErrorMessage(reply.value.statusCode));
    }
    var domains := CollectDomains(reply.value.results);
    r := Success(domains);
  }

  // ---------------------------------------------------------------------
  // UniProt (fetch_uniprot_data, lines 210-332)
  // ---------------------------------------------------------------------

  /** An alternative name: its `fullName.value` and the `value` of each of
      its `shortNames` (`None` where a key is absent). */
  datatype AltName = AltName(fullName: Option<string>, shortNames: seq<Option<string>>)

  /** `proteinDescription`: the recommended name's full name and short
      names, then the alternative names. An absent `proteinDescription` or
      `recommendedName` reads like one with none of these. */
  datatype Description = Description(fullName: Option<string>, shortNames: seq<Option<string>>, alternatives: seq<AltName>)

  /** A comment's `commentType` and the `value` of each of its `texts`. */
  datatype Comment = Comment(commentType: Option<string>, texts: seq<Option<string>>)

  datatype Evidence = Evidence(source: Option<string>, id: Option<string>)

  /** A feature's `type`, `location.start.value`, `description` and `evidences`. */
  datatype Feature = Feature(kind: Option<string>, start: Option<Json>, description: Option<string>, evidences: seq<Evidence>)

  datatype UniProtEntry = UniProtEntry(
    primaryAccession: Option<string>,
    description: Description,
    sequence: Option<string>,
    comments: seq<Comment>,
    features: seq<Feature>)

  /** One PTM record: `type`, `position`, `description`, `evidence`. */
  datatype Ptm = Ptm(kind: string, position: Json, description: string, evidence: string)

  /** `(protein_id, protein_name, protein_sequence, protein_function, ptm_data, protein_aliases)`. */
  datatype UniProtData = UniProtData(
    proteinId: string,
    proteinName: string,
    proteinSequence: string,
    proteinFunction: string,
    ptms: seq<Ptm>,
    aliases: seq<string>)

  /** The recommended full name, "N/A" when there is none. */
  function ProteinName(d: Description): string {
    d.fullName.GetOr(NA)
  }

  /** `alias = ....get("value")` read as a string: `None` and "" are both falsy. */
  function NameValues(ns: seq<Option<string>>): (r: seq<string>)
    ensures |r| == |ns|
  {
    if ns == [] then [] else NameValues(ns[..|ns| - 1]) + [ns[|ns| - 1].GetOr("")]
  }

  /** The names one alternative name offers, in the order the code looks at
      them; its full name is offered only when it differs from the protein
      name (line 271). */
  function AltCandidates(a: AltName, proteinName: string): seq<string> {
    (if a.fullName.Some? && a.fullName.value != proteinName then [a.fullName.value] else [])
      + NameValues(a.shortNames)
  }

  function AltsCandidates(alts: seq<AltName>, proteinName: string): seq<string> {
    if alts == [] then []
    else AltsCandidates(alts[..|alts| - 1], proteinName) + AltCandidates(alts[|alts| - 1], proteinName)
  }

  lemma AltsCandidatesStep(alts: seq<AltName>, j: nat, proteinName: string)
    requires j < |alts|
    ensures AltsCandidates(alts[..j + 1], proteinName) == AltsCandidates(alts[..j], proteinName) + AltCandidates(alts[j], proteinName)
  {
    assert alts[..j + 1][..j] == alts[..j];
  }

  /** Every name the alias loops look at, in order: the recommended short
      names, then for each alternative name its full name and its short names. */
  function AliasCandidates(d: Description): seq<string> {
    NameValues(d.shortNames) + AltsCandidates(d.alternatives, ProteinName(d))
  }

  /** Lines 249-282: the loops that append each new non-empty name; the
      body of the loop over alternative names is `AbsorbAlternative` and the
      loops over short names are in `AbsorbNames`. */
  method ProteinAliases(d: Description) returns (aliases: seq<string>)
    ensures aliases == Dedup(NonEmpty(AliasCandidates(d)))
  {
    var proteinName := ProteinName(d);
    aliases := AbsorbNames([], [], d.shortNames);
    CandidatesSeenStart(d);
    var j := 0;
    while j < |d.alternatives|
      invariant 0 <= j <= |d.alternatives|
      invariant aliases == Dedup(NonEmpty(CandidatesSeen(d, j)))
    {
      aliases := AbsorbAlternative(aliases, CandidatesSeen(d, j), d.alternatives[j], proteinName);
      CandidatesSeenStep(d, j);
      j := j + 1;
    }
    CandidatesSeenEnd(d);
  }

  /** The names the alias loops have looked at once `j` alternative names are done. */
  ghost function CandidatesSeen(d: Description, j: nat): seq<string>
    requires j <= |d.alternatives|
  {
    NameValues(d.shortNames) + AltsCandidates(d.alternatives[..j], ProteinName(d))
  }

  lemma CandidatesSeenStart(d: Description)
    ensures CandidatesSeen(d, 0) == [] + NameValues(d.shortNames)
  {
    assert d.alternatives[..0] == [];
  }

  lemma CandidatesSeenStep(d: Description, j: nat)
    requires j < |d.alternatives|
    ensures CandidatesSeen(d, j + 1) == CandidatesSeen(d, j) + AltCandidates(d.alternatives[j], ProteinName(d))
  {
    AltsCandidatesStep(d.alternatives, j, ProteinName(d));
  }

  lemma CandidatesSeenEnd(d: Description)
    ensures CandidatesSeen(d, |d.alternatives|) == AliasCandidates(d)
  {
    assert d.alternatives[..|d.alternatives|] == d.alternatives;
  }

  /** Lines 267-282 for one alternative name: its full name unless it is the
      protein name, then its short names. */
  method AbsorbAlternative(acc: seq<string>, ghost seen: seq<string>, alt: AltName, proteinName: string)
    returns (aliases: seq<string>)
    requires acc == Dedup(NonEmpty(seen))
    ensures aliases == Dedup(NonEmpty(seen + AltCandidates(alt, proteinName)))
  {
    aliases := acc;
    ghost var withFull := seen;
    if alt.fullName.Some? {
      var alias := alt.fullName.value;
      if alias != proteinName {
        AbsorbStep(seen, alias);
        withFull := seen + [alias];
      }
      if alias != "" && alias !in aliases && alias != proteinName {
        aliases := aliases + [alias];
      }
    }
    aliases := AbsorbNames(aliases, withFull, alt.shortNames);
    AltCandidatesSplit(seen, alt, proteinName);
  }

  lemma AltCandidatesSplit(seen: seq<string>, alt: AltName, proteinName: string)
    ensures var offered := alt.fullName.Some? && alt.fullName.value != proteinName;
      (if offered then seen + [alt.fullName.value] else seen) + NameValues(alt.shortNames)
        == seen + AltCandidates(alt, proteinName)
  {
  }

  lemma NamesSeenStep(seen: seq<string>, names: seq<Option<string>>, k: nat)
    requires k < |names|
    ensures seen + NameValues(names[..k + 1]) == (seen + NameValues(names[..k])) + [names[k].GetOr("")]
  {
    assert names[..k + 1][..k] == names[..k];
  }

  /** `for short_name in ...: alias = short_name.get("value"); if alias and
      alias not in aliases: aliases.append(alias)`, continuing from the
      aliases found among the names `seen` so far. */
  method AbsorbNames(acc: seq<string>, ghost seen: seq<string>, names: seq<Option<string>>) returns (aliases: seq<string>)
    requires acc == Dedup(NonEmpty(seen))
    ensures aliases == Dedup(NonEmpty(seen + NameValues(names)))
  {
    aliases := acc;
    var k := 0;
    assert seen + NameValues(names[..0]) == seen;
    while k < |names|
      invariant 0 <= k <= |names|
      invariant aliases == Dedup(NonEmpty(seen + NameValues(names[..k])))
    {
      var alias := names[k];
      AbsorbStep(seen + NameValues(names[..k]), alias.GetOr(""));
      NamesSeenStep(seen, names, k);
      if alias.Some? && alias.value != "" && alias.value !in aliases {
        aliases := aliases + [alias.value];
      }
      k := k + 1;
    }
    assert names[..k] == names;
  }

  /** The aliases hold no repeats and no empty name; a name is an alias
      exactly when it is a non-empty name the loops look at, so an
      alternative full name equal to the protein name is an alias only when
      it also appears as a short name. */
  lemma AliasesProperties(d: Description)
    ensures var aliases := Dedup(NonEmpty(AliasCandidates(d)));
      && NoDuplicates(aliases)
      && "" !in aliases
      && (forall x :: x in aliases <==> x != "" && x in AliasCandidates(d))
  {
    DedupElements(NonEmpty(AliasCandidates(d)));
    NonEmptyElements(AliasCandidates(d));
  }

  /** The recommended short names come first: the aliases found from them
      alone are a prefix of all the aliases. */
  lemma RecommendedShortNamesFirst(d: Description)
    ensures Dedup(NonEmpty(NameValues(d.shortNames))) <= Dedup(NonEmpty(AliasCandidates(d)))
  {
    var rec := NameValues(d.shortNames);
    var all := AliasCandidates(d);
    NonEmptyPrefix(all, |rec|);
    assert all[..|rec|] == rec;
    DedupPrefix(NonEmpty(all), |NonEmpty(rec)|);
  }

  lemma {:induction false} NonEmptyPrefix(s: seq<string>, k: nat)
    requires k <= |s|
    ensures |NonEmpty(s[..k])| <= |NonEmpty(s)| && NonEmpty(s[..k]) == NonEmpty(s)[..|NonEmpty(s[..k])|]
    decreases |s| - k
  {
    if k < |s| {
      NonEmptyPrefix(s, k + 1);
      assert s[..k + 1][..k] == s[..k];
    } else {
      assert s[..k] == s;
    }
  }

  /** The index of the first FUNCTION comment. */
  function FirstFunction(cs: seq<Comment>): (r: Option<nat>)
    ensures r.Some? ==> r.value < |cs| && cs[r.value].commentType == Some("FUNCTION")
    ensures r.Some? ==> forall k | 0 <= k < r.value :: cs[k].commentType != Some("FUNCTION")
    ensures r.None? ==> forall k | 0 <= k < |cs| :: cs[k].commentType != Some("FUNCTION")
  {
    if cs == [] then None
    else if cs[0].commentType == Some("FUNCTION") then Some(0)
    else match FirstFunction(cs[1..])
      case None => None
      case Some(i) => Some(i + 1)
  }

  /** `protein_function`: the first text of the first FUNCTION comment;
      "N/A" when there is no such comment, when it has no texts, or when
      its first text has no value. */
  function FunctionText(cs: seq<Comment>): string {
    match FirstFunction(cs)
    case None => NA
    case Some(i) => if cs[i].texts != [] then cs[i].texts[0].GetOr(NA) else NA
  }

  /** Lines 288-296: the loop that stops at the first FUNCTION comment. */
  method ProteinFunction(comments: seq<Comment>) returns (f: string)
    ensures f == FunctionText(comments)
  {
    f := NA;
    var i := 0;
    while i < |comments|
      invariant 0 <= i <= |comments|
      invariant forall k | 0 <= k < i :: comments[k].commentType != Some("FUNCTION")
      invariant f == NA
    {
      var comment := comments[i];
      if comment.commentType == Some("FUNCTION") {
        if comment.texts != [] {
          f := comment.texts[0].GetOr(NA);
        }
        break;
      }
      i := i + 1;
    }
  }

  /** Comments after the first FUNCTION comment never change the function
      text, even when that comment has no texts. */
  lemma {:induction false} LaterCommentsIgnored(cs: seq<Comment>, rest: seq<Comment>)
    requires FirstFunction(cs).Some?
    ensures FunctionText(cs + rest) == FunctionText(cs)
  {
    var i := FirstFunction(cs).value;
    FirstFunctionOfPrefix(cs, rest);
  }

  lemma {:induction false} FirstFunctionOfPrefix(cs: seq<Comment>, rest: seq<Comment>)
    requires FirstFunction(cs).Some?
    ensures FirstFunction(cs + rest) == FirstFunction(cs)
  {
    if cs[0].commentType != Some("FUNCTION") {
      assert (cs + rest)[1..] == cs[1..] + rest;
      FirstFunctionOfPrefix(cs[1..], rest);
    }
  }

  /** Lines 300-306: the feature types kept as PTMs. */
  const PtmFeatureTypes: seq<string> := ["Modified residue", "Glycosylation", "Lipidation", "Cross-link", "Disulfide bond"]

  predicate IsPtmFeature(f: Feature) {
    f.kind.Some? && f.kind.value in PtmFeatureTypes
  }

  /** One evidence as `source:id`, or the bare source when the id is empty. */
  function EvidenceString(e: Evidence): string {
    var source := e.source.GetOr("");
    var refId := e.id.GetOr("");
    if refId != "" then source + ":" + refId else source
  }

  function EvidenceStrings(es: seq<Evidence>): (r: seq<string>)
    ensures |r| == |es|
  {
    if es == [] then [] else EvidenceStrings(es[..|es| - 1]) + [EvidenceString(es[|es| - 1])]
  }

  /** The PTM type: the description up to its first ";". */
  function PtmType(description: string): string {
    if ';' in description then Text.Split(description, ';')[0] else description
  }

  /** The PTM type is the longest prefix of the description without a ";". */
  lemma PtmTypeIsPrefix(description: string)
    ensures var t := PtmType(description);
      && |t| <= |description| && description[..|t|] == t && ';' !in t
      && (|t| < |description| ==> description[|t|] == ';')
      && (';' !in description ==> t == description)
  {
    SplitHeadIsPrefix(description, ';');
  }

  lemma {:induction false} SplitHeadIsPrefix(s: string, sep: char)
    ensures var h := Text.Split(s, sep)[0];
      |h| <= |s| && s[..|h|] == h && (|h| < |s| ==> s[|h|] == sep)
  {
    if s != [] {
      SplitHeadIsPrefix(s[1..], sep);
    }
  }

  function MakePtm(f: Feature, evidences: seq<string>): Ptm {
    var description := f.description.GetOr(NA);
    Ptm(PtmType(description), f.start.GetOr(JStr(NA)), description,
        if evidences != [] then Text.Join(", ", evidences) else NA)
  }

  /** The PTMs of the features, in order. */
  function FeaturePtms(fs: seq<Feature>): seq<Ptm> {
    if fs == [] then []
    else
      var f := fs[|fs| - 1];
      FeaturePtms(fs[..|fs| - 1]) + if IsPtmFeature(f) then [MakePtm(f, EvidenceStrings(f.evidences))] else []
  }

  /** Lines 308-330: the loop over features with its inner evidence loop. */
  method PtmData(features: seq<Feature>) returns (ptms: seq<Ptm>)
    ensures ptms == FeaturePtms(features)
  {
    ptms := [];
    var i := 0;
    while i < |features|
      invariant 0 <= i <= |features|
      invariant ptms == FeaturePtms(features[..i])
    {
      var feature := features[i];
      if feature.kind.Some? && feature.kind.value in PtmFeatureTypes {
        var evidences := [];
        var k := 0;
        while k < |feature.evidences|
          invariant 0 <= k <= |feature.evidences|
          invariant evidences == EvidenceStrings(feature.evidences[..k])
        {
          evidences := evidences + [EvidenceString(feature.evidences[k])];
          assert feature.evidences[..k + 1][..k] == feature.evidences[..k];
          k := k + 1;
        }
        assert feature.evidences[..k] == feature.evidences;
        ptms := ptms + [MakePtm(feature, evidences)];
      }
      assert features[..i + 1][..i] == features[..i];
      i := i + 1;
    }
    assert features[..i] == features;
  }

  function PtmFeatureCount(fs: seq<Feature>): nat {
    if fs == [] then 0 else PtmFeatureCount(fs[..|fs| - 1]) + if IsPtmFeature(fs[|fs| - 1]) then 1 else 0
  }

  /** One PTM per feature of a PTM type and none for any other feature; a
      PTM's evidence is "N/A" when its feature lists no evidence. */
  lemma {:induction false} PtmsFromPtmFeatures(fs: seq<Feature>)
    ensures |FeaturePtms(fs)| == PtmFeatureCount(fs)
    ensures forall p | p in FeaturePtms(fs) :: exists f | f in fs ::
      && IsPtmFeature(f)
      && p == MakePtm(f, EvidenceStrings(f.evidences))
      && p.description == f.description.GetOr(NA)
      && (f.evidences == [] ==> p.evidence == NA)
  {
    if fs != [] {
      var init := fs[..|fs| - 1];
      PtmsFromPtmFeatures(init);
      assert forall x | x in init :: x in fs;
    }
  }

  function NoProteinMessage(symbol: string): string {
    "No protein found for symbol: " + symbol
  }

  /** The tuple built from the first result. */
  function UniProtFromEntry(entry: UniProtEntry): UniProtData {
    UniProtData(entry.primaryAccession.GetOr(NA), ProteinName(entry.description), entry.sequence.GetOr(NA),
                FunctionText(entry.comments), FeaturePtms(entry.features), Dedup(NonEmpty(AliasCandidates(entry.description))))
  }

  /** `fetch_uniprot_data(symbol)` over the decoded search reply (its
      `results`); no results is a `ValueError`. */
  method FetchUniprotData(symbol: string, reply: Result<seq<UniProtEntry>>) returns (r: Result<UniProtData>)
    ensures reply.Failure? ==> r == Failure(reply.error)
    ensures reply.Success? && reply.value == [] ==> r == Failure(NoProteinMessage(symbol))
    ensures reply.Success? && reply.value != [] ==> r == Success(UniProtFromEntry(reply.value[0]))
  {
    if reply.Failure? {
      return Failure(reply.error);
    }
    if reply.value == [] {
      return Failure(NoProteinMessage(symbol));
    }
    var entry := reply.value[0];
    var aliases := ProteinAliases(entry.description);
    var proteinFunction := ProteinFunction(entry.comments);
    var ptms := PtmData(entry.features);
    r := Success(UniProtData(entry.primaryAccession.GetOr(NA), ProteinName(entry.description),
                             entry.sequence.GetOr(NA), proteinFunction, ptms, aliases));
  }

  // ---------------------------------------------------------------------
  // NCBI gene summaries (fetch_refseq_data, lines 335-395, and
  // fetch_refseq_transcript_ids, lines 511-569)
  // ---------------------------------------------------------------------

  /** `data["result"][id].items()` as both functions reach it: `None` when
      `"result" not in data` or `id not in data["result"]` (an early
      return), the entry's fields otherwise; a reply of another shape
      raises. */
  function GeneSummary(id: string, data: Json): (r: Result<Option<seq<(string, Json)>>>)
    ensures In("result", data) == Success(false) ==> r == Success(None)
    ensures r.Success? && r.value.Some? ==>
      && GetItem(data, "result").Success?
      && GetItem(GetItem(data, "result").value, id) == Success(JObj(r.value.value))
  {
    match In("result", data)
    case Failure(e) => Failure(e)
    case Success(hasResult) =>
      if !hasResult then Success(None)
      else
        var result := GetItem(data, "result");
        if result.Failure? then Failure(result.error)
        else match In(id, result.value)
          case Failure(e) => Failure(e)
          case Success(hasId) =>
            if !hasId then Success(None)
            else match GetItem(result.value, id)
              case Failure(e) => Failure(e)
              case Success(info) =>
                if info.JObj? then Success(Some(info.fields))
                else Failure("'" + TypeName(info) + "' object has no attribute 'items'")
  }

  /** The matches `findAll` (standing for `re.findall(r'NM_\d+\.\d+', ...)`)
      finds in each string-valued field, field by field. */
  function StringFieldMatches(fields: seq<(string, Json)>, findAll: string -> seq<string>): seq<string> {
    if fields == [] then []
    else
      var v := fields[|fields| - 1].1;
      StringFieldMatches(fields[..|fields| - 1], findAll) + if v.JStr? then findAll(v.s) else []
  }

  /** What `fetch_refseq_transcript_ids` returns: the deduplicated matches,
      or [] for an unusable id, a missing entry or any exception. */
  function RefseqTranscriptIds(ncbiGeneId: string, reply: Result<Json>, findAll: string -> seq<string>): seq<string> {
    if Unusable(ncbiGeneId) || reply.Failure? then []
    else match GeneSummary(ncbiGeneId, reply.value)
      case Success(Some(fields)) => Dedup(StringFieldMatches(fields, findAll))
      case _ => []
  }

  /** `fetch_refseq_transcript_ids(ncbi_gene_id)`: `reply` is the decoded
      esummary reply or the exception the request raised. */
  method FetchRefseqTranscriptIds(ncbiGeneId: string, reply: Result<Json>, findAll: string -> seq<string>)
    returns (ids: seq<string>)
    ensures ids == RefseqTranscriptIds(ncbiGeneId, reply, findAll)
  {
    if ncbiGeneId == "" || ncbiGeneId == NA {
      return [];
    }
    if reply.Failure? {
      return [];
    }
    var summary := GeneSummary(ncbiGeneId, reply.value);
    if summary.Failure? || summary.value.None? {
      return [];
    }
    var fields := summary.value.value;
    var matches := [];
    var i := 0;
    while i < |fields|
      invariant 0 <= i <= |fields|
      invariant matches == StringFieldMatches(fields[..i], findAll)
    {
      var fieldValue := fields[i].1;
      if fieldValue.JStr? {
        matches := matches + findAll(fieldValue.s);
      }
      assert fields[..i + 1][..i] == fields[..i];
      i := i + 1;
    }
    assert fields[..i] == fields;
    ids := DedupInOrder(matches);
  }

  /** Lines 551-565: the `seen` set and `unique_transcripts` list. */
  method DedupInOrder(items: seq<string>) returns (unique: seq<string>)
    ensures unique == Dedup(items)
  {
    var seen: set<string> := {};
    unique := [];
    var k := 0;
    while k < |items|
      invariant 0 <= k <= |items|
      invariant unique == Dedup(items[..k])
      invariant forall x :: x in seen <==> x in unique
    {
      var transcriptId := items[k];
      if transcriptId !in seen {
        seen := seen + {transcriptId};
        unique := unique + [transcriptId];
      }
      assert items[..k + 1][..k] == items[..k];
      k := k + 1;
    }
    assert items[..k] == items;
  }

  /** The transcript ids hold every match once, with no repeats, in the
      order of first occurrence. */
  lemma TranscriptIdsUnique(ncbiGeneId: string, data: Json, findAll: string -> seq<string>, fields: seq<(string, Json)>)
    requires !Unusable(ncbiGeneId) && GeneSummary(ncbiGeneId, data) == Success(Some(fields))
    ensures var ids := RefseqTranscriptIds(ncbiGeneId, Success(data), findAll);
      var matches := StringFieldMatches(fields, findAll);
      && NoDuplicates(ids)
      && (forall x :: x in ids <==> x in matches)
      && (forall k | 0 <= k <= |matches| :: Dedup(matches[..k]) <= ids)
  {
    var matches := StringFieldMatches(fields, findAll);
    DedupElements(matches);
    forall k | 0 <= k <= |matches|
      ensures Dedup(matches[..k]) <= Dedup(matches)
    {
      DedupPrefix(matches, k);
    }
  }

  /** An unusable id, a failed request or a reply without an entry for the
      id gives no transcript ids. */
  lemma NoTranscriptIdsWithoutEntry(ncbiGeneId: string, reply: Result<Json>, findAll: string -> seq<string>)
    requires Unusable(ncbiGeneId) || reply.Failure? || GeneSummary(ncbiGeneId, reply.value) == Success(None)
    ensures RefseqTranscriptIds(ncbiGeneId, reply, findAll) == []
  {
  }

  /** The ids one field contributes to `fetch_refseq_data` (lines 375-388):
      a string field mentioning "refseq" (in any case) replaces the mRNA id
      with its first `NM_` match and the protein id with its first `NP_`
      match, where it has one. `searchNm` and `searchNp` stand for
      `re.search` with `NM_\d+\.\d+` and `NP_\d+\.\d+`. */
  function RefseqScan(fields: seq<(string, Json)>, searchNm: string -> Option<string>, searchNp: string -> Option<string>)
    : (Option<string>, Option<string>)
  {
    if fields == [] then (None, None)
    else
      var (mrna, protein) := RefseqScan(fields[..|fields| - 1], searchNm, searchNp);
      var v := fields[|fields| - 1].1;
      if v.JStr? && Text.Contains(Text.Lower(v.s), "refseq") then
        (if Text.Contains(v.s, "NM_") && searchNm(v.s).Some? then searchNm(v.s) else mrna,
         if Text.Contains(v.s, "NP_") && searchNp(v.s).Some? then searchNp(v.s) else protein)
      else (mrna, protein)
  }

  /** What `fetch_refseq_data` returns. */
  function RefseqData(ncbiGeneId: string, reply: Result<Json>, searchNm: string -> Option<string>, searchNp: string -> Option<string>)
    : (Option<string>, Option<string>)
  {
    if Unusable(ncbiGeneId) || reply.Failure? then (None, None)
    else match GeneSummary(ncbiGeneId, reply.value)
      case Success(Some(fields)) => RefseqScan(fields, searchNm, searchNp)
      case _ => (None, None)
  }

  /** `fetch_refseq_data(ncbi_gene_id)`. */
  method FetchRefseqData(ncbiGeneId: string, reply: Result<Json>, searchNm: string -> Option<string>, searchNp: string -> Option<string>)
    returns (mrna: Option<string>, protein: Option<string>)
    ensures (mrna, protein) == RefseqData(ncbiGeneId, reply, searchNm, searchNp)
  {
    if ncbiGeneId == "" || ncbiGeneId == NA {
      return None, None;
    }
    if reply.Failure? {
      return None, None;
    }
    var summary := GeneSummary(ncbiGeneId, reply.value);
    if summary.Failure? || summary.value.None? {
      return None, None;
    }
    var fields := summary.value.value;
    mrna, protein := None, None;
    var i := 0;
    while i < |fields|
      invariant 0 <= i <= |fields|
      invariant (mrna, protein) == RefseqScan(fields[..i], searchNm, searchNp)
    {
      var fieldValue := fields[i].1;
      if fieldValue.JStr? && Text.Contains(Text.Lower(fieldValue.s), "refseq") {
        if Text.Contains(fieldValue.s, "NM_") {
          var found := searchNm(fieldValue.s);
          if found.Some? {
            mrna := found;
          }
        }
        if Text.Contains(fieldValue.s, "NP_") {
          var found := searchNp(fieldValue.s);
          if found.Some? {
            protein := found;
          }
        }
      }
      assert fields[..i + 1][..i] == fields[..i];
      i := i + 1;
    }
    assert fields[..i] == fields;
  }

  /** `v` is a string mentioning "refseq" and `prefix`, and `search` finds
      `id` in it. */
  predicate RefseqMention(v: Json, prefix: string, search: string -> Option<string>, id: Option<string>) {
    v.JStr? && Text.Contains(Text.Lower(v.s), "refseq") && Text.Contains(v.s, prefix) && search(v.s) == id
  }

  /** A found id is the match of some field that mentions "refseq" and the
      id's prefix; with no such field both ids are `None`. */
  lemma {:induction false} RefseqIdsFromFields(fields: seq<(string, Json)>, searchNm: string -> Option<string>, searchNp: string -> Option<string>)
    ensures var (mrna, protein) := RefseqScan(fields, searchNm, searchNp);
      && (mrna.Some? ==> exists f | f in fields :: RefseqMention(f.1, "NM_", searchNm, mrna))
      && (protein.Some? ==> exists f | f in fields :: RefseqMention(f.1, "NP_", searchNp, protein))
  {
    if fields != [] {
      var init := fields[..|fields| - 1];
      RefseqIdsFromFields(init, searchNm, searchNp);
      assert forall x | x in init :: x in fields;
      assert fields[|fields| - 1] in fields;
    }
  }

  // ---------------------------------------------------------------------
  // Ensembl protein id from UniProt cross-references (lines 398-441)
  // ---------------------------------------------------------------------

  /** Where a scan of cross-references stands: a `return` with a value, no
      match, or an exception (caught by the function's handler). */
  datatype Scan = Found(value: Json) | NotFound | Raised

  predicate IsProteinIdProperty(p: Json) {
    p.JObj? && Lookup(p.fields, "key") == Some(JStr("ProteinId"))
  }

  /** `prop.get("value")`. */
  function PropertyValue(p: Json): Json
    requires p.JObj?
  {
    Lookup(p.fields, "value").GetOr(JNull)
  }

  /** Lines 432-434: the first dict property whose key is "ProteinId". */
  function PropertyScan(props: seq<Json>): (r: Scan)
    ensures !r.Raised?
  {
    if props == [] then NotFound
    else if IsProteinIdProperty(props[0]) then Found(PropertyValue(props[0]))
    else PropertyScan(props[1..])
  }

  /** `isinstance(database_info, dict) and database_info.get("id") == "Ensembl"`. */
  predicate IsEnsemblXref(x: Json) {
    && x.JObj?
    && var db := Lookup(x.fields, "database");
       db.Some? && db.value.JObj? && Lookup(db.value.fields, "id") == Some(JStr("Ensembl"))
  }

  /** `xref.get("properties", [])` iterated. */
  function XrefProperties(x: Json): Result<seq<Json>>
    requires x.JObj?
  {
    Iterate(Lookup(x.fields, "properties").GetOr(JArr([])))
  }

  /** Lines 427-434 over the cross-references. */
  function XrefScan(xrefs: seq<Json>): Scan {
    if xrefs == [] then NotFound
    else if IsEnsemblXref(xrefs[0]) then
      match XrefProperties(xrefs[0])
      case Failure(_) => Raised
      case Success(props) =>
        if PropertyScan(props).Found? then PropertyScan(props) else XrefScan(xrefs[1..])
    else XrefScan(xrefs[1..])
  }

  /** What `fetch_ensembl_protein_id` returns, `JNull` standing for `None`. */
  function EnsemblProteinId(uniprotId: string, reply: Result<Json>): Json {
    if Unusable(uniprotId) || reply.Failure? then JNull
    else
      var data := reply.value;
      if In("uniProtKBCrossReferences", data) != Success(true) then JNull
      else
        var xrefs := GetItem(data, "uniProtKBCrossReferences");
        if xrefs.Failure? || Iterate(xrefs.value).Failure? then JNull
        else match XrefScan(Iterate(xrefs.value).value)
          case Found(v) => v
          case _ => JNull
  }

  /** `fetch_ensembl_protein_id(uniprot_id)`: `reply` is the decoded UniProt
      entry or the exception the request raised. */
  method FetchEnsemblProteinId(uniprotId: string, reply: Result<Json>) returns (r: Json)
    ensures r == EnsemblProteinId(uniprotId, reply)
  {
    if uniprotId == "" || uniprotId == NA {
      return JNull;
    }
    if reply.Failure? {
      return JNull;
    }
    var data := reply.value;
    var has := In("uniProtKBCrossReferences", data);
    if has != Success(true) {
      return JNull;
    }
    var xrefsValue := GetItem(data, "uniProtKBCrossReferences");
    if xrefsValue.Failure? {
      return JNull;
    }
    var iterated := Iterate(xrefsValue.value);
    if iterated.Failure? {
      return JNull;
    }
    var xrefs := iterated.value;
    var i := 0;
    while i < |xrefs|
      invariant 0 <= i <= |xrefs|
      invariant XrefScan(xrefs) == XrefScan(xrefs[i..])
    {
      var xref := xrefs[i];
      assert xrefs[i..][1..] == xrefs[i + 1..];
      if IsEnsemblXref(xref) {
        var properties := XrefProperties(xref);
        if properties.Failure? {
          return JNull;
        }
        var props := properties.value;
        var k := 0;
        while k < |props|
          invariant 0 <= k <= |props|
          invariant PropertyScan(props) == PropertyScan(props[k..])
        {
          var prop := props[k];
          if prop.JObj? && Lookup(prop.fields, "key") == Some(JStr("ProteinId")) {
            return PropertyValue(prop);
          }
          assert props[k..][1..] == props[k + 1..];
          k := k + 1;
        }
      }
      i := i + 1;
    }
    return JNull;
  }

  /** A value other than `None` is the "value" of a "ProteinId" property of
      an Ensembl cross-reference. */
  lemma {:induction false} FoundUnderEnsemblXref(xrefs: seq<Json>)
    requires XrefScan(xrefs).Found?
    ensures exists x | x in xrefs ::
      (IsEnsemblXref(x) && XrefProperties(x).Success?
       && exists p | p in XrefProperties(x).value :: IsProteinIdProperty(p) && PropertyValue(p) == XrefScan(xrefs).value)
  {
    var x := xrefs[0];
    if IsEnsemblXref(x) && XrefProperties(x).Success? && PropertyScan(XrefProperties(x).value).Found? {
      FoundProperty(XrefProperties(x).value);
    } else {
      FoundUnderEnsemblXref(xrefs[1..]);
      assert forall y | y in xrefs[1..] :: y in xrefs;
    }
  }

  lemma {:induction false} FoundProperty(props: seq<Json>)
    requires PropertyScan(props).Found?
    ensures exists p | p in props :: IsProteinIdProperty(p) && PropertyValue(p) == PropertyScan(props).value
  {
    if !IsProteinIdProperty(props[0]) {
      FoundProperty(props[1..]);
      assert forall y | y in props[1..] :: y in props;
    }
  }

  // ---------------------------------------------------------------------
  // Ensembl transcripts (fetch_ensembl_transcript_data, lines 444-508)
  // ---------------------------------------------------------------------

  /** A transcript record; `translationId` is always `None` (line 494). */
  datatype Transcript = Transcript(transcriptId: string, translationId: Option<string>, biotype: Json, isCanonical: Json)

  /** The overlap reply: its status and `response.json()` (or the exception
      decoding raised). */
  datatype OverlapReply = OverlapReply(statusCode: int, body: Result<Json>)

  predicate IsEnst(item: Json) {
    item.JObj? && var id := Lookup(item.fields, "id");
    id.Some? && id.value.JStr? && Text.StartsWith(id.value.s, "ENST")
  }

  /** One item of the reply: skipped (`None`), kept, or the `AttributeError`
      `.startswith` raises on an id that is not a string. */
  function TranscriptOf(item: Json): Result<Option<Transcript>> {
    if !item.JObj? then Success(None)
    else
      var id := Lookup(item.fields, "id").GetOr(JStr(""));
      if !id.JStr? then Failure("'" + TypeName(id) + "' object has no attribute 'startswith'")
      else if !Text.StartsWith(id.s, "ENST") then Success(None)
      else Success(Some(Transcript(id.s, None, Lookup(item.fields, "biotype").GetOr(JStr("unknown")),
                                   Lookup(item.fields, "canonical").GetOr(JBool(false)))))
  }

  function TranscriptsFrom(items: seq<Json>): Result<seq<Transcript>> {
    if items == [] then Success([])
    else match TranscriptsFrom(items[..|items| - 1])
      case Failure(e) => Failure(e)
      case Success(ts) =>
        match TranscriptOf(items[|items| - 1])
        case Failure(e) => Failure(e)
        case Success(None) => Success(ts)
        case Success(Some(t)) => Success(ts + [t])
  }

  /** What `fetch_ensembl_transcript_data` returns: [] for an unusable id,
      a 404 (the `ValueError` is caught), any other status but 200, a body
      that is not a list, or any exception. */
  function EnsemblTranscripts(geneId: string, reply: Result<OverlapReply>): seq<Transcript> {
    if Unusable(geneId) || reply.Failure? then []
    else
      var r := reply.value;
      if r.statusCode != 200 || r.body.Failure? || !r.body.value.JArr? then []
      else match TranscriptsFrom(r.body.value.items)
        case Success(ts) => ts
        case Failure(_) => []
  }

  lemma {:induction false} TranscriptFailureSticks(items: seq<Json>, k: nat)
    requires k <= |items| && TranscriptsFrom(items[..k]).Failure?
    ensures TranscriptsFrom(items).Failure?
    decreases |items| - k
  {
    if k < |items| {
      assert items[..k + 1][..k] == items[..k];
      TranscriptFailureSticks(items, k + 1);
    } else {
      assert items[..k] == items;
    }
  }

  /** `fetch_ensembl_transcript_data(ensembl_gene_id)`. */
  method FetchEnsemblTranscripts(geneId: string, reply: Result<OverlapReply>) returns (transcripts: seq<Transcript>)
    ensures transcripts == EnsemblTranscripts(geneId, reply)
  {
    if geneId == "" || geneId == NA {
      return [];
    }
    if reply.Failure? {
      return [];
    }
    var response := reply.value;
    if response.statusCode == 404 || response.statusCode != 200 {
      return [];
    }
    if response.body.Failure? || !response.body.value.JArr? {
      return [];
    }
    var items := response.body.value.items;
    transcripts := [];
    var i := 0;
    while i < |items|
      invariant 0 <= i <= |items|
      invariant TranscriptsFrom(items[..i]) == Success(transcripts)
    {
      var one := TranscriptOf(items[i]);
      assert items[..i + 1][..i] == items[..i];
      if one.Failure? {
        TranscriptFailureSticks(items, i + 1);
        return [];
      }
      if one.value.Some? {
        transcripts := transcripts + [one.value.value];
      }
      i := i + 1;
    }
    assert items[..i] == items;
  }

  function EnstCount(items: seq<Json>): nat {
    if items == [] then 0 else EnstCount(items[..|items| - 1]) + if IsEnst(items[|items| - 1]) then 1 else 0
  }

  /** A successful scan keeps one transcript per dict item whose id starts
      with "ENST" and nothing else; every kept id starts with "ENST" and no
      translation id is filled in. */
  lemma {:induction false} TranscriptsAreEnst(items: seq<Json>)
    requires TranscriptsFrom(items).Success?
    ensures var ts := TranscriptsFrom(items).value;
      && |ts| == EnstCount(items)
      && forall t | t in ts :: Text.StartsWith(t.transcriptId, "ENST") && t.translationId.None?
  {
    if items != [] {
      TranscriptsAreEnst(items[..|items| - 1]);
    }
  }
}
