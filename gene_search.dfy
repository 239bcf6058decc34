/** The literature-search pipeline for one gene: build a query, search
    PubMed, fetch the papers, screen each paper with the language model,
    keep the relevant ones ranked by score, and extract associations for the
    top N. Cancellation checkpoints sit between the stages and before every
    paper and every extraction.

    The query builder and the two screening calls are parameters (their
    implementations are not part of this model); the PubMed search and fetch
    are the ones of the PubMed module over parameterised Entrez services.
    The cancellation token is seen through its answers: the `is_cancelled()`
    calls are numbered from 0 in the order the pipeline makes them, and
    `cancel == Some(k)` says that call `k` is the first to answer true (a
    cancelled token stays cancelled, so every later call answers true too);
    `None` stands for a token that is never cancelled or absent. */
module GeneSearch {
  import opened Wrappers
  import Text
  import opened PubMed
  import TaskManager

  type ProgressInfo = TaskManager.ProgressInfo

  /** The keys of the screening reply the pipeline reads, `None` when absent. */
  datatype ScreenReply = ScreenReply(score: Option<real>, relevant: Option<bool>, reasoning: Option<string>)

  /** The keys of the association reply the pipeline reads, `None` when absent. */
  datatype AssocReply = AssocReply(modificationEffects: Option<string>, longevityAssociation: Option<string>)

  /** A result dict. `abstractText` and `meshTerms` are `None` once popped;
      the two association fields are `None` until added. */
  datatype Record = Record(
    symbol: string,
    pmid: string,
    title: string,
    year: Option<string>,
    journal: string,
    abstractText: Option<string>,
    meshTerms: Option<seq<string>>,
    score: real,
    relevant: bool,
    reasoning: string,
    searchDate: string,
    url: string,
    modificationEffects: Option<string>,
    longevityAssociation: Option<string>)

  /** The collaborators of the pipeline. */
  datatype Services = Services(
    buildQuery: (string, bool, Option<seq<string>>) -> Result<string>,
    esearch: (string, int) -> Result<Option<seq<string>>>,
    efetch: seq<string> -> Result<seq<MedlineRecord>>,
    screenPaper: (string, string, seq<string>) -> Result<ScreenReply>,
    screenAssociation: (string, string, seq<string>) -> Result<AssocReply>)

  /** What the pipeline returns (or raises) and the progress it reported. */
  datatype Run = Run(outcome: Result<seq<Record>>, reports: seq<ProgressInfo>)

  /** Whether `is_cancelled()` call number `k` answers true. */
  predicate Seen(cancel: Option<nat>, k: nat) {
    cancel.Some? && cancel.value <= k
  }

  /** Every report claims four steps in total, whatever its step number. */
  function Report(step: string, stepNumber: int, screened: Option<int>, total: Option<int>, message: string): (p: ProgressInfo)
    ensures p.totalSteps == 4 && p.stepNumber == stepNumber
  {
    TaskManager.ProgressInfo(step, stepNumber, 4, screened, total, message)
  }

  /** Every report in `rs` claims four steps and has a step number from `lo`
      to `hi`. */
  predicate StepsWithin(rs: seq<ProgressInfo>, lo: int, hi: int) {
    forall k | 0 <= k < |rs| :: rs[k].totalSteps == 4 && lo <= rs[k].stepNumber <= hi
  }

  lemma StepsConcat(a: seq<ProgressInfo>, b: seq<ProgressInfo>, lo: int, hi: int)
    requires StepsWithin(a, lo, hi) && StepsWithin(b, lo, hi)
    ensures StepsWithin(a + b, lo, hi)
  {
    forall k | 0 <= k < |a + b|
      ensures (a + b)[k].totalSteps == 4 && lo <= (a + b)[k].stepNumber <= hi
    {
      if k >= |a| {
        assert (a + b)[k] == b[k - |a|];
      }
    }
  }

  lemma StepsWiden(rs: seq<ProgressInfo>, lo: int, hi: int, lo': int, hi': int)
    requires StepsWithin(rs, lo, hi) && lo' <= lo && hi <= hi'
    ensures StepsWithin(rs, lo', hi')
  {
  }

  // ---- the reports the pipeline makes outside its loops ----

  function QueryReport(gene: string): ProgressInfo {
    Report("Building query", 1, None, None, "Building PubMed search query for " + gene)
  }

  function SearchReport(maxResults: int): ProgressInfo {
    Report("Searching PubMed", 2, None, None, "Searching PubMed (max " + Text.IntToString(maxResults) + " results)")
  }

  function NoPapersReport(): ProgressInfo {
    Report("Search complete", 4, None, None, "No papers found")
  }

  function FetchReport(count: nat): ProgressInfo {
    Report("Fetching metadata", 3, None, None, "Fetching metadata for " + Text.NatToString(count) + " papers")
  }

  function ScreenStartReport(n: nat): ProgressInfo {
    Report("Screening papers", 4, Some(0), Some(n), "Starting paper screening with AI")
  }

  function FilterReport(): ProgressInfo {
    Report("Filtering results", 5, None, None, "Filtering and ranking papers")
  }

  /** The report opening the extraction, made only when there is a result. */
  function ExtractStartReports(n: nat): seq<ProgressInfo> {
    if n == 0 then []
    else [Report("Extracting associations", 6, Some(0), Some(n),
                 "Extracting modification effects and longevity associations for top "
                 + Text.NatToString(n) + " papers")]
  }

  function FinalReport(cancelled: bool, n: nat): ProgressInfo {
    Report("Search " + (if cancelled then "cancelled" else "completed"), 7, None, None,
           "Found " + Text.NatToString(n) + " top papers with associations")
  }

  /** The reports framing the extraction claim steps 5 to 7 of four. */
  lemma FramingSteps(n: nat, cancelled: bool)
    ensures StepsWithin([FilterReport()], 5, 7)
    ensures StepsWithin(ExtractStartReports(n), 5, 7)
    ensures StepsWithin([FinalReport(cancelled, n)], 5, 7)
  {
    assert FilterReport().totalSteps == 4 && FilterReport().stepNumber == 5;
    assert FinalReport(cancelled, n).totalSteps == 4 && FinalReport(cancelled, n).stepNumber == 7;
    if n > 0 {
      assert ExtractStartReports(n)[0].totalSteps == 4 && ExtractStartReports(n)[0].stepNumber == 6;
    }
  }

  // ---- paper fields as `paper.get(key, default)` reads them ----

  function PaperPmid(p: Paper): string { if p.Paper? then p.pmid else "" }
  function PaperTitle(p: Paper): string { if p.Paper? then p.title else "" }
  function PaperAbstract(p: Paper): string { if p.Paper? then p.abstractText else "" }
  function PaperJournal(p: Paper): string { if p.Paper? then p.journal else "" }
  function PaperMesh(p: Paper): seq<string> { if p.Paper? then p.meshTerms else [] }
  /** An error record has no `year` key, so the default `""` is read. */
  function PaperYear(p: Paper): Option<string> { if p.Paper? then p.year else Some("") }

  /** Lines 155-168: the result dict of one screened paper. Missing reply
      keys default to score 0.0, not relevant, and empty reasoning. */
  function MakeRecord(gene: string, today: string, p: Paper, reply: ScreenReply): (r: Record)
    ensures r.score == reply.score.GetOr(0.0)
    ensures r.relevant == reply.relevant.GetOr(false)
    ensures r.reasoning == reply.reasoning.GetOr("")
    ensures r.symbol == gene && r.pmid == PaperPmid(p) && r.title == PaperTitle(p) && r.url == ""
    ensures r.abstractText == Some(PaperAbstract(p)) && r.meshTerms == Some(PaperMesh(p))
    ensures r.modificationEffects.None? && r.longevityAssociation.None?
  {
    Record(gene, PaperPmid(p), PaperTitle(p), PaperYear(p), PaperJournal(p), Some(PaperAbstract(p)),
           Some(PaperMesh(p)), reply.score.GetOr(0.0), reply.relevant.GetOr(false),
           reply.reasoning.GetOr(""), today, "", None, None)
  }

  // ---- the per-item loops ----

  /** The outcome of a per-item loop: the items done, and the message of the
      exception that ended it early, if any. */
  datatype Pass = Pass(done: seq<Record>, failure: Option<string>)

  /** How many items an exception-free loop gets through: it stops before
      item `i` when the checkpoint of item `i`, numbered `base + i`, is the
      first to see the cancellation. */
  function Reached(n: nat, base: nat, cancel: Option<nat>): (m: nat)
    ensures m <= n
    ensures cancel.Some? && base <= cancel.value ==> base + m <= cancel.value
    ensures m < n ==> Seen(cancel, base + m)
  {
    if cancel.Some? && base <= cancel.value < base + n then cancel.value - base else n
  }

  /** The `is_cancelled()` calls a loop over `n` items makes when it reaches
      `m` of them: one per item, plus the one that stopped it. */
  function ChecksMade(n: nat, m: nat): nat {
    if m < n then m + 1 else n
  }

  /** Items attempted: those done plus the one that raised. */
  function Attempts(p: Pass): nat {
    |p.done| + if p.failure.Some? then 1 else 0
  }

  /** Screening the papers in order until the first exception. */
  function ScreenAll(gene: string, today: string, ps: seq<Paper>,
                     screen: (string, string, seq<string>) -> Result<ScreenReply>): (p: Pass)
    ensures |p.done| <= |ps|
    ensures p.failure.None? ==> |p.done| == |ps|
  {
    if ps == [] then Pass([], None)
    else
      var prev := ScreenAll(gene, today, ps[..|ps| - 1], screen);
      var last := ps[|ps| - 1];
      if prev.failure.Some? then prev
      else match screen(PaperTitle(last), PaperAbstract(last), PaperMesh(last))
        case Failure(e) => Pass(prev.done, Some(e))
        case Success(reply) => Pass(prev.done + [MakeRecord(gene, today, last, reply)], None)
  }

  /** Once a screening raises, screening more papers changes nothing. */
  lemma {:induction false} ScreenFailureSticks(gene: string, today: string, ps: seq<Paper>,
                                               screen: (string, string, seq<string>) -> Result<ScreenReply>, i: nat, m: nat)
    requires i <= m <= |ps|
    requires ScreenAll(gene, today, ps[..i], screen).failure.Some?
    ensures ScreenAll(gene, today, ps[..m], screen) == ScreenAll(gene, today, ps[..i], screen)
    decreases m - i
  {
    if m > i {
      ScreenFailureSticks(gene, today, ps, screen, i, m - 1);
      assert ps[..m][..m - 1] == ps[..m - 1];
    }
  }

  /** Screening one more paper after an exception-free prefix. */
  lemma ScreenStep(gene: string, today: string, ps: seq<Paper>,
                   screen: (string, string, seq<string>) -> Result<ScreenReply>, i: nat)
    requires i < |ps| && ScreenAll(gene, today, ps[..i], screen).failure.None?
    ensures var prev := ScreenAll(gene, today, ps[..i], screen);
      var reply := screen(PaperTitle(ps[i]), PaperAbstract(ps[i]), PaperMesh(ps[i]));
      ScreenAll(gene, today, ps[..i + 1], screen) ==
        if reply.Failure? then Pass(prev.done, Some(reply.error))
        else Pass(prev.done + [MakeRecord(gene, today, ps[i], reply.value)], None)
  {
    assert ps[..i + 1][..i] == ps[..i];
  }

  /** A paper whose screening raises ends the loop: the loop's outcome is
      the records before it and its exception. */
  lemma ScreenStopsAt(gene: string, today: string, ps: seq<Paper>,
                      screen: (string, string, seq<string>) -> Result<ScreenReply>, i: nat, m: nat)
    requires i < m <= |ps| && ScreenAll(gene, today, ps[..i], screen).failure.None?
    requires screen(PaperTitle(ps[i]), PaperAbstract(ps[i]), PaperMesh(ps[i])).Failure?
    ensures ScreenAll(gene, today, ps[..m], screen) ==
      Pass(ScreenAll(gene, today, ps[..i], screen).done,
           Some(screen(PaperTitle(ps[i]), PaperAbstract(ps[i]), PaperMesh(ps[i])).error))
  {
    ScreenStep(gene, today, ps, screen, i);
    ScreenFailureSticks(gene, today, ps, screen, i + 1, m);
  }

  /** One record per paper screened, in paper order, built from that
      paper and its reply; an early stop is the failing paper's exception. */
  lemma {:induction false} ScreenedInOrder(gene: string, today: string, ps: seq<Paper>,
                                           screen: (string, string, seq<string>) -> Result<ScreenReply>)
    ensures var p := ScreenAll(gene, today, ps, screen);
      && (p.failure.Some? ==>
            |p.done| < |ps| &&
            screen(PaperTitle(ps[|p.done|]), PaperAbstract(ps[|p.done|]), PaperMesh(ps[|p.done|])) == Failure(p.failure.value))
      && (forall k | 0 <= k < |p.done| ::
            var reply := screen(PaperTitle(ps[k]), PaperAbstract(ps[k]), PaperMesh(ps[k]));
            reply.Success? && p.done[k] == MakeRecord(gene, today, ps[k], reply.value))
  {
    if ps != [] {
      var init := ps[..|ps| - 1];
      ScreenedInOrder(gene, today, init, screen);
      var prev := ScreenAll(gene, today, init, screen);
      if prev.failure.None? {
        var last := ps[|ps| - 1];
        match screen(PaperTitle(last), PaperAbstract(last), PaperMesh(last))
        case Failure(e) =>
        case Success(reply) =>
          var p := ScreenAll(gene, today, ps, screen);
          assert p.done == prev.done + [MakeRecord(gene, today, last, reply)];
      }
    }
  }

  function ScreenReport(n: nat, k: nat): ProgressInfo {
    Report("Screening papers", 4, Some(k), Some(n),
           "Screening paper " + Text.NatToString(k) + "/" + Text.NatToString(n))
  }

  /** One report per paper attempted, numbered from 1. */
  function ScreenReports(n: nat, attempts: nat): (rs: seq<ProgressInfo>)
    ensures |rs| == attempts
    ensures forall k | 0 <= k < attempts :: rs[k] == ScreenReport(n, k + 1)
  {
    if attempts == 0 then [] else ScreenReports(n, attempts - 1) + [ScreenReport(n, attempts)]
  }

  lemma ScreenReportsStep(n: nat, i: nat)
    ensures ScreenReports(n, i + 1) == ScreenReports(n, i) + [ScreenReport(n, i + 1)]
  {
  }

  /** Lines 206-212: a top result after its associations were extracted. */
  function Extracted(r: Record, a: AssocReply): (x: Record)
    ensures x.modificationEffects == Some(a.modificationEffects.GetOr("Not specified"))
    ensures x.longevityAssociation == Some(a.longevityAssociation.GetOr("Not specified"))
    ensures x.abstractText.None? && x.meshTerms.None?
    ensures x.pmid == r.pmid && x.title == r.title && x.score == r.score && x.relevant == r.relevant
  {
    r.(modificationEffects := Some(a.modificationEffects.GetOr("Not specified")),
       longevityAssociation := Some(a.longevityAssociation.GetOr("Not specified")),
       abstractText := None, meshTerms := None)
  }

  /** Extracting the associations of the records in order until the first
      exception. */
  function ExtractAll(rs: seq<Record>, assoc: (string, string, seq<string>) -> Result<AssocReply>): (p: Pass)
    ensures |p.done| <= |rs|
    ensures p.failure.None? ==> |p.done| == |rs|
  {
    if rs == [] then Pass([], None)
    else
      var prev := ExtractAll(rs[..|rs| - 1], assoc);
      var last := rs[|rs| - 1];
      if prev.failure.Some? then prev
      else match assoc(last.title, last.abstractText.GetOr(""), last.meshTerms.GetOr([]))
        case Failure(e) => Pass(prev.done, Some(e))
        case Success(a) => Pass(prev.done + [Extracted(last, a)], None)
  }

  /** Extracting from one more result after an exception-free prefix. */
  lemma ExtractStep(rs: seq<Record>, assoc: (string, string, seq<string>) -> Result<AssocReply>, i: nat)
    requires i < |rs| && ExtractAll(rs[..i], assoc).failure.None?
    ensures var prev := ExtractAll(rs[..i], assoc);
      var a := assoc(rs[i].title, rs[i].abstractText.GetOr(""), rs[i].meshTerms.GetOr([]));
      ExtractAll(rs[..i + 1], assoc) ==
        if a.Failure? then Pass(prev.done, Some(a.error)) else Pass(prev.done + [Extracted(rs[i], a.value)], None)
  {
    assert rs[..i + 1][..i] == rs[..i];
  }

  /** A result whose extraction raises ends the loop: the loop's outcome is
      the results before it and its exception. */
  lemma ExtractStopsAt(rs: seq<Record>, assoc: (string, string, seq<string>) -> Result<AssocReply>, i: nat, m: nat)
    requires i < m <= |rs| && ExtractAll(rs[..i], assoc).failure.None?
    requires assoc(rs[i].title, rs[i].abstractText.GetOr(""), rs[i].meshTerms.GetOr([])).Failure?
    ensures ExtractAll(rs[..m], assoc) ==
      Pass(ExtractAll(rs[..i], assoc).done,
           Some(assoc(rs[i].title, rs[i].abstractText.GetOr(""), rs[i].meshTerms.GetOr([])).error))
  {
    ExtractStep(rs, assoc, i);
    ExtractFailureSticks(rs, assoc, i + 1, m);
  }

  lemma {:induction false} ExtractFailureSticks(rs: seq<Record>, assoc: (string, string, seq<string>) -> Result<AssocReply>,
                                                i: nat, m: nat)
    requires i <= m <= |rs|
    requires ExtractAll(rs[..i], assoc).failure.Some?
    ensures ExtractAll(rs[..m], assoc) == ExtractAll(rs[..i], assoc)
    decreases m - i
  {
    if m > i {
      ExtractFailureSticks(rs, assoc, i, m - 1);
      assert rs[..m][..m - 1] == rs[..m - 1];
    }
  }

  /** One updated record per record reached, in order; an early stop is the
      failing record's exception. */
  lemma {:induction false} ExtractedInOrder(rs: seq<Record>, assoc: (string, string, seq<string>) -> Result<AssocReply>)
    ensures var p := ExtractAll(rs, assoc);
      && (p.failure.Some? ==>
            |p.done| < |rs| &&
            assoc(rs[|p.done|].title, rs[|p.done|].abstractText.GetOr(""), rs[|p.done|].meshTerms.GetOr([])) == Failure(p.failure.value))
      && (forall k | 0 <= k < |p.done| ::
            var a := assoc(rs[k].title, rs[k].abstractText.GetOr(""), rs[k].meshTerms.GetOr([]));
            a.Success? && p.done[k] == Extracted(rs[k], a.value))
  {
    if rs != [] {
      var init := rs[..|rs| - 1];
      ExtractedInOrder(init, assoc);
      var prev := ExtractAll(init, assoc);
      if prev.failure.None? {
        var last := rs[|rs| - 1];
        match assoc(last.title, last.abstractText.GetOr(""), last.meshTerms.GetOr([]))
        case Failure(e) =>
        case Success(a) =>
          var p := ExtractAll(rs, assoc);
          assert p.done == prev.done + [Extracted(last, a)];
      }
    }
  }

  function ExtractReport(n: nat, k: nat): ProgressInfo {
    Report("Extracting associations", 6, Some(k), Some(n),
           "Extracting associations for paper " + Text.NatToString(k) + "/" + Text.NatToString(n))
  }

  /** One report per record attempted, numbered from 1. */
  function ExtractReports(n: nat, attempts: nat): (rs: seq<ProgressInfo>)
    ensures |rs| == attempts
    ensures forall k | 0 <= k < attempts :: rs[k] == ExtractReport(n, k + 1)
  {
    if attempts == 0 then [] else ExtractReports(n, attempts - 1) + [ExtractReport(n, attempts)]
  }

  lemma ExtractReportsStep(n: nat, i: nat)
    ensures ExtractReports(n, i + 1) == ExtractReports(n, i) + [ExtractReport(n, i + 1)]
  {
  }

  // ---- ranking ----

  /** `[r for r in results if r["relevant"]]`. */
  function RelevantOnly(rs: seq<Record>): (out: seq<Record>)
    ensures forall k | 0 <= k < |out| :: out[k].relevant
    ensures multiset(out) <= multiset(rs)
  {
    if rs == [] then []
    else
      assert rs == [rs[0]] + rs[1..];
      (if rs[0].relevant then [rs[0]] else []) + RelevantOnly(rs[1..])
  }

  /** No relevant result is dropped. */
  lemma {:induction false} RelevantKept(rs: seq<Record>, r: Record)
    requires r in rs && r.relevant
    ensures r in RelevantOnly(rs)
  {
    if rs[0] != r {
      RelevantKept(rs[1..], r);
    }
  }

  predicate SortedDesc(rs: seq<Record>) {
    forall i, j | 0 <= i < j < |rs| :: rs[i].score >= rs[j].score
  }

  /** Places `x` after every element scoring at least as high. */
  function InsertByScore(s: seq<Record>, x: Record): (r: seq<Record>)
    ensures |r| == |s| + 1
  {
    if s == [] then [x]
    else if s[0].score >= x.score then [s[0]] + InsertByScore(s[1..], x)
    else [x] + s
  }

  lemma {:induction false} InsertPerm(s: seq<Record>, x: Record)
    ensures multiset(InsertByScore(s, x)) == multiset(s) + multiset{x}
  {
    if s != [] && s[0].score >= x.score {
      InsertPerm(s[1..], x);
      assert s == [s[0]] + s[1..];
    }
  }

  lemma {:induction false} InsertSorted(s: seq<Record>, x: Record)
    requires SortedDesc(s)
    ensures SortedDesc(InsertByScore(s, x))
  {
    if s != [] && s[0].score >= x.score {
      var rest := InsertByScore(s[1..], x);
      InsertSorted(s[1..], x);
      InsertPerm(s[1..], x);
      forall e | e in rest
        ensures s[0].score >= e.score
      {
        assert e in multiset(rest);
        if e != x {
          assert e in multiset(s[1..]);
        }
      }
    }
  }

  /** `sorted(rs, key=score, reverse=True)`: a stable sort, descending by score. */
  function SortByScoreDesc(rs: seq<Record>): (r: seq<Record>)
    ensures |r| == |rs|
  {
    if rs == [] then []
    else InsertByScore(SortByScoreDesc(rs[..|rs| - 1]), rs[|rs| - 1])
  }

  /** The sort orders by score. */
  lemma {:induction false} SortSorted(rs: seq<Record>)
    ensures SortedDesc(SortByScoreDesc(rs))
  {
    if rs != [] {
      SortSorted(rs[..|rs| - 1]);
      InsertSorted(SortByScoreDesc(rs[..|rs| - 1]), rs[|rs| - 1]);
    }
  }

  /** The sort is a permutation. */
  lemma {:induction false} SortPerm(rs: seq<Record>)
    ensures multiset(SortByScoreDesc(rs)) == multiset(rs)
  {
    if rs != [] {
      var init := rs[..|rs| - 1];
      SortPerm(init);
      InsertPerm(SortByScoreDesc(init), rs[|rs| - 1]);
      assert rs == init + [rs[|rs| - 1]];
    }
  }

  /** The records with score `v`, in order. */
  function WithScore(rs: seq<Record>, v: real): seq<Record> {
    if rs == [] then [] else (if rs[0].score == v then [rs[0]] else []) + WithScore(rs[1..], v)
  }

  lemma {:induction false} WithScoreAppend(rs: seq<Record>, x: Record, v: real)
    ensures WithScore(rs + [x], v) == WithScore(rs, v) + (if x.score == v then [x] else [])
  {
    if rs != [] {
      WithScoreAppend(rs[1..], x, v);
      assert (rs + [x])[1..] == rs[1..] + [x];
    }
  }

  lemma {:induction false} WithHigherScoreNone(s: seq<Record>, v: real)
    requires SortedDesc(s) && s != [] && s[0].score < v
    ensures WithScore(s, v) == []
  {
    if |s| > 1 {
      WithHigherScoreNone(s[1..], v);
    }
  }

  lemma SortedTail(s: seq<Record>)
    requires SortedDesc(s) && s != []
    ensures SortedDesc(s[1..])
  {
    forall i, j | 0 <= i < j < |s| - 1
      ensures s[1..][i].score >= s[1..][j].score
    {
      assert s[1..][i] == s[i + 1] && s[1..][j] == s[j + 1];
    }
  }

  lemma WithScoreCons(a: Record, t: seq<Record>, v: real)
    ensures WithScore([a] + t, v) == (if a.score == v then [a] else []) + WithScore(t, v)
  {
    assert ([a] + t)[0] == a && ([a] + t)[1..] == t;
  }

  lemma {:induction false} InsertWithScore(s: seq<Record>, x: Record, v: real)
    requires SortedDesc(s)
    ensures WithScore(InsertByScore(s, x), v) == WithScore(s, v) + (if x.score == v then [x] else [])
  {
    if s != [] {
      if s[0].score >= x.score {
        var rest := InsertByScore(s[1..], x);
        SortedTail(s);
        InsertWithScore(s[1..], x, v);
        assert InsertByScore(s, x) == [s[0]] + rest;
        WithScoreCons(s[0], rest, v);
        WithScoreCons(s[0], s[1..], v);
        assert [s[0]] + s[1..] == s;
      } else {
        if x.score == v {
          WithHigherScoreNone(s, v);
        }
        assert ([x] + s)[1..] == s;
      }
    }
  }

  /** Stability: among records of equal score the sort keeps their order. */
  lemma {:induction false} SortStable(rs: seq<Record>, v: real)
    ensures WithScore(SortByScoreDesc(rs), v) == WithScore(rs, v)
  {
    if rs != [] {
      var init := rs[..|rs| - 1];
      var x := rs[|rs| - 1];
      SortStable(init, v);
      SortSorted(init);
      InsertWithScore(SortByScoreDesc(init), x, v);
      WithScoreAppend(init, x, v);
      assert init + [x] == rs;
    }
  }

  /** The end of `s[:n]` in Python, negative `n` counting from the back. */
  function SliceStop(n: int, len: nat): (stop: nat)
    ensures stop <= len
    ensures n >= 0 ==> stop == if n <= len then n else len
    ensures n < 0 ==> stop == if len + n >= 0 then len + n else 0
  {
    if n >= 0 then (if n <= len then n else len)
    else if len + n >= 0 then len + n else 0
  }

  /** Lines 173-175: the relevant results, best score first (ties in
      screening order), cut to the first `topN`. */
  function RankAndSelect(results: seq<Record>, topN: int): seq<Record>
  {
    var sorted := SortByScoreDesc(RelevantOnly(results));
    sorted[..SliceStop(topN, |sorted|)]
  }

  /** The selection is a prefix of the sorted relevant records, `top_n` of
      them when there are that many and `top_n` is not negative. */
  lemma RankAndSelectShape(results: seq<Record>, topN: int)
    ensures var top := RankAndSelect(results, topN);
      && |top| <= |RelevantOnly(results)|
      && top == SortByScoreDesc(RelevantOnly(results))[..|top|]
      && (topN >= 0 ==> |top| == if topN <= |RelevantOnly(results)| then topN else |RelevantOnly(results)|)
  {
  }

  /** The selection is sorted by score and holds only relevant results. */
  lemma RankSelected(results: seq<Record>, topN: int)
    ensures SortedDesc(RankAndSelect(results, topN))
    ensures forall k | 0 <= k < |RankAndSelect(results, topN)| ::
      RankAndSelect(results, topN)[k].relevant && RankAndSelect(results, topN)[k] in results
  {
    var sorted := SortByScoreDesc(RelevantOnly(results));
    var top := RankAndSelect(results, topN);
    SortSorted(RelevantOnly(results));
    SortPerm(RelevantOnly(results));
    forall k | 0 <= k < |top|
      ensures top[k].relevant && top[k] in results
    {
      assert top[k] == sorted[k];
      assert top[k] in multiset(sorted);
      assert top[k] in multiset(RelevantOnly(results));
    }
  }

  /** Every relevant result that scores strictly higher than a selected one
      is selected too: the selection is the best-scoring relevant results. */
  lemma TopIsBest(results: seq<Record>, topN: int, k: nat, r: Record)
    requires k < |RankAndSelect(results, topN)|
    requires r in results && r.relevant && r.score > RankAndSelect(results, topN)[k].score
    ensures r in RankAndSelect(results, topN)
  {
    var sorted := SortByScoreDesc(RelevantOnly(results));
    RelevantKept(results, r);
    SortSorted(RelevantOnly(results));
    SortPerm(RelevantOnly(results));
    assert r in multiset(RelevantOnly(results));
    assert r in multiset(sorted);
    var j :| 0 <= j < |sorted| && sorted[j] == r;
    assert sorted[k].score < sorted[j].score;
  }

  /** Among selected results of equal score, the order is the screening order. */
  lemma RankStable(results: seq<Record>, topN: int, v: real)
    ensures WithScore(RankAndSelect(results, topN), v) <= WithScore(RelevantOnly(results), v)
  {
    var sorted := SortByScoreDesc(RelevantOnly(results));
    var top := RankAndSelect(results, topN);
    SortStable(RelevantOnly(results), v);
    assert top == sorted[..|top|];
    WithScorePrefix(sorted, |top|, v);
  }

  lemma {:induction false} WithScorePrefix(rs: seq<Record>, n: nat, v: real)
    requires n <= |rs|
    ensures WithScore(rs[..n], v) <= WithScore(rs, v)
  {
    if n > 0 {
      WithScorePrefix(rs[1..], n - 1, v);
      assert rs[..n][1..] == rs[1..][..n - 1];
    }
  }

  // ---- the pipeline ----

  /** `[str(p) for p in pmids]` as the list handed to the fetch. */
  function AsItems(pmids: seq<string>): seq<PmidItem> {
    seq(|pmids|, k requires 0 <= k < |pmids| => StrId(pmids[k]))
  }

  /** The pipeline from the filtering step on, given the screened results and
      the number of `is_cancelled()` calls made so far. */
  function AfterScreening(results: seq<Record>, topN: int, checks: nat, cancel: Option<nat>,
                          assoc: (string, string, seq<string>) -> Result<AssocReply>): Run
  {
    var top := RankAndSelect(results, topN);
    if Seen(cancel, checks) then Run(Success(top), [FilterReport()])
    else
      var n := |top|;
      var base := checks + 1;
      var m := Reached(n, base, cancel);
      var pass := ExtractAll(top[..m], assoc);
      var head := [FilterReport()] + ExtractStartReports(n) + ExtractReports(n, Attempts(pass));
      if pass.failure.Some? then Run(Failure(pass.failure.value), head)
      else
        var final := pass.done + top[m..];
        var last := base + ChecksMade(n, m);
        Run(Success(final), head + [FinalReport(Seen(cancel, last), n)])
  }

  /** The pipeline from the screening step on, given the fetched papers;
      `is_cancelled()` calls 0 to 2 have answered false. */
  function FromPapers(gene: string, today: string, topN: int, papers: seq<Paper>, cancel: Option<nat>, sv: Services): Run
  {
    var n := |papers|;
    var m := Reached(n, 3, cancel);
    var pass := ScreenAll(gene, today, papers[..m], sv.screenPaper);
    var head := [ScreenStartReport(n)] + ScreenReports(n, Attempts(pass));
    if pass.failure.Some? then Run(Failure(pass.failure.value), head)
    else
      var rest := AfterScreening(pass.done, topN, 3 + ChecksMade(n, m), cancel, sv.screenAssociation);
      Run(rest.outcome, head + rest.reports)
  }

  /** What `search_gene` returns and reports. */
  function SearchGeneSpec(gene: string, maxResults: int, topN: int, includeReprogramming: bool,
                          customTerms: Option<seq<string>>, today: string, cancel: Option<nat>, sv: Services): Run
  {
    var r1 := QueryReport(gene);
    match sv.buildQuery(gene, includeReprogramming, customTerms)
    case Failure(e) => Run(Failure(e), [r1])
    case Success(query) =>
      if Seen(cancel, 0) then Run(Success([]), [r1])
      else Prefixed(r1, FromQuery(gene, query, maxResults, topN, today, cancel, sv))
  }

  /** A run preceded by one more report. */
  function Prefixed(r: ProgressInfo, run: Run): Run {
    Run(run.outcome, [r] + run.reports)
  }

  /** The pipeline from the PubMed search on, once the query is built and
      `is_cancelled()` call 0 has answered false. */
  function FromQuery(gene: string, query: string, maxResults: int, topN: int, today: string, cancel: Option<nat>,
                     sv: Services): Run
  {
    var r2 := SearchReport(maxResults);
    var pmids := SearchSpec(query, maxResults, true, true, sv.esearch);
    if pmids == [] then Run(Success([]), [r2, NoPapersReport()])
    else if Seen(cancel, 1) then Run(Success([]), [r2])
    else Prefixed(r2, FromPmids(gene, pmids, topN, today, cancel, sv))
  }

  /** The pipeline from the fetch on, given the PMIDs found; calls 0 and 1
      have answered false. */
  function FromPmids(gene: string, pmids: seq<string>, topN: int, today: string, cancel: Option<nat>, sv: Services): Run
  {
    var papers := FetchSpec(PmidItems(AsItems(pmids)), sv.efetch);
    if Seen(cancel, 2) then Run(Success([]), [FetchReport(|pmids|)])
    else Prefixed(FetchReport(|pmids|), FromPapers(gene, today, topN, papers, cancel, sv))
  }

  /** Lines 138-169: the screening loop, from `is_cancelled()` call number
      `base` on. */
  method ScreenPapers(gene: string, today: string, papers: seq<Paper>, base: nat, cancel: Option<nat>,
                      screen: (string, string, seq<string>) -> Result<ScreenReply>)
    returns (pass: Pass, reports: seq<ProgressInfo>, checks: nat)
    requires cancel.None? || base <= cancel.value
    ensures pass == ScreenAll(gene, today, papers[..Reached(|papers|, base, cancel)], screen)
    ensures reports == ScreenReports(|papers|, Attempts(pass))
    ensures pass.failure.None? ==> checks == ChecksMade(|papers|, Reached(|papers|, base, cancel))
  {
    var results: seq<Record> := [];
    reports := [];
    var n := |papers|;
    var i := 0;
    var m := Reached(n, base, cancel);
    while i < n
      invariant 0 <= i <= m
      invariant ScreenAll(gene, today, papers[..i], screen) == Pass(results, None)
      invariant reports == ScreenReports(n, i)
    {
      if Seen(cancel, base + i) {
        break;
      }
      var paper := papers[i];
      ScreenReportsStep(n, i);
      reports := reports + [ScreenReport(n, i + 1)];
      ScreenStep(gene, today, papers, screen, i);
      var reply := screen(PaperTitle(paper), PaperAbstract(paper), PaperMesh(paper));
      if reply.Failure? {
        ScreenStopsAt(gene, today, papers, screen, i, m);
        pass := Pass(results, Some(reply.error));
        assert Attempts(pass) == i + 1;
        checks := i + 1;
        return;
      }
      results := results + [MakeRecord(gene, today, paper, reply.value)];
      i := i + 1;
    }
    assert i == m;
    pass := Pass(results, None);
    assert Attempts(pass) == i;
    checks := ChecksMade(n, i);
  }

  /** Lines 184-212: the extraction loop over the selected results, from
      `is_cancelled()` call number `base` on. The records are updated in
      place; the list keeps its order and length. */
  method ExtractAssociations(top: seq<Record>, base: nat, cancel: Option<nat>,
                             assoc: (string, string, seq<string>) -> Result<AssocReply>)
    returns (failure: Option<string>, records: seq<Record>, reports: seq<ProgressInfo>, checks: nat)
    requires cancel.None? || base <= cancel.value
    ensures var m := Reached(|top|, base, cancel); var p := ExtractAll(top[..m], assoc);
      && failure == p.failure
      && (failure.None? ==> records == p.done + top[m..])
      && reports == ExtractReports(|top|, Attempts(p))
      && (failure.None? ==> checks == ChecksMade(|top|, m))
  {
    var done: seq<Record> := [];
    reports := [];
    var n := |top|;
    var i := 0;
    var m := Reached(n, base, cancel);
    while i < n
      invariant 0 <= i <= m
      invariant ExtractAll(top[..i], assoc) == Pass(done, None)
      invariant reports == ExtractReports(n, i)
    {
      if Seen(cancel, base + i) {
        break;
      }
      var result := top[i];
      ExtractReportsStep(n, i);
      reports := reports + [ExtractReport(n, i + 1)];
      ExtractStep(top, assoc, i);
      var a := assoc(result.title, result.abstractText.GetOr(""), result.meshTerms.GetOr([]));
      if a.Failure? {
        ExtractStopsAt(top, assoc, i, m);
        failure := Some(a.error);
        assert Attempts(Pass(done, failure)) == i + 1;
        records := done + top[i..];
        checks := i + 1;
        return;
      }
      done := done + [Extracted(result, a.value)];
      i := i + 1;
    }
    assert i == m && Attempts(Pass(done, None)) == i;
    failure := None;
    records := done + top[i..];
    checks := ChecksMade(n, i);
  }

  /** Lines 172-220: filtering, ranking and extraction, after `checks`
      `is_cancelled()` calls that answered false. */
  method RankAndExtract(results: seq<Record>, topN: int, checks: nat, cancel: Option<nat>,
                        assoc: (string, string, seq<string>) -> Result<AssocReply>)
    returns (outcome: Result<seq<Record>>, reports: seq<ProgressInfo>)
    ensures Run(outcome, reports) == AfterScreening(results, topN, checks, cancel, assoc)
  {
    reports := [FilterReport()];
    var top := RankAndSelect(results, topN);
    if Seen(cancel, checks) {
      return Success(top), reports;
    }
    var next := checks + 1;
    reports := reports + ExtractStartReports(|top|);
    var failure, records, extractReports, extractChecks := ExtractAssociations(top, next, cancel, assoc);
    reports := reports + extractReports;
    if failure.Some? {
      return Failure(failure.value), reports;
    }
    next := next + extractChecks;
    reports := reports + [FinalReport(Seen(cancel, next), |top|)];
    outcome := Success(records);
  }

  /** Lines 134-220: screening the fetched papers, then ranking and
      extraction. */
  method ScreenAndRank(gene: string, today: string, topN: int, papers: seq<Paper>, cancel: Option<nat>, sv: Services)
    returns (outcome: Result<seq<Record>>, reports: seq<ProgressInfo>)
    requires cancel.None? || 3 <= cancel.value
    ensures Run(outcome, reports) == FromPapers(gene, today, topN, papers, cancel, sv)
  {
    reports := [ScreenStartReport(|papers|)];
    var pass, screenReports, screenChecks := ScreenPapers(gene, today, papers, 3, cancel, sv.screenPaper);
    reports := reports + screenReports;
    if pass.failure.Some? {
      return Failure(pass.failure.value), reports;
    }
    var rest;
    outcome, rest := RankAndExtract(pass.done, topN, 3 + screenChecks, cancel, sv.screenAssociation);
    reports := reports + rest;
  }

  /** `search_gene`: the checkpointed pipeline. The progress reports are
      returned in the order they were made, for delivery to the callback. */
  method SearchGene(gene: string, maxResults: int, topN: int, includeReprogramming: bool,
                    customTerms: Option<seq<string>>, today: string, cancel: Option<nat>, sv: Services)
    returns (outcome: Result<seq<Record>>, reports: seq<ProgressInfo>)
    ensures Run(outcome, reports) == SearchGeneSpec(gene, maxResults, topN, includeReprogramming, customTerms, today, cancel, sv)
  {
    reports := [QueryReport(gene)];
    var query := sv.buildQuery(gene, includeReprogramming, customTerms);
    if query.Failure? {
      return Failure(query.error), reports;
    }
    if Seen(cancel, 0) {
      return Success([]), reports;
    }
    var rest;
    outcome, rest := SearchFromQuery(gene, query.value, maxResults, topN, today, cancel, sv);
    reports := reports + rest;
  }

  /** Lines 110-117: the PubMed search and its checkpoint. */
  method SearchFromQuery(gene: string, query: string, maxResults: int, topN: int, today: string, cancel: Option<nat>,
                         sv: Services)
    returns (outcome: Result<seq<Record>>, reports: seq<ProgressInfo>)
    ensures Run(outcome, reports) == FromQuery(gene, query, maxResults, topN, today, cancel, sv)
  {
    reports := [SearchReport(maxResults)];
    var pmids := Search(query, maxResults, true, true, sv.esearch);
    if pmids == [] {
      reports := reports + [NoPapersReport()];
      return Success([]), reports;
    }
    if Seen(cancel, 1) {
      return Success([]), reports;
    }
    var rest;
    outcome, rest := FetchAndScreen(gene, pmids, topN, today, cancel, sv);
    reports := reports + rest;
  }

  /** Lines 119-131: the fetch, its checkpoint, and the rest of the pipeline. */
  method FetchAndScreen(gene: string, pmids: seq<string>, topN: int, today: string, cancel: Option<nat>, sv: Services)
    returns (outcome: Result<seq<Record>>, reports: seq<ProgressInfo>)
    ensures Run(outcome, reports) == FromPmids(gene, pmids, topN, today, cancel, sv)
  {
    reports := [FetchReport(|pmids|)];
    var papers := Fetch(PmidItems(AsItems(pmids)), sv.efetch);
    if Seen(cancel, 2) {
      return Success([]), reports;
    }
    var rest;
    outcome, rest := ScreenAndRank(gene, today, topN, papers, cancel, sv);
    reports := reports + rest;
  }

  // ---- properties of the pipeline ----

  /** Lines 105-107: a cancellation seen at the first checkpoint ends the
      search with no results, before the search; what PubMed, the fetch or
      the screening would answer makes no difference. */
  lemma CancelledAfterQuery(gene: string, maxResults: int, topN: int, includeReprogramming: bool,
                            customTerms: Option<seq<string>>, today: string, sv: Services, other: Services)
    requires sv.buildQuery(gene, includeReprogramming, customTerms).Success?
    requires other.buildQuery == sv.buildQuery
    ensures var run := SearchGeneSpec(gene, maxResults, topN, includeReprogramming, customTerms, today, Some(0), sv);
      && run.outcome == Success([])
      && |run.reports| == 1 && run.reports[0].stepNumber == 1
      && run == SearchGeneSpec(gene, maxResults, topN, includeReprogramming, customTerms, today, Some(0), other)
  {
  }

  /** Lines 114-117: no PMIDs means no results, with a final step-4 report
      "No papers found". */
  lemma NoPapersFound(gene: string, maxResults: int, topN: int, includeReprogramming: bool,
                      customTerms: Option<seq<string>>, today: string, cancel: Option<nat>, sv: Services)
    requires sv.buildQuery(gene, includeReprogramming, customTerms).Success?
    requires !Seen(cancel, 0)
    requires SearchSpec(sv.buildQuery(gene, includeReprogramming, customTerms).value, maxResults, true, true, sv.esearch) == []
    ensures var run := SearchGeneSpec(gene, maxResults, topN, includeReprogramming, customTerms, today, cancel, sv);
      && run.outcome == Success([])
      && |run.reports| == 3
      && run.reports[2] == Report("Search complete", 4, None, None, "No papers found")
  {
  }

  /** Lines 119-131: a cancellation seen after the search or after the fetch
      ends the search with no results and no screening report. */
  lemma CancelledBeforeScreening(gene: string, maxResults: int, topN: int, includeReprogramming: bool,
                                 customTerms: Option<seq<string>>, today: string, cancel: Option<nat>, sv: Services)
    requires sv.buildQuery(gene, includeReprogramming, customTerms).Success?
    requires cancel == Some(1) || cancel == Some(2)
    ensures var run := SearchGeneSpec(gene, maxResults, topN, includeReprogramming, customTerms, today, cancel, sv);
      && run.outcome == Success([])
      && forall k | 0 <= k < |run.reports| :: run.reports[k].stepNumber != 4 || run.reports[k].message == "No papers found"
  {
    var query := sv.buildQuery(gene, includeReprogramming, customTerms).value;
    var pmids := SearchSpec(query, maxResults, true, true, sv.esearch);
    var reports := SearchGeneSpec(gene, maxResults, topN, includeReprogramming, customTerms, today, cancel, sv).reports;
    if pmids == [] {
      assert reports == [QueryReport(gene), SearchReport(maxResults), NoPapersReport()];
    } else if Seen(cancel, 1) {
      assert reports == [QueryReport(gene), SearchReport(maxResults)];
    } else {
      assert reports == [QueryReport(gene), SearchReport(maxResults), FetchReport(|pmids|)];
    }
  }

  /** The list after extracting the first `m` records: same length, the
      first `m` records extracted, the rest untouched, and every record
      keeping its PMID, score and relevance. */
  lemma {:induction false} ExtractedList(top: seq<Record>, m: nat, assoc: (string, string, seq<string>) -> Result<AssocReply>)
    requires m <= |top|
    requires ExtractAll(top[..m], assoc).failure.None?
    ensures var final := ExtractAll(top[..m], assoc).done + top[m..];
      && |final| == |top|
      && (forall k | 0 <= k < m :: final[k].abstractText.None? && final[k].meshTerms.None?
            && final[k].modificationEffects.Some? && final[k].longevityAssociation.Some?)
      && (forall k | m <= k < |top| :: final[k] == top[k])
      && (forall k | 0 <= k < |top| ::
            final[k].score == top[k].score && final[k].relevant == top[k].relevant && final[k].pmid == top[k].pmid)
  {
    ExtractedInOrder(top[..m], assoc);
    var done := ExtractAll(top[..m], assoc).done;
    var final := done + top[m..];
    forall k | 0 <= k < |top|
      ensures final[k].score == top[k].score && final[k].relevant == top[k].relevant && final[k].pmid == top[k].pmid
    {
      if k < m {
        assert top[..m][k] == top[k];
        assert final[k] == done[k];
      } else {
        assert final[k] == top[m..][k - m];
      }
    }
  }

  /** A returned list holds only relevant results, best score first, and at
      most `topN` of them when `topN` is not negative. */
  predicate RankedOutcome(out: Result<seq<Record>>, topN: int) {
    out.Success? ==>
      && SortedDesc(out.value)
      && (forall k | 0 <= k < |out.value| :: out.value[k].relevant)
      && (topN >= 0 ==> |out.value| <= topN)
  }

  /** Lines 172-220: what the pipeline returns from the ranking step on is
      the selection, record for record, so it is ranked like the selection. */
  lemma AfterScreeningRanked(results: seq<Record>, topN: int, checks: nat, cancel: Option<nat>,
                             assoc: (string, string, seq<string>) -> Result<AssocReply>)
    ensures RankedOutcome(AfterScreening(results, topN, checks, cancel, assoc).outcome, topN)
  {
    var top := RankAndSelect(results, topN);
    RankSelected(results, topN);
    if Seen(cancel, checks) {
      assert AfterScreening(results, topN, checks, cancel, assoc).outcome == Success(top);
    } else {
      var m := Reached(|top|, checks + 1, cancel);
      AfterScreeningOutcome(results, topN, checks, cancel, assoc);
      ExtractedOutcomeRanked(top, m, assoc, topN);
    }
  }

  /** Whether extraction fails or not, its outcome is ranked like the list. */
  lemma ExtractedOutcomeRanked(top: seq<Record>, m: nat, assoc: (string, string, seq<string>) -> Result<AssocReply>, topN: int)
    requires m <= |top|
    requires RankedOutcome(Success(top), topN)
    ensures var pass := ExtractAll(top[..m], assoc);
      RankedOutcome(if pass.failure.Some? then Failure(pass.failure.value) else Success(pass.done + top[m..]), topN)
  {
    if ExtractAll(top[..m], assoc).failure.None? {
      ExtractedRanked(top, m, assoc, topN);
    }
  }

  /** The outcome of the ranking and extraction step, once not cancelled
      before it. */
  lemma AfterScreeningOutcome(results: seq<Record>, topN: int, checks: nat, cancel: Option<nat>,
                              assoc: (string, string, seq<string>) -> Result<AssocReply>)
    requires !Seen(cancel, checks)
    ensures var top := RankAndSelect(results, topN);
      var m := Reached(|top|, checks + 1, cancel);
      var pass := ExtractAll(top[..m], assoc);
      AfterScreening(results, topN, checks, cancel, assoc).outcome ==
        if pass.failure.Some? then Failure(pass.failure.value) else Success(pass.done + top[m..])
  {
  }

  /** Extraction keeps a ranked list ranked. */
  lemma ExtractedRanked(top: seq<Record>, m: nat, assoc: (string, string, seq<string>) -> Result<AssocReply>, topN: int)
    requires m <= |top| && ExtractAll(top[..m], assoc).failure.None?
    requires RankedOutcome(Success(top), topN)
    ensures RankedOutcome(Success(ExtractAll(top[..m], assoc).done + top[m..]), topN)
  {
    ExtractedList(top, m, assoc);
    var final := ExtractAll(top[..m], assoc).done + top[m..];
    forall i, j | 0 <= i < j < |final|
      ensures final[i].score >= final[j].score
    {
      assert top[i].score >= top[j].score;
    }
    forall k | 0 <= k < |final|
      ensures final[k].relevant
    {
      assert top[k].relevant;
    }
  }

  /** Lines 173-175 and 179-220: what the search returns holds only
      relevant results, best score first, at most `topN` of them. */
  lemma SearchResultRanked(gene: string, maxResults: int, topN: int, includeReprogramming: bool,
                           customTerms: Option<seq<string>>, today: string, cancel: Option<nat>, sv: Services)
    ensures RankedOutcome(SearchGeneSpec(gene, maxResults, topN, includeReprogramming, customTerms, today, cancel, sv).outcome, topN)
  {
    var query := sv.buildQuery(gene, includeReprogramming, customTerms);
    if query.Success? && !Seen(cancel, 0) {
      FromQueryRanked(gene, query.value, maxResults, topN, today, cancel, sv);
    }
  }

  lemma FromQueryRanked(gene: string, query: string, maxResults: int, topN: int, today: string, cancel: Option<nat>,
                        sv: Services)
    ensures RankedOutcome(FromQuery(gene, query, maxResults, topN, today, cancel, sv).outcome, topN)
  {
    var pmids := SearchSpec(query, maxResults, true, true, sv.esearch);
    if pmids != [] && !Seen(cancel, 1) {
      FromPmidsRanked(gene, pmids, topN, today, cancel, sv);
    }
  }

  lemma FromPmidsRanked(gene: string, pmids: seq<string>, topN: int, today: string, cancel: Option<nat>, sv: Services)
    ensures RankedOutcome(FromPmids(gene, pmids, topN, today, cancel, sv).outcome, topN)
  {
    if !Seen(cancel, 2) {
      FromPapersRanked(gene, today, topN, FetchSpec(PmidItems(AsItems(pmids)), sv.efetch), cancel, sv);
    }
  }

  lemma FromPapersRanked(gene: string, today: string, topN: int, papers: seq<Paper>, cancel: Option<nat>, sv: Services)
    ensures RankedOutcome(FromPapers(gene, today, topN, papers, cancel, sv).outcome, topN)
  {
    var n := |papers|;
    var m := Reached(n, 3, cancel);
    var pass := ScreenAll(gene, today, papers[..m], sv.screenPaper);
    var run := FromPapers(gene, today, topN, papers, cancel, sv);
    if pass.failure.None? {
      var rest := AfterScreening(pass.done, topN, 3 + ChecksMade(n, m), cancel, sv.screenAssociation);
      AfterScreeningRanked(pass.done, topN, 3 + ChecksMade(n, m), cancel, sv.screenAssociation);
      assert run.outcome == rest.outcome;
    } else {
      assert run.outcome.Failure?;
    }
  }

  /** The reports from the ranking step on claim four steps, numbered 5 to 7. */
  lemma AfterScreeningSteps(results: seq<Record>, topN: int, checks: nat, cancel: Option<nat>,
                            assoc: (string, string, seq<string>) -> Result<AssocReply>)
    ensures StepsWithin(AfterScreening(results, topN, checks, cancel, assoc).reports, 5, 7)
  {
    var top := RankAndSelect(results, topN);
    var n := |top|;
    if !Seen(cancel, checks) {
      var m := Reached(n, checks + 1, cancel);
      var pass := ExtractAll(top[..m], assoc);
      var extraction := ExtractReports(n, Attempts(pass));
      assert StepsWithin(extraction, 5, 7);
      var cancelled := Seen(cancel, checks + 1 + ChecksMade(n, m));
      FramingSteps(n, cancelled);
      StepsConcat([FilterReport()], ExtractStartReports(n), 5, 7);
      StepsConcat([FilterReport()] + ExtractStartReports(n), extraction, 5, 7);
      var head := [FilterReport()] + ExtractStartReports(n) + extraction;
      AfterScreeningReports(results, topN, checks, cancel, assoc);
      if pass.failure.None? {
        StepsConcat(head, [FinalReport(cancelled, n)], 5, 7);
      }
    }
  }

  /** The reports of the ranking and extraction step, once not cancelled
      before it. */
  lemma AfterScreeningReports(results: seq<Record>, topN: int, checks: nat, cancel: Option<nat>,
                              assoc: (string, string, seq<string>) -> Result<AssocReply>)
    requires !Seen(cancel, checks)
    ensures var n := |RankAndSelect(results, topN)|;
      var m := Reached(n, checks + 1, cancel);
      var pass := ExtractAll(RankAndSelect(results, topN)[..m], assoc);
      var head := [FilterReport()] + ExtractStartReports(n) + ExtractReports(n, Attempts(pass));
      AfterScreening(results, topN, checks, cancel, assoc).reports ==
        if pass.failure.Some? then head
        else head + [FinalReport(Seen(cancel, checks + 1 + ChecksMade(n, m)), n)]
  {
  }

  /** The reports from the screening step on claim four steps, numbered 4 to 7. */
  lemma FromPapersSteps(gene: string, today: string, topN: int, papers: seq<Paper>, cancel: Option<nat>, sv: Services)
    ensures StepsWithin(FromPapers(gene, today, topN, papers, cancel, sv).reports, 4, 7)
  {
    var n := |papers|;
    var m := Reached(n, 3, cancel);
    var pass := ScreenAll(gene, today, papers[..m], sv.screenPaper);
    var screening := ScreenReports(n, Attempts(pass));
    assert StepsWithin(screening, 4, 7);
    StepsConcat([ScreenStartReport(n)], screening, 4, 7);
    if pass.failure.None? {
      var rest := AfterScreening(pass.done, topN, 3 + ChecksMade(n, m), cancel, sv.screenAssociation);
      AfterScreeningSteps(pass.done, topN, 3 + ChecksMade(n, m), cancel, sv.screenAssociation);
      StepsWiden(rest.reports, 5, 7, 4, 7);
      StepsConcat([ScreenStartReport(n)] + screening, rest.reports, 4, 7);
    }
  }

  /** Lines 81-88: every progress report says four steps in total, while the
      step numbers run from 1 to 7. */
  lemma ReportsClaimFourSteps(gene: string, maxResults: int, topN: int, includeReprogramming: bool,
                              customTerms: Option<seq<string>>, today: string, cancel: Option<nat>, sv: Services)
    ensures StepsWithin(SearchGeneSpec(gene, maxResults, topN, includeReprogramming, customTerms, today, cancel, sv).reports, 1, 7)
  {
    var query := sv.buildQuery(gene, includeReprogramming, customTerms);
    OpeningSteps(gene, maxResults, 0);
    if query.Success? && !Seen(cancel, 0) {
      FromQuerySteps(gene, query.value, maxResults, topN, today, cancel, sv);
      StepsConcat([QueryReport(gene)], FromQuery(gene, query.value, maxResults, topN, today, cancel, sv).reports, 1, 7);
    }
  }

  /** The single reports opening a search claim steps 1 to 4 of four. */
  lemma OpeningSteps(gene: string, maxResults: int, count: nat)
    ensures StepsWithin([QueryReport(gene)], 1, 7)
    ensures StepsWithin([SearchReport(maxResults)], 1, 7)
    ensures StepsWithin([NoPapersReport()], 1, 7)
    ensures StepsWithin([FetchReport(count)], 1, 7)
  {
    assert QueryReport(gene).stepNumber == 1;
    assert SearchReport(maxResults).stepNumber == 2;
    assert NoPapersReport().stepNumber == 4;
    assert FetchReport(count).stepNumber == 3;
  }

  lemma FromQuerySteps(gene: string, query: string, maxResults: int, topN: int, today: string, cancel: Option<nat>,
                       sv: Services)
    ensures StepsWithin(FromQuery(gene, query, maxResults, topN, today, cancel, sv).reports, 1, 7)
  {
    var pmids := SearchSpec(query, maxResults, true, true, sv.esearch);
    OpeningSteps(gene, maxResults, |pmids|);
    if pmids == [] {
      StepsConcat([SearchReport(maxResults)], [NoPapersReport()], 1, 7);
      assert [SearchReport(maxResults), NoPapersReport()] == [SearchReport(maxResults)] + [NoPapersReport()];
    } else if !Seen(cancel, 1) {
      FromPmidsSteps(gene, pmids, topN, today, cancel, sv);
      StepsConcat([SearchReport(maxResults)], FromPmids(gene, pmids, topN, today, cancel, sv).reports, 1, 7);
    }
  }

  lemma FromPmidsSteps(gene: string, pmids: seq<string>, topN: int, today: string, cancel: Option<nat>, sv: Services)
    ensures StepsWithin(FromPmids(gene, pmids, topN, today, cancel, sv).reports, 1, 7)
  {
    OpeningSteps(gene, 0, |pmids|);
    if !Seen(cancel, 2) {
      var papers := FetchSpec(PmidItems(AsItems(pmids)), sv.efetch);
      var rest := FromPapers(gene, today, topN, papers, cancel, sv).reports;
      FromPapersSteps(gene, today, topN, papers, cancel, sv);
      StepsWiden(rest, 4, 7, 1, 7);
      StepsConcat([FetchReport(|pmids|)], rest, 1, 7);
    }
  }
}
