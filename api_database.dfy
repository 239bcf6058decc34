/** The value logic of the API's database layer (api/database.py): its own
    `load_database_config`, which merges with six default tables and turns
    every error into a fixed fallback, and the two reshapings
    `get_gene_by_id` applies to query rows: flattening a protein's
    `interval_in_sequence` lists into domains, and lifting the longevity
    fields out of the `evidence` object. The SQL, the connection and the
    remaining query methods are not modelled. */
module ApiDatabase {
  import opened Wrappers
  import Text
  import opened PyJson
  import DatabaseOperations

  // ---------------------------------------------------------------------
  // load_database_config (lines 15-52)
  // ---------------------------------------------------------------------

  /** The six default table names (lines 29-36). */
  const ApiTableNames: seq<string> := ["genes", "proteins", "ptms", "dna_sequences", "protein_sequences",
                                       "longevity_association"]

  /** What any exception inside the `try` returns (line 52). */
  const Fallback: Json := JObj([("schema", JStr("seq2func")), ("tables", JObj([]))])

  /** What the function returns: the merged `database` section, or the
      fallback when the file is missing or unreadable or the merge raises. */
  function ApiConfig(file: DatabaseOperations.ConfigFile): Json {
    match file
    case Missing => Fallback
    case Unreadable(_) => Fallback
    case Parsed(doc) =>
      match DatabaseOperations.MergedDocument(doc, ApiTableNames)
      case Success(config) => config
      case Failure(_) => Fallback
  }

  /** `load_database_config(config_path)`: the same merge loop as the
      loader in utils/database_operations.py, over six tables, with every
      exception caught. */
  method LoadApiConfig(file: DatabaseOperations.ConfigFile) returns (r: Json)
    ensures r == ApiConfig(file)
  {
    if !file.Parsed? {
      return Fallback;
    }
    var merged := DatabaseOperations.LoadMergedDocument(file.doc, ApiTableNames);
    if merged.Failure? {
      return Fallback;
    }
    r := merged.value;
  }

  /** Unlike the loader in utils/database_operations.py, a missing file
      gives the fallback (schema "seq2func", no tables) rather than the
      defaults, and so does a document that is not a dict. */
  lemma MissingFileFallsBack(doc: Json)
    requires !doc.JObj? && !doc.JNull?
    ensures ApiConfig(DatabaseOperations.Missing) == Fallback
    ensures ApiConfig(DatabaseOperations.Parsed(doc)) == Fallback
  {
  }

  /** A `database` section that is a dict, with "tables" a dict if present,
      keeps every user key but "tables", gains a `None` schema and the six
      default tables when they are missing, and has the missing table names
      added to its own tables. */
  lemma ApiMergeKeepsUserKeys(section: seq<(string, Json)>)
    requires Lookup(section, "tables").Some? ==> Lookup(section, "tables").value.JObj?
    ensures var r := ApiConfig(DatabaseOperations.Parsed(JObj([("database", JObj(section))])));
      && r.JObj?
      && (forall k | k != "tables" && Lookup(section, k).Some? :: Lookup(r.fields, k) == Lookup(section, k))
      && (forall k | k != "schema" && k != "tables" && Lookup(section, k).None? :: Lookup(r.fields, k).None?)
      && (Lookup(section, "schema").None? ==> Lookup(r.fields, "schema") == Some(JNull))
      && (Lookup(section, "tables").None? ==>
            Lookup(r.fields, "tables") == Some(JObj(DatabaseOperations.TableDefaults(ApiTableNames))))
      && (Lookup(section, "tables").Some? ==>
            Lookup(r.fields, "tables").Some?
            && DatabaseOperations.MergeTables(Lookup(section, "tables").value, DatabaseOperations.TableDefaults(ApiTableNames))
               == Success(Lookup(r.fields, "tables").value))
  {
    var doc := JObj([("database", JObj(section))]);
    assert Get(doc, "database", JObj([])) == Success(JObj(section));
    var m := DatabaseOperations.MergedWith(JObj(section), DatabaseOperations.DefaultConfig(ApiTableNames));
    DatabaseOperations.MergeKeepsUserKeys(section, ApiTableNames);
    assert ApiConfig(DatabaseOperations.Parsed(doc)) == m.value;
  }

  // ---------------------------------------------------------------------
  // Domains of a protein (lines 186-206)
  // ---------------------------------------------------------------------

  /** One domain entry of a protein's answer. */
  datatype ApiDomain = ApiDomain(domainId: string, accession: Json, name: Json, kind: Json,
                                 startPosition: Json, endPosition: Json)

  /** `f"{protein_id}_domain_{i}"`. */
  function DomainId(proteinId: string, i: nat): string {
    proteinId + "_domain_" + Text.NatToString(i)
  }

  /** The entry for interval `i` of a row; only a dict has `.get`. */
  function DomainOf(proteinId: string, i: nat, interval: Json): (r: Result<ApiDomain>)
    ensures r.Success? <==> interval.JObj?
  {
    if !interval.JObj? then Failure("'" + TypeName(interval) + "' object has no attribute 'get'")
    else
      var f := interval.fields;
      Success(ApiDomain(DomainId(proteinId, i),
                        Lookup(f, "accession").GetOr(JStr("")), Lookup(f, "name").GetOr(JStr("")),
                        Lookup(f, "type").GetOr(JStr("")),
                        Lookup(f, "start").GetOr(JNull), Lookup(f, "end").GetOr(JNull)))
  }

  /** The inner loop over one row's intervals, numbered from 0. */
  function RowDomains(proteinId: string, intervals: seq<Json>): Result<seq<ApiDomain>> {
    if intervals == [] then Success([])
    else match RowDomains(proteinId, intervals[..|intervals| - 1])
      case Failure(e) => Failure(e)
      case Success(ds) =>
        match DomainOf(proteinId, |intervals| - 1, intervals[|intervals| - 1])
        case Failure(e) => Failure(e)
        case Success(d) => Success(ds + [d])
  }

  /** The rows that are lists: `intervals and isinstance(intervals, list)`. */
  predicate ListRow(row: Json) {
    row.JArr? && row.items != []
  }

  /** The outer loop over the rows' `interval_in_sequence` values. */
  function Domains(proteinId: string, rows: seq<Json>): Result<seq<ApiDomain>> {
    if rows == [] then Success([])
    else match Domains(proteinId, rows[..|rows| - 1])
      case Failure(e) => Failure(e)
      case Success(ds) =>
        var row := rows[|rows| - 1];
        if !ListRow(row) then Success(ds)
        else match RowDomains(proteinId, row.items)
          case Failure(e) => Failure(e)
          case Success(more) => Success(ds + more)
  }

  lemma {:induction false} RowDomainsFailureSticks(proteinId: string, intervals: seq<Json>, k: nat, e: string)
    requires k <= |intervals| && RowDomains(proteinId, intervals[..k]) == Failure(e)
    ensures RowDomains(proteinId, intervals) == Failure(e)
    decreases |intervals| - k
  {
    if k < |intervals| {
      assert intervals[..k + 1][..k] == intervals[..k];
      RowDomainsFailureSticks(proteinId, intervals, k + 1, e);
    } else {
      assert intervals[..k] == intervals;
    }
  }

  lemma {:induction false} DomainsFailureSticks(proteinId: string, rows: seq<Json>, k: nat, e: string)
    requires k <= |rows| && Domains(proteinId, rows[..k]) == Failure(e)
    ensures Domains(proteinId, rows) == Failure(e)
    decreases |rows| - k
  {
    if k < |rows| {
      assert rows[..k + 1][..k] == rows[..k];
      DomainsFailureSticks(proteinId, rows, k + 1, e);
    } else {
      assert rows[..k] == rows;
    }
  }

  /** The inner loop, appending one row's domains to `acc`. */
  method AppendRowDomains(acc: seq<ApiDomain>, proteinId: string, intervals: seq<Json>) returns (r: Result<seq<ApiDomain>>)
    ensures RowDomains(proteinId, intervals).Failure? ==> r == RowDomains(proteinId, intervals)
    ensures RowDomains(proteinId, intervals).Success? ==> r == Success(acc + RowDomains(proteinId, intervals).value)
  {
    var domains := acc;
    var i := 0;
    while i < |intervals|
      invariant 0 <= i <= |intervals|
      invariant RowDomains(proteinId, intervals[..i]).Success?
      invariant domains == acc + RowDomains(proteinId, intervals[..i]).value
    {
      var interval := intervals[i];
      assert intervals[..i + 1][..i] == intervals[..i];
      var d := DomainOf(proteinId, i, interval);
      if d.Failure? {
        RowDomainsFailureSticks(proteinId, intervals, i + 1, d.error);
        return Failure(d.error);
      }
      domains := domains + [d.value];
      i := i + 1;
    }
    assert intervals[..i] == intervals;
    r := Success(domains);
  }

  /** `protein_data['domains']` for one protein: the nested loop of lines
      193-206 over the rows of its protein_sequences query. */
  method ProteinDomains(proteinId: string, rows: seq<Json>) returns (r: Result<seq<ApiDomain>>)
    ensures r == Domains(proteinId, rows)
  {
    var domains: seq<ApiDomain> := [];
    var k := 0;
    while k < |rows|
      invariant 0 <= k <= |rows|
      invariant Domains(proteinId, rows[..k]) == Success(domains)
    {
      var intervals := rows[k];
      assert rows[..k + 1][..k] == rows[..k];
      if intervals.JArr? && intervals.items != [] {
        var next := AppendRowDomains(domains, proteinId, intervals.items);
        if next.Failure? {
          DomainsFailureSticks(proteinId, rows, k + 1, next.error);
          return next;
        }
        domains := next.value;
      }
      k := k + 1;
    }
    assert rows[..k] == rows;
    r := Success(domains);
  }

  /** A row's intervals yield domains exactly when every one of them is a
      dict; otherwise `.get` raises on the first one that is not. */
  lemma {:induction false} RowDomainsSucceeds(proteinId: string, intervals: seq<Json>)
    ensures RowDomains(proteinId, intervals).Success? <==> forall i | 0 <= i < |intervals| :: intervals[i].JObj?
  {
    if intervals != [] {
      var n := |intervals| - 1;
      var init := intervals[..n];
      RowDomainsSucceeds(proteinId, init);
      if RowDomains(proteinId, init).Failure? {
        var i :| 0 <= i < |init| && !init[i].JObj?;
        assert !intervals[i].JObj?;
      } else if !intervals[n].JObj? {
      } else {
        forall i | 0 <= i < |intervals|
          ensures intervals[i].JObj?
        {
          if i < n {
            assert intervals[i] == init[i];
          }
        }
      }
    }
  }

  /** A row that yields domains yields one per interval, in order, numbered
      from 0 and read with the defaults of `DomainOf`. */
  lemma {:induction false} RowDomainsValues(proteinId: string, intervals: seq<Json>)
    requires RowDomains(proteinId, intervals).Success?
    ensures var ds := RowDomains(proteinId, intervals).value;
      && |ds| == |intervals|
      && forall i | 0 <= i < |intervals| ::
           DomainOf(proteinId, i, intervals[i]).Success? && ds[i] == DomainOf(proteinId, i, intervals[i]).value
  {
    if intervals != [] {
      var n := |intervals| - 1;
      var init := intervals[..n];
      var prev := RowDomains(proteinId, init);
      var last := DomainOf(proteinId, n, intervals[n]);
      assert prev.Success? && last.Success?;
      RowDomainsValues(proteinId, init);
      var ds := prev.value + [last.value];
      assert RowDomains(proteinId, intervals) == Success(ds);
      forall i | 0 <= i < |intervals|
        ensures DomainOf(proteinId, i, intervals[i]).Success? && ds[i] == DomainOf(proteinId, i, intervals[i]).value
      {
        if i < n {
          assert intervals[i] == init[i] && ds[i] == prev.value[i];
        } else {
          assert ds[i] == last.value;
        }
      }
    }
  }

  /** A domain read from a dict interval carries the protein's id and its
      index, and the interval's fields with their defaults. */
  lemma DomainFields(proteinId: string, i: nat, fields: seq<(string, Json)>)
    ensures var d := DomainOf(proteinId, i, JObj(fields)).value;
      && d.domainId == proteinId + "_domain_" + Text.NatToString(i)
      && d.accession == (if Lookup(fields, "accession").Some? then Lookup(fields, "accession").value else JStr(""))
      && d.name == (if Lookup(fields, "name").Some? then Lookup(fields, "name").value else JStr(""))
      && d.kind == (if Lookup(fields, "type").Some? then Lookup(fields, "type").value else JStr(""))
      && d.startPosition == (if Lookup(fields, "start").Some? then Lookup(fields, "start").value else JNull)
      && d.endPosition == (if Lookup(fields, "end").Some? then Lookup(fields, "end").value else JNull)
  {
  }

  /** Rows that are not non-empty lists add no domain. */
  lemma {:induction false} NonListRowsIgnored(proteinId: string, rows: seq<Json>, row: Json)
    requires !ListRow(row)
    ensures Domains(proteinId, rows + [row]) == Domains(proteinId, rows)
  {
    assert (rows + [row])[..|rows|] == rows;
  }

  /** The numbering restarts in every row: two rows holding one interval
      each give two domains with the same id. */
  lemma IdsRestartPerRow(proteinId: string, a: seq<(string, Json)>, b: seq<(string, Json)>)
    ensures var r := Domains(proteinId, [JArr([JObj(a)]), JArr([JObj(b)])]);
      r.Success? && |r.value| == 2 && r.value[0].domainId == r.value[1].domainId == DomainId(proteinId, 0)
  {
    var rows := [JArr([JObj(a)]), JArr([JObj(b)])];
    var da := DomainOf(proteinId, 0, JObj(a)).value;
    var db := DomainOf(proteinId, 0, JObj(b)).value;
    assert [JObj(a)][..0] == [] && [JObj(b)][..0] == [];
    assert RowDomains(proteinId, []) == Success([]);
    assert [] + [da] == [da] && [] + [db] == [db];
    assert DomainOf(proteinId, |[JObj(a)]| - 1, [JObj(a)][0]) == Success(da);
    assert DomainOf(proteinId, |[JObj(b)]| - 1, [JObj(b)][0]) == Success(db);
    assert RowDomains(proteinId, [JObj(a)]) == Success([da]);
    assert RowDomains(proteinId, [JObj(b)]) == Success([db]);
    assert rows[..1][..0] == [];
    assert Domains(proteinId, rows[..1]) == Success([da]);
    assert rows[..|rows| - 1] == rows[..1];
    assert Domains(proteinId, rows) == Success([da] + [db]);
  }

  // ---------------------------------------------------------------------
  // Longevity fields of a gene (lines 149-155)
  // ---------------------------------------------------------------------

  /** `gene_data.get('evidence') and isinstance(gene_data['evidence'], dict)`. */
  predicate HasEvidence(gene: seq<(string, Json)>) {
    Lookup(gene, "evidence").Some? && Lookup(gene, "evidence").value.JObj? && Lookup(gene, "evidence").value.fields != []
  }

  /** The gene row with the evidence's fields copied to the top level. */
  function WithLongevity(gene: seq<(string, Json)>): seq<(string, Json)> {
    if !HasEvidence(gene) then gene
    else
      var ev := Lookup(gene, "evidence").value.fields;
      var g1 := Assign(gene, "expression_change", Lookup(ev, "expression_change").GetOr(JNull));
      var g2 := Assign(g1, "functional_clusters", Lookup(ev, "functional_clusters").GetOr(JArr([])));
      var g3 := Assign(g2, "aging_mechanisms", Lookup(ev, "aging_mechanisms").GetOr(JArr([])));
      Assign(g3, "comment_causes", Lookup(ev, "comment_causes").GetOr(JArr([])))
  }

  /** Lines 150-155: the four assignments into `gene_data`, in place. */
  method ExtractLongevity(gene: seq<(string, Json)>) returns (r: seq<(string, Json)>)
    ensures r == WithLongevity(gene)
  {
    r := gene;
    var evidence := Lookup(gene, "evidence");
    if evidence.Some? && evidence.value.JObj? && evidence.value.fields != [] {
      var ev := evidence.value.fields;
      r := Assign(r, "expression_change", Lookup(ev, "expression_change").GetOr(JNull));
      r := Assign(r, "functional_clusters", Lookup(ev, "functional_clusters").GetOr(JArr([])));
      r := Assign(r, "aging_mechanisms", Lookup(ev, "aging_mechanisms").GetOr(JArr([])));
      r := Assign(r, "comment_causes", Lookup(ev, "comment_causes").GetOr(JArr([])));
    }
  }

  /** The four keys the extraction writes. */
  predicate LongevityKey(k: string) {
    k == "expression_change" || k == "functional_clusters" || k == "aging_mechanisms" || k == "comment_causes"
  }

  /** With a non-empty evidence dict the four fields are the evidence's
      (`None` or [] when absent) and every other key is unchanged; without
      one the row is returned as it is. */
  lemma LongevityFields(gene: seq<(string, Json)>)
    ensures !HasEvidence(gene) ==> WithLongevity(gene) == gene
    ensures HasEvidence(gene) ==>
      var r := WithLongevity(gene); var ev := Lookup(gene, "evidence").value.fields;
      && Lookup(r, "expression_change") == Some(Lookup(ev, "expression_change").GetOr(JNull))
      && Lookup(r, "functional_clusters") == Some(Lookup(ev, "functional_clusters").GetOr(JArr([])))
      && Lookup(r, "aging_mechanisms") == Some(Lookup(ev, "aging_mechanisms").GetOr(JArr([])))
      && Lookup(r, "comment_causes") == Some(Lookup(ev, "comment_causes").GetOr(JArr([])))
      && forall k | !LongevityKey(k) :: Lookup(r, k) == Lookup(gene, k)
  {
    if HasEvidence(gene) {
      var ev := Lookup(gene, "evidence").value.fields;
      AssignFour(gene, Lookup(ev, "expression_change").GetOr(JNull), Lookup(ev, "functional_clusters").GetOr(JArr([])),
                 Lookup(ev, "aging_mechanisms").GetOr(JArr([])), Lookup(ev, "comment_causes").GetOr(JArr([])));
    }
  }

  /** The four assignments in a row. */
  lemma AssignFour(gene: seq<(string, Json)>, v1: Json, v2: Json, v3: Json, v4: Json)
    ensures var r := Assign(Assign(Assign(Assign(gene, "expression_change", v1), "functional_clusters", v2),
                                   "aging_mechanisms", v3), "comment_causes", v4);
      && Lookup(r, "expression_change") == Some(v1) && Lookup(r, "functional_clusters") == Some(v2)
      && Lookup(r, "aging_mechanisms") == Some(v3) && Lookup(r, "comment_causes") == Some(v4)
      && forall k | !LongevityKey(k) :: Lookup(r, k) == Lookup(gene, k)
  {
    assert "expression_change" != "functional_clusters" by { assert |"expression_change"| == 17; }
    assert "expression_change" != "aging_mechanisms" by { assert |"aging_mechanisms"| == 16; }
    assert "expression_change" != "comment_causes" by { assert |"comment_causes"| == 14; }
    assert "functional_clusters" != "aging_mechanisms" by { assert |"functional_clusters"| == 19; }
    assert "functional_clusters" != "comment_causes" by { assert |"comment_causes"| == 14; }
    assert "aging_mechanisms" != "comment_causes" by { assert |"comment_causes"| == 14; }
    AssignDistinct(gene, "expression_change", "functional_clusters", "aging_mechanisms", "comment_causes",
                   v1, v2, v3, v4);
  }

  /** Four assignments to distinct keys: each key holds its value and
      every other key is unchanged. */
  lemma AssignDistinct(gene: seq<(string, Json)>, k1: string, k2: string, k3: string, k4: string,
                       v1: Json, v2: Json, v3: Json, v4: Json)
    requires k1 != k2 && k1 != k3 && k1 != k4 && k2 != k3 && k2 != k4 && k3 != k4
    ensures var r := Assign(Assign(Assign(Assign(gene, k1, v1), k2, v2), k3, v3), k4, v4);
      && Lookup(r, k1) == Some(v1) && Lookup(r, k2) == Some(v2)
      && Lookup(r, k3) == Some(v3) && Lookup(r, k4) == Some(v4)
      && forall k | k != k1 && k != k2 && k != k3 && k != k4 :: Lookup(r, k) == Lookup(gene, k)
  {
  }
}
