/** The database-side value logic of utils/database_operations.py: the
    configuration loader that merges the YAML file's `database` section with
    the defaults, and the values `insert_gene_data` writes for one gene.
    The SQL itself (statements, the connection, commit and rollback, the
    existing-row check on the DNA table, MD5 checksums) is not modelled:
    `insert_gene_data` is modelled as the plan of rows it writes. */
module DatabaseOperations {
  import opened Wrappers
  import opened PyJson
  import FetchData
  import PsiModMapping

  // ---------------------------------------------------------------------
  // load_database_config (lines 34-106)
  // ---------------------------------------------------------------------

  /** What opening and parsing the YAML file gave: the parsed document, a
      missing file, or another error (a YAML error or any other exception)
      with its message. */
  datatype ConfigFile = Parsed(doc: Json) | Missing | Unreadable(message: string)

  /** The nine default table names (lines 58-68). */
  const TableNames: seq<string> := ["genes", "proteins", "ptms", "dna_sequences", "protein_sequences",
                                    "longevity_association", "gene_master", "protein_master",
                                    "gene_transcript_protein"]

  /** Each table name mapped to itself. */
  function TableDefaults(names: seq<string>): seq<(string, Json)> {
    seq(|names|, i requires 0 <= i < |names| => (names[i], JStr(names[i])))
  }

  /** `default_config`: no schema and the given tables. */
  function DefaultConfig(names: seq<string>): seq<(string, Json)> {
    [("schema", JNull), ("tables", JObj(TableDefaults(names)))]
  }

  /** The defaults' "tables" entries are dicts, so `value.items()` applies. */
  predicate TablesAreDicts(defaults: seq<(string, Json)>) {
    forall i | 0 <= i < |defaults| && defaults[i].0 == "tables" :: defaults[i].1.JObj?
  }

  /** The inner loop (lines 76-78): each default table name that is not `in`
      the user's tables is added with its default. */
  function MergeTables(tables: Json, defaults: seq<(string, Json)>): Result<Json> {
    if defaults == [] then Success(tables)
    else match MergeTables(tables, defaults[..|defaults| - 1])
      case Failure(e) => Failure(e)
      case Success(t) =>
        var (k, v) := defaults[|defaults| - 1];
        match In(k, t)
        case Failure(e) => Failure(e)
        case Success(present) => if present then Success(t) else SetItem(t, k, v)
  }

  /** One step of the outer loop (lines 72-78): a missing key takes its
      default; a present "tables" entry is merged name by name (the dict is
      updated in place, so the merged value is what the key then holds). */
  function MergeEntry(config: Json, key: string, value: Json): Result<Json>
    requires key == "tables" ==> value.JObj?
  {
    match In(key, config)
    case Failure(e) => Failure(e)
    case Success(present) =>
      if !present then SetItem(config, key, value)
      else if key != "tables" then Success(config)
      else match GetItem(config, key)
        case Failure(e) => Failure(e)
        case Success(tables) =>
          match MergeTables(tables, value.fields)
          case Failure(e) => Failure(e)
          case Success(merged) => SetItem(config, key, merged)
  }

  function MergedWith(config: Json, defaults: seq<(string, Json)>): Result<Json>
    requires TablesAreDicts(defaults)
  {
    if defaults == [] then Success(config)
    else match MergedWith(config, defaults[..|defaults| - 1])
      case Failure(e) => Failure(e)
      case Success(c) => MergeEntry(c, defaults[|defaults| - 1].0, defaults[|defaults| - 1].1)
  }

  /** The body of the `try` for a parsed document (lines 49-80): `None` is
      read as `{}`, the `database` section is taken (default `{}`) and
      merged with the defaults for `names`. A document that is not a dict
      has no `.get` and raises. */
  function MergedDocument(doc: Json, names: seq<string>): Result<Json> {
    var config := if doc.JNull? then JObj([]) else doc;
    match Get(config, "database", JObj([]))
    case Failure(e) => Failure(e)
    case Success(section) => MergedWith(section, DefaultConfig(names))
  }

  /** What `load_database_config` returns: the merged section, the full
      defaults for a missing file, or the re-raised error. */
  function DatabaseConfig(file: ConfigFile): Result<Json> {
    match file
    case Missing => Success(JObj(DefaultConfig(TableNames)))
    case Unreadable(e) => Failure(e)
    case Parsed(doc) => MergedDocument(doc, TableNames)
  }

  lemma {:induction false} MergeTablesFailureSticks(tables: Json, defaults: seq<(string, Json)>, k: nat, e: string)
    requires k <= |defaults| && MergeTables(tables, defaults[..k]) == Failure(e)
    ensures MergeTables(tables, defaults) == Failure(e)
    decreases |defaults| - k
  {
    if k < |defaults| {
      assert defaults[..k + 1][..k] == defaults[..k];
      MergeTablesFailureSticks(tables, defaults, k + 1, e);
    } else {
      assert defaults[..k] == defaults;
    }
  }

  lemma {:induction false} MergedWithFailureSticks(config: Json, defaults: seq<(string, Json)>, k: nat, e: string)
    requires TablesAreDicts(defaults)
    requires k <= |defaults| && MergedWith(config, defaults[..k]) == Failure(e)
    ensures MergedWith(config, defaults) == Failure(e)
    decreases |defaults| - k
  {
    if k < |defaults| {
      assert defaults[..k + 1][..k] == defaults[..k];
      MergedWithFailureSticks(config, defaults, k + 1, e);
    } else {
      assert defaults[..k] == defaults;
    }
  }

  /** The inner merge loop, updating the user's tables in place. */
  method MergeTableNames(tables: Json, defaults: seq<(string, Json)>) returns (r: Result<Json>)
    ensures r == MergeTables(tables, defaults)
  {
    var current := tables;
    var i := 0;
    while i < |defaults|
      invariant 0 <= i <= |defaults|
      invariant MergeTables(tables, defaults[..i]) == Success(current)
    {
      var (tableKey, tableValue) := defaults[i];
      assert defaults[..i + 1][..i] == defaults[..i];
      var present := In(tableKey, current);
      if present.Failure? {
        MergeTablesFailureSticks(tables, defaults, i + 1, present.error);
        return Failure(present.error);
      }
      if !present.value {
        var updated := SetItem(current, tableKey, tableValue);
        if updated.Failure? {
          MergeTablesFailureSticks(tables, defaults, i + 1, updated.error);
          return Failure(updated.error);
        }
        current := updated.value;
      }
      i := i + 1;
    }
    assert defaults[..i] == defaults;
    r := Success(current);
  }

  /** The outer merge loop (lines 71-78). */
  method MergeDefaults(section: Json, defaults: seq<(string, Json)>) returns (r: Result<Json>)
    requires TablesAreDicts(defaults)
    ensures r == MergedWith(section, defaults)
  {
    var config := section;
    var i := 0;
    while i < |defaults|
      invariant 0 <= i <= |defaults|
      invariant MergedWith(section, defaults[..i]) == Success(config)
    {
      var (key, value) := defaults[i];
      assert defaults[..i + 1][..i] == defaults[..i];
      var step: Result<Json>;
      var present := In(key, config);
      if present.Failure? {
        step := Failure(present.error);
      } else if !present.value {
        step := SetItem(config, key, value);
      } else if key != "tables" {
        step := Success(config);
      } else {
        var tables := GetItem(config, key);
        if tables.Failure? {
          step := Failure(tables.error);
        } else {
          var merged := MergeTableNames(tables.value, value.fields);
          if merged.Failure? {
            step := Failure(merged.error);
          } else {
            step := SetItem(config, key, merged.value);
          }
        }
      }
      if step.Failure? {
        MergedWithFailureSticks(section, defaults, i + 1, step.error);
        return Failure(step.error);
      }
      config := step.value;
      i := i + 1;
    }
    assert defaults[..i] == defaults;
    r := Success(config);
  }

  lemma DefaultConfigTablesAreDicts(names: seq<string>)
    ensures TablesAreDicts(DefaultConfig(names))
  {
  }

  /** The `try` body for a parsed document, over `names`. */
  method LoadMergedDocument(doc: Json, names: seq<string>) returns (r: Result<Json>)
    ensures r == MergedDocument(doc, names)
  {
    var config := if doc.JNull? then JObj([]) else doc;
    var section := Get(config, "database", JObj([]));
    if section.Failure? {
      return Failure(section.error);
    }
    DefaultConfigTablesAreDicts(names);
    r := MergeDefaults(section.value, DefaultConfig(names));
  }

  /** `load_database_config(config_path)`. */
  method LoadDatabaseConfig(file: ConfigFile) returns (r: Result<Json>)
    ensures r == DatabaseConfig(file)
  {
    match file {
      case Missing => r := Success(JObj(DefaultConfig(TableNames)));
      case Unreadable(e) => r := Failure(e);
      case Parsed(doc) => r := LoadMergedDocument(doc, TableNames);
    }
  }

  /** Merging into a dict, one key at a time: a user entry is kept and a
      missing key finds the first default given for it. */
  lemma {:induction false} MergeTablesAt(fields: seq<(string, Json)>, defaults: seq<(string, Json)>, k: string)
    ensures MergeTables(JObj(fields), defaults).Success? && MergeTables(JObj(fields), defaults).value.JObj?
    ensures Lookup(MergeTables(JObj(fields), defaults).value.fields, k) ==
      if Lookup(fields, k).Some? then Lookup(fields, k) else Lookup(defaults, k)
  {
    MergeTablesDict(fields, defaults);
    if defaults != [] {
      var init := defaults[..|defaults| - 1];
      var (k', v) := defaults[|defaults| - 1];
      MergeTablesAt(fields, init, k);
      MergeTablesAt(fields, init, k');
      MergeTablesStep(fields, defaults);
      LookupLast(defaults, k);
      var t := MergeTables(JObj(fields), init).value.fields;
      var u := MergeTables(JObj(fields), defaults).value.fields;
      if Lookup(t, k').Some? {
        assert u == t;
      } else if k == k' {
        assert Lookup(u, k) == Some(v);
      } else {
        assert Lookup(u, k) == Lookup(t, k);
      }
    }
  }

  lemma {:induction false} MergeTablesDict(fields: seq<(string, Json)>, defaults: seq<(string, Json)>)
    ensures MergeTables(JObj(fields), defaults).Success? && MergeTables(JObj(fields), defaults).value.JObj?
  {
    if defaults != [] {
      MergeTablesDict(fields, defaults[..|defaults| - 1]);
    }
  }

  /** One default: a key already present leaves the dict as it is, a missing
      one is added. */
  lemma MergeTablesStep(fields: seq<(string, Json)>, defaults: seq<(string, Json)>)
    requires defaults != []
    ensures MergeTables(JObj(fields), defaults[..|defaults| - 1]).Success?
    ensures MergeTables(JObj(fields), defaults[..|defaults| - 1]).value.JObj?
    ensures MergeTables(JObj(fields), defaults).Success? && MergeTables(JObj(fields), defaults).value.JObj?
    ensures var t := MergeTables(JObj(fields), defaults[..|defaults| - 1]).value.fields;
      var (k', v) := defaults[|defaults| - 1];
      MergeTables(JObj(fields), defaults).value.fields == if Lookup(t, k').Some? then t else Assign(t, k', v)
  {
    MergeTablesDict(fields, defaults[..|defaults| - 1]);
    MergeTablesDict(fields, defaults);
    LookupFound(MergeTables(JObj(fields), defaults[..|defaults| - 1]).value.fields, defaults[|defaults| - 1].0);
  }

  /** Merging into a dict keeps every user entry and adds each missing
      default name with the first default given for it. */
  lemma MergeTablesKeeps(fields: seq<(string, Json)>, defaults: seq<(string, Json)>)
    ensures MergeTables(JObj(fields), defaults).Success?
    ensures var t := MergeTables(JObj(fields), defaults).value;
      && t.JObj?
      && (forall k | Lookup(fields, k).Some? :: Lookup(t.fields, k) == Lookup(fields, k))
      && (forall k | Lookup(fields, k).None? :: Lookup(t.fields, k) == Lookup(defaults, k))
  {
    MergeTablesAt(fields, defaults, "");
    forall k {
      MergeTablesAt(fields, defaults, k);
    }
  }

  /** The outer loop over the two default keys is two merge steps. */
  lemma MergedWithDefaults(config: Json, names: seq<string>)
    ensures TablesAreDicts(DefaultConfig(names))
    ensures MergedWith(config, DefaultConfig(names)) ==
      match MergeEntry(config, "schema", JNull)
      case Failure(e) => Failure(e)
      case Success(c) => MergeEntry(c, "tables", JObj(TableDefaults(names)))
  {
    var defaults := DefaultConfig(names);
    assert defaults[..1] == [("schema", JNull)];
    assert defaults[..1][..0] == [];
    assert MergedWith(config, defaults[..1]) == MergeEntry(config, "schema", JNull);
    assert defaults[1] == ("tables", JObj(TableDefaults(names)));
  }

  /** The "schema" step: a missing key becomes `None`, nothing else changes. */
  lemma SchemaStep(fields: seq<(string, Json)>)
    ensures var r := MergeEntry(JObj(fields), "schema", JNull);
      && r.Success? && r.value.JObj?
      && Lookup(r.value.fields, "schema") == (if Lookup(fields, "schema").Some? then Lookup(fields, "schema") else Some(JNull))
      && forall k | k != "schema" :: Lookup(r.value.fields, k) == Lookup(fields, k)
  {
    LookupFound(fields, "schema");
  }

  /** The "tables" step: missing tables become the defaults, a dict of
      tables is merged name by name, nothing else changes. */
  lemma TablesStep(fields: seq<(string, Json)>, names: seq<string>)
    requires Lookup(fields, "tables").Some? ==> Lookup(fields, "tables").value.JObj?
    ensures var r := MergeEntry(JObj(fields), "tables", JObj(TableDefaults(names)));
      && r.Success? && r.value.JObj?
      && (forall k | k != "tables" :: Lookup(r.value.fields, k) == Lookup(fields, k))
      && (Lookup(fields, "tables").None? ==> Lookup(r.value.fields, "tables") == Some(JObj(TableDefaults(names))))
      && (Lookup(fields, "tables").Some? ==>
            Lookup(r.value.fields, "tables").Some?
            && MergeTables(Lookup(fields, "tables").value, TableDefaults(names)) == Success(Lookup(r.value.fields, "tables").value))
  {
    LookupFound(fields, "tables");
    if Lookup(fields, "tables").Some? {
      var t := Lookup(fields, "tables").value;
      MergeTablesKeeps(t.fields, TableDefaults(names));
      assert GetItem(JObj(fields), "tables") == Success(t);
    }
  }

  /** The merge of the two default keys into a dict, one key at a time. */
  lemma MergeSectionAt(fields: seq<(string, Json)>, names: seq<string>, k: string)
    requires Lookup(fields, "tables").Some? ==> Lookup(fields, "tables").value.JObj?
    ensures var r := MergedWith(JObj(fields), DefaultConfig(names));
      && r.Success? && r.value.JObj?
      && (k == "tables" && Lookup(fields, k).Some? ==>
            Lookup(r.value.fields, k).Some?
            && MergeTables(Lookup(fields, k).value, TableDefaults(names)) == Success(Lookup(r.value.fields, k).value))
      && (k != "tables" || Lookup(fields, k).None? ==>
            Lookup(r.value.fields, k) == if Lookup(fields, k).Some? then Lookup(fields, k) else Lookup(DefaultConfig(names), k))
  {
    MergedWithDefaults(JObj(fields), names);
    SchemaStep(fields);
    var c1 := MergeEntry(JObj(fields), "schema", JNull).value;
    TablesStep(c1.fields, names);
    var c2 := MergeEntry(c1, "tables", JObj(TableDefaults(names))).value;
    assert MergedWith(JObj(fields), DefaultConfig(names)) == Success(c2);
    DefaultConfigLookup(names, k);
    if k == "schema" {
      assert Lookup(c2.fields, k) == Lookup(c1.fields, k);
    } else if k == "tables" {
      assert Lookup(c1.fields, k) == Lookup(fields, k);
    } else {
      assert Lookup(c2.fields, k) == Lookup(c1.fields, k) == Lookup(fields, k);
    }
  }

  lemma DefaultConfigLookup(names: seq<string>, k: string)
    ensures Lookup(DefaultConfig(names), k) ==
      if k == "schema" then Some(JNull) else if k == "tables" then Some(JObj(TableDefaults(names))) else None
  {
    var d := DefaultConfig(names);
    assert d[1..] == [("tables", JObj(TableDefaults(names)))];
    assert d[1..][1..] == [];
    assert Lookup(d[1..], k) == if k == "tables" then Some(JObj(TableDefaults(names))) else None;
  }

  /** The merged section of a dict whose "tables" entry, if any, is a dict:
      every user entry other than "tables" is kept as it is, a missing
      "schema" becomes `None`, missing "tables" become the defaults, present
      "tables" are merged name by name, and nothing else is added. */
  lemma MergeKeepsUserKeys(fields: seq<(string, Json)>, names: seq<string>)
    requires Lookup(fields, "tables").Some? ==> Lookup(fields, "tables").value.JObj?
    ensures var r := MergedWith(JObj(fields), DefaultConfig(names));
      && r.Success? && r.value.JObj?
      && (forall k | k != "tables" && Lookup(fields, k).Some? :: Lookup(r.value.fields, k) == Lookup(fields, k))
      && (forall k | k != "schema" && k != "tables" && Lookup(fields, k).None? :: Lookup(r.value.fields, k).None?)
      && (Lookup(fields, "schema").None? ==> Lookup(r.value.fields, "schema") == Some(JNull))
      && (Lookup(fields, "tables").None? ==> Lookup(r.value.fields, "tables") == Some(JObj(TableDefaults(names))))
      && (Lookup(fields, "tables").Some? ==>
            Lookup(r.value.fields, "tables").Some?
            && MergeTables(Lookup(fields, "tables").value, TableDefaults(names)) == Success(Lookup(r.value.fields, "tables").value))
  {
    var r := MergedWith(JObj(fields), DefaultConfig(names));
    MergeSectionAt(fields, names, "schema");
    MergeSectionAt(fields, names, "tables");
    DefaultConfigLookup(names, "schema");
    DefaultConfigLookup(names, "tables");
    forall k | k != "tables" && Lookup(fields, k).Some?
      ensures Lookup(r.value.fields, k) == Lookup(fields, k)
    {
      MergeSectionAt(fields, names, k);
    }
    forall k | k != "schema" && k != "tables" && Lookup(fields, k).None?
      ensures Lookup(r.value.fields, k).None?
    {
      MergeSectionAt(fields, names, k);
      DefaultConfigLookup(names, k);
    }
  }

  /** An empty document and a missing file give the same configuration. */
  lemma NullDocumentIsDefault()
    ensures DatabaseConfig(Parsed(JNull)) == DatabaseConfig(Missing)
    ensures DatabaseConfig(Parsed(JObj([]))) == DatabaseConfig(Missing)
  {
    MergedWithDefaults(JObj([]), TableNames);
    var c1 := [("schema", JNull)];
    assert MergeEntry(JObj([]), "schema", JNull) == Success(JObj(c1));
    assert Keys(c1) == ["schema"];
    var tables := JObj(TableDefaults(TableNames));
    assert In("tables", JObj(c1)) == Success(false);
    assert Assign(c1, "tables", tables) == c1 + [("tables", tables)] == DefaultConfig(TableNames);
    assert MergeEntry(JObj(c1), "tables", JObj(TableDefaults(TableNames))) == Success(JObj(DefaultConfig(TableNames)));
  }

  /** The defaults map each of the nine table names to itself and leave the
      schema unset. */
  lemma MissingFileDefaults()
    ensures DatabaseConfig(Missing).Success?
    ensures var c := DatabaseConfig(Missing).value;
      && c.JObj? && Keys(c.fields) == ["schema", "tables"]
      && Lookup(c.fields, "schema") == Some(JNull)
      && |TableNames| == 9
      && forall n | n in TableNames :: Lookup(Lookup(c.fields, "tables").value.fields, n) == Some(JStr(n))
  {
    var t := TableDefaults(TableNames);
    forall n | n in TableNames
      ensures Lookup(t, n) == Some(JStr(n))
    {
      var i :| 0 <= i < |TableNames| && TableNames[i] == n;
      LookupDefaultTable(TableNames, i);
    }
  }

  lemma {:induction false} LookupDefaultTable(names: seq<string>, i: nat)
    requires i < |names|
    ensures Lookup(TableDefaults(names), names[i]) == Some(JStr(names[i]))
  {
    var t := TableDefaults(names);
    if names[0] != names[i] {
      assert t[1..] == TableDefaults(names[1..]);
      LookupDefaultTable(names[1..], i - 1);
    }
  }

  // ---------------------------------------------------------------------
  // insert_gene_data (lines 532-810)
  // ---------------------------------------------------------------------

  /** The `hgnc_data` dict: `None` is a missing key. */
  datatype HgncDict = HgncDict(
    ensemblGeneId: Option<string>,
    approvedSymbol: Option<string>,
    geneName: Option<string>,
    hgncId: Option<string>,
    geneId: Option<string>,
    geneAliases: Option<seq<string>>)

  /** The `protein_data` tuple `(uniprot_id, protein_name, protein_sequence,
      protein_function, ptm_data, protein_aliases)`; the PTMs are dicts. */
  datatype ProteinTuple = ProteinTuple(
    uniprotId: string,
    proteinName: string,
    proteinSequence: string,
    proteinFunction: string,
    ptms: seq<Json>,
    proteinAliases: seq<string>)

  /** The row written to the genes table. */
  datatype GeneRow = GeneRow(
    geneId: string,
    geneSymbol: Option<string>,
    geneAliases: seq<string>,
    geneName: Option<string>,
    hgncSymbol: Option<string>,
    hgncId: Option<string>,
    ncbiGeneId: Option<string>,
    geneBiotype: string,
    dnaSequence: Option<string>,
    dnaSequenceType: Option<string>,
    dnaSequenceLength: Option<nat>)

  /** The row written (or updated) in the DNA sequence table. */
  datatype DnaRow = DnaRow(geneId: string, source: string, sequence: string, sequenceType: string, sequenceLength: nat)

  datatype ProteinRow = ProteinRow(
    proteinId: string,
    proteinSymbol: string,
    proteinAliases: seq<string>,
    proteinName: string,
    geneId: string,
    uniprotEntryName: string,
    proteinFunction: string,
    length: Option<nat>,
    proteinSequence: Option<string>,
    proteinSequenceLength: Option<nat>)

  /** The protein sequence row; `intervals` is `interval_in_sequence`. */
  datatype ProteinSequenceRow = ProteinSequenceRow(
    proteinId: string, source: string, sequence: string, sequenceLength: nat, intervals: Option<seq<Json>>)

  datatype PtmRow = PtmRow(
    proteinId: string, modificationType: Json, psiModId: Option<string>, position: Json, description: Json, evidence: Json)

  /** The longevity row; `commentCauses` is the value whose `str()` is
      stored as the comment. */
  datatype LongevityRow = LongevityRow(
    geneId: string, proteinId: Option<string>, association: string, confidenceLevel: Json, evidence: Json,
    commentCauses: Json, source: string)

  datatype ProteinPlan = ProteinPlan(protein: ProteinRow, sequence: Option<ProteinSequenceRow>, ptms: seq<PtmRow>, mappedCount: nat)

  /** Every row `insert_gene_data` writes; the function returns
      `gene.geneId`. */
  datatype InsertPlan = InsertPlan(gene: GeneRow, dna: Option<DnaRow>, protein: Option<ProteinPlan>, longevity: Option<LongevityRow>)

  const EnsemblRequired: string := "Ensembl Gene ID is required as primary key"

  /** `x and x != 'N/A'` for an optional string. */
  predicate Present(x: Option<string>) {
    x.Some? && !FetchData.Unusable(x.value)
  }

  function NoGet(j: Json): string {
    "'" + TypeName(j) + "' object has no attribute 'get'"
  }

  /** Lines 597-609. */
  function GeneRowOf(geneId: string, h: HgncDict, dna: Option<string>): GeneRow {
    GeneRow(geneId, h.approvedSymbol, h.geneAliases.GetOr([]), h.geneName, h.approvedSymbol, h.hgncId, h.geneId,
            "protein_coding",
            if Present(dna) then dna else None,
            if Present(dna) then Some("genomic") else None,
            if Present(dna) then Some(|dna.value|) else None)
  }

  /** Lines 661-693. */
  function ProteinRowOf(geneId: string, h: HgncDict, p: ProteinTuple): ProteinRow {
    var symbol := h.approvedSymbol.GetOr("UNKNOWN");
    var usable := !FetchData.Unusable(p.proteinSequence);
    ProteinRow(p.uniprotId, symbol, p.proteinAliases, p.proteinName, geneId, symbol + "_HUMAN", p.proteinFunction,
               if usable then Some(|p.proteinSequence|) else None,
               if usable then Some(p.proteinSequence) else None,
               if usable then Some(|p.proteinSequence|) else None)
  }

  /** Lines 707-713: one domain dict as an interval; only a dict has `.get`. */
  function IntervalOf(domain: Json): Result<Json> {
    if !domain.JObj? then Failure(NoGet(domain))
    else
      var f := domain.fields;
      Success(JObj([("type", Lookup(f, "type").GetOr(JStr("domain"))),
                    ("name", Lookup(f, "name").GetOr(JNull)),
                    ("accession", Lookup(f, "accession").GetOr(JNull)),
                    ("start", Lookup(f, "start").GetOr(JNull)),
                    ("end", Lookup(f, "end").GetOr(JNull))]))
  }

  function Intervals(domains: seq<Json>): Result<seq<Json>> {
    if domains == [] then Success([])
    else match Intervals(domains[..|domains| - 1])
      case Failure(e) => Failure(e)
      case Success(ivs) =>
        match IntervalOf(domains[|domains| - 1])
        case Failure(e) => Failure(e)
        case Success(i) => Success(ivs + [i])
  }

  /** `get_psi_mod_id(mod_type)` for any value: a string goes through the
      three-tier lookup; a list or dict cannot be a dict key, and any other
      value fails at its first `.lower()`. */
  function PsiOf(psiTable: seq<(string, string)>, kind: Json): Result<Option<string>> {
    match kind
    case JStr(s) => Success(PsiModMapping.IdIn(psiTable, s))
    case JArr(_) => Failure("unhashable type: 'list'")
    case JObj(_) => Failure("unhashable type: 'dict'")
    case _ => Failure("'" + TypeName(kind) + "' object has no attribute 'lower'")
  }

  /** Lines 755-773: the PTM row for one PTM dict. */
  function PtmRowOf(psiTable: seq<(string, string)>, proteinId: string, ptm: Json): Result<PtmRow> {
    if !ptm.JObj? then Failure(NoGet(ptm))
    else
      var f := ptm.fields;
      var kind := Lookup(f, "type").GetOr(JNull);
      match PsiOf(psiTable, kind)
      case Failure(e) => Failure(e)
      case Success(psi) =>
        Success(PtmRow(proteinId, kind, psi, Lookup(f, "position").GetOr(JNull), Lookup(f, "description").GetOr(JNull),
                       JObj([("source", JStr("UniProt")), ("evidence_code", Lookup(f, "evidence").GetOr(JStr("")))])))
  }

  function PtmRows(psiTable: seq<(string, string)>, proteinId: string, ptms: seq<Json>): Result<seq<PtmRow>> {
    if ptms == [] then Success([])
    else match PtmRows(psiTable, proteinId, ptms[..|ptms| - 1])
      case Failure(e) => Failure(e)
      case Success(rows) =>
        match PtmRowOf(psiTable, proteinId, ptms[|ptms| - 1])
        case Failure(e) => Failure(e)
        case Success(row) => Success(rows + [row])
  }

  /** A truthy PSI-MOD id. */
  predicate Mapped(row: PtmRow) {
    row.psiModId.Some? && row.psiModId.value != ""
  }

  /** Line 774: the PTMs with a PSI-MOD id. */
  function MappedCount(rows: seq<PtmRow>): nat {
    if rows == [] then 0
    else MappedCount(rows[..|rows| - 1]) + if Mapped(rows[|rows| - 1]) then 1 else 0
  }

  /** `tables[key]` in an f-string: the name must be there. */
  function TableCheck(tables: Json, key: string): Result<()> {
    match GetItem(tables, key)
    case Failure(e) => Failure(e)
    case Success(_) => Success(())
  }

  /** Lines 656-775: the protein, its sequence row and its PTMs. */
  function ProteinPlanOf(psiTable: seq<(string, string)>, tables: Json, geneId: string, h: HgncDict, p: ProteinTuple, domains: Option<seq<Json>>)
    : Result<ProteinPlan>
  {
    if TableCheck(tables, "proteins").Failure? then Failure(TableCheck(tables, "proteins").error)
    else
      var row := ProteinRowOf(geneId, h, p);
      var sequence: Result<Option<ProteinSequenceRow>> :=
        if FetchData.Unusable(p.proteinSequence) || domains.None? || domains.value == [] then Success(None)
        else match Intervals(domains.value)
          case Failure(e) => Failure(e)
          case Success(ivs) =>
            if TableCheck(tables, "protein_sequences").Failure? then Failure(TableCheck(tables, "protein_sequences").error)
            else Success(Some(ProteinSequenceRow(p.uniprotId, "UniProt", p.proteinSequence, |p.proteinSequence|,
                                                 if ivs == [] then None else Some(ivs))));
      if sequence.Failure? then Failure(sequence.error)
      else if p.ptms == [] then Success(ProteinPlan(row, sequence.value, [], 0))
      else if TableCheck(tables, "ptms").Failure? then Failure(TableCheck(tables, "ptms").error)
      else match PtmRows(psiTable, p.uniprotId, p.ptms)
        case Failure(e) => Failure(e)
        case Success(rows) => Success(ProteinPlan(row, sequence.value, rows, MappedCount(rows)))
  }

  /** Lines 777-800: the longevity row, written only for truthy `aging_data`. */
  function LongevityOf(tables: Json, geneId: string, uniprotId: Option<string>, aging: Option<Json>)
    : Result<Option<LongevityRow>>
  {
    if aging.None? || !Truthy(aging.value) then Success(None)
    else if !aging.value.JObj? then Failure(NoGet(aging.value))
    else if TableCheck(tables, "longevity_association").Failure? then Failure(TableCheck(tables, "longevity_association").error)
    else
      var f := aging.value.fields;
      var evidence := JObj([("expression_change", Lookup(f, "expression_change").GetOr(JNull)),
                            ("functional_clusters", Lookup(f, "functional_clusters").GetOr(JArr([]))),
                            ("aging_mechanisms", Lookup(f, "aging_mechanisms").GetOr(JArr([]))),
                            ("comment_causes", Lookup(f, "comment_causes").GetOr(JArr([])))]);
      Success(Some(LongevityRow(geneId, if uniprotId.Some? && uniprotId.value != "" then uniprotId else None,
                                "longevity_associated", Lookup(f, "confidence_level").GetOr(JNull), evidence,
                                Lookup(f, "comment_causes").GetOr(JArr([])), "Open Genes")))
  }

  /** What `insert_gene_data` writes, or the exception it raises. */
  function InsertGeneDataPlan(psiTable: seq<(string, string)>, file: ConfigFile, h: HgncDict, dna: Option<string>, protein: Option<ProteinTuple>,
                              domains: Option<seq<Json>>, aging: Option<Json>): Result<InsertPlan>
  {
    match DatabaseConfig(file)
    case Failure(e) => Failure(e)
    case Success(config) => PlanFor(psiTable, config, h, dna, protein, domains, aging)
  }

  /** The rows written once the configuration `config` is loaded. */
  function PlanFor(psiTable: seq<(string, string)>, config: Json, h: HgncDict, dna: Option<string>,
                   protein: Option<ProteinTuple>, domains: Option<seq<Json>>, aging: Option<Json>): Result<InsertPlan>
  {
    var tables := Get(config, "tables", JObj([]));
    if tables.Failure? then Failure(tables.error)
    else if !Present(h.ensemblGeneId) then Failure(EnsemblRequired)
    else if TableCheck(tables.value, "genes").Failure? then Failure(TableCheck(tables.value, "genes").error)
    else if Present(dna) && TableCheck(tables.value, "dna_sequences").Failure? then
      Failure(TableCheck(tables.value, "dna_sequences").error)
    else
      var geneId := h.ensemblGeneId.value;
      var dnaRow := if Present(dna) then Some(DnaRow(geneId, "Ensembl", dna.value, "genomic", |dna.value|)) else None;
      var proteinPlan: Result<Option<ProteinPlan>> :=
        if protein.None? then Success(None)
        else match ProteinPlanOf(psiTable, tables.value, geneId, h, protein.value, domains)
          case Failure(e) => Failure(e)
          case Success(pp) => Success(Some(pp));
      if proteinPlan.Failure? then Failure(proteinPlan.error)
      else match LongevityOf(tables.value, geneId, if protein.Some? then Some(protein.value.uniprotId) else None, aging)
        case Failure(e) => Failure(e)
        case Success(longevity) =>
          Success(InsertPlan(GeneRowOf(geneId, h, dna), dnaRow, proteinPlan.value, longevity))
  }

  lemma {:induction false} IntervalsFailureSticks(domains: seq<Json>, k: nat, e: string)
    requires k <= |domains| && Intervals(domains[..k]) == Failure(e)
    ensures Intervals(domains) == Failure(e)
    decreases |domains| - k
  {
    if k < |domains| {
      assert domains[..k + 1][..k] == domains[..k];
      IntervalsFailureSticks(domains, k + 1, e);
    } else {
      assert domains[..k] == domains;
    }
  }

  lemma {:induction false} PtmRowsFailureSticks(psiTable: seq<(string, string)>, proteinId: string, ptms: seq<Json>, k: nat, e: string)
    requires k <= |ptms| && PtmRows(psiTable, proteinId, ptms[..k]) == Failure(e)
    ensures PtmRows(psiTable, proteinId, ptms) == Failure(e)
    decreases |ptms| - k
  {
    if k < |ptms| {
      assert ptms[..k + 1][..k] == ptms[..k];
      PtmRowsFailureSticks(psiTable, proteinId, ptms, k + 1, e);
    } else {
      assert ptms[..k] == ptms;
    }
  }

  /** The interval loop (lines 704-712). */
  method BuildIntervals(domains: seq<Json>) returns (r: Result<seq<Json>>)
    ensures r == Intervals(domains)
  {
    var intervals := [];
    var i := 0;
    while i < |domains|
      invariant 0 <= i <= |domains|
      invariant Intervals(domains[..i]) == Success(intervals)
    {
      assert domains[..i + 1][..i] == domains[..i];
      var interval := IntervalOf(domains[i]);
      if interval.Failure? {
        IntervalsFailureSticks(domains, i + 1, interval.error);
        return Failure(interval.error);
      }
      intervals := intervals + [interval.value];
      i := i + 1;
    }
    assert domains[..i] == domains;
    r := Success(intervals);
  }

  /** The PTM loop (lines 754-772). */
  method BuildPtmRows(psiTable: seq<(string, string)>, proteinId: string, ptms: seq<Json>) returns (r: Result<seq<PtmRow>>)
    ensures r == PtmRows(psiTable, proteinId, ptms)
  {
    var rows := [];
    var i := 0;
    while i < |ptms|
      invariant 0 <= i <= |ptms|
      invariant PtmRows(psiTable, proteinId, ptms[..i]) == Success(rows)
    {
      assert ptms[..i + 1][..i] == ptms[..i];
      var row := PtmRowOf(psiTable, proteinId, ptms[i]);
      if row.Failure? {
        PtmRowsFailureSticks(psiTable, proteinId, ptms, i + 1, row.error);
        return Failure(row.error);
      }
      rows := rows + [row.value];
      i := i + 1;
    }
    assert ptms[..i] == ptms;
    r := Success(rows);
  }

  /** The count on line 774. */
  method CountMapped(rows: seq<PtmRow>) returns (count: nat)
    ensures count == MappedCount(rows)
  {
    count := 0;
    var i := 0;
    while i < |rows|
      invariant 0 <= i <= |rows|
      invariant count == MappedCount(rows[..i])
    {
      assert rows[..i + 1][..i] == rows[..i];
      if Mapped(rows[i]) {
        count := count + 1;
      }
      i := i + 1;
    }
    assert rows[..i] == rows;
  }

  /** The protein part of `insert_gene_data`. */
  method InsertProtein(psiTable: seq<(string, string)>, tables: Json, geneId: string, h: HgncDict, p: ProteinTuple, domains: Option<seq<Json>>)
    returns (r: Result<ProteinPlan>)
    ensures r == ProteinPlanOf(psiTable, tables, geneId, h, p, domains)
  {
    var proteinsTable := TableCheck(tables, "proteins");
    if proteinsTable.Failure? {
      return Failure(proteinsTable.error);
    }
    var row := ProteinRowOf(geneId, h, p);
    var sequence: Option<ProteinSequenceRow> := None;
    if !FetchData.Unusable(p.proteinSequence) && domains.Some? && domains.value != [] {
      var intervals := BuildIntervals(domains.value);
      if intervals.Failure? {
        return Failure(intervals.error);
      }
      var sequencesTable := TableCheck(tables, "protein_sequences");
      if sequencesTable.Failure? {
        return Failure(sequencesTable.error);
      }
      var ivs := intervals.value;
      sequence := Some(ProteinSequenceRow(p.uniprotId, "UniProt", p.proteinSequence, |p.proteinSequence|,
                                          if ivs == [] then None else Some(ivs)));
    }
    if p.ptms == [] {
      return Success(ProteinPlan(row, sequence, [], 0));
    }
    var ptmsTable := TableCheck(tables, "ptms");
    if ptmsTable.Failure? {
      return Failure(ptmsTable.error);
    }
    var rows := BuildPtmRows(psiTable, p.uniprotId, p.ptms);
    if rows.Failure? {
      return Failure(rows.error);
    }
    var mapped := CountMapped(rows.value);
    r := Success(ProteinPlan(row, sequence, rows.value, mapped));
  }

  /** `insert_gene_data(conn, cursor, hgnc_data, dna_data, protein_data,
      domain_data, aging_data)`: `file` is what reading the configuration
      file gives. */
  method InsertGeneData(psiTable: seq<(string, string)>, file: ConfigFile, h: HgncDict, dna: Option<string>, protein: Option<ProteinTuple>,
                        domains: Option<seq<Json>>, aging: Option<Json>) returns (r: Result<InsertPlan>)
    ensures r == InsertGeneDataPlan(psiTable, file, h, dna, protein, domains, aging)
  {
    var config := LoadDatabaseConfig(file);
    if config.Failure? {
      return Failure(config.error);
    }
    r := InsertRows(psiTable, config.value, h, dna, protein, domains, aging);
  }

  /** The body of `insert_gene_data` after the configuration is loaded. */
  method InsertRows(psiTable: seq<(string, string)>, config: Json, h: HgncDict, dna: Option<string>,
                    protein: Option<ProteinTuple>, domains: Option<seq<Json>>, aging: Option<Json>)
    returns (r: Result<InsertPlan>)
    ensures r == PlanFor(psiTable, config, h, dna, protein, domains, aging)
  {
    var tables := Get(config, "tables", JObj([]));
    if tables.Failure? {
      return Failure(tables.error);
    }
    if h.ensemblGeneId.None? || h.ensemblGeneId.value == "" || h.ensemblGeneId.value == FetchData.NA {
      return Failure(EnsemblRequired);
    }
    var geneId := h.ensemblGeneId.value;
    var genesTable := TableCheck(tables.value, "genes");
    if genesTable.Failure? {
      return Failure(genesTable.error);
    }
    var gene := GeneRowOf(geneId, h, dna);
    var dnaRow: Option<DnaRow> := None;
    if Present(dna) {
      var dnaTable := TableCheck(tables.value, "dna_sequences");
      if dnaTable.Failure? {
        return Failure(dnaTable.error);
      }
      dnaRow := Some(DnaRow(geneId, "Ensembl", dna.value, "genomic", |dna.value|));
    }
    var proteinPlan: Option<ProteinPlan> := None;
    var uniprotId: Option<string> := None;
    if protein.Some? {
      uniprotId := Some(protein.value.uniprotId);
      var pp := InsertProtein(psiTable, tables.value, geneId, h, protein.value, domains);
      if pp.Failure? {
        return Failure(pp.error);
      }
      proteinPlan := Some(pp.value);
    }
    var longevity := LongevityOf(tables.value, geneId, uniprotId, aging);
    if longevity.Failure? {
      return Failure(longevity.error);
    }
    r := Success(InsertPlan(gene, dnaRow, proteinPlan, longevity.value));
  }

  /** A missing, empty or "N/A" Ensembl gene id raises before any row is
      written, once the configuration loads. */
  lemma MissingEnsemblRaises(psiTable: seq<(string, string)>, file: ConfigFile, h: HgncDict, dna: Option<string>, protein: Option<ProteinTuple>,
                             domains: Option<seq<Json>>, aging: Option<Json>)
    requires DatabaseConfig(file).Success? && DatabaseConfig(file).value.JObj?
    requires !Present(h.ensemblGeneId)
    ensures InsertGeneDataPlan(psiTable, file, h, dna, protein, domains, aging) == Failure(EnsemblRequired)
  {
  }

  /** The gene row: keyed by the Ensembl id, biotype "protein_coding",
      aliases default [], and the DNA sequence, its type "genomic" and its
      length stored together exactly when the DNA is present and not "N/A". */
  lemma GeneRowSentinels(geneId: string, h: HgncDict, dna: Option<string>)
    ensures var g := GeneRowOf(geneId, h, dna);
      && g.geneId == geneId && g.geneBiotype == "protein_coding"
      && g.geneSymbol == h.approvedSymbol == g.hgncSymbol
      && (h.geneAliases.None? ==> g.geneAliases == [])
      && (g.dnaSequence.Some? <==> Present(dna))
      && (g.dnaSequenceType.Some? <==> Present(dna)) && (g.dnaSequenceLength.Some? <==> Present(dna))
      && (Present(dna) ==> g.dnaSequence == dna && g.dnaSequenceType == Some("genomic")
                           && g.dnaSequenceLength == Some(|dna.value|))
  {
  }

  /** The protein row: the entry name is the approved symbol (or "UNKNOWN")
      followed by "_HUMAN", and length, sequence and sequence length are
      stored exactly when the sequence is non-empty and not "N/A". */
  lemma ProteinRowSentinels(geneId: string, h: HgncDict, p: ProteinTuple)
    ensures var row := ProteinRowOf(geneId, h, p);
      && row.uniprotEntryName == h.approvedSymbol.GetOr("UNKNOWN") + "_HUMAN"
      && row.uniprotEntryName[|row.uniprotEntryName| - 6..] == "_HUMAN"
      && row.proteinSymbol == h.approvedSymbol.GetOr("UNKNOWN")
      && row.geneId == geneId && row.proteinId == p.uniprotId
      && (row.proteinSequence.Some? <==> !FetchData.Unusable(p.proteinSequence))
      && (row.length.Some? <==> row.proteinSequence.Some?) && row.proteinSequenceLength == row.length
      && (row.proteinSequence.Some? ==> row.proteinSequence.value == p.proteinSequence
                                        && row.length == Some(|p.proteinSequence|))
  {
  }

  /** The intervals exist iff every domain is a dict, and then there is one
      per domain, in order. */
  lemma {:induction false} IntervalsOnePerDomain(domains: seq<Json>)
    ensures Intervals(domains).Success? <==> forall i | 0 <= i < |domains| :: domains[i].JObj?
    ensures Intervals(domains).Success? ==>
      var ivs := Intervals(domains).value;
      |ivs| == |domains| && forall i | 0 <= i < |domains| :: IntervalOf(domains[i]) == Success(ivs[i])
  {
    if domains != [] {
      var init := domains[..|domains| - 1];
      IntervalsOnePerDomain(init);
      assert forall i | 0 <= i < |init| :: init[i] == domains[i];
    }
  }

  /** One interval: the five keys in order, type defaulting to "domain" and
      the others to `None`. */
  lemma IntervalShape(domain: Json)
    requires domain.JObj?
    ensures var iv := IntervalOf(domain).value;
      && iv.JObj?
      && Lookup(iv.fields, "type") == Some(Lookup(domain.fields, "type").GetOr(JStr("domain")))
      && Lookup(iv.fields, "name") == Some(Lookup(domain.fields, "name").GetOr(JNull))
      && Lookup(iv.fields, "accession") == Some(Lookup(domain.fields, "accession").GetOr(JNull))
      && Lookup(iv.fields, "start") == Some(Lookup(domain.fields, "start").GetOr(JNull))
      && Lookup(iv.fields, "end") == Some(Lookup(domain.fields, "end").GetOr(JNull))
  {
    var f := IntervalOf(domain).value.fields;
    LookupFirst(f, "type", 0);
    LookupFirst(f, "name", 1);
    LookupFirst(f, "accession", 2);
    LookupFirst(f, "start", 3);
    LookupFirst(f, "end", 4);
  }

  /** The sequence row carries the intervals whenever it is written: it is
      only written for non-empty domain data, so `Json(intervals) if
      intervals else None` always takes its first branch there. */
  lemma SequenceRowHasIntervals(psiTable: seq<(string, string)>, tables: Json, geneId: string, h: HgncDict, p: ProteinTuple, domains: Option<seq<Json>>)
    requires ProteinPlanOf(psiTable, tables, geneId, h, p, domains).Success?
    ensures var plan := ProteinPlanOf(psiTable, tables, geneId, h, p, domains).value;
      && (plan.sequence.Some? <==> !FetchData.Unusable(p.proteinSequence) && domains.Some? && domains.value != [])
      && (plan.sequence.Some? ==> plan.sequence.value.intervals == Some(Intervals(domains.value).value)
                                  && |plan.sequence.value.intervals.value| == |domains.value|)
  {
    var plan := ProteinPlanOf(psiTable, tables, geneId, h, p, domains).value;
    if plan.sequence.Some? {
      IntervalsOnePerDomain(domains.value);
    }
  }

  /** The PTM rows exist iff every PTM gives a row, and then there is one
      per PTM, in order. */
  lemma {:induction false} PtmRowsOnePerPtm(psiTable: seq<(string, string)>, proteinId: string, ptms: seq<Json>)
    ensures PtmRows(psiTable, proteinId, ptms).Success? <==> forall i | 0 <= i < |ptms| :: PtmRowOf(psiTable, proteinId, ptms[i]).Success?
    ensures PtmRows(psiTable, proteinId, ptms).Success? ==>
      var rows := PtmRows(psiTable, proteinId, ptms).value;
      |rows| == |ptms| && forall i | 0 <= i < |ptms| :: PtmRowOf(psiTable, proteinId, ptms[i]) == Success(rows[i])
  {
    PtmRowsSucceed(psiTable, proteinId, ptms);
    if PtmRows(psiTable, proteinId, ptms).Success? {
      PtmRowsValues(psiTable, proteinId, ptms);
    }
  }

  lemma PtmRowsSucceed(psiTable: seq<(string, string)>, proteinId: string, ptms: seq<Json>)
    ensures PtmRows(psiTable, proteinId, ptms).Success? <==> forall i | 0 <= i < |ptms| :: PtmRowOf(psiTable, proteinId, ptms[i]).Success?
  {
    if forall i | 0 <= i < |ptms| :: PtmRowOf(psiTable, proteinId, ptms[i]).Success? {
      PtmRowsFromEach(psiTable, proteinId, ptms);
    }
    if PtmRows(psiTable, proteinId, ptms).Success? {
      PtmRowsValues(psiTable, proteinId, ptms);
    }
  }

  lemma {:induction false} PtmRowsFromEach(psiTable: seq<(string, string)>, proteinId: string, ptms: seq<Json>)
    requires forall i | 0 <= i < |ptms| :: PtmRowOf(psiTable, proteinId, ptms[i]).Success?
    ensures PtmRows(psiTable, proteinId, ptms).Success?
  {
    if ptms != [] {
      var n := |ptms| - 1;
      var init := ptms[..n];
      forall i | 0 <= i < n
        ensures PtmRowOf(psiTable, proteinId, init[i]).Success?
      {
        assert init[i] == ptms[i];
      }
      PtmRowsFromEach(psiTable, proteinId, init);
      PtmRowsStep(psiTable, proteinId, ptms);
    }
  }

  lemma PtmRowsStep(psiTable: seq<(string, string)>, proteinId: string, ptms: seq<Json>)
    requires ptms != []
    ensures PtmRows(psiTable, proteinId, ptms).Success? <==>
      PtmRows(psiTable, proteinId, ptms[..|ptms| - 1]).Success? && PtmRowOf(psiTable, proteinId, ptms[|ptms| - 1]).Success?
  {
  }

  lemma {:induction false} PtmRowsValues(psiTable: seq<(string, string)>, proteinId: string, ptms: seq<Json>)
    requires PtmRows(psiTable, proteinId, ptms).Success?
    ensures var rows := PtmRows(psiTable, proteinId, ptms).value;
      |rows| == |ptms| && forall i | 0 <= i < |ptms| :: PtmRowOf(psiTable, proteinId, ptms[i]) == Success(rows[i])
  {
    if ptms != [] {
      var n := |ptms| - 1;
      var init := ptms[..n];
      PtmRowsSnoc(psiTable, proteinId, ptms);
      PtmRowsValues(psiTable, proteinId, init);
      var prev := PtmRows(psiTable, proteinId, init).value;
      var rows := PtmRows(psiTable, proteinId, ptms).value;
      forall i | 0 <= i < |ptms|
        ensures PtmRowOf(psiTable, proteinId, ptms[i]) == Success(rows[i])
      {
        if i < n {
          assert ptms[i] == init[i] && rows[i] == prev[i];
        } else {
          assert rows[i] == PtmRowOf(psiTable, proteinId, ptms[n]).value;
        }
      }
    }
  }

  /** A successful run of rows ends with the last PTM's row. */
  lemma PtmRowsSnoc(psiTable: seq<(string, string)>, proteinId: string, ptms: seq<Json>)
    requires ptms != [] && PtmRows(psiTable, proteinId, ptms).Success?
    ensures var prev := PtmRows(psiTable, proteinId, ptms[..|ptms| - 1]);
      var last := PtmRowOf(psiTable, proteinId, ptms[|ptms| - 1]);
      && prev.Success? && last.Success?
      && PtmRows(psiTable, proteinId, ptms).value == prev.value + [last.value]
  {
  }

  /** One PTM row: written iff the PTM is a dict whose type is a string; it
      carries that type, its PSI-MOD id and the evidence
      {"source": "UniProt", "evidence_code": evidence or ""}. */
  lemma PtmRowShape(psiTable: seq<(string, string)>, proteinId: string, ptm: Json)
    ensures PtmRowOf(psiTable, proteinId, ptm).Success? <==> ptm.JObj? && Lookup(ptm.fields, "type").GetOr(JNull).JStr?
    ensures PtmRowOf(psiTable, proteinId, ptm).Success? ==>
      var row := PtmRowOf(psiTable, proteinId, ptm).value;
      && row.proteinId == proteinId
      && row.modificationType == Lookup(ptm.fields, "type").value
      && row.psiModId == PsiModMapping.IdIn(psiTable, row.modificationType.s)
      && row.evidence == JObj([("source", JStr("UniProt")),
                               ("evidence_code", Lookup(ptm.fields, "evidence").GetOr(JStr("")))])
  {
  }

  /** A PTM dict whose type is absent or not a string makes the insert
      raise. */
  lemma PtmWithoutTypeRaises(psiTable: seq<(string, string)>, proteinId: string, ptms: seq<Json>, i: nat)
    requires i < |ptms| && ptms[i].JObj?
    requires !Lookup(ptms[i].fields, "type").GetOr(JNull).JStr?
    ensures PtmRows(psiTable, proteinId, ptms).Failure?
  {
    PtmRowsOnePerPtm(psiTable, proteinId, ptms);
    PtmRowShape(psiTable, proteinId, ptms[i]);
  }

  /** The mapped count never exceeds the number of PTMs and counts exactly
      the rows with a PSI-MOD id. */
  lemma {:induction false} MappedCountBounds(rows: seq<PtmRow>)
    ensures MappedCount(rows) <= |rows|
    ensures MappedCount(rows) == 0 <==> forall i | 0 <= i < |rows| :: !Mapped(rows[i])
    ensures MappedCount(rows) == |rows| <==> forall i | 0 <= i < |rows| :: Mapped(rows[i])
  {
    if rows != [] {
      var init := rows[..|rows| - 1];
      MappedCountBounds(init);
      assert forall i | 0 <= i < |init| :: init[i] == rows[i];
    }
  }

  /** The longevity row: written only for truthy dict aging data, with the
      protein id only when a non-empty UniProt id was given, list fields
      defaulting to [] and the source "Open Genes". */
  lemma LongevityRowShape(tables: Json, geneId: string, uniprotId: Option<string>, aging: Option<Json>)
    requires LongevityOf(tables, geneId, uniprotId, aging).Success?
    ensures var row := LongevityOf(tables, geneId, uniprotId, aging).value;
      && (row.Some? <==> aging.Some? && Truthy(aging.value))
      && (row.Some? ==>
            && row.value.geneId == geneId && row.value.source == "Open Genes"
            && row.value.association == "longevity_associated"
            && (row.value.proteinId.Some? <==> uniprotId.Some? && uniprotId.value != "")
            && row.value.evidence.JObj?
            && Keys(row.value.evidence.fields) == ["expression_change", "functional_clusters", "aging_mechanisms", "comment_causes"]
            && row.value.evidence.fields[3] == ("comment_causes", row.value.commentCauses)
            && row.value.commentCauses == Lookup(aging.value.fields, "comment_causes").GetOr(JArr([])))
  {
  }
}
