/** The PSI-MOD identifier table for post-translational modification types
    and its three-tier lookup: exact key, then key equal ignoring case, then
    either lower-cased string containing the other. The dict is held as its
    list of entries in insertion order, which is the order the lookup scans. */
module PsiModMapping {
  import opened Wrappers
  import Text

  // Lines 9-83: modification type and PSI-MOD id, grouped as in the source.

  const Phosphorylation: seq<(string, string)> := [
    ("Phosphoserine", "MOD:00046"),
    ("Phosphothreonine", "MOD:00047"),
    ("Phosphotyrosine", "MOD:00048"),
    ("Phosphohistidine", "MOD:00049")
  ]

  const Acetylation: seq<(string, string)> := [
    ("N6-acetyllysine", "MOD:00064"),
    ("N-acetylalanine", "MOD:00058"),
    ("N-acetylserine", "MOD:00060"),
    ("N-acetylthreonine", "MOD:00061"),
    ("N-acetylmethionine", "MOD:00058")
  ]

  const Methylation: seq<(string, string)> := [
    ("N6-methyllysine", "MOD:00085"),
    ("N6,N6-dimethyllysine", "MOD:00084"),
    ("N6,N6,N6-trimethyllysine", "MOD:00083"),
    ("Omega-N-methylarginine", "MOD:00078"),
    ("N,N-dimethylarginine", "MOD:00076"),
    ("Asymmetric dimethylarginine", "MOD:00076"),
    ("N,N,N-trimethylarginine", "MOD:00232"),
    ("S-methylcysteine", "MOD:00239")
  ]

  const Ubiquitination: seq<(string, string)> := [
    ("N6-ubiquitinyllysine", "MOD:01148"),
    ("Glycyl lysine isopeptide (Lys-Gly) (interchain with G-Cter in ubiquitin)", "MOD:01148")
  ]

  const Sumoylation: seq<(string, string)> := [
    ("N6-sumoyllysine", "MOD:01149"),
    ("Glycyl lysine isopeptide (Lys-Gly) (interchain with G-Cter in SUMO1)", "MOD:01149"),
    ("Glycyl lysine isopeptide (Lys-Gly) (interchain with G-Cter in SUMO2)", "MOD:01150")
  ]

  const Glycosylation: seq<(string, string)> := [
    ("N-linked (GlcNAc...) asparagine", "MOD:00006"),
    ("O-linked (GalNAc...) serine", "MOD:00005"),
    ("O-linked (GalNAc...) threonine", "MOD:00005"),
    ("N-linked (Glc) (glycation) lysine", "MOD:00693"),
    ("N-linked (Glc) (glycation) arginine", "MOD:00694"),
    ("O-linked (Man...) serine", "MOD:00008"),
    ("O-linked (Man...) threonine", "MOD:00008"),
    ("C-linked (Man) tryptophan", "MOD:00013")
  ]

  const Hydroxylation: seq<(string, string)> := [
    ("Hydroxyproline", "MOD:00039"),
    ("4-hydroxyproline", "MOD:00039"),
    ("3-hydroxyproline", "MOD:00038"),
    ("Hydroxylysine", "MOD:00040")
  ]

  const Oxidation: seq<(string, string)> := [
    ("Methionine sulfoxide", "MOD:00719"),
    ("Cysteine sulfinic acid", "MOD:00210"),
    ("Cysteine sulfonic acid", "MOD:00211")
  ]

  const Lipidation: seq<(string, string)> := [
    ("N-palmitoylcysteine", "MOD:00111"),
    ("S-palmitoylcysteine", "MOD:00112"),
    ("N-myristoylglycine", "MOD:00068"),
    ("S-geranylgeranylcysteine", "MOD:00114"),
    ("S-farnesylcysteine", "MOD:00113")
  ]

  const Nitrosylation: seq<(string, string)> := [
    ("S-nitrosocysteine", "MOD:00219")
  ]

  const Deamidation: seq<(string, string)> := [
    ("Deamidated asparagine", "MOD:00400"),
    ("Deamidated glutamine", "MOD:00401")
  ]

  const Citrullination: seq<(string, string)> := [
    ("Citrulline", "MOD:00219")
  ]

  const AdpRibosylation: seq<(string, string)> := [
    ("ADP-ribosylarginine", "MOD:00752"),
    ("ADP-ribosylcysteine", "MOD:00753")
  ]

  /** The whole table in insertion order, the order the lookup scans. */
  const PsiModTable: seq<(string, string)> :=
    Phosphorylation + Acetylation + Methylation
      + Ubiquitination + Sumoylation + Glycosylation + Hydroxylation + Oxidation
      + Lipidation + Nitrosylation + Deamidation + Citrullination + AdpRibosylation

  /** The first index from `i` on whose key is `m` itself. */
  function FindExact(t: seq<(string, string)>, m: string, i: nat): (r: Option<nat>)
    requires i <= |t|
    ensures r.Some? ==>
      && i <= r.value < |t| && t[r.value].0 == m
      && forall j | i <= j < r.value :: t[j].0 != m
    ensures r.None? ==> forall j | i <= j < |t| :: t[j].0 != m
    decreases |t| - i
  {
    if i == |t| then None
    else if t[i].0 == m then Some(i)
    else FindExact(t, m, i + 1)
  }

  /** The first index from `i` on whose key equals `m` ignoring case. */
  function FindCaseless(t: seq<(string, string)>, m: string, i: nat): (r: Option<nat>)
    requires i <= |t|
    ensures r.Some? ==>
      && i <= r.value < |t| && Text.Lower(t[r.value].0) == Text.Lower(m)
      && forall j | i <= j < r.value :: Text.Lower(t[j].0) != Text.Lower(m)
    ensures r.None? ==> forall j | i <= j < |t| :: Text.Lower(t[j].0) != Text.Lower(m)
    decreases |t| - i
  {
    if i == |t| then None
    else if Text.Lower(t[i].0) == Text.Lower(m) then Some(i)
    else FindCaseless(t, m, i + 1)
  }

  /** Whether `key` and `m`, both lower-cased, contain one another. */
  predicate Overlaps(key: string, m: string) {
    Text.Contains(Text.Lower(m), Text.Lower(key)) || Text.Contains(Text.Lower(key), Text.Lower(m))
  }

  /** The first index from `i` on whose key overlaps `m`. */
  function FindPartial(t: seq<(string, string)>, m: string, i: nat): (r: Option<nat>)
    requires i <= |t|
    ensures r.Some? ==>
      && i <= r.value < |t| && Overlaps(t[r.value].0, m)
      && forall j | i <= j < r.value :: !Overlaps(t[j].0, m)
    ensures r.None? ==> forall j | i <= j < |t| :: !Overlaps(t[j].0, m)
    decreases |t| - i
  {
    if i == |t| then None
    else if Overlaps(t[i].0, m) then Some(i)
    else FindPartial(t, m, i + 1)
  }

  /** The three tiers over a table: the index of the entry whose id is
      returned, if any. */
  function MatchIndex(t: seq<(string, string)>, m: string): (r: Option<nat>)
    ensures r.Some? ==> r.value < |t|
  {
    match FindExact(t, m, 0)
    case Some(j) => Some(j)
    case None =>
      match FindCaseless(t, m, 0)
      case Some(j) => Some(j)
      case None => FindPartial(t, m, 0)
  }

  /** The id the three-tier lookup finds in table `t`, if any. */
  function IdIn(t: seq<(string, string)>, m: string): (r: Option<string>)
    ensures r.Some? <==> MatchIndex(t, m).Some?
    ensures r.Some? ==> r.value == t[MatchIndex(t, m).value].1
  {
    match MatchIndex(t, m)
    case Some(j) => Some(t[j].1)
    case None => None
  }

  /** Lines 86-111: `get_psi_mod_id`. */
  function GetPsiModId(m: string): (r: Option<string>)
    ensures r.Some? ==> exists j | 0 <= j < |PsiModTable| :: PsiModTable[j].1 == r.value
  {
    IdIn(PsiModTable, m)
  }

  /** Lines 97-98: an input that is a key gets that key's entry. */
  lemma ExactTier(t: seq<(string, string)>, m: string, j: nat)
    requires j < |t| && t[j].0 == m
    requires forall i | 0 <= i < j :: t[i].0 != m
    ensures MatchIndex(t, m) == Some(j)
  {
    var r := FindExact(t, m, 0);
    assert r == Some(j);
  }

  /** Lines 101-103: otherwise the first key equal to the input ignoring
      case gives the entry. */
  lemma CaselessTier(t: seq<(string, string)>, m: string, j: nat)
    requires forall i | 0 <= i < |t| :: t[i].0 != m
    requires j < |t| && Text.Lower(t[j].0) == Text.Lower(m)
    requires forall i | 0 <= i < j :: Text.Lower(t[i].0) != Text.Lower(m)
    ensures MatchIndex(t, m) == Some(j)
  {
    assert FindExact(t, m, 0).None?;
    var r := FindCaseless(t, m, 0);
    assert r == Some(j);
  }

  /** Lines 105-109: otherwise the first key overlapping the input gives
      the entry. */
  lemma PartialTier(t: seq<(string, string)>, m: string, j: nat)
    requires forall i | 0 <= i < |t| :: t[i].0 != m && Text.Lower(t[i].0) != Text.Lower(m)
    requires j < |t| && Overlaps(t[j].0, m)
    requires forall i | 0 <= i < j :: !Overlaps(t[i].0, m)
    ensures MatchIndex(t, m) == Some(j)
  {
    assert FindExact(t, m, 0).None?;
    assert FindCaseless(t, m, 0).None?;
    var r := FindPartial(t, m, 0);
    assert r == Some(j);
  }

  /** `None` exactly when no entry matches in any tier. */
  lemma NoneIffNoMatch(t: seq<(string, string)>, m: string)
    ensures MatchIndex(t, m).None? <==>
      forall j | 0 <= j < |t| :: t[j].0 != m && Text.Lower(t[j].0) != Text.Lower(m) && !Overlaps(t[j].0, m)
  {
  }

  /** Every key of the table is non-empty. */
  lemma KeysNonEmpty()
    ensures KeysFilled(PsiModTable)
  {
    assert KeysFilled(Phosphorylation);
    var t := Phosphorylation;
    assert KeysFilled(Acetylation);
    KeysFilledConcat(t, Acetylation);
    t := t + Acetylation;
    assert KeysFilled(Methylation);
    KeysFilledConcat(t, Methylation);
    t := t + Methylation;
    assert KeysFilled(Ubiquitination);
    KeysFilledConcat(t, Ubiquitination);
    t := t + Ubiquitination;
    assert KeysFilled(Sumoylation);
    KeysFilledConcat(t, Sumoylation);
    t := t + Sumoylation;
    assert KeysFilled(Glycosylation);
    KeysFilledConcat(t, Glycosylation);
    t := t + Glycosylation;
    assert KeysFilled(Hydroxylation);
    KeysFilledConcat(t, Hydroxylation);
    t := t + Hydroxylation;
    assert KeysFilled(Oxidation);
    KeysFilledConcat(t, Oxidation);
    t := t + Oxidation;
    assert KeysFilled(Lipidation);
    KeysFilledConcat(t, Lipidation);
    t := t + Lipidation;
    assert KeysFilled(Nitrosylation);
    KeysFilledConcat(t, Nitrosylation);
    t := t + Nitrosylation;
    assert KeysFilled(Deamidation);
    KeysFilledConcat(t, Deamidation);
    t := t + Deamidation;
    assert KeysFilled(Citrullination);
    KeysFilledConcat(t, Citrullination);
    t := t + Citrullination;
    assert KeysFilled(AdpRibosylation);
    KeysFilledConcat(t, AdpRibosylation);
    t := t + AdpRibosylation;
  }

  predicate KeysFilled(t: seq<(string, string)>) {
    forall j | 0 <= j < |t| :: |t[j].0| > 0
  }

  lemma KeysFilledConcat(a: seq<(string, string)>, b: seq<(string, string)>)
    requires KeysFilled(a) && KeysFilled(b)
    ensures KeysFilled(a + b)
  {
    forall j | 0 <= j < |a + b|
      ensures |(a + b)[j].0| > 0
    {
      if j >= |a| {
        assert (a + b)[j] == b[j - |a|];
      }
    }
  }

  /** A table of non-empty keys has no key equal to "", with or without case. */
  lemma NoKeyMatchesEmpty(t: seq<(string, string)>)
    requires KeysFilled(t)
    ensures forall i | 0 <= i < |t| :: t[i].0 != "" && Text.Lower(t[i].0) != Text.Lower("")
  {
    forall i | 0 <= i < |t|
      ensures Text.Lower(t[i].0) != Text.Lower("")
    {
      assert |Text.Lower(t[i].0)| == |t[i].0|;
    }
  }

  /** The empty string is contained in the first key, so it maps to the
      first entry's id through the substring tier. */
  lemma EmptyMatchesFirst()
    ensures GetPsiModId("") == Some("MOD:00046")
  {
    var t := PsiModTable;
    KeysNonEmpty();
    NoKeyMatchesEmpty(t);
    assert t[0] == ("Phosphoserine", "MOD:00046");
    Text.EmptyContainedEverywhere(Text.Lower(t[0].0));
    assert Overlaps(t[0].0, "");
    PartialTier(t, "", 0);
    assert IdIn(t, "") == Some(t[0].1);
  }

  /** The dict built from a list of entries, later entries overwriting
      earlier ones with the same key, as in a Python dict literal. */
  function ToMap(entries: seq<(string, string)>): (d: map<string, string>)
    ensures forall j | 0 <= j < |entries| :: entries[j].0 in d
    ensures forall k | k in d :: exists j | 0 <= j < |entries| :: entries[j].0 == k
  {
    if entries == [] then map[]
    else ToMap(entries[..|entries| - 1])[entries[|entries| - 1].0 := entries[|entries| - 1].1]
  }

  /** An entry not overwritten later keeps its value in the dict. */
  lemma {:induction false} ToMapLast(entries: seq<(string, string)>, j: nat)
    requires j < |entries|
    requires forall i | j < i < |entries| :: entries[i].0 != entries[j].0
    ensures ToMap(entries)[entries[j].0] == entries[j].1
  {
    if j < |entries| - 1 {
      ToMapLast(entries[..|entries| - 1], j);
    }
  }

  /** Lines 114-121: `get_all_mappings`, a fresh dict with the table's
      entries; being a value, changing it cannot change the table. */
  function GetAllMappings(): (d: map<string, string>)
    ensures forall j | 0 <= j < |PsiModTable| :: PsiModTable[j].0 in d
    ensures forall k | k in d :: exists j | 0 <= j < |PsiModTable| :: PsiModTable[j].0 == k
  {
    ToMap(PsiModTable)
  }

  /** Every key maps to its value in the copy (a key given twice keeps its
      last value, as a dict literal does). */
  lemma AllMappingsAgree(j: nat)
    requires j < |PsiModTable|
    requires forall i | j < i < |PsiModTable| :: PsiModTable[i].0 != PsiModTable[j].0
    ensures GetAllMappings()[PsiModTable[j].0] == PsiModTable[j].1
  {
    ToMapLast(PsiModTable, j);
  }
}
