/** `load_proteins_from_config`, which utils/gene_master.py,
    utils/gene_transcript_protein.py and utils/protein_master.py each carry
    in identical copies: the active protein symbols of the YAML file's
    `proteins` list. */
module ProteinConfig {
  import opened Wrappers
  import Text
  import opened PyJson
  import DatabaseOperations

  /** An entry that is kept: a string whose stripped form is not a comment. */
  predicate Active(item: Json) {
    item.JStr? && !Text.StartsWith(Text.Strip(item.s), "#")
  }

  /** The comprehension `[p.strip() for p in proteins if isinstance(p, str)
      and not p.strip().startswith('#')]`. */
  function ActiveProteins(items: seq<Json>): (r: seq<string>)
    ensures |r| <= |items|
  {
    if items == [] then []
    else
      var prev := ActiveProteins(items[..|items| - 1]);
      var last := items[|items| - 1];
      if Active(last) then prev + [Text.Strip(last.s)] else prev
  }

  /** Filtering a concatenation filters each part: the comprehension keeps
      the input order. */
  lemma {:induction false} ActiveProteinsAppend(a: seq<Json>, b: seq<Json>)
    ensures ActiveProteins(a + b) == ActiveProteins(a) + ActiveProteins(b)
    decreases |b|
  {
    if b == [] {
      assert a + b == a;
    } else {
      var b' := b[..|b| - 1];
      var last := b[|b| - 1];
      assert (a + b)[..|a + b| - 1] == a + b';
      assert (a + b)[|a + b| - 1] == last;
      ActiveProteinsAppend(a, b');
      var kept := if Active(last) then [Text.Strip(last.s)] else [];
      assert ActiveProteins(b) == ActiveProteins(b') + kept;
      assert ActiveProteins(a + b) == ActiveProteins(a + b') + kept;
    }
  }

  /** A name is returned iff some entry is a string that strips to it and is
      not a comment. */
  lemma {:induction false} ActiveProteinsMembers(items: seq<Json>, x: string)
    ensures x in ActiveProteins(items) <==>
      exists i | 0 <= i < |items| :: Active(items[i]) && Text.Strip(items[i].s) == x
  {
    if items != [] {
      var init := items[..|items| - 1];
      ActiveProteinsMembers(init, x);
      if x in ActiveProteins(init) {
        var i :| 0 <= i < |init| && Active(init[i]) && Text.Strip(init[i].s) == x;
        assert items[i] == init[i];
      }
      if exists i | 0 <= i < |items| :: Active(items[i]) && Text.Strip(items[i].s) == x {
        var i :| 0 <= i < |items| && Active(items[i]) && Text.Strip(items[i].s) == x;
        if i < |items| - 1 {
          assert init[i] == items[i];
        }
      }
    }
  }

  /** A stripped name that is not a comment: it neither starts nor ends
      with whitespace and does not start with "#". */
  predicate Clean(p: string) {
    && !Text.StartsWith(p, "#")
    && (p == [] || (!Text.IsSpace(p[0]) && !Text.IsSpace(p[|p| - 1])))
  }

  /** Every returned name is clean. */
  lemma {:induction false} ActiveProteinsStripped(items: seq<Json>)
    ensures forall k | 0 <= k < |ActiveProteins(items)| :: Clean(ActiveProteins(items)[k])
  {
    if items != [] {
      var init := items[..|items| - 1];
      var last := items[|items| - 1];
      ActiveProteinsStripped(init);
      if Active(last) {
        ActiveIsClean(last);
        CleanAppend(ActiveProteins(init), Text.Strip(last.s));
      }
    }
  }

  lemma ActiveIsClean(item: Json)
    requires Active(item)
    ensures Clean(Text.Strip(item.s))
  {
    var p := Text.Strip(item.s);
    Text.StripEnds(item.s);
    assert !Text.StartsWith(p, "#");
  }

  lemma CleanAppend(prev: seq<string>, p: string)
    requires forall k | 0 <= k < |prev| :: Clean(prev[k])
    requires Clean(p)
    ensures forall k | 0 <= k < |prev + [p]| :: Clean((prev + [p])[k])
  {
  }

  /** A blank entry is not a comment, so it comes back as an empty name. */
  lemma BlankEntryKept()
    ensures ActiveProteins([JStr("  ")]) == [""]
  {
    assert [JStr("  ")][..0] == [];
    assert Text.Strip("  ") == "" by { Text.StripEmpty("  "); }
  }

  /** `load_proteins_from_config(config_path)`: a missing or unreadable
      file, a document without `.get` (an empty file parses to `None`), or a
      `proteins` value that cannot be iterated all give []. */
  function LoadProteins(file: DatabaseOperations.ConfigFile): (r: seq<string>)
    ensures !file.Parsed? ==> r == []
    ensures file.Parsed? && !file.doc.JObj? ==> r == []
  {
    match file
    case Missing => []
    case Unreadable(_) => []
    case Parsed(doc) =>
      match Get(doc, "proteins", JArr([]))
      case Failure(_) => []
      case Success(proteins) =>
        match Iterate(proteins)
        case Failure(_) => []
        case Success(items) => ActiveProteins(items)
  }

  /** A document with a list of proteins gives exactly the active entries of
      that list, and one without the key gives []. */
  lemma LoadProteinsList(fields: seq<(string, Json)>)
    ensures Lookup(fields, "proteins").None? ==>
      LoadProteins(DatabaseOperations.Parsed(JObj(fields))) == []
    ensures Lookup(fields, "proteins").Some? && Lookup(fields, "proteins").value.JArr? ==>
      LoadProteins(DatabaseOperations.Parsed(JObj(fields))) == ActiveProteins(Lookup(fields, "proteins").value.items)
  {
  }
}
