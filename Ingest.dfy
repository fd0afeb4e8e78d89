/**
 * Ingestion, as `FileProcessor` does it: three fixed-width text files (two
 * of repairs, one of parts) and a markup file are parsed line by line, each
 * repair is given the parts that share its repair number, and every item
 * with a description is embedded into the store in batches of fifty.
 */
module Ingest {
  import opened Wrappers
  import opened Text
  import opened Seqs
  import opened Records
  import opened TradeTerms
  import opened Retrieval

  const RepairLineLength: nat := 82
  const PartLineLength: nat := 107
  const RefrigerantDefaultCost: real := 40.0
  const BatchSize: nat := 50

  /** `line.substring(from, to).trim()`: a fixed-width column. */
  function Column(line: string, from: nat, to: nat): string
    requires from <= to
  {
    Trim(Substring(line, from, to))
  }

  // ---------------------------------------------------------------------------
  // Markup file
  // ---------------------------------------------------------------------------

  /**
   * One markup line: skipped when blank; otherwise three numbers in columns
   * 0-8, 9-17 and 18-26, and skipped when any of them is not a number.
   */
  function MarkupLine(line: string): (r: Option<Tier>)
    ensures Trim(line) == [] ==> r == None
    ensures r.Some? <==>
              && Trim(line) != []
              && ParseFloat(Column(line, 0, 8)).Some?
              && ParseFloat(Column(line, 9, 17)).Some?
              && ParseFloat(Column(line, 18, 26)).Some?
    ensures r.Some? ==>
              && Some(r.value.fromCost) == ParseFloat(Column(line, 0, 8))
              && Some(r.value.throughCost) == ParseFloat(Column(line, 9, 17))
              && Some(r.value.markup) == ParseFloat(Column(line, 18, 26))
  {
    if Trim(line) == [] then None
    else
      match (ParseFloat(Column(line, 0, 8)), ParseFloat(Column(line, 9, 17)), ParseFloat(Column(line, 18, 26)))
      case (Some(f), Some(t), Some(m)) => Some(Tier(f, t, m))
      case _ => None
  }

  /** The lines of a file: `content.split('\\n')`. */
  function Lines(content: string): seq<string> {
    Split(content, '\n')
  }

  /** What `parseMarkupFile` returns: the tiers of the lines that hold one, in line order. */
  function MarkupEntries(content: string): (r: seq<Tier>)
    ensures |r| <= |Lines(content)|
  {
    FilterMap(Lines(content), MarkupLine)
  }

  /** One step of a parse loop: the accepted lines of a longer prefix. */
  lemma FilterMapStep<B>(lines: seq<string>, i: nat, f: string -> Option<B>)
    requires i < |lines|
    ensures FilterMap(lines[..i + 1], f) == FilterMap(lines[..i], f) + (if f(lines[i]).Some? then [f(lines[i]).value] else [])
  {
    assert lines[..i + 1] == lines[..i] + [lines[i]];
    FilterMapAppend(lines[..i], [lines[i]], f);
    assert FilterMap([lines[i]], f) == (if f(lines[i]).Some? then [f(lines[i]).value] else []) + FilterMap([], f);
  }

  /** `parseMarkupFile(content)`. */
  method ParseMarkupFile(content: string) returns (markup: seq<Tier>)
    ensures markup == MarkupEntries(content)
  {
    markup := [];
    var lines := Lines(content);
    for i := 0 to |lines|
      invariant markup == FilterMap(lines[..i], MarkupLine)
    {
      FilterMapStep(lines, i, MarkupLine);
      var entry := MarkupLine(lines[i]);
      if entry.Some? {
        markup := markup + [entry.value];
      }
    }
    assert lines[..|lines|] == lines;
  }

  /** A markup line written with whole numbers in its three columns. */
  function MarkupLineOf(from: nat, through: nat, markup: nat): string
    requires |NatToString(from)| <= 8 && |NatToString(through)| <= 8 && |NatToString(markup)| <= 8
  {
    PadRight(NatToString(from), 8) + " " + PadRight(NatToString(through), 8) + " " + PadRight(NatToString(markup), 8)
  }

  lemma NumeralColumn(n: nat)
    requires |NatToString(n)| <= 8
    ensures Trim(PadRight(NatToString(n), 8)) == NatToString(n)
  {
    var s := NatToString(n);
    assert IsDigit(s[0]) && IsDigit(s[|s| - 1]);
    TrimPadRight(s, 8);
  }

  /** Reading a written markup line gives back its three numbers. */
  lemma MarkupLineRoundTrip(from: nat, through: nat, markup: nat)
    requires |NatToString(from)| <= 8 && |NatToString(through)| <= 8 && |NatToString(markup)| <= 8
    ensures MarkupLine(MarkupLineOf(from, through, markup)) == Some(Tier(from as real, through as real, markup as real))
  {
    var a, b, c := PadRight(NatToString(from), 8), PadRight(NatToString(through), 8), PadRight(NatToString(markup), 8);
    var line := MarkupLineOf(from, through, markup);
    assert Substring(line, 0, 8) == a by { assert line[0..8] == a; }
    assert Substring(line, 9, 17) == b by { assert line[9..17] == b; }
    assert Substring(line, 18, 26) == c by { assert line[18..26] == c; }
    NumeralColumn(from);
    NumeralColumn(through);
    NumeralColumn(markup);
    ParseFloatOfNatToString(from);
    ParseFloatOfNatToString(through);
    ParseFloatOfNatToString(markup);
    assert IsDigit(line[0]);
    assert Trim(line) != [];
  }

  // ---------------------------------------------------------------------------
  // Repairs file
  // ---------------------------------------------------------------------------

  /** A numeric column: a blank column is 0, anything else goes through `parseFloat`. */
  function NumberColumn(s: string): (r: Option<real>)
    ensures s == [] ==> r == Some(0.0)
    ensures s != [] ==> r == ParseFloat(s)
    ensures AllDigits(s) ==> r == Some(DigitsValue(s) as real)
  {
    if s == [] then Some(0.0) else ParseFloat(s)
  }

  /**
   * One repairs line: lines shorter than 82 characters are skipped, and so
   * are lines whose repair number (columns 0-6) or description (columns
   * 15-60) is blank. A parsed repair has no associated parts yet.
   */
  function RepairLine(line: string): (r: Option<Repair>)
    ensures |line| < RepairLineLength ==> r == None
    ensures |line| >= RepairLineLength ==> (r.Some? <==> Column(line, 0, 6) != [] && Column(line, 15, 60) != [])
    ensures r.Some? ==>
              && r.value.repairNumber == Column(line, 0, 6)
              && r.value.repairGroup == Column(line, 7, 10)
              && r.value.repairSubGroup == Column(line, 11, 14)
              && r.value.description == Column(line, 15, 60)
              && r.value.laborTime == NumberColumn(Column(line, 61, 66))
              && r.value.partsCost == NumberColumn(Column(line, 67, 74))
              && r.value.regularLaborCost == NumberColumn(Column(line, 75, 82))
              && r.value.associatedParts == []
  {
    if |line| < RepairLineLength then None
    else
      var repair := Repair(
        Column(line, 0, 6), Column(line, 7, 10), Column(line, 11, 14), Column(line, 15, 60),
        NumberColumn(Column(line, 61, 66)), NumberColumn(Column(line, 67, 74)), NumberColumn(Column(line, 75, 82)),
        []);
      if repair.repairNumber != [] && repair.description != [] then Some(repair) else None
  }

  /** What `parseRepairsFile` returns. */
  function RepairEntries(content: string): (r: seq<Repair>)
    ensures |r| <= |Lines(content)|
  {
    FilterMap(Lines(content), RepairLine)
  }

  /** `parseRepairsFile(content)`. */
  method ParseRepairsFile(content: string) returns (repairs: seq<Repair>)
    ensures repairs == RepairEntries(content)
  {
    repairs := [];
    var lines := Lines(content);
    for i := 0 to |lines|
      invariant repairs == FilterMap(lines[..i], RepairLine)
    {
      FilterMapStep(lines, i, RepairLine);
      var entry := RepairLine(lines[i]);
      if entry.Some? {
        repairs := repairs + [entry.value];
      }
    }
    assert lines[..|lines|] == lines;
  }

  /**
   * Every parsed repair has a repair number and a description with no white
   * space at either end, and no parts yet.
   */
  lemma RepairEntriesWellFormed(content: string, rep: Repair)
    requires rep in RepairEntries(content)
    ensures rep.repairNumber != [] && rep.description != [] && rep.associatedParts == []
    ensures Trim(rep.description) == rep.description
  {
    FilterMapMembers(Lines(content), RepairLine, rep);
    var line :| line in Lines(content) && RepairLine(line) == Some(rep);
    TrimIdempotent(Substring(line, 15, 60));
  }

  // ---------------------------------------------------------------------------
  // Parts file
  // ---------------------------------------------------------------------------

  /** A refrigerant is told by its description: "refrigerant", "r-410a" or "r410a", in any case. */
  predicate IsRefrigerant(description: string) {
    var d := Lower(description);
    Contains(d, "refrigerant") || Contains(d, "r-410a") || Contains(d, "r410a")
  }

  /** The test ignores case and looks for the words anywhere in the description. */
  lemma RefrigerantExamples()
    ensures IsRefrigerant("R-410A 25LB")
    ensures IsRefrigerant("Drum of Refrigerant")
    ensures !IsRefrigerant("CAPACITOR")
  {
    UpperCaseRefrigerant();
    RefrigerantWord();
    NotRefrigerant();
  }

  lemma UpperCaseRefrigerant()
    ensures IsRefrigerant("R-410A 25LB")
  {
    LowerOfLowerCase("r-410a 25lb");
    assert Lower("R-410A 25LB") == "r-410a 25lb";
    assert OccursAt(Lower("R-410A 25LB"), "r-410a", 0);
  }

  lemma RefrigerantWord()
    ensures IsRefrigerant("Drum of Refrigerant")
  {
    assert Lower("Drum of Refrigerant") == "drum of refrigerant";
    assert OccursAt(Lower("Drum of Refrigerant"), "refrigerant", 8);
  }

  lemma NotRefrigerant()
    ensures !IsRefrigerant("CAPACITOR")
  {
    assert Lower("CAPACITOR") == "capacitor";
    NotContainedByFirst("capacitor", "refrigerant");
    NotContainedByFirst("capacitor", "r-410a");
    NotContainedByFirst("capacitor", "r410a");
  }

  /**
   * One parts line: lines shorter than 107 characters are skipped and every
   * other line is a part. A blank cost is $40.00 for a refrigerant and 0 for
   * anything else; a blank quantity is 1.
   */
  function PartLine(line: string): (r: Option<Part>)
    ensures r.Some? <==> |line| >= PartLineLength
    ensures r.Some? ==>
              && r.value.repairNumber == Column(line, 0, 6)
              && r.value.partNumber == Column(line, 7, 13)
              && r.value.description == Column(line, 14, 44)
              && r.value.manufacturer == Column(line, 45, 48)
              && r.value.manufacturerPartNumber == Column(line, 49, 69)
              && r.value.vendorId == Column(line, 70, 73)
              && r.value.vendorPartNumber == Column(line, 74, 94)
              && r.value.isRefrigerant == IsRefrigerant(Column(line, 14, 44))
    ensures r.Some? && Column(line, 95, 102) != [] ==> r.value.cost == ParseFloat(Column(line, 95, 102))
    ensures r.Some? && Column(line, 95, 102) == [] ==>
              r.value.cost == Some(if r.value.isRefrigerant then RefrigerantDefaultCost else 0.0)
    ensures r.Some? && Column(line, 103, 107) != [] ==> r.value.quantity == ParseInt(Column(line, 103, 107))
    ensures r.Some? && Column(line, 103, 107) == [] ==> r.value.quantity == Some(1)
  {
    if |line| < PartLineLength then None
    else
      var description := Column(line, 14, 44);
      var costText := Column(line, 95, 102);
      var quantityText := Column(line, 103, 107);
      var refrigerant := IsRefrigerant(description);
      var defaultCost := if refrigerant then RefrigerantDefaultCost else 0.0;
      Some(Part(
        Column(line, 0, 6), Column(line, 7, 13), description,
        Column(line, 45, 48), Column(line, 49, 69), Column(line, 70, 73), Column(line, 74, 94),
        if costText != [] then ParseFloat(costText) else Some(defaultCost),
        if quantityText != [] then ParseInt(quantityText) else Some(1),
        refrigerant))
  }

  /** What `parsePartsFile` returns. */
  function PartEntries(content: string): (r: seq<Part>)
    ensures |r| <= |Lines(content)|
  {
    FilterMap(Lines(content), PartLine)
  }

  /** `parsePartsFile(content)`. */
  method ParsePartsFile(content: string) returns (parts: seq<Part>)
    ensures parts == PartEntries(content)
  {
    parts := [];
    var lines := Lines(content);
    for i := 0 to |lines|
      invariant parts == FilterMap(lines[..i], PartLine)
    {
      FilterMapStep(lines, i, PartLine);
      var entry := PartLine(lines[i]);
      if entry.Some? {
        parts := parts + [entry.value];
      }
    }
    assert lines[..|lines|] == lines;
  }

  /** Each line long enough for a part gives exactly one part, in line order. */
  lemma PartEntriesOfLongLines(lines: seq<string>)
    requires forall k :: 0 <= k < |lines| ==> |lines[k]| >= PartLineLength
    ensures |FilterMap(lines, PartLine)| == |lines|
    ensures forall k :: 0 <= k < |lines| ==> Some(FilterMap(lines, PartLine)[k]) == PartLine(lines[k])
  {
    forall k | 0 <= k < |lines| ensures PartLine(lines[k]).Some? {
    }
    FilterMapTotal(lines, PartLine);
  }

  // ---------------------------------------------------------------------------
  // Grouping parts by repair number and associating them with repairs
  // ---------------------------------------------------------------------------

  /** The parts of repair `rn`, in file order. */
  function PartsOf(parts: seq<Part>, rn: string): (r: seq<Part>)
    ensures |r| <= |parts|
    ensures forall k :: 0 <= k < |r| ==> r[k].repairNumber == rn && r[k] in parts
  {
    if parts == [] then []
    else (if parts[0].repairNumber == rn then [parts[0]] else []) + PartsOf(parts[1..], rn)
  }

  lemma {:induction false} PartsOfSnoc(parts: seq<Part>, p: Part, rn: string)
    ensures PartsOf(parts + [p], rn) == PartsOf(parts, rn) + (if p.repairNumber == rn then [p] else [])
  {
    if parts == [] {
      assert [] + [p] == [p];
    } else {
      var head := if parts[0].repairNumber == rn then [parts[0]] else [];
      var tail := if p.repairNumber == rn then [p] else [];
      assert (parts + [p])[0] == parts[0];
      assert (parts + [p])[1..] == parts[1..] + [p];
      PartsOfSnoc(parts[1..], p, rn);
      AppendAssoc(head, PartsOf(parts[1..], rn), tail);
    }
  }

  /** Every part is in its own repair's group. */
  lemma {:induction false} PartInItsGroup(parts: seq<Part>, p: Part)
    requires p in parts
    ensures p in PartsOf(parts, p.repairNumber)
  {
    if parts[0] != p {
      assert p in parts[1..] by {
        var i :| 0 <= i < |parts| && parts[i] == p;
        assert parts[1..][i - 1] == p;
      }
      PartInItsGroup(parts[1..], p);
    }
  }

  /** `groups` holds, for each repair number that has parts, exactly those parts. */
  ghost predicate Groups(groups: map<string, seq<Part>>, parts: seq<Part>) {
    forall rn :: (rn in groups <==> PartsOf(parts, rn) != []) && (rn in groups ==> groups[rn] == PartsOf(parts, rn))
  }

  /** The `partsMap` loop: one list per repair number, each part pushed onto its list. */
  method BuildPartsMap(parts: seq<Part>) returns (groups: map<string, seq<Part>>)
    ensures Groups(groups, parts)
  {
    groups := map[];
    for i := 0 to |parts|
      invariant Groups(groups, parts[..i])
    {
      var p := parts[i];
      assert parts[..i + 1] == parts[..i] + [p];
      forall rn {
        PartsOfSnoc(parts[..i], p, rn);
      }
      if p.repairNumber !in groups {
        groups := groups[p.repairNumber := []];
      }
      groups := groups[p.repairNumber := groups[p.repairNumber] + [p]];
    }
    assert parts[..|parts|] == parts;
  }

  /** `partsMap.get(repairNumber) || []`. */
  function Lookup(groups: map<string, seq<Part>>, rn: string): seq<Part> {
    if rn in groups then groups[rn] else []
  }

  /** The `map` that gives each repair the parts the map holds for its repair number. */
  function AssociateVia(repairs: seq<Repair>, groups: map<string, seq<Part>>): (r: seq<Item>)
    ensures |r| == |repairs|
    ensures forall i :: 0 <= i < |repairs| ==>
              r[i] == RepairItem(repairs[i].(associatedParts := Lookup(groups, repairs[i].repairNumber)))
  {
    seq(|repairs|, i requires 0 <= i < |repairs| =>
      RepairItem(repairs[i].(associatedParts := Lookup(groups, repairs[i].repairNumber))))
  }

  /** The reference association: each repair with exactly the parts that share its repair number. */
  function Associated(repairs: seq<Repair>, parts: seq<Part>): (r: seq<Item>)
    ensures |r| == |repairs|
    ensures forall i :: 0 <= i < |repairs| ==>
              r[i] == RepairItem(repairs[i].(associatedParts := PartsOf(parts, repairs[i].repairNumber)))
  {
    seq(|repairs|, i requires 0 <= i < |repairs| =>
      RepairItem(repairs[i].(associatedParts := PartsOf(parts, repairs[i].repairNumber))))
  }

  /** Looking parts up in a correct grouping associates each repair with exactly its parts. */
  lemma AssociateViaGroups(repairs: seq<Repair>, groups: map<string, seq<Part>>, parts: seq<Part>)
    requires Groups(groups, parts)
    ensures AssociateVia(repairs, groups) == Associated(repairs, parts)
  {
    forall i | 0 <= i < |repairs|
      ensures Lookup(groups, repairs[i].repairNumber) == PartsOf(parts, repairs[i].repairNumber)
    {
    }
  }

  function PartItems(parts: seq<Part>): (r: seq<Item>)
    ensures |r| == |parts| && forall i :: 0 <= i < |parts| ==> r[i] == PartItem(parts[i])
  {
    seq(|parts|, i requires 0 <= i < |parts| => PartItem(parts[i]))
  }

  /** The item filter: a description that is not blank. */
  predicate HasDescription(item: Item) {
    Trim(Description(item)) != []
  }

  /**
   * `allItems`: every repair of both files with its parts, then every part,
   * keeping the items with a description, in that order.
   */
  function AllItems(repairs1: seq<Repair>, repairs2: seq<Repair>, parts: seq<Part>): (r: seq<Item>)
    ensures |r| <= |repairs1| + |repairs2| + |parts|
    ensures forall k :: 0 <= k < |r| ==> HasDescription(r[k])
  {
    Filter(Associated(repairs1 + repairs2, parts) + PartItems(parts), HasDescription)
  }

  /** The repairs come first and the parts after them, each in its own order. */
  lemma AllItemsOrder(repairs1: seq<Repair>, repairs2: seq<Repair>, parts: seq<Part>)
    ensures AllItems(repairs1, repairs2, parts)
            == Filter(Associated(repairs1 + repairs2, parts), HasDescription) + Filter(PartItems(parts), HasDescription)
  {
    FilterAppend(Associated(repairs1 + repairs2, parts), PartItems(parts), HasDescription);
  }

  /** Each repair item in the list carries exactly the parts that share its repair number. */
  lemma AllItemsCarryTheirParts(repairs1: seq<Repair>, repairs2: seq<Repair>, parts: seq<Part>, item: Item)
    requires item in AllItems(repairs1, repairs2, parts) && item.RepairItem?
    ensures item.repair.associatedParts == PartsOf(parts, item.repair.repairNumber)
  {
    var xs, ys := Associated(repairs1 + repairs2, parts), PartItems(parts);
    InFilteredAppend(xs, ys, HasDescription, item);
    forall k | 0 <= k < |ys|
      ensures ys[k] != item
    {
    }
    assert item in xs;
    var k :| 0 <= k < |xs| && xs[k] == item;
  }

  /** Every part with a description is in the list. */
  lemma AllItemsKeepParts(repairs1: seq<Repair>, repairs2: seq<Repair>, parts: seq<Part>, p: Part)
    requires p in parts && Trim(p.description) != []
    ensures PartItem(p) in AllItems(repairs1, repairs2, parts)
  {
    var xs, ys := Associated(repairs1 + repairs2, parts), PartItems(parts);
    var i :| 0 <= i < |parts| && parts[i] == p;
    assert (xs + ys)[|xs| + i] == ys[i];
    FilterKeeps(xs + ys, HasDescription, PartItem(p));
  }

  /** Every repair with a description is in the list, with its parts. */
  lemma AllItemsKeepRepairs(repairs1: seq<Repair>, repairs2: seq<Repair>, parts: seq<Part>, rep: Repair)
    requires rep in repairs1 + repairs2 && Trim(rep.description) != []
    ensures RepairItem(rep.(associatedParts := PartsOf(parts, rep.repairNumber))) in AllItems(repairs1, repairs2, parts)
  {
    var repairs := repairs1 + repairs2;
    var xs, ys := Associated(repairs, parts), PartItems(parts);
    var i :| 0 <= i < |repairs| && repairs[i] == rep;
    assert (xs + ys)[i] == xs[i];
    FilterKeeps(xs + ys, HasDescription, xs[i]);
  }

  // ---------------------------------------------------------------------------
  // Batches
  // ---------------------------------------------------------------------------

  /**
   * The batches of the upload loop: `allItems.slice(i, i + 50)` for
   * `i = 0, 50, 100, ...` while `i` is below the length. Together they are the
   * list again; each holds one to fifty items, all but the last exactly fifty,
   * and there are `ceil(length / 50)` of them.
   */
  function Batches<A>(xs: seq<A>): (r: seq<seq<A>>)
    ensures Flatten(r) == xs
    ensures forall b :: 0 <= b < |r| ==> 0 < |r[b]| <= BatchSize
    ensures forall b :: 0 <= b < |r| - 1 ==> |r[b]| == BatchSize
    ensures |r| == (|xs| + BatchSize - 1) / BatchSize
    decreases |xs|
  {
    if xs == [] then []
    else if |xs| <= BatchSize then
      assert Flatten([xs]) == xs + Flatten([]);
      [xs]
    else
      var rest := Batches(xs[BatchSize..]);
      var r := [xs[..BatchSize]] + rest;
      assert r[1..] == rest;
      assert xs == xs[..BatchSize] + xs[BatchSize..];
      r
  }

  /**
   * Batch `b` is the slice `xs[50 * b..50 * b + 50]`, cut short at the end
   * of the list, and it starts inside the list.
   */
  lemma {:induction false} BatchSlice<A>(xs: seq<A>, b: nat)
    requires b < |Batches(xs)|
    ensures b * BatchSize < |xs|
    ensures Batches(xs)[b] == xs[b * BatchSize..Min(b * BatchSize + BatchSize, |xs|)]
    decreases b
  {
    BatchesUnfold(xs);
    if |xs| > BatchSize && b > 0 {
      BatchSlice(xs[BatchSize..], b - 1);
      ShiftedBatch(xs, b);
    }
  }

  /** One step of `Batches`: a short list is one batch, a longer one loses its first fifty. */
  lemma BatchesUnfold<A>(xs: seq<A>)
    ensures |xs| <= BatchSize ==> Batches(xs) == if xs == [] then [] else [xs]
    ensures |xs| > BatchSize ==> Batches(xs) == [xs[..BatchSize]] + Batches(xs[BatchSize..])
  {
  }

  /** Batch `b - 1` of the list after its first fifty items is batch `b` of the list. */
  lemma ShiftedBatch<A>(xs: seq<A>, b: nat)
    requires |xs| > BatchSize && b > 0 && (b - 1) * BatchSize < |xs| - BatchSize
    ensures b * BatchSize < |xs|
    ensures xs[BatchSize..][(b - 1) * BatchSize..Min((b - 1) * BatchSize + BatchSize, |xs| - BatchSize)]
         == xs[b * BatchSize..Min(b * BatchSize + BatchSize, |xs|)]
  {
    var lo, hi := (b - 1) * BatchSize, Min((b - 1) * BatchSize + BatchSize, |xs| - BatchSize);
    assert b * BatchSize == lo + BatchSize;
    assert Min(b * BatchSize + BatchSize, |xs|) == hi + BatchSize;
  }

  /**
   * A run that stopped in the batch starting at item `done`: the items added
   * are the items before that batch, in order, followed by items of that batch.
   */
  ghost predicate StoppedAt(allItems: seq<Item>, added: seq<Item>, done: nat) {
    && done % BatchSize == 0 && done < |allItems| && done <= |added|
    && added[..done] == allItems[..done]
    && forall x :: x in added[done..] ==> x in allItems[done..Min(done + BatchSize, |allItems|)]
  }

  ghost predicate StoppedInBatch(allItems: seq<Item>, added: seq<Item>) {
    exists done: nat :: StoppedAt(allItems, added, done)
  }

  /** Items of batch `b` added after the batches before it: the run stopped in batch `b`. */
  lemma StoppedAtBatch(allItems: seq<Item>, b: nat, prior: seq<Item>, added: seq<Item>)
    requires b < |Batches(allItems)|
    requires b * BatchSize <= |allItems| && prior == allItems[..b * BatchSize]
    requires forall x :: x in added ==> x in Batches(allItems)[b]
    ensures StoppedAt(allItems, prior + added, b * BatchSize)
  {
    BatchSlice(allItems, b);
    var done := b * BatchSize;
    AppendSplit(prior, added);
    assert (prior + added)[..done] == prior;
  }

  // ---------------------------------------------------------------------------
  // Processing the files
  // ---------------------------------------------------------------------------

  /** The embedding the store computes for an item's description under dictionary `d`. */
  function ItemEmbedding(d: Dictionary, embed: string -> Vector): Item -> Result<Vector, StoreError> {
    x => EmbeddingOf(d, embed, Description(x))
  }

  /** `vs` are the embeddings `f` gives the items `xs`, one for one. */
  ghost predicate EmbeddedAs(f: Item -> Result<Vector, StoreError>, vs: seq<Vector>, xs: seq<Item>) {
    |vs| == |xs| && forall k :: 0 <= k < |xs| ==> f(xs[k]) == Success(vs[k])
  }

  /** What `processFiles` returns. */
  datatype Processed = Processed(repairs1: seq<Repair>, repairs2: seq<Repair>, parts: seq<Part>, markup: seq<Tier>)

  lemma EmbeddedAsSnoc(f: Item -> Result<Vector, StoreError>, vs: seq<Vector>, xs: seq<Item>, v: Vector, x: Item)
    requires EmbeddedAs(f, vs, xs) && f(x) == Success(v)
    ensures EmbeddedAs(f, vs + [v], xs + [x])
  {
  }

  /** A store grown by one embedded item at its end. */
  lemma StoreSnoc(f: Item -> Result<Vector, StoreError>, v0: seq<Vector>, vs: seq<Vector>, i0: seq<Item>, xs: seq<Item>,
                  v: Vector, x: Item)
    requires EmbeddedAs(f, vs, xs) && f(x) == Success(v)
    ensures (v0 + vs) + [v] == v0 + (vs + [v]) && (i0 + xs) + [x] == i0 + (xs + [x])
    ensures EmbeddedAs(f, vs + [v], xs + [x])
  {
    EmbeddedAsSnoc(f, vs, xs, v, x);
    AppendAssoc(v0, vs, [v]);
    AppendAssoc(i0, xs, [x]);
  }

  lemma EmbeddedAsAppend(f: Item -> Result<Vector, StoreError>, vs1: seq<Vector>, vs2: seq<Vector>, xs1: seq<Item>, xs2: seq<Item>)
    requires EmbeddedAs(f, vs1, xs1) && EmbeddedAs(f, vs2, xs2)
    ensures EmbeddedAs(f, vs1 + vs2, xs1 + xs2)
  {
    forall k | 0 <= k < |xs1 + xs2|
      ensures f((xs1 + xs2)[k]) == Success((vs1 + vs2)[k])
    {
      if k < |xs1| {
        assert (xs1 + xs2)[k] == xs1[k] && (vs1 + vs2)[k] == vs1[k];
      } else {
        assert (xs1 + xs2)[k] == xs2[k - |xs1|] && (vs1 + vs2)[k] == vs2[k - |xs1|];
      }
    }
  }

  /** Some item of `xs` has no embedding under `f`. */
  ghost predicate SomeUnembeddable(f: Item -> Result<Vector, StoreError>, xs: seq<Item>) {
    exists k :: 0 <= k < |xs| && f(xs[k]).Failure?
  }

  lemma SomeUnembeddableAt(f: Item -> Result<Vector, StoreError>, xs: seq<Item>, k: nat)
    requires k < |xs| && f(xs[k]).Failure?
    ensures SomeUnembeddable(f, xs)
  {
  }

  /** An item without an embedding in a stretch of a list is one of the list's. */
  lemma SomeUnembeddableWithin(f: Item -> Result<Vector, StoreError>, pre: seq<Item>, ys: seq<Item>, zs: seq<Item>)
    requires SomeUnembeddable(f, ys) && pre + ys <= zs
    ensures SomeUnembeddable(f, zs)
  {
    var k :| 0 <= k < |ys| && f(ys[k]).Failure?;
    assert (pre + ys)[|pre| + k] == ys[k];
    SomeUnembeddableAt(f, zs, |pre| + k);
  }


  /**
   * A store that was `v0 + newVectors` beside `i0 + newItems` and grew at its
   * end by embedded items is `v0` and `i0` followed by all that was added.
   */
  lemma ExtendStore(f: Item -> Result<Vector, StoreError>, v0: seq<Vector>, newVectors: seq<Vector>, vectors: seq<Vector>,
                    i0: seq<Item>, newItems: seq<Item>, items: seq<Item>)
    requires |v0 + newVectors| <= |vectors| && vectors[..|v0 + newVectors|] == v0 + newVectors
    requires |i0 + newItems| <= |items| && items[..|i0 + newItems|] == i0 + newItems
    requires EmbeddedAs(f, newVectors, newItems)
    requires EmbeddedAs(f, vectors[|v0 + newVectors|..], items[|i0 + newItems|..])
    ensures vectors == v0 + (newVectors + vectors[|v0 + newVectors|..])
    ensures items == i0 + (newItems + items[|i0 + newItems|..])
    ensures vectors[..|v0|] == v0 && vectors[|v0|..] == newVectors + vectors[|v0 + newVectors|..]
    ensures items[..|i0|] == i0 && items[|i0|..] == newItems + items[|i0 + newItems|..]
    ensures EmbeddedAs(f, newVectors + vectors[|v0 + newVectors|..], newItems + items[|i0 + newItems|..])
  {
    var addedVectors, addedItems := vectors[|v0 + newVectors|..], items[|i0 + newItems|..];
    SplitAt(vectors, |v0 + newVectors|);
    SplitAt(items, |i0 + newItems|);
    EmbeddedAsAppend(f, newVectors, addedVectors, newItems, addedItems);
    AppendAssoc(v0, newVectors, addedVectors);
    AppendAssoc(i0, newItems, addedItems);
    AppendSplit(v0, newVectors + addedVectors);
    AppendSplit(i0, newItems + addedItems);
  }

  /** The batches before `b` followed by batch `b` are the first `50 * (b + 1)` items, cut short at the end. */
  lemma BatchStep(allItems: seq<Item>, b: nat, prior: seq<Item>)
    requires b < |Batches(allItems)| && prior == allItems[..Min(b * BatchSize, |allItems|)]
    ensures prior + Batches(allItems)[b] == allItems[..Min((b + 1) * BatchSize, |allItems|)]
  {
    BatchSlice(allItems, b);
    PrefixThenSlice(allItems, b * BatchSize, Min(b * BatchSize + BatchSize, |allItems|));
  }

  /** A failure in batch `b`, after the batches before it went in whole: the run stopped in batch `b`. */
  lemma BatchFailure(allItems: seq<Item>, b: nat, prior: seq<Item>, added: seq<Item>)
    requires b < |Batches(allItems)| && prior == allItems[..Min(b * BatchSize, |allItems|)]
    requires forall x :: x in added ==> x in Batches(allItems)[b]
    ensures StoppedInBatch(allItems, prior + added)
  {
    BatchSlice(allItems, b);
    StoppedAtBatch(allItems, b, prior, added);
  }

  /** An item of some batch that cannot be embedded is an item of the list that cannot be embedded. */
  lemma UnembeddableBatch(f: Item -> Result<Vector, StoreError>, allItems: seq<Item>, b: nat)
    requires b < |Batches(allItems)| && SomeUnembeddable(f, Batches(allItems)[b])
    ensures SomeUnembeddable(f, allItems)
  {
    BatchSlice(allItems, b);
    var done := b * BatchSize;
    PrefixThenSlice(allItems, done, Min(done + BatchSize, |allItems|));
    SomeUnembeddableWithin(f, allItems[..done], Batches(allItems)[b], allItems);
  }

  /** `slice(0, i)` followed by `slice(i, j)` is `slice(0, j)`. */
  lemma PrefixThenSlice(xs: seq<Item>, i: nat, j: nat)
    requires i <= j <= |xs|
    ensures xs[..i] + xs[i..j] == xs[..j]
  {
  }

  /**
   * The parsing and `allItems` steps of `processFiles`: each file parsed,
   * the parts grouped by repair number, each repair given its group, the
   * parts appended, and the items without a description dropped.
   */
  method ParseAll(repairs1Content: string, repairs2Content: string, partsContent: string, markupContent: string)
    returns (processed: Processed, allItems: seq<Item>)
    ensures processed == Processed(RepairEntries(repairs1Content), RepairEntries(repairs2Content),
                                   PartEntries(partsContent), MarkupEntries(markupContent))
    ensures allItems == AllItems(processed.repairs1, processed.repairs2, processed.parts)
  {
    var repairs1 := ParseRepairsFile(repairs1Content);
    var repairs2 := ParseRepairsFile(repairs2Content);
    var parts := ParsePartsFile(partsContent);
    var markup := ParseMarkupFile(markupContent);
    processed := Processed(repairs1, repairs2, parts, markup);
    var groups := BuildPartsMap(parts);
    allItems := Filter(AssociateVia(repairs1 + repairs2, groups) + PartItems(parts), HasDescription);
    AssociateViaGroups(repairs1 + repairs2, groups, parts);
  }

  class FileProcessor {
    const vectorStore: VectorStore
    /** The last payload handed to the persistence adapter's `saveData`. */
    var saved: Option<StoredData>

    constructor (store: VectorStore)
      ensures vectorStore == store && saved == None
    {
      vectorStore := store;
      saved := None;
    }

    /**
     * Adds one batch in order; a failure does not stop the rest of the batch
     * (all of its additions are started together), and the first failure is
     * reported after the batch. Whatever is added is an item of the batch,
     * beside its own embedding.
     */
    method AddBatch(batch: seq<Item>, embed: string -> Vector) returns (failure: Option<StoreError>)
      modifies vectorStore`vectors, vectorStore`items
      ensures |old(vectorStore.vectors)| <= |vectorStore.vectors|
      ensures vectorStore.vectors[..|old(vectorStore.vectors)|] == old(vectorStore.vectors)
      ensures |old(vectorStore.items)| <= |vectorStore.items|
      ensures vectorStore.items[..|old(vectorStore.items)|] == old(vectorStore.items)
      ensures EmbeddedAs(ItemEmbedding(vectorStore.tradeTerms, embed),
                         vectorStore.vectors[|old(vectorStore.vectors)|..], vectorStore.items[|old(vectorStore.items)|..])
      ensures forall x :: x in vectorStore.items[|old(vectorStore.items)|..] ==> x in batch
      ensures failure.None? ==> vectorStore.items[|old(vectorStore.items)|..] == batch
      ensures failure.Some? ==> !vectorStore.modelLoaded || SomeUnembeddable(ItemEmbedding(vectorStore.tradeTerms, embed), batch)
    {
      failure := None;
      ghost var v0, i0 := vectorStore.vectors, vectorStore.items;
      ghost var newVectors: seq<Vector>, newItems: seq<Item> := [], [];
      for j := 0 to |batch|
        invariant vectorStore.vectors == v0 + newVectors && vectorStore.items == i0 + newItems
        invariant EmbeddedAs(ItemEmbedding(vectorStore.tradeTerms, embed), newVectors, newItems)
        invariant forall x :: x in newItems ==> x in batch
        invariant failure.None? ==> newItems == batch[..j]
        invariant failure.Some? ==> !vectorStore.modelLoaded || SomeUnembeddable(ItemEmbedding(vectorStore.tradeTerms, embed), batch)
      {
        var item := batch[j];
        var r := vectorStore.AddItem(Description(item), item, embed);
        if r.Success? {
          ghost var v := EmbeddingOf(vectorStore.tradeTerms, embed, Description(item)).value;
          assert ItemEmbedding(vectorStore.tradeTerms, embed)(item) == Success(v);
          StoreSnoc(ItemEmbedding(vectorStore.tradeTerms, embed), v0, newVectors, i0, newItems, v, item);
          if failure.None? {
            PrefixSnoc(batch, j);
          }
          newVectors, newItems := newVectors + [v], newItems + [item];
        } else if failure.None? {
          if vectorStore.modelLoaded {
            SomeUnembeddableAt(ItemEmbedding(vectorStore.tradeTerms, embed), batch, j);
          }
          failure := Some(r.error);
        }
      }
      assert batch[..|batch|] == batch;
      AppendSplit(v0, newVectors);
      AppendSplit(i0, newItems);
    }

    /**
     * One pass of the upload loop: batch `b` added after the batches before
     * it. Without a failure the store then holds the batches up to and
     * including `b`; after a failure the run stopped in batch `b`.
     */
    method AddNextBatch(allItems: seq<Item>, b: nat, batch: seq<Item>, embed: string -> Vector,
                        ghost v0: seq<Vector>, ghost newVectors: seq<Vector>, ghost i0: seq<Item>, ghost newItems: seq<Item>)
      returns (failure: Option<StoreError>, ghost vectorsAfter: seq<Vector>, ghost itemsAfter: seq<Item>)
      requires b < |Batches(allItems)| && batch == Batches(allItems)[b]
      requires vectorStore.vectors == v0 + newVectors && vectorStore.items == i0 + newItems
      requires EmbeddedAs(ItemEmbedding(vectorStore.tradeTerms, embed), newVectors, newItems)
      requires newItems == allItems[..Min(b * BatchSize, |allItems|)]
      modifies vectorStore`vectors, vectorStore`items
      ensures vectorStore.vectors == v0 + vectorsAfter && vectorStore.items == i0 + itemsAfter
      ensures EmbeddedAs(ItemEmbedding(vectorStore.tradeTerms, embed), vectorsAfter, itemsAfter)
      ensures failure.None? ==> itemsAfter == allItems[..Min((b + 1) * BatchSize, |allItems|)]
      ensures failure.Some? ==> StoppedInBatch(allItems, itemsAfter)
      ensures failure.Some? ==> !vectorStore.modelLoaded || SomeUnembeddable(ItemEmbedding(vectorStore.tradeTerms, embed), allItems)
    {
      ghost var f := ItemEmbedding(vectorStore.tradeTerms, embed);
      ghost var vb, ib := vectorStore.vectors, vectorStore.items;
      failure := AddBatch(batch, embed);
      ghost var addedVectors, addedItems := vectorStore.vectors[|vb|..], vectorStore.items[|ib|..];
      ExtendStore(f, v0, newVectors, vectorStore.vectors, i0, newItems, vectorStore.items);
      vectorsAfter, itemsAfter := newVectors + addedVectors, newItems + addedItems;
      if failure.Some? {
        BatchFailure(allItems, b, newItems, addedItems);
        if vectorStore.modelLoaded {
          UnembeddableBatch(f, allItems, b);
        }
      } else {
        BatchStep(allItems, b, newItems);
      }
    }

    /**
     * The upload loop of `processFiles`: the batches of `allItems` in order,
     * stopping after the first batch that reports a failure. What was in the
     * store stays in front, and every item added sits beside its own
     * embedding; after a failure the store holds the earlier batches whole
     * and part of the failing one.
     */
    method AddAll(allItems: seq<Item>, embed: string -> Vector) returns (failure: Option<StoreError>)
      modifies vectorStore`vectors, vectorStore`items
      ensures |old(vectorStore.vectors)| <= |vectorStore.vectors|
      ensures vectorStore.vectors[..|old(vectorStore.vectors)|] == old(vectorStore.vectors)
      ensures |old(vectorStore.items)| <= |vectorStore.items|
      ensures vectorStore.items[..|old(vectorStore.items)|] == old(vectorStore.items)
      ensures EmbeddedAs(ItemEmbedding(vectorStore.tradeTerms, embed),
                         vectorStore.vectors[|old(vectorStore.vectors)|..], vectorStore.items[|old(vectorStore.items)|..])
      ensures failure.None? ==> vectorStore.items[|old(vectorStore.items)|..] == allItems
      ensures failure.Some? ==> StoppedInBatch(allItems, vectorStore.items[|old(vectorStore.items)|..])
      ensures failure.Some? ==> !vectorStore.modelLoaded || SomeUnembeddable(ItemEmbedding(vectorStore.tradeTerms, embed), allItems)
    {
      var batches := Batches(allItems);
      ghost var f := ItemEmbedding(vectorStore.tradeTerms, embed);
      ghost var v0, i0 := vectorStore.vectors, vectorStore.items;
      ghost var newVectors: seq<Vector>, newItems: seq<Item> := [], [];
      for b := 0 to |batches|
        invariant vectorStore.vectors == v0 + newVectors && vectorStore.items == i0 + newItems
        invariant EmbeddedAs(f, newVectors, newItems)
        invariant newItems == allItems[..Min(b * BatchSize, |allItems|)]
      {
        failure, newVectors, newItems := AddNextBatch(allItems, b, batches[b], embed, v0, newVectors, i0, newItems);
        if failure.Some? {
          AppendSplit(v0, newVectors);
          AppendSplit(i0, newItems);
          return;
        }
      }
      assert allItems[..|allItems|] == allItems;
      AppendSplit(v0, newVectors);
      AppendSplit(i0, newItems);
      failure := None;
    }

    /**
     * `processFiles` as written: parses the four files, builds `allItems`,
     * adds it to the store fifty items at a time, and hands the persistence
     * adapter the store's vectors beside `allItems`. When the store held
     * vectors before the run, the saved vectors outnumber the saved items.
     * A failing batch ends the run after that batch, with nothing saved.
     */
    method ProcessFiles(repairs1Content: string, repairs2Content: string, partsContent: string, markupContent: string,
                        embed: string -> Vector)
      returns (r: Result<Processed, StoreError>)
      modifies vectorStore`vectors, vectorStore`items, this`saved
      ensures |old(vectorStore.vectors)| <= |vectorStore.vectors|
      ensures vectorStore.vectors[..|old(vectorStore.vectors)|] == old(vectorStore.vectors)
      ensures |old(vectorStore.items)| <= |vectorStore.items|
      ensures vectorStore.items[..|old(vectorStore.items)|] == old(vectorStore.items)
      ensures EmbeddedAs(ItemEmbedding(vectorStore.tradeTerms, embed),
                         vectorStore.vectors[|old(vectorStore.vectors)|..], vectorStore.items[|old(vectorStore.items)|..])
      ensures r.Success? ==>
                var allItems := AllItems(RepairEntries(repairs1Content), RepairEntries(repairs2Content), PartEntries(partsContent));
                && r.value == Processed(RepairEntries(repairs1Content), RepairEntries(repairs2Content),
                                        PartEntries(partsContent), MarkupEntries(markupContent))
                && vectorStore.items[|old(vectorStore.items)|..] == allItems
                && saved == Some(StoredData(vectorStore.vectors, allItems, r.value.markup))
                && (|old(vectorStore.vectors)| > 0 ==> |saved.value.vectors| != |saved.value.items|)
      ensures r.Failure? ==>
                var allItems := AllItems(RepairEntries(repairs1Content), RepairEntries(repairs2Content), PartEntries(partsContent));
                && saved == old(saved)
                && StoppedInBatch(allItems, vectorStore.items[|old(vectorStore.items)|..])
                && (!vectorStore.modelLoaded || SomeUnembeddable(ItemEmbedding(vectorStore.tradeTerms, embed), allItems))
    {
      var processed, allItems := ParseAll(repairs1Content, repairs2Content, partsContent, markupContent);
      var failure := AddAll(allItems, embed);
      if failure.Some? {
        return Failure(failure.value);
      }
      saved := Some(StoredData(vectorStore.vectors, allItems, processed.markup));
      r := Success(processed);
    }

    /**
     * `processFiles` with the save corrected: the store is emptied first, so
     * the new data replaces the old, and the saved vectors and items then
     * line up index by index.
     */
    method ProcessFilesReplacing(repairs1Content: string, repairs2Content: string, partsContent: string, markupContent: string,
                                 embed: string -> Vector)
      returns (r: Result<Processed, StoreError>)
      modifies vectorStore`vectors, vectorStore`items, this`saved
      ensures EmbeddedAs(ItemEmbedding(vectorStore.tradeTerms, embed), vectorStore.vectors, vectorStore.items)
      ensures r.Success? ==>
                var allItems := AllItems(RepairEntries(repairs1Content), RepairEntries(repairs2Content), PartEntries(partsContent));
                && r.value == Processed(RepairEntries(repairs1Content), RepairEntries(repairs2Content),
                                        PartEntries(partsContent), MarkupEntries(markupContent))
                && vectorStore.items == allItems
                && saved == Some(StoredData(vectorStore.vectors, vectorStore.items, r.value.markup))
                && saved.value.items == allItems
                && EmbeddedAs(ItemEmbedding(vectorStore.tradeTerms, embed), saved.value.vectors, saved.value.items)
      ensures r.Failure? ==>
                var allItems := AllItems(RepairEntries(repairs1Content), RepairEntries(repairs2Content), PartEntries(partsContent));
                && saved == old(saved)
                && StoppedInBatch(allItems, vectorStore.items)
                && (!vectorStore.modelLoaded || SomeUnembeddable(ItemEmbedding(vectorStore.tradeTerms, embed), allItems))
    {
      var processed, allItems := ParseAll(repairs1Content, repairs2Content, partsContent, markupContent);
      vectorStore.ClearCache();
      var failure := AddAll(allItems, embed);
      assert vectorStore.vectors[0..] == vectorStore.vectors && vectorStore.items[0..] == vectorStore.items;
      if failure.Some? {
        return Failure(failure.value);
      }
      saved := Some(StoredData(vectorStore.vectors, vectorStore.items, processed.markup));
      r := Success(processed);
    }
  }
}
