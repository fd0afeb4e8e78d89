/**
 * The trade-term dictionary and the query/document expansion that
 * `VectorStore.enhanceSearchText` performs before anything is embedded.
 *
 * The dictionary is a sequence of categories, each a sequence of entries
 * `formal -> variations`, in the insertion order of the source's object
 * literals (which is the order `Object.values`/`Object.entries` visit them).
 * Expansion lower-cases the text and then, entry by entry, appends
 * `" " + term` for missing variations of a formal term the text contains,
 * and the formal term and missing sibling variations for a variation it
 * contains. Matching is substring containment, exactly as `includes` is, so
 * "22" inside "1225" triggers the r22 entry.
 */
module TradeTerms {
  import opened Text

  datatype Entry = Entry(formal: string, variations: seq<string>)
  type Category = seq<Entry>
  type Dictionary = seq<Category>

  const Refrigerants: Category := [
    Entry("r410a", ["r-410a", "410a", "puron", "az20", "410 freon", "r410", "r 410a"]),
    Entry("r22", ["r-22", "r22 freon", "freon", "22", "r 22"]),
    Entry("r407c", ["r-407c", "407c", "407 freon", "r407", "r 407c"]),
    Entry("r134a", ["r-134a", "134a", "134 freon", "r134", "r 134a"]),
    Entry("r404a", ["r-404a", "404a", "404 freon", "r404", "r 404a"]),
    Entry("r32", ["r-32", "32", "r32 freon", "r 32"]),
    Entry("r454b", ["r-454b", "454b", "r454", "r 454b"]),
    Entry("r407a", ["r-407a", "407a", "407a freon", "r407", "r 407a"]),
    Entry("r417a", ["r-417a", "417a", "mo59", "r417", "r 417a"]),
    Entry("r422d", ["r-422d", "422d", "mo29", "r422", "r 422d"]),
    Entry("r438a", ["r-438a", "438a", "mo99", "r438", "r 438a"]),
    Entry("r421a", ["r-421a", "421a", "choice r421a", "r421", "r 421a"]),
    Entry("r427a", ["r-427a", "427a", "forane 427a", "r427", "r 427a"]),
    Entry("r453a", ["r-453a", "453a", "rs-70", "r453", "r 453a"]),
    Entry("r458a", ["r-458a", "458a", "r458", "r 458a"]),
    Entry("r420a", ["r-420a", "420a", "r420", "r 420a", "rb276"]),
    Entry("r416a", ["r-416a", "416a", "fr12", "r416", "r 416a"]),
    Entry("r414b", ["r-414b", "414b", "hot shot", "r414", "r 414b"]),
    Entry("r422b", ["r-422b", "422b", "nu22b", "r422", "r 422b"]),
    Entry("r422c", ["r-422c", "422c", "os24", "r422", "r 422c"])
  ]

  const Hvac: Category := [
    Entry("compressor", ["comp", "pump", "ac compressor"]),
    Entry("condenser", ["outdoor coil", "condenser coil", "outdoor unit"]),
    Entry("evaporator", ["evap coil", "indoor coil", "a coil", "cooling coil"]),
    Entry("txv", ["thermal expansion valve", "expansion valve", "metering device"]),
    Entry("air handler", ["ahu", "indoor unit", "blower unit"]),
    Entry("heat pump", ["hp", "reverse cycle", "heating cooling unit"]),
    Entry("furnace", ["heater", "heating unit", "gas furnace"]),
    Entry("thermostat", ["tstat", "t-stat", "temperature control"]),
    Entry("capacitor", ["cap", "run cap", "start cap"]),
    Entry("contactor", ["magnetic contactor", "power relay", "starter"]),
    Entry("disconnect", ["service disconnect", "safety switch", "pull out"]),
    Entry("filter drier", ["drier", "filter dryer", "liquid line drier"]),
    Entry("recovery machine", ["reclaim machine", "refrigerant recovery unit"]),
    Entry("vacuum pump", ["vac pump", "evacuation pump"]),
    Entry("manifold gauges", ["gauge set", "charging manifold", "test kit"]),
    Entry("micron gauge", ["vacuum gauge", "electronic vacuum gauge"]),
    Entry("superheat", ["sh", "superheat temperature"]),
    Entry("subcooling", ["sc", "subcool", "subcooling temperature"])
  ]

  const Plumbing: Category := [
    Entry("pex", ["cross-linked polyethylene", "flexible water line"]),
    Entry("cpvc", ["chlorinated polyvinyl chloride", "plastic pipe"]),
    Entry("copper", ["cu", "copper pipe", "copper tubing"]),
    Entry("pvc", ["polyvinyl chloride", "drain pipe"]),
    Entry("abs", ["acrylonitrile butadiene styrene", "black pipe"]),
    Entry("p-trap", ["trap", "drain trap", "sink trap"]),
    Entry("cleanout", ["co", "cleanout access", "drain cleanout"]),
    Entry("ball valve", ["shutoff valve", "isolation valve"]),
    Entry("gate valve", ["main valve", "full port valve"]),
    Entry("check valve", ["backflow preventer", "one way valve"]),
    Entry("pressure reducer", ["prv", "pressure reducing valve"]),
    Entry("vacuum breaker", ["avb", "anti-siphon valve"])
  ]

  const Electrical: Category := [
    Entry("disconnect", ["service disconnect", "safety switch", "pull out"]),
    Entry("contactor", ["magnetic contactor", "power relay", "starter"]),
    Entry("capacitor", ["cap", "run cap", "start cap"]),
    Entry("transformer", ["xfmr", "trafo", "24v transformer"]),
    Entry("circuit breaker", ["breaker", "cb", "overcurrent protection"]),
    Entry("wire nut", ["wire connector", "marette", "wire splice"]),
    Entry("conduit", ["emt", "rigid", "flex"]),
    Entry("junction box", ["j-box", "junction", "pull box"]),
    Entry("multimeter", ["dmm", "meter", "tester"]),
    Entry("voltage drop", ["vd", "voltage loss", "line loss"])
  ]

  /** What `initializeTradeTerms` installs, categories in insertion order. */
  const TradeTermDictionary: Dictionary := [Refrigerants, Hvac, Plumbing, Electrical]

  // ---------------------------------------------------------------------------
  // Expansion as functions, one per loop of the source
  // ---------------------------------------------------------------------------

  /** `enhanced += ` ${term}``. */
  function AppendTerm(s: string, t: string): string {
    s + " " + t
  }

  /** `if (!enhanced.includes(t)) enhanced += ` ${t}``. */
  function AddIfMissing(s: string, t: string): (r: string)
    ensures |s| <= |r| && r[..|s|] == s
  {
    if Contains(s, t) then s else AppendTerm(s, t)
  }

  /** The loop over the variations of a formal term the text contains. */
  function AddVariations(s: string, vs: seq<string>): (r: string)
    ensures |s| <= |r| && r[..|s|] == s
    decreases |vs|
  {
    if vs == [] then s else AddVariations(AddIfMissing(s, vs[0]), vs[1..])
  }

  /** The loop over the siblings (`altTerm`) of the variation `term` that matched. */
  function AddSiblings(s: string, term: string, vs: seq<string>): (r: string)
    ensures |s| <= |r| && r[..|s|] == s
    decreases |vs|
  {
    if vs == [] then s
    else AddSiblings(if term != vs[0] then AddIfMissing(s, vs[0]) else s, term, vs[1..])
  }

  /** One round of the loop over variations: the text holds `term` but not `formal`. */
  function MatchVariation(s: string, formal: string, vs: seq<string>, term: string): (r: string)
    ensures |s| <= |r| && r[..|s|] == s
  {
    if Contains(s, term) && !Contains(s, formal) then AddSiblings(AppendTerm(s, formal), term, vs)
    else s
  }

  /** The loop over every variation `term` in `pending` (a suffix of `vs`). */
  function MatchVariations(s: string, formal: string, vs: seq<string>, pending: seq<string>): (r: string)
    ensures |s| <= |r| && r[..|s|] == s
    decreases |pending|
  {
    if pending == [] then s
    else MatchVariations(MatchVariation(s, formal, vs, pending[0]), formal, vs, pending[1..])
  }

  /** Both passes for one dictionary entry. */
  function ExpandEntry(s: string, e: Entry): (r: string)
    ensures |s| <= |r| && r[..|s|] == s
  {
    var afterFormal := if Contains(s, e.formal) then AddVariations(s, e.variations) else s;
    MatchVariations(afterFormal, e.formal, e.variations, e.variations)
  }

  /** Every entry of a category, in order. */
  function ExpandCategory(s: string, c: Category): (r: string)
    ensures |s| <= |r| && r[..|s|] == s
    decreases |c|
  {
    if c == [] then s else ExpandCategory(ExpandEntry(s, c[0]), c[1..])
  }

  /** Every category of the dictionary, in order. */
  function ExpandDictionary(s: string, d: Dictionary): (r: string)
    ensures |s| <= |r| && r[..|s|] == s
    decreases |d|
  {
    if d == [] then s else ExpandDictionary(ExpandCategory(s, d[0]), d[1..])
  }

  /** The text `enhanceSearchText` returns: the lower-cased input, then the appended terms. */
  function Enhanced(d: Dictionary, text: string): (r: string)
    ensures |text| <= |r| && r[..|text|] == Lower(text)
  {
    ExpandDictionary(Lower(text), d)
  }

  // ---------------------------------------------------------------------------
  // The method, as the source writes it
  // ---------------------------------------------------------------------------

  /** The `forEach` over the variations of a formal term the text contains. */
  method AddVariationsText(text: string, variations: seq<string>) returns (enhanced: string)
    ensures enhanced == AddVariations(text, variations)
  {
    enhanced := text;
    for i := 0 to |variations|
      invariant AddVariations(enhanced, variations[i..]) == AddVariations(text, variations)
    {
      assert variations[i..][1..] == variations[i + 1..];
      var term := variations[i];
      if !Contains(enhanced, term) {
        enhanced := enhanced + " " + term;
      }
    }
  }

  /** The innermost `forEach` over the siblings `altTerm` of a matched `term`. */
  method AddSiblingsText(text: string, term: string, variations: seq<string>) returns (enhanced: string)
    ensures enhanced == AddSiblings(text, term, variations)
  {
    enhanced := text;
    for k := 0 to |variations|
      invariant AddSiblings(enhanced, term, variations[k..]) == AddSiblings(text, term, variations)
    {
      assert variations[k..][1..] == variations[k + 1..];
      var altTerm := variations[k];
      if term != altTerm && !Contains(enhanced, altTerm) {
        enhanced := enhanced + " " + altTerm;
      }
    }
  }

  /** Both passes of the source for one entry `formal -> variations`. */
  method ExpandEntryText(text: string, entry: Entry) returns (enhanced: string)
    ensures enhanced == ExpandEntry(text, entry)
  {
    enhanced := text;
    var formal, variations := entry.formal, entry.variations;
    if Contains(enhanced, formal) {
      enhanced := AddVariationsText(enhanced, variations);
    }
    ghost var afterFormal := enhanced;
    for j := 0 to |variations|
      invariant MatchVariations(enhanced, formal, variations, variations[j..])
             == MatchVariations(afterFormal, formal, variations, variations)
    {
      assert variations[j..][1..] == variations[j + 1..];
      var term := variations[j];
      if Contains(enhanced, term) && !Contains(enhanced, formal) {
        enhanced := enhanced + " " + formal;
        enhanced := AddSiblingsText(enhanced, term, variations);
      }
    }
  }

  /**
   * `enhanceSearchText(text)` over the dictionary `d`: the nested loops over
   * categories and entries, growing one string.
   */
  method EnhanceSearchText(d: Dictionary, text: string) returns (enhanced: string)
    ensures enhanced == Enhanced(d, text)
  {
    enhanced := Lower(text);
    for ci := 0 to |d|
      invariant ExpandDictionary(enhanced, d[ci..]) == Enhanced(d, text)
    {
      assert d[ci..][1..] == d[ci + 1..];
      var category := d[ci];
      for ei := 0 to |category|
        invariant ExpandDictionary(ExpandCategory(enhanced, category[ei..]), d[ci + 1..])
               == Enhanced(d, text)
      {
        assert category[ei..][1..] == category[ei + 1..];
        enhanced := ExpandEntryText(enhanced, category[ei]);
      }
    }
  }

  // ---------------------------------------------------------------------------
  // Only appends: the result is the input followed by fresh dictionary terms
  // ---------------------------------------------------------------------------

  /**
   * `r` is `s` followed by `" " + t` for each `t` of `ts`, in order, and each
   * `t` was not a substring of the text built before it was appended.
   */
  ghost predicate GrowsBy(s: string, ts: seq<string>, r: string)
    decreases |ts|
  {
    if ts == [] then r == s
    else !Contains(s, ts[0]) && GrowsBy(AppendTerm(s, ts[0]), ts[1..], r)
  }

  lemma {:induction false} GrowsByTrans(s: string, a: seq<string>, m: string, b: seq<string>, r: string)
    requires GrowsBy(s, a, m) && GrowsBy(m, b, r)
    ensures GrowsBy(s, a + b, r)
    decreases |a|
  {
    if a == [] {
      assert a + b == b;
    } else {
      assert (a + b)[0] == a[0];
      assert (a + b)[1..] == a[1..] + b;
      GrowsByTrans(AppendTerm(s, a[0]), a[1..], m, b, r);
    }
  }

  /** `t` is the formal term or one of the variations of `e`. */
  predicate IsTermOf(e: Entry, t: string) {
    t == e.formal || t in e.variations
  }

  ghost predicate InCategory(c: Category, t: string) {
    exists e :: e in c && IsTermOf(e, t)
  }

  ghost predicate InDictionary(d: Dictionary, t: string) {
    exists c :: c in d && InCategory(c, t)
  }

  lemma AddIfMissingTrace(s: string, t: string) returns (ts: seq<string>)
    ensures GrowsBy(s, ts, AddIfMissing(s, t))
    ensures forall u :: u in ts ==> u == t
  {
    ts := if Contains(s, t) then [] else [t];
  }

  lemma {:induction false} AddVariationsTrace(s: string, vs: seq<string>) returns (ts: seq<string>)
    ensures GrowsBy(s, ts, AddVariations(s, vs))
    ensures forall u :: u in ts ==> u in vs
    decreases |vs|
  {
    if vs == [] {
      ts := [];
    } else {
      var a := AddIfMissingTrace(s, vs[0]);
      var b := AddVariationsTrace(AddIfMissing(s, vs[0]), vs[1..]);
      GrowsByTrans(s, a, AddIfMissing(s, vs[0]), b, AddVariations(s, vs));
      ts := a + b;
    }
  }

  lemma {:induction false} AddSiblingsTrace(s: string, term: string, vs: seq<string>) returns (ts: seq<string>)
    ensures GrowsBy(s, ts, AddSiblings(s, term, vs))
    ensures forall u :: u in ts ==> u in vs && u != term
    decreases |vs|
  {
    if vs == [] {
      ts := [];
    } else {
      var next := if term != vs[0] then AddIfMissing(s, vs[0]) else s;
      var a: seq<string> := [];
      if term != vs[0] {
        a := AddIfMissingTrace(s, vs[0]);
      }
      var b := AddSiblingsTrace(next, term, vs[1..]);
      GrowsByTrans(s, a, next, b, AddSiblings(s, term, vs));
      ts := a + b;
    }
  }

  lemma MatchVariationTrace(s: string, formal: string, vs: seq<string>, term: string) returns (ts: seq<string>)
    ensures GrowsBy(s, ts, MatchVariation(s, formal, vs, term))
    ensures forall u :: u in ts ==> u == formal || u in vs
  {
    if Contains(s, term) && !Contains(s, formal) {
      var b := AddSiblingsTrace(AppendTerm(s, formal), term, vs);
      GrowsByTrans(s, [formal], AppendTerm(s, formal), b, MatchVariation(s, formal, vs, term));
      ts := [formal] + b;
    } else {
      ts := [];
    }
  }

  lemma {:induction false} MatchVariationsTrace(s: string, formal: string, vs: seq<string>, pending: seq<string>)
    returns (ts: seq<string>)
    ensures GrowsBy(s, ts, MatchVariations(s, formal, vs, pending))
    ensures forall u :: u in ts ==> u == formal || u in vs
    decreases |pending|
  {
    if pending == [] {
      ts := [];
    } else {
      var next := MatchVariation(s, formal, vs, pending[0]);
      var a := MatchVariationTrace(s, formal, vs, pending[0]);
      var b := MatchVariationsTrace(next, formal, vs, pending[1..]);
      GrowsByTrans(s, a, next, b, MatchVariations(s, formal, vs, pending));
      ts := a + b;
    }
  }

  lemma ExpandEntryTrace(s: string, e: Entry) returns (ts: seq<string>)
    ensures GrowsBy(s, ts, ExpandEntry(s, e))
    ensures forall u :: u in ts ==> IsTermOf(e, u)
  {
    var afterFormal := if Contains(s, e.formal) then AddVariations(s, e.variations) else s;
    var a: seq<string> := [];
    if Contains(s, e.formal) {
      a := AddVariationsTrace(s, e.variations);
    }
    var b := MatchVariationsTrace(afterFormal, e.formal, e.variations, e.variations);
    GrowsByTrans(s, a, afterFormal, b, ExpandEntry(s, e));
    ts := a + b;
  }

  lemma {:induction false} ExpandCategoryTrace(s: string, c: Category) returns (ts: seq<string>)
    ensures GrowsBy(s, ts, ExpandCategory(s, c))
    ensures forall u :: u in ts ==> InCategory(c, u)
    decreases |c|
  {
    if c == [] {
      ts := [];
    } else {
      var next := ExpandEntry(s, c[0]);
      var a := ExpandEntryTrace(s, c[0]);
      var b := ExpandCategoryTrace(next, c[1..]);
      GrowsByTrans(s, a, next, b, ExpandCategory(s, c));
      ts := a + b;
      forall u | u in ts ensures InCategory(c, u) {
        if u in a {
          assert c[0] in c && IsTermOf(c[0], u);
        } else {
          assert InCategory(c[1..], u);
          var e :| e in c[1..] && IsTermOf(e, u);
          assert e in c;
        }
      }
    }
  }

  lemma {:induction false} ExpandDictionaryTrace(s: string, d: Dictionary) returns (ts: seq<string>)
    ensures GrowsBy(s, ts, ExpandDictionary(s, d))
    ensures forall u :: u in ts ==> InDictionary(d, u)
    decreases |d|
  {
    if d == [] {
      ts := [];
    } else {
      var next := ExpandCategory(s, d[0]);
      var a := ExpandCategoryTrace(s, d[0]);
      var b := ExpandDictionaryTrace(next, d[1..]);
      GrowsByTrans(s, a, next, b, ExpandDictionary(s, d));
      ts := a + b;
      forall u | u in ts ensures InDictionary(d, u) {
        if u in a {
          assert d[0] in d && InCategory(d[0], u);
        } else {
          assert InDictionary(d[1..], u);
          var c :| c in d[1..] && InCategory(c, u);
          assert c in d;
        }
      }
    }
  }

  /**
   * The enhanced text is the lower-cased input followed by `" " + t` for a
   * sequence of terms `ts`; every `t` is a formal term or a variation of the
   * dictionary, and none was already a substring of the text built so far.
   */
  lemma EnhancedTrace(d: Dictionary, text: string) returns (ts: seq<string>)
    ensures GrowsBy(Lower(text), ts, Enhanced(d, text))
    ensures forall u :: u in ts ==> InDictionary(d, u)
  {
    ts := ExpandDictionaryTrace(Lower(text), d);
  }

  // ---------------------------------------------------------------------------
  // Coverage: a mentioned entry ends up fully present
  // ---------------------------------------------------------------------------

  /** The text contains the formal term of `e` or one of its variations. */
  ghost predicate Mentions(s: string, e: Entry) {
    Contains(s, e.formal) || exists v :: v in e.variations && Contains(s, v)
  }

  /** The text contains the formal term of `e` and every one of its variations. */
  ghost predicate Covers(s: string, e: Entry) {
    Contains(s, e.formal) && forall v :: v in e.variations ==> Contains(s, v)
  }

  lemma MentionsGrows(s: string, r: string, e: Entry)
    requires s <= r && Mentions(s, e)
    ensures Mentions(r, e)
  {
    if Contains(s, e.formal) {
      ContainsGrows(s, r, e.formal);
    } else {
      var v :| v in e.variations && Contains(s, v);
      ContainsGrows(s, r, v);
    }
  }

  lemma CoversGrows(s: string, r: string, e: Entry)
    requires s <= r && Covers(s, e)
    ensures Covers(r, e)
  {
    ContainsGrows(s, r, e.formal);
    forall v | v in e.variations ensures Contains(r, v) {
      ContainsGrows(s, r, v);
    }
  }

  lemma AddIfMissingContains(s: string, t: string)
    ensures Contains(AddIfMissing(s, t), t)
  {
    if !Contains(s, t) {
      ContainsAppended(s, " ", t);
    }
  }

  lemma {:induction false} AddVariationsCovers(s: string, vs: seq<string>)
    ensures forall v :: v in vs ==> Contains(AddVariations(s, vs), v)
    decreases |vs|
  {
    if vs != [] {
      var next := AddIfMissing(s, vs[0]);
      AddVariationsCovers(next, vs[1..]);
      AddIfMissingContains(s, vs[0]);
      ContainsGrows(next, AddVariations(s, vs), vs[0]);
    }
  }

  lemma {:induction false} AddSiblingsCovers(s: string, term: string, vs: seq<string>)
    ensures forall v :: v in vs && v != term ==> Contains(AddSiblings(s, term, vs), v)
    decreases |vs|
  {
    if vs != [] {
      var next := if term != vs[0] then AddIfMissing(s, vs[0]) else s;
      AddSiblingsCovers(next, term, vs[1..]);
      if term != vs[0] {
        AddIfMissingContains(s, vs[0]);
        ContainsGrows(next, AddSiblings(s, term, vs), vs[0]);
      }
    }
  }

  /** The second pass, started while the formal term is absent and `v` is present. */
  lemma {:induction false} MatchVariationsCovers(s: string, formal: string, vs: seq<string>, pending: seq<string>, v: string)
    requires !Contains(s, formal) && v in pending && Contains(s, v)
    ensures Covers(MatchVariations(s, formal, vs, pending), Entry(formal, vs))
    decreases |pending|
  {
    var term := pending[0];
    var r := MatchVariations(s, formal, vs, pending);
    if Contains(s, term) {
      var withFormal := AppendTerm(s, formal);
      var m := AddSiblings(withFormal, term, vs);
      assert MatchVariation(s, formal, vs, term) == m;
      ContainsAppended(s, " ", formal);
      ContainsGrows(withFormal, m, formal);
      AddSiblingsCovers(withFormal, term, vs);
      ContainsGrows(s, m, term);
      assert Covers(m, Entry(formal, vs));
      CoversGrows(m, r, Entry(formal, vs));
    } else {
      assert v != term;
      assert v in pending[1..];
      MatchVariationsCovers(s, formal, vs, pending[1..], v);
    }
  }

  lemma ExpandEntryCovers(s: string, e: Entry)
    requires Mentions(s, e)
    ensures Covers(ExpandEntry(s, e), e)
  {
    var r := ExpandEntry(s, e);
    if Contains(s, e.formal) {
      var afterFormal := AddVariations(s, e.variations);
      AddVariationsCovers(s, e.variations);
      ContainsGrows(s, afterFormal, e.formal);
      assert Covers(afterFormal, e);
      CoversGrows(afterFormal, r, e);
    } else {
      var v :| v in e.variations && Contains(s, v);
      MatchVariationsCovers(s, e.formal, e.variations, e.variations, v);
    }
  }

  lemma {:induction false} ExpandCategoryCovers(s: string, c: Category, e: Entry)
    requires e in c && Mentions(s, e)
    ensures Covers(ExpandCategory(s, c), e)
    decreases |c|
  {
    var next := ExpandEntry(s, c[0]);
    if c[0] == e {
      ExpandEntryCovers(s, e);
      CoversGrows(next, ExpandCategory(s, c), e);
    } else {
      MentionsGrows(s, next, e);
      assert e in c[1..];
      ExpandCategoryCovers(next, c[1..], e);
    }
  }

  lemma {:induction false} ExpandDictionaryCovers(s: string, d: Dictionary, c: Category, e: Entry)
    requires c in d && e in c && Mentions(s, e)
    ensures Covers(ExpandDictionary(s, d), e)
    decreases |d|
  {
    var next := ExpandCategory(s, d[0]);
    if d[0] == c {
      ExpandCategoryCovers(s, c, e);
      CoversGrows(next, ExpandDictionary(s, d), e);
    } else {
      MentionsGrows(s, next, e);
      assert c in d[1..];
      ExpandDictionaryCovers(next, d[1..], c, e);
    }
  }

  /**
   * If the lower-cased input contains a formal term, the enhanced text holds
   * every variation of it; if it contains a variation, the enhanced text holds
   * the formal term and every sibling variation.
   */
  lemma EnhancedCovers(d: Dictionary, text: string, c: Category, e: Entry)
    requires c in d && e in c && Mentions(Lower(text), e)
    ensures Covers(Enhanced(d, text), e)
  {
    ExpandDictionaryCovers(Lower(text), d, c, e);
  }

  // ---------------------------------------------------------------------------
  // Worked cases, for any dictionary holding the refrigerant category
  // (`TradeTermDictionary` does)
  // ---------------------------------------------------------------------------

  const R410a: Entry := Refrigerants[0]
  const R22: Entry := Refrigerants[1]

  /** A query naming r410a is expanded with "puron" and "410a". */
  lemma RefrigerantQueryExpands(d: Dictionary)
    requires Refrigerants in d
    ensures Contains(Enhanced(d, "r410a leak"), "puron")
    ensures Contains(Enhanced(d, "r410a leak"), "410a")
  {
    var text := "r410a leak";
    LowerOfLowerCase(text);
    ContainsPrefix(text, "r410a");
    assert Mentions(Lower(text), R410a);
    EnhancedCovers(d, text, Refrigerants, R410a);
    assert "puron" in R410a.variations && "410a" in R410a.variations;
  }

  /**
   * A document that says "puron" and a query that says "r410a" are both
   * expanded to hold both words, which is what lets the one retrieve the other.
   */
  lemma SynonymExpansionIsSymmetric(d: Dictionary)
    requires Refrigerants in d
    ensures Contains(Enhanced(d, "puron compressor"), "r410a")
    ensures Contains(Enhanced(d, "r410a"), "puron")
  {
    var document, query := "puron compressor", "r410a";
    LowerOfLowerCase(document);
    LowerOfLowerCase(query);
    ContainsPrefix(document, "puron");
    ContainsPrefix(query, "r410a");
    assert "puron" in R410a.variations;
    assert Mentions(Lower(document), R410a);
    assert Mentions(Lower(query), R410a);
    EnhancedCovers(d, document, Refrigerants, R410a);
    EnhancedCovers(d, query, Refrigerants, R410a);
  }

  /**
   * Substring matching over-matches: the digits "22" inside a model number
   * are taken for the refrigerant r22, and "r22" is appended.
   */
  lemma NumericSubstringMatchesR22(d: Dictionary)
    requires Refrigerants in d
    ensures Contains(Enhanced(d, "unit 1225"), "r22")
  {
    var text := "unit 1225";
    LowerOfLowerCase(text);
    assert OccursAt(text, "22", 6);
    assert "22" in R22.variations;
    assert Mentions(Lower(text), R22);
    EnhancedCovers(d, text, Refrigerants, R22);
  }
}
