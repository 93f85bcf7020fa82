/** The result presenter: the option map of the disambiguation list built
    from one page of results, the key/value map of the detail list built from
    one record, and the numbered address and taxonomy summaries inside it. The
    host's rendering calls are not modelled; these builders return the data
    the plugin hands to them, and each option's OnChange closure is recorded
    as an Action tag. */
module Presenter {
  import opened Text
  import opened Registry
  import opened Query

  /** The page size sent with every lookup (the package variable `limit`,
      which nothing assigns). */
  const Limit: nat := 20

  /** What selecting an option does: show the detail list of the record it
      was built for, fetch the next page, or fetch the previous page. */
  datatype Action = ShowDetail(item: NpiInfo) | NextPage | PrevPage

  /** One option of the disambiguation list. */
  datatype Choice = Choice(caption: string, order: nat, onChange: Action)

  /** One key/value row of the detail list. */
  datatype Pair = Pair(caption: string, order: nat, value: string)

  const Uint32Modulus: nat := 0x1_0000_0000

  /** `uint32(i) + 1` in Go: the index is truncated to 32 bits and the sum
      wraps around. */
  function Uint32Succ(i: nat): (o: nat)
    ensures o < Uint32Modulus
    ensures i + 1 < Uint32Modulus ==> o == i + 1
  {
    (i % Uint32Modulus + 1) % Uint32Modulus
  }

  /** The map key of the i-th result or other-name: `fmt.Sprintf("%v", i)`. */
  function Key(i: nat): (k: string)
    ensures |k| > 0 && AllDigits(k)
  {
    NatToDecimal(i)
  }

  lemma KeysDistinct(i: nat, j: nat)
    requires i != j
    ensures Key(i) != Key(j)
  {
    NatToDecimalInjective(i, j);
  }

  // ---------------------------------------------------------------------------
  // Disambiguation list

  /** The part of an option's label that identifies the provider: a person's
      name, overridden by the organization name when there is one. */
  function NameLabel(b: Basic): (r: string)
    ensures b.organization != "" ==> r == "Organization: " + b.organization
    ensures b.organization == "" && b.firstName != "" ==> r == "Name: " + b.firstName + " " + b.lastName
    ensures b.organization == "" && b.firstName == "" ==> r == ""
  {
    var byName := if b.firstName != "" then "Name: " + b.firstName + " " + b.lastName else "";
    if b.organization != "" then "Organization: " + b.organization else byName
  }

  function ChoiceLabel(item: NpiInfo): string
  {
    "* NPI: " + IntToDecimal(item.number) + ", " + NameLabel(item.basic)
  }

  /** The option of the i-th result of a page. */
  function ResultChoice(results: seq<NpiInfo>, i: nat): Choice
    requires i < |results|
  {
    Choice(ChoiceLabel(results[i]), Uint32Succ(i), ShowDetail(results[i]))
  }

  const NextKey: string := "next"
  const PrevKey: string := "prev"

  function NextChoice(n: nat): Choice
  {
    Choice("Next 20 Results", Uint32Succ(n), NextPage)
  }

  function PrevChoice(n: nat): Choice
  {
    Choice("Previous 20 Results", Uint32Succ(n), PrevPage)
  }

  /** The keys of the first n results (or other names): "0" to n-1. */
  function IndexKeys(n: nat): set<string>
  {
    if n == 0 then {} else IndexKeys(n - 1) + {Key(n - 1)}
  }

  lemma {:induction false} IndexKeysMembers(n: nat, k: string)
    ensures k in IndexKeys(n) <==> exists i :: 0 <= i < n && k == Key(i)
  {
    if n > 0 {
      IndexKeysMembers(n - 1, k);
    }
  }

  /** n distinct indices give n distinct keys. */
  lemma {:induction false} IndexKeysSize(n: nat)
    ensures |IndexKeys(n)| == n
  {
    if n > 0 {
      IndexKeysSize(n - 1);
      if Key(n - 1) in IndexKeys(n - 1) {
        IndexKeysMembers(n - 1, Key(n - 1));
        var i :| 0 <= i < n - 1 && Key(n - 1) == Key(i);
        KeysDistinct(i, n - 1);
      }
    }
  }

  /** Index keys are numerals, so they differ from every word key. */
  lemma IndexKeysAreNotWords(n: nat, w: string)
    requires |w| > 0 && !IsDigit(w[0])
    ensures w !in IndexKeys(n)
  {
    IndexKeysMembers(n, w);
  }

  /** The keys of the option map of a page of n results. */
  function ChoiceKeys(n: nat): set<string>
  {
    IndexKeys(n) + {PrevKey} + (if n == Limit then {NextKey} else {})
  }

  /** A page of n results yields n + 1 options, n + 2 when the page is full. */
  lemma ChoiceKeysSize(n: nat)
    ensures |ChoiceKeys(n)| == n + 1 + (if n == Limit then 1 else 0)
  {
    IndexKeysSize(n);
    IndexKeysAreNotWords(n, PrevKey);
    IndexKeysAreNotWords(n, NextKey);
  }

  /** The first n values of a sequence in a map, each under its index. */
  function IndexedMap<V>(vals: seq<V>, n: nat): map<string, V>
    requires n <= |vals|
  {
    if n == 0 then map[] else IndexedMap(vals, n - 1)[Key(n - 1) := vals[n - 1]]
  }

  lemma {:induction false} IndexedMapKeys<V>(vals: seq<V>, n: nat)
    requires n <= |vals|
    ensures IndexedMap(vals, n).Keys == IndexKeys(n)
  {
    if n > 0 {
      IndexedMapKeys(vals, n - 1);
    }
  }

  /** Inserting later values never overwrites an earlier one. */
  lemma {:induction false} IndexedMapAt<V>(vals: seq<V>, n: nat, j: nat)
    requires j < n <= |vals|
    ensures Key(j) in IndexedMap(vals, n) && IndexedMap(vals, n)[Key(j)] == vals[j]
  {
    if j < n - 1 {
      IndexedMapAt(vals, n - 1, j);
      KeysDistinct(j, n - 1);
    }
  }

  /** The options of a page's results, in page order. */
  function ResultChoices(results: seq<NpiInfo>): (r: seq<Choice>)
    ensures |r| == |results|
    ensures forall i :: 0 <= i < |results| ==> r[i] == ResultChoice(results, i)
  {
    seq(|results|, i requires 0 <= i < |results| => ResultChoice(results, i))
  }

  /** A sequence of values under their indices, then a value under "next"
      when `full`, then one under "prev". */
  function WithNavigation<V>(vals: seq<V>, full: bool, next: V, prev: V): map<string, V>
  {
    var indexed := IndexedMap(vals, |vals|);
    var withNext := if full then indexed[NextKey := next] else indexed;
    withNext[PrevKey := prev]
  }

  lemma WithNavigationSpec<V>(vals: seq<V>, full: bool, next: V, prev: V, m: map<string, V>)
    requires m == WithNavigation(vals, full, next, prev)
    ensures m.Keys == IndexKeys(|vals|) + {PrevKey} + (if full then {NextKey} else {})
    ensures forall i :: 0 <= i < |vals| ==> Key(i) in m && m[Key(i)] == vals[i]
    ensures (NextKey in m) <==> full
    ensures full ==> m[NextKey] == next
    ensures PrevKey in m && m[PrevKey] == prev
  {
    var n := |vals|;
    var indexed := IndexedMap(vals, n);
    IndexedMapKeys(vals, n);
    IndexKeysAreNotWords(n, NextKey);
    IndexKeysAreNotWords(n, PrevKey);
    forall i | 0 <= i < n ensures Key(i) in m && m[Key(i)] == vals[i] {
      IndexedMapAt(vals, n, i);
      assert Key(i) in indexed;
    }
  }

  /** WithNavigation as the two updates a caller makes after building the
      indexed entries. */
  lemma WithNavigationUnfold<V>(vals: seq<V>, full: bool, next: V, prev: V, indexed: map<string, V>)
    requires indexed == IndexedMap(vals, |vals|)
    ensures WithNavigation(vals, full, next, prev)
            == (if full then indexed[NextKey := next] else indexed)[PrevKey := prev]
  {
  }

  /** The option map of a page: the indexed options, then "next" when the
      page is full, then "prev". */
  function Choices(results: seq<NpiInfo>): map<string, Choice>
  {
    WithNavigation(ResultChoices(results), |results| == Limit,
                   NextChoice(|results|), PrevChoice(|results|))
  }

  /** The option map of a page holds exactly the keys "0" to n-1, "prev",
      and "next" when the page is full; each result's option sits under its
      index, and "next" is there exactly when the page has Limit results. */
  lemma ChoicesSpec(results: seq<NpiInfo>)
    ensures Choices(results).Keys == ChoiceKeys(|results|)
    ensures |Choices(results)| == |results| + 1 + (if |results| == Limit then 1 else 0)
    ensures forall i :: 0 <= i < |results| ==>
              Key(i) in Choices(results) && Choices(results)[Key(i)] == ResultChoice(results, i)
    ensures (NextKey in Choices(results)) <==> |results| == Limit
    ensures NextKey in Choices(results) ==> Choices(results)[NextKey] == NextChoice(|results|)
    ensures PrevKey in Choices(results) && Choices(results)[PrevKey] == PrevChoice(|results|)
  {
    WithNavigationSpec(ResultChoices(results), |results| == Limit,
                       NextChoice(|results|), PrevChoice(|results|), Choices(results));
    ChoiceKeysSize(|results|);
  }

  /** CreateDisambiguationElements: fills the option map of a page, one
      result at a time, then "next" when the page is full, then "prev". */
  method CreateDisambiguationElements(results: seq<NpiInfo>) returns (elements: map<string, Choice>)
    ensures elements == Choices(results)
  {
    elements := map[];
    var i := 0;
    while i < |results|
      invariant 0 <= i <= |results|
      invariant elements == IndexedMap(ResultChoices(results), i)
    {
      ChoicesStep(results, i);
      elements := elements[Key(i) := ResultChoice(results, i)];
      i := i + 1;
    }
    WithNavigationUnfold(ResultChoices(results), |results| == Limit,
                         NextChoice(|results|), PrevChoice(|results|), elements);
    if |results| == Limit {
      elements := elements[NextKey := NextChoice(|results|)];
    }
    elements := elements[PrevKey := PrevChoice(|results|)];
  }

  /** One more result's option extends the indexed options by one. */
  lemma ChoicesStep(results: seq<NpiInfo>, i: nat)
    requires i < |results|
    ensures IndexedMap(ResultChoices(results), i)[Key(i) := ResultChoice(results, i)]
            == IndexedMap(ResultChoices(results), i + 1)
  {
  }


  /** The heading of a disambiguation list: all six search fields as they
      are when the list is rendered. */
  function ResultsLabel(p: SearchParams): (r: string)
    ensures |r| >= 23 && r[..23] == "LookupNPI Results for: "
  {
    "LookupNPI Results for: " + p.number + " " + p.firstName + " " + p.lastName + " "
      + p.organization + " " + p.city + " " + p.state
  }

  // ---------------------------------------------------------------------------
  // Numbered summaries

  /** Line k of a summary: the number, a parenthesis, the text, a newline. */
  function Line(k: nat, text: string): string
  {
    NatToDecimal(k) + ") " + text + "\n"
  }

  /** A summary of entries: one line per entry, numbered from 1, each ending
      in a newline; empty for no entries. */
  function Numbered(texts: seq<string>): (r: string)
    ensures texts == [] ==> r == ""
    ensures texts != [] ==> |r| > 0 && r[|r| - 1] == '\n'
  {
    if texts == [] then ""
    else Numbered(texts[..|texts| - 1]) + Line(|texts|, texts[|texts| - 1])
  }

  predicate NoNewlines(s: string) {
    forall i :: 0 <= i < |s| ==> s[i] != '\n'
  }

  /** A summary of entries without newlines has exactly one line per entry. */
  lemma {:induction false} NumberedLineCount(texts: seq<string>)
    requires forall k :: 0 <= k < |texts| ==> NoNewlines(texts[k])
    ensures CountChar(Numbered(texts), '\n') == |texts|
  {
    if texts != [] {
      var n := |texts|;
      NumberedLineCount(texts[..n - 1]);
      var t := texts[n - 1];
      CountCharAbsent(NatToDecimal(n) + ") " + t, '\n');
      CountCharConcat(NatToDecimal(n) + ") " + t, "\n", '\n');
      CountCharConcat(Numbered(texts[..n - 1]), Line(n, t), '\n');
    }
  }

  /** The summary of the first k entries begins the summary of all of them. */
  lemma {:induction false} NumberedPrefix(texts: seq<string>, k: nat)
    requires k <= |texts|
    ensures Numbered(texts[..k]) <= Numbered(texts)
  {
    if k < |texts| {
      var n := |texts|;
      assert texts[..n - 1][..k] == texts[..k];
      NumberedPrefix(texts[..n - 1], k);
    } else {
      assert texts[..k] == texts;
    }
  }

  /** The summary holds, right after the first k lines, line k+1: entry k
      numbered k+1. */
  lemma NumberedLineAt(texts: seq<string>, k: nat)
    requires k < |texts|
    ensures var s := Numbered(texts);
            var start := |Numbered(texts[..k])|;
            start + |Line(k + 1, texts[k])| <= |s| &&
            s[start..start + |Line(k + 1, texts[k])|] == Line(k + 1, texts[k])
  {
    NumberedPrefix(texts, k + 1);
    assert texts[..k + 1][..k] == texts[..k];
  }

  function AddressText(a: Address): string
  {
    a.city + ", " + a.state + " " + a.postalCode + " " + a.country
  }

  function TaxonomyText(t: Taxonomy): string
  {
    "Primary:" + BoolText(t.primary) + "  Code:" + t.code + " Description:" + t.description
      + " State:" + t.state + " License:" + t.license
  }

  /** One more text adds its numbered line to the end. */
  lemma NumberedStep(texts: seq<string>, i: nat)
    requires i < |texts|
    ensures Numbered(texts[..i]) + Line(i + 1, texts[i]) == Numbered(texts[..i + 1])
  {
    assert texts[..i + 1][..i] == texts[..i];
  }

  lemma NumberedAll(texts: seq<string>)
    ensures Numbered(texts[..|texts|]) == Numbered(texts)
  {
    assert texts[..|texts|] == texts;
  }

  function AddressTexts(addresses: seq<Address>): (r: seq<string>)
    ensures |r| == |addresses|
    ensures forall i :: 0 <= i < |r| ==> r[i] == AddressText(addresses[i])
  {
    seq(|addresses|, i requires 0 <= i < |addresses| => AddressText(addresses[i]))
  }

  function TaxonomyTexts(taxonomies: seq<Taxonomy>): (r: seq<string>)
    ensures |r| == |taxonomies|
    ensures forall i :: 0 <= i < |r| ==> r[i] == TaxonomyText(taxonomies[i])
  {
    seq(|taxonomies|, i requires 0 <= i < |taxonomies| => TaxonomyText(taxonomies[i]))
  }

  /** CreateAddressStrings: one numbered line per address. */
  method CreateAddressStrings(addresses: seq<Address>) returns (s: string)
    ensures s == Numbered(AddressTexts(addresses))
  {
    var texts := AddressTexts(addresses);
    s := "";
    var i := 0;
    while i < |addresses|
      invariant 0 <= i <= |addresses|
      invariant s == Numbered(texts[..i])
    {
      var address := addresses[i];
      var text := AddressText(address);
      NumberedStep(texts, i);
      s := s + Line(i + 1, text);
      i := i + 1;
    }
    NumberedAll(texts);
  }

  /** CreateTaxonomyStrings: one numbered line per taxonomy. */
  method CreateTaxonomyStrings(taxonomies: seq<Taxonomy>) returns (s: string)
    ensures s == Numbered(TaxonomyTexts(taxonomies))
  {
    var texts := TaxonomyTexts(taxonomies);
    s := "";
    var i := 0;
    while i < |taxonomies|
      invariant 0 <= i <= |taxonomies|
      invariant s == Numbered(texts[..i])
    {
      var tax := taxonomies[i];
      var text := TaxonomyText(tax);
      NumberedStep(texts, i);
      s := s + Line(i + 1, text);
      i := i + 1;
    }
    NumberedAll(texts);
  }

  // ---------------------------------------------------------------------------
  // Detail list

  /** The enumeration type shown for a record: individual providers are
      "NPI-1", organizations "NPI-2"; anything else shows as empty. */
  function EnumerationName(enumerationType: string): (r: string)
    ensures r == "Individual" <==> enumerationType == "NPI-1"
    ensures r == "Organization" <==> enumerationType == "NPI-2"
    ensures r == "" <==> enumerationType != "NPI-1" && enumerationType != "NPI-2"
  {
    match enumerationType
    case "NPI-1" => "Individual"
    case "NPI-2" => "Organization"
    case _ => ""
  }

  function OtherNameText(o: OtherName): string
  {
    o.prefix + " " + o.firstName + " " + o.lastName + " " + o.organization
  }

  /** The heading of a record's detail list. */
  function DetailLabel(item: NpiInfo): string
  {
    "Information for " + IntToDecimal(item.number)
  }

  /** The six keys of a detail list that do not depend on the other names. */
  const FixedKeys: set<string> := {"number", "name", "organization", "enumeration", "address", "taxonomy"}

  lemma FixedKeysAreWords(k: string)
    requires k in FixedKeys
    ensures |k| > 0 && !IsDigit(k[0])
  {
  }

  /** The six rows of a detail list that do not depend on the other names,
      given the two summaries. */
  function FixedPairs(item: NpiInfo, addressSummary: string, taxonomySummary: string): (m: map<string, Pair>)
    ensures m.Keys == FixedKeys
    ensures m["number"] == Pair("NPI Number", 1, IntToDecimal(item.number))
    ensures m["name"] == Pair("Provider Name", 2, item.basic.firstName + " " + item.basic.lastName)
    ensures m["organization"] == Pair("Organization", 3, item.basic.organization)
    ensures m["enumeration"] == Pair("Enumeration Type", 5, EnumerationName(item.enumerationType))
    ensures m["address"] == Pair("Addresses", 6, addressSummary)
    ensures m["taxonomy"] == Pair("Taxonomies", 7, taxonomySummary)
  {
    map[
      "number" := Pair("NPI Number", 1, IntToDecimal(item.number)),
      "name" := Pair("Provider Name", 2, item.basic.firstName + " " + item.basic.lastName),
      "organization" := Pair("Organization", 3, item.basic.organization),
      "enumeration" := Pair("Enumeration Type", 5, EnumerationName(item.enumerationType)),
      "address" := Pair("Addresses", 6, addressSummary),
      "taxonomy" := Pair("Taxonomies", 7, taxonomySummary)
    ]
  }

  /** The fixed rows take the orders 1 to 7 except 4, one each. */
  lemma FixedPairsOrders(item: NpiInfo, addressSummary: string, taxonomySummary: string)
    ensures var m := FixedPairs(item, addressSummary, taxonomySummary);
            (forall k :: k in m ==> m[k].order in {1, 2, 3, 5, 6, 7}) &&
            (forall j, k :: j in m && k in m && j != k ==> m[j].order != m[k].order)
  {
  }

  /** The fixed rows of a record's detail list. */
  function DetailFixedPairs(item: NpiInfo): map<string, Pair>
  {
    FixedPairs(item, Numbered(AddressTexts(item.addresses)), Numbered(TaxonomyTexts(item.taxonomies)))
  }

  function OtherNamePair(o: OtherName): Pair
  {
    Pair(o.kind, 4, OtherNameText(o))
  }

  /** The rows of a record's other names, in order. */
  function OtherNamePairs(names: seq<OtherName>): (r: seq<Pair>)
    ensures |r| == |names|
    ensures forall i :: 0 <= i < |names| ==> r[i] == OtherNamePair(names[i])
  {
    seq(|names|, i requires 0 <= i < |names| => OtherNamePair(names[i]))
  }

  /** Rows under word keys, then the first n values of a sequence under
      their indices. */
  function WithIndexed<V>(fixed: map<string, V>, vals: seq<V>, n: nat): map<string, V>
    requires n <= |vals|
  {
    fixed + IndexedMap(vals, n)
  }

  /** Adding the next indexed value to the map extends it by one index. */
  lemma WithIndexedStep<V>(fixed: map<string, V>, vals: seq<V>, i: nat)
    requires i < |vals|
    ensures WithIndexed(fixed, vals, i)[Key(i) := vals[i]] == WithIndexed(fixed, vals, i + 1)
  {
  }

  lemma WithIndexedSpec<V>(fixed: map<string, V>, vals: seq<V>, m: map<string, V>)
    requires fixed.Keys !! IndexKeys(|vals|)
    requires m == WithIndexed(fixed, vals, |vals|)
    ensures m.Keys == fixed.Keys + IndexKeys(|vals|)
    ensures forall k :: k in fixed ==> m[k] == fixed[k]
    ensures forall i :: 0 <= i < |vals| ==> Key(i) in m && m[Key(i)] == vals[i]
  {
    var n := |vals|;
    IndexedMapKeys(vals, n);
    forall i | 0 <= i < n ensures Key(i) in m && m[Key(i)] == vals[i] {
      IndexedMapAt(vals, n, i);
    }
  }

  /** The detail rows of a record after the fixed rows and its first n other
      names. */
  function DetailRows(item: NpiInfo, n: nat): map<string, Pair>
    requires n <= |item.otherNames|
  {
    WithIndexed(DetailFixedPairs(item), OtherNamePairs(item.otherNames), n)
  }

  /** The detail list of a record: the six fixed rows, in orders 1, 2, 3, 5,
      6 and 7, and one row per other name, in order 4, under its index; no
      other-name row replaces a fixed one, so there are 6 + n rows. */
  lemma DetailRowsSpec(item: NpiInfo)
    ensures DetailRows(item, |item.otherNames|).Keys == FixedKeys + IndexKeys(|item.otherNames|)
    ensures |DetailRows(item, |item.otherNames|)| == 6 + |item.otherNames|
    ensures forall k :: k in FixedKeys ==> DetailRows(item, |item.otherNames|)[k] == DetailFixedPairs(item)[k]
    ensures forall i :: 0 <= i < |item.otherNames| ==>
              Key(i) in DetailRows(item, |item.otherNames|) &&
              DetailRows(item, |item.otherNames|)[Key(i)] == OtherNamePair(item.otherNames[i])
  {
    var n := |item.otherNames|;
    FixedKeysAreNotIndexKeys(n);
    WithIndexedSpec(DetailFixedPairs(item), OtherNamePairs(item.otherNames), DetailRows(item, n));
    DetailRowCount(n);
  }

  /** CreateListElements: the six fixed rows, with the two summaries built
      by their own loops, then one row per other name. */
  method CreateListElements(item: NpiInfo) returns (elements: map<string, Pair>)
    ensures elements == DetailRows(item, |item.otherNames|)
  {
    var addressString := CreateAddressStrings(item.addresses);
    var taxonomyString := CreateTaxonomyStrings(item.taxonomies);
    var fixed := FixedPairs(item, addressString, taxonomyString);
    elements := AddOtherNameRows(fixed, item.otherNames);
  }

  /** The loop of CreateListElements over the other names: one row per
      name, keyed by its index, added to the rows already there. */
  method AddOtherNameRows(fixed: map<string, Pair>, names: seq<OtherName>) returns (elements: map<string, Pair>)
    ensures elements == WithIndexed(fixed, OtherNamePairs(names), |names|)
  {
    elements := fixed;
    var i := 0;
    while i < |names|
      invariant 0 <= i <= |names|
      invariant elements == WithIndexed(fixed, OtherNamePairs(names), i)
    {
      var name := names[i];
      WithIndexedStep(fixed, OtherNamePairs(names), i);
      elements := elements[Key(i) := Pair(name.kind, 4, OtherNameText(name))];
      i := i + 1;
    }
  }


  lemma FixedKeysAreNotIndexKeys(n: nat)
    ensures FixedKeys !! IndexKeys(n)
  {
    forall w | w in FixedKeys ensures w !in IndexKeys(n) {
      FixedKeysAreWords(w);
      IndexKeysAreNotWords(n, w);
    }
  }

  /** Six fixed keys and n index keys make 6 + n keys. */
  lemma DetailRowCount(n: nat)
    ensures |FixedKeys + IndexKeys(n)| == 6 + n
  {
    IndexKeysSize(n);
    FixedKeysAreNotIndexKeys(n);
    assert |FixedKeys| == 6;
  }
}
