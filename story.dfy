/** The craft story card: which story template the spinner shows for a location
    and the values substituted into it. The prose itself is not modelled; a story
    is its template, the two place-dependent variants and the four substituted
    values. */
module Story {
  import opened Basics
  import opened Locations

  /** The template ids, plus the generic story used when no keyword matches. */
  datatype Kind =
    | BluePottery | BlockPrinting | Leather | CamelLeather | Terracotta | Puppets
    | Miniature | Bandhani | Metalwork | Wood | Marble | Embroidery | Stone
    | Pichwai | Phad | Jewelry | Generic

  /** The values a template interpolates. */
  datatype StoryParams = StoryParams(
    locationName: string, craftName: string, generations: string, artisanCount: string)

  /** A generated story: the block-printing story names Bagru's dyes and the
      stone story Jaisalmer's golden sandstone when the location id says so. */
  datatype CraftStory = CraftStory(kind: Kind, bagruDyes: bool, goldenStone: bool, params: StoryParams)

  /** The keyword dispatch, in the order the site tests it, given which
      keywords the lower-cased craft name contains. */
  function KindFor(has: string -> bool): Kind {
    if has("pottery") || has("blue") then BluePottery
    else if has("block") || has("print") then BlockPrinting
    else if has("leather") then (if has("camel") then CamelLeather else Leather)
    else if has("terracotta") then Terracotta
    else if has("puppet") then Puppets
    else if has("miniature") then Miniature
    else if has("bandhani") || has("tie-dye") then Bandhani
    else if has("metal") then Metalwork
    else if has("wood") || has("carving") then Wood
    else if has("marble") then Marble
    else if has("embroidery") then Embroidery
    else if has("stone") then Stone
    else if has("pichwai") then Pichwai
    else if has("phad") then Phad
    else if has("jewelry") || has("silver") then Jewelry
    else Generic
  }

  /** The template for a craft name, compared without regard to ASCII case. */
  function SelectTemplate(craftName: string): Kind {
    var craftLower := Lowercase(craftName);
    KindFor(w => Contains(craftLower, w))
  }

  // ------------------------------------------------- the dispatch as a table

  /** A row of the dispatch: it matches when the name holds one of `anyOf` and
      every one of `allOf`. */
  datatype Rule = Rule(anyOf: seq<string>, allOf: seq<string>, kind: Kind)

  predicate AnyHeld(has: string -> bool, words: seq<string>) {
    exists i :: 0 <= i < |words| && has(words[i])
  }

  predicate AllHeld(has: string -> bool, words: seq<string>) {
    forall i :: 0 <= i < |words| ==> has(words[i])
  }

  predicate RuleMatches(rule: Rule, has: string -> bool) {
    AnyHeld(has, rule.anyOf) && AllHeld(has, rule.allOf)
  }

  /** The dispatch written as an ordered table, the camel-leather test folded
      into a row of its own ahead of plain leather. */
  const Rules: seq<Rule> := [
    Rule(["pottery", "blue"], [], BluePottery),
    Rule(["block", "print"], [], BlockPrinting),
    Rule(["leather"], ["camel"], CamelLeather),
    Rule(["leather"], [], Leather),
    Rule(["terracotta"], [], Terracotta),
    Rule(["puppet"], [], Puppets),
    Rule(["miniature"], [], Miniature),
    Rule(["bandhani", "tie-dye"], [], Bandhani),
    Rule(["metal"], [], Metalwork),
    Rule(["wood", "carving"], [], Wood),
    Rule(["marble"], [], Marble),
    Rule(["embroidery"], [], Embroidery),
    Rule(["stone"], [], Stone),
    Rule(["pichwai"], [], Pichwai),
    Rule(["phad"], [], Phad),
    Rule(["jewelry", "silver"], [], Jewelry)
  ]

  /** The kind of the first row that matches, Generic when none does. */
  function FirstMatch(rules: seq<Rule>, has: string -> bool): (k: Kind)
    ensures (forall i :: 0 <= i < |rules| ==> !RuleMatches(rules[i], has)) ==> k == Generic
    ensures forall i :: (0 <= i < |rules| && RuleMatches(rules[i], has)
      && forall j :: 0 <= j < i ==> !RuleMatches(rules[j], has)) ==> k == rules[i].kind
  {
    if rules == [] then Generic
    else if RuleMatches(rules[0], has) then rules[0].kind
    else
      assert forall i :: 1 <= i < |rules| ==> rules[i] == rules[1..][i - 1];
      FirstMatch(rules[1..], has)
  }

  /** What the first eight rows of the table test, in the terms of the if-chain. */
  lemma LowRowTests(has: string -> bool)
    ensures RuleMatches(Rules[0], has) == (has("pottery") || has("blue"))
    ensures RuleMatches(Rules[1], has) == (has("block") || has("print"))
    ensures RuleMatches(Rules[2], has) == (has("leather") && has("camel"))
    ensures RuleMatches(Rules[3], has) == has("leather")
    ensures RuleMatches(Rules[4], has) == has("terracotta")
    ensures RuleMatches(Rules[5], has) == has("puppet")
    ensures RuleMatches(Rules[6], has) == has("miniature")
    ensures RuleMatches(Rules[7], has) == (has("bandhani") || has("tie-dye"))
  {
    FirstRowTests(has);
    LeatherRowTests(has);
    MiddleRowTests(has);
  }

  lemma FirstRowTests(has: string -> bool)
    ensures RuleMatches(Rules[0], has) == (has("pottery") || has("blue"))
    ensures RuleMatches(Rules[1], has) == (has("block") || has("print"))
  {
    AnyOfTwo(has, "pottery", "blue");
    AnyOfTwo(has, "block", "print");
  }

  lemma MiddleRowTests(has: string -> bool)
    ensures RuleMatches(Rules[4], has) == has("terracotta")
    ensures RuleMatches(Rules[5], has) == has("puppet")
    ensures RuleMatches(Rules[6], has) == has("miniature")
    ensures RuleMatches(Rules[7], has) == (has("bandhani") || has("tie-dye"))
  {
    AnyOfOne(has, "terracotta");
    AnyOfOne(has, "puppet");
    AnyOfOne(has, "miniature");
    AnyOfTwo(has, "bandhani", "tie-dye");
  }

  /** What the last eight rows of the table test, in the terms of the if-chain. */
  lemma HighRowTests(has: string -> bool)
    ensures RuleMatches(Rules[8], has) == has("metal")
    ensures RuleMatches(Rules[9], has) == (has("wood") || has("carving"))
    ensures RuleMatches(Rules[10], has) == has("marble")
    ensures RuleMatches(Rules[11], has) == has("embroidery")
    ensures RuleMatches(Rules[12], has) == has("stone")
    ensures RuleMatches(Rules[13], has) == has("pichwai")
    ensures RuleMatches(Rules[14], has) == has("phad")
    ensures RuleMatches(Rules[15], has) == (has("jewelry") || has("silver"))
  {
    AnyOfOne(has, "metal");
    AnyOfTwo(has, "wood", "carving");
    AnyOfOne(has, "marble");
    AnyOfOne(has, "embroidery");
    AnyOfOne(has, "stone");
    AnyOfOne(has, "pichwai");
    AnyOfOne(has, "phad");
    AnyOfTwo(has, "jewelry", "silver");
  }

  lemma LeatherRowTests(has: string -> bool)
    ensures RuleMatches(Rules[2], has) == (has("leather") && has("camel"))
    ensures RuleMatches(Rules[3], has) == has("leather")
  {
    AnyOfOne(has, "leather");
    assert ["camel"][0] == "camel";
  }

  lemma AnyOfOne(has: string -> bool, a: string)
    ensures AnyHeld(has, [a]) == has(a)
  {
    assert [a][0] == a;
  }

  lemma AnyOfTwo(has: string -> bool, a: string, b: string)
    ensures AnyHeld(has, [a, b]) == (has(a) || has(b))
  {
    assert [a, b][0] == a && [a, b][1] == b;
  }

  /** The if-chain and the table agree, whatever keywords are present. */
  lemma KindForIsFirstMatch(has: string -> bool)
    ensures KindFor(has) == FirstMatch(Rules, has)
  {
    var i := FirstMatchingRow(has);
    if i == |Rules| {
      KindForAtNoRow(has);
    } else if i < 8 {
      KindForAtLowRow(has, i);
    } else {
      KindForAtHighRow(has, i);
    }
  }

  /** The index of the first row that matches, |Rules| when none does. */
  lemma FirstMatchingRow(has: string -> bool) returns (i: nat)
    ensures i <= |Rules| && forall j :: 0 <= j < i ==> !RuleMatches(Rules[j], has)
    ensures i < |Rules| ==> RuleMatches(Rules[i], has)
  {
    i := 0;
    while i < |Rules| && !RuleMatches(Rules[i], has)
      invariant i <= |Rules| && forall j :: 0 <= j < i ==> !RuleMatches(Rules[j], has)
    {
      i := i + 1;
    }
  }

  /** No row of the first eight matches: none of their keywords is held. */
  lemma NoLowRow(has: string -> bool)
    requires forall j :: 0 <= j < 8 ==> !RuleMatches(Rules[j], has)
    ensures !has("pottery") && !has("blue") && !has("block") && !has("print") && !has("leather")
    ensures !has("terracotta") && !has("puppet") && !has("miniature") && !has("bandhani") && !has("tie-dye")
  {
    LowRowTests(has);
    assert !RuleMatches(Rules[3], has);
  }

  lemma KindForAtNoRow(has: string -> bool)
    requires forall j :: 0 <= j < |Rules| ==> !RuleMatches(Rules[j], has)
    ensures KindFor(has) == Generic
  {
    NoLowRow(has);
    HighRowTests(has);
  }

  lemma KindForAtLowRow(has: string -> bool, i: nat)
    requires i < 8 && RuleMatches(Rules[i], has)
    requires forall j :: 0 <= j < i ==> !RuleMatches(Rules[j], has)
    ensures KindFor(has) == Rules[i].kind
  {
    LowRowTests(has);
  }

  lemma KindForAtHighRow(has: string -> bool, i: nat)
    requires 8 <= i < 16 && RuleMatches(Rules[i], has)
    requires forall j :: 0 <= j < i ==> !RuleMatches(Rules[j], has)
    ensures KindFor(has) == Rules[i].kind
  {
    NoLowRow(has);
    HighRowTests(has);
  }

  /** The name holds none of the keywords the dispatch looks for. */
  predicate NoKeyword(has: string -> bool) {
    && !has("pottery") && !has("blue") && !has("block") && !has("print")
    && !has("leather") && !has("terracotta") && !has("puppet") && !has("miniature")
    && !has("bandhani") && !has("tie-dye") && !has("metal") && !has("wood")
    && !has("carving") && !has("marble") && !has("embroidery") && !has("stone")
    && !has("pichwai") && !has("phad") && !has("jewelry") && !has("silver")
  }

  /** A name is told the generic story exactly when it holds none of the keywords. */
  lemma GenericIffNoKeyword(has: string -> bool)
    ensures KindFor(has) == Generic <==> NoKeyword(has)
  {
  }

  /** 'camel' only matters next to 'leather', and only when no earlier keyword matched. */
  lemma CamelLeatherExactly(has: string -> bool)
    ensures KindFor(has) == CamelLeather <==>
      has("leather") && has("camel") && !has("pottery") && !has("blue") && !has("block") && !has("print")
  {
  }

  /** 'carving' comes before 'marble' and 'stone' in the chain, so a carved marble or stone
      craft is told the wood-carving story. */
  lemma CarvingBeatsMarbleAndStone(has: string -> bool)
    requires has("carving")
    requires !has("pottery") && !has("blue") && !has("block") && !has("print") && !has("leather")
    requires !has("terracotta") && !has("puppet") && !has("miniature") && !has("bandhani")
    requires !has("tie-dye") && !has("metal")
    ensures KindFor(has) == Wood
  {
  }

  /** Upper- and lower-case spellings of a craft get the same story. */
  lemma SelectTemplateIgnoresCase(craftName: string)
    ensures SelectTemplate(Lowercase(craftName)) == SelectTemplate(craftName)
  {
    assert Lowercase(Lowercase(craftName)) == Lowercase(craftName);
  }

  // ------------------------------------------------- substituted values

  /** `stats.generations || 'several'`. */
  function Generations(stats: seq<Stat>): (r: string)
    ensures r != ""
    ensures Truthy(Lookup(stats, "generations")) ==> r == Lookup(stats, "generations").value
    ensures !Truthy(Lookup(stats, "generations")) ==> r == "several"
  {
    var g := Lookup(stats, "generations");
    if Truthy(g) then g.value else "several"
  }

  /** `stats.artisans || stats.workshops || 'many'`. */
  function ArtisanCount(stats: seq<Stat>): (r: string)
    ensures r != ""
    ensures Truthy(Lookup(stats, "artisans")) ==> r == Lookup(stats, "artisans").value
    ensures !Truthy(Lookup(stats, "artisans")) && Truthy(Lookup(stats, "workshops")) ==>
      r == Lookup(stats, "workshops").value
    ensures !Truthy(Lookup(stats, "artisans")) && !Truthy(Lookup(stats, "workshops")) ==> r == "many"
  {
    var a := Lookup(stats, "artisans");
    var w := Lookup(stats, "workshops");
    if Truthy(a) then a.value else if Truthy(w) then w.value else "many"
  }

  /** `data.craft || 'this craft'`. */
  function CraftName(loc: Location): (r: string)
    ensures r != ""
    ensures loc.craft != "" ==> r == loc.craft
    ensures loc.craft == "" ==> r == "this craft"
  {
    if loc.craft != "" then loc.craft else "this craft"
  }

  /** `generateCraftStory`: the template picked by the craft name, its
      place-dependent variant (decided by the case-sensitive location id), and
      the values it interpolates. */
  function GenerateCraftStory(locationKey: string, locationName: string, craftName: string, loc: Location): (r: CraftStory)
    ensures r.kind == SelectTemplate(craftName)
    ensures r.bagruDyes <==> r.kind == BlockPrinting && Contains(locationKey, "bagru")
    ensures r.goldenStone <==> r.kind == Stone && Contains(locationKey, "jaisalmer")
    ensures r.params.locationName == locationName && r.params.craftName == craftName
    ensures r.params.generations == Generations(loc.stats) && r.params.artisanCount == ArtisanCount(loc.stats)
    ensures r.params.generations != "" && r.params.artisanCount != ""
  {
    var kind := SelectTemplate(craftName);
    CraftStory(kind,
      kind == BlockPrinting && Contains(locationKey, "bagru"),
      kind == Stone && Contains(locationKey, "jaisalmer"),
      StoryParams(locationName, craftName, Generations(loc.stats), ArtisanCount(loc.stats)))
  }

  /** A click on the spinner of a location's story card. */
  function SpinStory(locationKey: string, loc: Location): (r: CraftStory)
    ensures r.kind == SelectTemplate(CraftName(loc))
    ensures r.params.locationName == DisplayName(loc.title, "")
    ensures r.params.craftName == CraftName(loc) && r.params.craftName != ""
    ensures r.params.generations == Generations(loc.stats) && r.params.artisanCount == ArtisanCount(loc.stats)
    ensures r.bagruDyes <==> r.kind == BlockPrinting && Contains(locationKey, "bagru")
    ensures r.goldenStone <==> r.kind == Stone && Contains(locationKey, "jaisalmer")
  {
    GenerateCraftStory(locationKey, DisplayName(loc.title, ""), CraftName(loc), loc)
  }
}
