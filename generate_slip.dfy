/**
 * The prompt builder of the Go back end's slip generation (`buildPromptFromFilters`
 * and its helpers): the legs count and model defaults, the bet-type rules of the
 * mode, the choice of one of eight model templates, and the payout guidance with
 * its boost and odds-range clauses.
 *
 * The long fixed prose (the opening instructions, the JSON schema, each template's
 * instructions, the payout conversion steps) is a parameter, `Wording`; so is the
 * `%.0f` formatting of a float, `fmt0`.
 */
module GenerateSlip {
  import opened Text
  import opened Numbers
  import opened Games

  datatype Filters = Filters(
    sport: string, mode: string, legs: int, slips: int,
    minOdds: real, maxOdds: real, model: string, boostPct: real, games: seq<GameDTO>)

  datatype Template =
    | NarrativeStory | WeirdAngles | ControlledRandom | Contrarian
    | MicroEdges | Pessimist | HeatCheck | DefaultNarrative

  /** The fixed prose the prompt is made of. */
  datatype Wording = Wording(
    intro: string, schema: string,
    conversion: string, tax: string, american: string, populate: string,
    beforeLegs: Template -> string, afterLegs: Template -> string)

  /* ---------- defaults ---------- */

  /** The number of legs asked for: one for a single, else the requested count, else 3. */
  function LegsWanted(mode: string, legs: int): (n: int)
    ensures n >= 1
    ensures Lower(Trim(mode)) == "single" ==> n == 1
    ensures Lower(Trim(mode)) != "single" && legs > 0 ==> n == legs
    ensures Lower(Trim(mode)) != "single" && legs <= 0 ==> n == 3
  {
    if Lower(Trim(mode)) == "single" then 1
    else if legs > 0 then legs
    else 3
  }

  /** The model, trimmed; "Narrative" when blank. */
  function ModelOrDefault(model: string): (m: string)
    ensures Trim(model) == "" ==> m == "Narrative"
    ensures Trim(model) != "" ==> m == Trim(model)
    ensures m != ""
  {
    if Trim(model) == "" then "Narrative" else Trim(model)
  }

  /** `orDefault`: the default exactly when the text is blank. */
  function OrDefault(s: string, def: string): (r: string)
    ensures Trim(s) == "" ==> r == def
    ensures Trim(s) != "" ==> r == s
  {
    if Trim(s) == "" then def else s
  }

  /** Defaulting twice is defaulting once. */
  lemma OrDefaultIdempotent(s: string, def: string)
    ensures OrDefault(OrDefault(s, def), def) == OrDefault(s, def)
  {
  }

  /* ---------- bet-type rules ---------- */

  /** The bet types a mode can name, each with its own rules text. */
  datatype BetType = SingleBet | SgpBet | SgpPlusBet | UnspecifiedBet

  /** The rules text a mode selects, by its trimmed, lower-cased name. */
  function BetTypeOf(mode: string): (b: BetType)
    ensures b == SingleBet <==> Lower(Trim(mode)) == "single"
    ensures b == SgpBet <==> Lower(Trim(mode)) == "sgp"
    ensures b == SgpPlusBet <==> Lower(Trim(mode)) == "sgp+"
    ensures b == UnspecifiedBet <==> Lower(Trim(mode)) !in {"single", "sgp", "sgp+"}
  {
    var m := Lower(Trim(mode));
    if m == "single" then SingleBet
    else if m == "sgp" then SgpBet
    else if m == "sgp+" then SgpPlusBet
    else UnspecifiedBet
  }

  function RulesText(b: BetType): string {
    match b
    case SingleBet => "- Bet type rules: SINGLE — one standalone selection (not a parlay). Ignore SGP/SGP+ constraints."
    case SgpBet => "- Bet type rules: SGP — Legs can be from different games or the same game."
    case SgpPlusBet => "- Bet type rules: SGP+ — At least TWO legs must come from the SAME specific game; remaining legs may be from distinct games. Clearly indicate which legs share the same game."
    case UnspecifiedBet => "- Bet type rules: (unspecified) default to SGP behavior unless impossible."
  }

  /** `sgpRules`: the rules text of the mode; an unknown mode gets the default-SGP text. */
  function SgpRules(mode: string): (r: string)
    ensures r == RulesText(BetTypeOf(mode))
  {
    var m := Lower(Trim(mode));
    if m == "single" then RulesText(SingleBet)
    else if m == "sgp" then RulesText(SgpBet)
    else if m == "sgp+" then RulesText(SgpPlusBet)
    else RulesText(UnspecifiedBet)
  }

  /** Modes that differ only in surrounding space and letter case get the same rules. */
  lemma SgpRulesIgnoresCase(a: string, b: string)
    requires Lower(Trim(a)) == Lower(Trim(b))
    ensures SgpRules(a) == SgpRules(b)
  {
  }

  /* ---------- model templates ---------- */

  /** The accepted spellings of each model (its trimmed, lower-cased name). */
  function Aliases(t: Template): seq<string> {
    match t
    case NarrativeStory => ["narrative", "correlated", "narrative / correlated story"]
    case WeirdAngles => ["weird", "obscure", "weird / obscure angles"]
    case ControlledRandom => ["random", "controlled randomness", "controlled randomness (for exploration)"]
    case Contrarian => ["contrarian", "market-based", "market-based / contrarian (fade the crowd)"]
    case MicroEdges => ["micro-edges", "micro", "micro edges", "micro-edges (injury/bullpen/park micro)"]
    case Pessimist => ["pessimist", "underminer", "pessimist / \U{201C}underminer\U{201D} (lean under on purpose)"]
    case HeatCheck => ["heat-check", "heat check", "heat-check / regression (fade the hot streak)"]
    case DefaultNarrative => []
  }

  /** The template a model key selects. */
  function TemplateOf(key: string): (t: Template)
    ensures t == DefaultNarrative || key in Aliases(t)
  {
    if key in Aliases(NarrativeStory) then NarrativeStory
    else if key in Aliases(WeirdAngles) then WeirdAngles
    else if key in Aliases(ControlledRandom) then ControlledRandom
    else if key in Aliases(Contrarian) then Contrarian
    else if key in Aliases(MicroEdges) then MicroEdges
    else if key in Aliases(Pessimist) then Pessimist
    else if key in Aliases(HeatCheck) then HeatCheck
    else DefaultNarrative
  }

  /** A key selects the default template exactly when it is in no alias list. */
  lemma TemplateOfDefault(key: string)
    ensures TemplateOf(key) == DefaultNarrative <==> forall u :: key !in Aliases(u)
  {
    var t := TemplateOf(key);
    if t != DefaultNarrative {
      assert key in Aliases(t);
    }
  }

  /** Each alias list selects its own template: no key is in two lists. */
  lemma TemplateOfAliases(key: string, t: Template)
    requires key in Aliases(t)
    ensures TemplateOf(key) == t
  {
    match t
    case NarrativeStory => SelectsNarrativeStory(key);
    case WeirdAngles => SelectsWeirdAngles(key);
    case ControlledRandom => SelectsControlledRandom(key);
    case Contrarian => SelectsContrarian(key);
    case MicroEdges => SelectsMicroEdges(key);
    case Pessimist => SelectsPessimist(key);
    case HeatCheck => SelectsHeatCheck(key);
  }

  lemma SelectsNarrativeStory(key: string)
    requires key in Aliases(NarrativeStory)
    ensures TemplateOf(key) == NarrativeStory
  {
  }

  lemma SelectsWeirdAngles(key: string)
    requires key in Aliases(WeirdAngles)
    ensures TemplateOf(key) == WeirdAngles
  {
  }

  lemma SelectsControlledRandom(key: string)
    requires key in Aliases(ControlledRandom)
    ensures TemplateOf(key) == ControlledRandom
  {
  }

  lemma SelectsContrarian(key: string)
    requires key in Aliases(Contrarian)
    ensures TemplateOf(key) == Contrarian
  {
  }

  lemma SelectsMicroEdges(key: string)
    requires key in Aliases(MicroEdges)
    ensures TemplateOf(key) == MicroEdges
  {
  }

  lemma SelectsPessimist(key: string)
    requires key in Aliases(Pessimist)
    ensures TemplateOf(key) == Pessimist
  {
  }

  lemma SelectsHeatCheck(key: string)
    requires key in Aliases(HeatCheck)
    ensures TemplateOf(key) == HeatCheck
  {
  }

  /** The name a template introduces itself with. */
  function DisplayName(t: Template): string {
    match t
    case NarrativeStory => "Narrative / Correlated Story"
    case WeirdAngles => "Weird / Obscure Angles"
    case ControlledRandom => "Controlled Randomness"
    case Contrarian => "Market-Based / Contrarian"
    case MicroEdges => "Micro-Edges"
    case Pessimist => "Pessimist / Underminer"
    case HeatCheck => "Heat-Check / Regression"
    case DefaultNarrative => "Narrative / Correlated Story"
  }

  /** The template's opening line up to the sport. */
  function IntroHead(t: Template): string {
    "You are the \"" + DisplayName(t) + "\" model" + (if t == DefaultNarrative then " (default)" else "")
      + " for the sport: "
  }

  /** The template's instructions around the legs count. */
  function Instructions(t: Template, w: Wording, legs: int): string {
    "\n" + w.beforeLegs(t) + IntToDecimal(legs) + w.afterLegs(t) + "\n"
  }

  /** A template filled in: the sport, the mode rules, the legs count and the payout block. */
  function TemplateText(t: Template, w: Wording, sport: string, rules: string, legs: int, payout: string): string {
    IntroHead(t) + sport + ".\n" + rules + Instructions(t, w, legs) + payout
  }

  /** `promptForModel`: the template of the trimmed, lower-cased model name, filled in. */
  function PromptForModel(w: Wording, fmt0: real -> string, model: string, legsWanted: int, sport: string,
                          minOdds: real, maxOdds: real, boostPct: real, mode: string): string
  {
    TemplateText(TemplateOf(Lower(Trim(model))), w, sport, SgpRules(mode), legsWanted,
                 PayoutGuidance(w, fmt0, minOdds, maxOdds, boostPct, legsWanted))
  }

  /** Whatever the template, the prompt names the sport, the mode rules, the legs count and
      the payout block. */
  lemma PromptEmbeds(w: Wording, fmt0: real -> string, model: string, legsWanted: int, sport: string,
                     minOdds: real, maxOdds: real, boostPct: real, mode: string)
    ensures var p := PromptForModel(w, fmt0, model, legsWanted, sport, minOdds, maxOdds, boostPct, mode);
      && Occurs(SgpRules(mode), p)
      && Occurs(IntToDecimal(legsWanted), p)
      && Occurs(PayoutGuidance(w, fmt0, minOdds, maxOdds, boostPct, legsWanted), p)
      && Occurs(sport, p)
  {
    var t := TemplateOf(Lower(Trim(model)));
    var rules := SgpRules(mode);
    var payout := PayoutGuidance(w, fmt0, minOdds, maxOdds, boostPct, legsWanted);
    var legs := IntToDecimal(legsWanted);
    var head := IntroHead(t);
    var middle := Instructions(t, w, legsWanted);
    // sport
    OccursSelf(sport);
    OccursLeft(sport, sport, head);
    OccursRight(sport, head + sport, ".\n");
    OccursRight(sport, head + sport + ".\n", rules);
    OccursRight(sport, head + sport + ".\n" + rules, middle);
    OccursRight(sport, head + sport + ".\n" + rules + middle, payout);
    // rules
    OccursSelf(rules);
    OccursLeft(rules, rules, head + sport + ".\n");
    OccursRight(rules, head + sport + ".\n" + rules, middle);
    OccursRight(rules, head + sport + ".\n" + rules + middle, payout);
    // legs
    OccursSelf(legs);
    OccursLeft(legs, legs, "\n" + w.beforeLegs(t));
    OccursRight(legs, "\n" + w.beforeLegs(t) + legs, w.afterLegs(t));
    OccursRight(legs, "\n" + w.beforeLegs(t) + legs + w.afterLegs(t), "\n");
    OccursLeft(legs, middle, head + sport + ".\n" + rules);
    OccursRight(legs, head + sport + ".\n" + rules + middle, payout);
    // payout
    OccursSelf(payout);
    OccursLeft(payout, payout, head + sport + ".\n" + rules + middle);
  }

  /* ---------- payout guidance ---------- */

  const BoostLead: string := "- Apply the sportsbook boost AFTER tax: postBoostMultiple = preBoostMultiple × (1 + "
  const NoBoostLine: string := "- No boost: postBoostMultiple = preBoostMultiple.\n"

  /** The boost line: the boost applied after tax when positive, else "No boost". */
  function BoostLine(fmt0: real -> string, boostPct: real): (r: string)
    ensures boostPct <= 0.0 ==> r == NoBoostLine
    ensures boostPct > 0.0 ==> r == BoostLead + fmt0(boostPct) + "/100).\n"
  {
    if boostPct > 0.0 then BoostLead + fmt0(boostPct) + "/100).\n"
    else NoBoostLine
  }

  /** The user's payout range: both bounds, only a lower or only an upper one. */
  function RangeBounds(fmt0: real -> string, minOdds: real, maxOdds: real): (r: string)
    requires minOdds >= 100.0 || maxOdds >= 100.0
    ensures |r| >= 2 && r[0] == '['
    ensures r[1] == '+' <==> minOdds >= 100.0 && maxOdds >= 100.0
    ensures r[1] == '≥' <==> minOdds >= 100.0 && maxOdds < 100.0
    ensures r[1] == '≤' <==> minOdds < 100.0
  {
    if minOdds >= 100.0 && maxOdds >= 100.0 then "[+" + fmt0(minOdds) + ", +" + fmt0(maxOdds) + "]"
    else if minOdds >= 100.0 then "[≥ +" + fmt0(minOdds) + "]"
    else "[≤ +" + fmt0(maxOdds) + "]"
  }

  const RangeLead: string := "- Try to keep the POST-BOOST American payout within the user range "
  const RangeTail: string := " if reasonable; it's okay to exceed modestly when leg count or sport constraints require it.\n"

  /** The range sentence, present only when some bound is at least +100. */
  function RangeLine(fmt0: real -> string, minOdds: real, maxOdds: real): (r: string)
    ensures r == "" <==> minOdds < 100.0 && maxOdds < 100.0
    ensures r != "" ==> r == RangeLead + RangeBounds(fmt0, minOdds, maxOdds) + RangeTail
  {
    if minOdds >= 100.0 || maxOdds >= 100.0 then RangeLead + RangeBounds(fmt0, minOdds, maxOdds) + RangeTail
    else ""
  }

  /** `payoutGuidance`: the conversion steps, the legs count, the boost line and the range line. */
  function PayoutGuidance(w: Wording, fmt0: real -> string, minOdds: real, maxOdds: real, boostPct: real, legs: int): (r: string)
  {
    "\nPayout estimation instructions:\n" + w.conversion
      + "- Multiply all m across the " + IntToDecimal(legs) + " legs to get parlayMultiple.\n"
      + w.tax + BoostLine(fmt0, boostPct) + w.american + RangeLine(fmt0, minOdds, maxOdds) + w.populate
  }

  /** The guidance always carries the boost line, and the range line exactly when a bound is
      at least +100. */
  lemma PayoutClauses(w: Wording, fmt0: real -> string, minOdds: real, maxOdds: real, boostPct: real, legs: int)
    ensures var r := PayoutGuidance(w, fmt0, minOdds, maxOdds, boostPct, legs);
      && Occurs(BoostLine(fmt0, boostPct), r)
      && (boostPct <= 0.0 ==> Occurs(NoBoostLine, r))
      && (minOdds >= 100.0 || maxOdds >= 100.0 ==>
            Occurs(RangeLead + RangeBounds(fmt0, minOdds, maxOdds) + RangeTail, r))
  {
    var pre := "\nPayout estimation instructions:\n" + w.conversion
      + "- Multiply all m across the " + IntToDecimal(legs) + " legs to get parlayMultiple.\n" + w.tax;
    var boost := BoostLine(fmt0, boostPct);
    var range := RangeLine(fmt0, minOdds, maxOdds);
    OccursSelf(boost);
    OccursLeft(boost, boost, pre);
    OccursRight(boost, pre + boost, w.american);
    OccursRight(boost, pre + boost + w.american, range);
    OccursRight(boost, pre + boost + w.american + range, w.populate);
    OccursSelf(range);
    OccursLeft(range, range, pre + boost + w.american);
    OccursRight(range, pre + boost + w.american + range, w.populate);
  }

  /* ---------- the prompt ---------- */

  const GamesHeader: string := "- Restrict all selections to these upcoming games:\n"

  /** One restriction line of a game. */
  function GameLine(g: GameDTO): (r: string)
    ensures |r| > 0
  {
    "  • [" + g.sport + "] " + g.away + " @ " + g.home + " — starts " + g.start + " (id=" + g.id + ")\n"
  }

  /** The restriction block: only when there are games. */
  function GamesBlock(gs: seq<GameDTO>): (r: string)
    ensures gs == [] <==> r == ""
  {
    if |gs| > 0 then GamesHeader + LinesOf(gs, GameLine) else ""
  }

  /** The opening of every prompt: the current time and the fixed instructions. */
  function Preamble(now: string, w: Wording): string {
    "Current time (America/Toronto): " + now + "\n" + w.intro
  }

  /** The template part of the prompt, with the defaulted model, legs count and trimmed sport. */
  function ModelPrompt(f: Filters, w: Wording, fmt0: real -> string): string {
    PromptForModel(w, fmt0, ModelOrDefault(f.model), LegsWanted(f.mode, f.legs), Trim(f.sport),
                   f.minOdds, f.maxOdds, f.boostPct, f.mode)
  }

  /** The prompt `buildPromptFromFilters` assembles. */
  function PromptText(f: Filters, now: string, w: Wording, fmt0: real -> string): string {
    Preamble(now, w) + GamesBlock(f.games) + w.schema + ModelPrompt(f, w, fmt0)
  }

  /** The line of each game written after `sb0`, one game at a time. */
  method WriteLines<T>(sb0: string, gs: seq<T>, line: T -> string) returns (sb: string)
    ensures sb == sb0 + LinesOf(gs, line)
  {
    sb := sb0;
    for i := 0 to |gs|
      invariant sb == sb0 + LinesOf(gs[..i], line)
    {
      LinesStep(gs, i, line);
      sb := sb + line(gs[i]);
    }
    assert gs[..|gs|] == gs;
  }

  /** The games block written after `sb0`: the header, then a line per game. */
  method WriteGames(sb0: string, games: seq<GameDTO>) returns (sb: string)
    ensures sb == sb0 + GamesBlock(games)
  {
    sb := sb0;
    if |games| > 0 {
      sb := sb + GamesHeader;
      sb := WriteLines(sb, games, GameLine);
    }
  }

  /** The opening of `buildPromptFromFilters`: the legs count, the model and the sport. */
  method ResolveFilters(f: Filters) returns (legsWanted: int, model: string, sport: string)
    ensures legsWanted == LegsWanted(f.mode, f.legs) && legsWanted >= 1
    ensures model == ModelOrDefault(f.model) && model != ""
    ensures sport == Trim(f.sport)
  {
    legsWanted := 3;
    if Lower(Trim(f.mode)) == "single" {
      legsWanted := 1;
    } else if f.legs > 0 {
      legsWanted := f.legs;
    }
    model := Trim(f.model);
    if model == "" {
      model := "Narrative";
    }
    sport := Trim(f.sport);
  }

  /**
   * `buildPromptFromFilters`: the current time (`now`, already formatted), the
   * opening instructions, the games block written game by game, the schema and
   * the model's template.
   */
  method BuildPromptFromFilters(f: Filters, now: string, w: Wording, fmt0: real -> string) returns (prompt: string)
    ensures prompt == PromptText(f, now, w, fmt0)
  {
    var legsWanted, model, sport := ResolveFilters(f);
    var sb := "Current time (America/Toronto): " + now + "\n";
    sb := sb + w.intro;
    assert sb == Preamble(now, w);
    sb := WriteGames(sb, f.games);
    sb := sb + w.schema;
    var part := PromptForModel(w, fmt0, model, legsWanted, sport, f.minOdds, f.maxOdds, f.boostPct, f.mode);
    assert part == ModelPrompt(f, w, fmt0);
    sb := sb + part;
    prompt := sb;
  }

  /** Every game given is named in the prompt by its restriction line. */
  lemma PromptRestrictsToGames(f: Filters, now: string, w: Wording, fmt0: real -> string, k: nat)
    requires k < |f.games|
    ensures Occurs(GameLine(f.games[k]), PromptText(f, now, w, fmt0))
  {
    LinesInOrder(f.games, k, GameLine);
    var line := GameLine(f.games[k]);
    var before := LinesOf(f.games[..k], GameLine);
    var after := LinesOf(f.games[k + 1..], GameLine);
    OccursSelf(line);
    OccursLeft(line, line, before);
    OccursRight(line, before + line, after);
    OccursLeft(line, LinesOf(f.games, GameLine), GamesHeader);
    OccursLeft(line, GamesBlock(f.games), Preamble(now, w));
    OccursRight(line, Preamble(now, w) + GamesBlock(f.games), w.schema);
    OccursRight(line, Preamble(now, w) + GamesBlock(f.games) + w.schema, ModelPrompt(f, w, fmt0));
  }
}
