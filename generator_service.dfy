/**
 * The front end's demo slip generator: the American-odds normaliser that keeps
 * odds out of (-100, 100), random odds drawn between two bounds, random legs
 * from per-sport catalogs, and the generation of a batch of slips. The values
 * of `Math.random()` are a parameter: `draw(k)` is the k-th value it returns,
 * always in [0, 1).
 */
module GeneratorService {
  import opened Numbers

  datatype Mode = Single | Sgp | SgpPlus

  function ModeName(m: Mode): string {
    match m
    case Single => "Single"
    case Sgp => "SGP"
    case SgpPlus => "SGP+"
  }

  datatype SlipLeg = SlipLeg(player: string, market: string, line: string, odds: int)

  datatype Slip = Slip(title: string, odds: int, legs: seq<SlipLeg>, rationale: seq<string>)

  datatype GeneratorInput = GeneratorInput(
    sport: string, mode: Mode, legs: int, slips: int,
    minOdds: JsNum, maxOdds: JsNum, models: seq<string>)

  /** A source of `Math.random()` values. */
  ghost predicate IsRandom(draw: nat -> real) {
    forall k :: 0.0 <= draw(k) < 1.0
  }

  /** `normalizeAmericanOdds`: no odds in (-100, 100). */
  function NormalizeAmericanOdds(v: JsNum): (r: int)
    ensures r >= 100 || r <= -100
    ensures !v.Finite? || v.r == 0.0 ==> r == 100
    ensures v.Finite? && 0.0 < v.r < 100.0 ==> r == 100
    ensures v.Finite? && -100.0 < v.r < 0.0 ==> r == -100
    ensures v.Finite? && (v.r >= 100.0 || v.r <= -100.0) ==> r == Trunc(v.r)
  {
    if !v.Finite? || v.r == 0.0 then 100
    else if 0.0 < v.r < 100.0 then 100
    else if -100.0 < v.r < 0.0 then -100
    else Trunc(v.r)
  }

  /** Normalising normalised odds changes nothing. */
  lemma NormalizeAmericanIdempotent(v: JsNum)
    ensures NormalizeAmericanOdds(Finite(NormalizeAmericanOdds(v) as real)) == NormalizeAmericanOdds(v)
  {
    var r := NormalizeAmericanOdds(v);
    assert Trunc(r as real) == r;
  }

  /** The bounds `randomOdds` draws between: both normalised, then put in order. */
  function OddsBounds(min: JsNum, max: JsNum): (b: (int, int))
    ensures b.0 <= b.1
    ensures b.0 >= 100 || b.0 <= -100
    ensures b.1 >= 100 || b.1 <= -100
    ensures {b.0, b.1} == {NormalizeAmericanOdds(min), NormalizeAmericanOdds(max)}
  {
    var lo := NormalizeAmericanOdds(min);
    var hi := NormalizeAmericanOdds(max);
    if lo > hi then (hi, lo) else (lo, hi)
  }

  lemma ScaleBounds(p: real, d: real)
    requires 0.0 <= p < 1.0 && d >= 0.0
    ensures 0.0 <= p * d <= d
  {
    assert (1.0 - p) * d >= 0.0;
  }

  /** `Math.round(min + Math.random() * (max - min))`: an integer between the bounds. */
  function Draw(lo: int, hi: int, p: real): (v: int)
    requires lo <= hi && 0.0 <= p < 1.0
    ensures lo <= v <= hi
  {
    ScaleBounds(p, (hi - lo) as real);
    JsRound(lo as real + p * (hi - lo) as real)
  }

  /** Between bounds outside (-100, 100), normalising keeps a value between them. */
  lemma NormalizeBetween(lo: int, hi: int, v: int)
    requires lo <= v <= hi
    requires lo >= 100 || lo <= -100
    requires hi >= 100 || hi <= -100
    ensures lo <= NormalizeAmericanOdds(Finite(v as real)) <= hi
  {
    assert Trunc(v as real) == v;
  }

  /**
   * `randomOdds`: one value drawn between the normalised bounds and normalised.
   * Its do-while loop repeats only while the odds lie in (-100, 100), which the
   * normaliser never yields, so it always stops after its first pass; the odds
   * lie between the bounds.
   */
  method RandomOdds(min: JsNum, max: JsNum, p: real) returns (v: int)
    requires 0.0 <= p < 1.0
    ensures v >= 100 || v <= -100
    ensures OddsBounds(min, max).0 <= v <= OddsBounds(min, max).1
  {
    var lo := NormalizeAmericanOdds(min);
    var hi := NormalizeAmericanOdds(max);
    if lo > hi {
      lo, hi := hi, lo;
    }
    var d := Draw(lo, hi, p);
    NormalizeBetween(lo, hi, d);
    v := NormalizeAmericanOdds(Finite(d as real));
  }

  lemma PickBounds(p: real, n: nat)
    requires 0.0 <= p < 1.0 && n > 0
    ensures 0 <= (p * n as real).Floor < n
  {
    ScaleBounds(p, n as real);
    assert p * n as real < n as real by {
      assert (1.0 - p) * n as real > 0.0;
    }
  }

  /** `pick`: the element at `Math.floor(Math.random() * arr.length)`. */
  function Pick(arr: seq<string>, p: real): (r: string)
    requires |arr| > 0 && 0.0 <= p < 1.0
    ensures r in arr
  {
    PickBounds(p, |arr|);
    arr[(p * |arr| as real).Floor]
  }

  /** The catalog of a sport, or the fallback when the sport has none. */
  function CatalogOf(catalog: map<string, seq<string>>, sport: string, fallback: seq<string>): (r: seq<string>)
    ensures sport in catalog ==> r == catalog[sport]
    ensures sport !in catalog ==> r == fallback
  {
    if sport in catalog then catalog[sport] else fallback
  }

  const FallbackPlayers: seq<string> := ["Player A", "Player B", "Player C"]
  const FallbackMarkets: seq<string> := ["Market 1", "Market 2"]

  /** Every catalog entry offers at least one choice. */
  predicate CatalogOk(catalog: map<string, seq<string>>) {
    forall s :: s in catalog ==> |catalog[s]| > 0
  }

  /** The text of a line: a sign and one of 1.0, 2.0, 3.0. */
  predicate IsLine(line: string) {
    |line| == 4 && (line[0] == '+' || line[0] == '-') && '1' <= line[1] <= '3' && line[2..] == ".0"
  }

  /**
   * `randomLeg`: a player and a market from the sport's catalogs, a line, and odds
   * drawn between +100 and +600; five values are drawn.
   */
  method RandomLeg(sport: string, players: map<string, seq<string>>, markets: map<string, seq<string>>,
                   draw: nat -> real, k: nat) returns (leg: SlipLeg, next: nat)
    requires IsRandom(draw) && CatalogOk(players) && CatalogOk(markets)
    ensures leg.player in CatalogOf(players, sport, FallbackPlayers)
    ensures leg.market in CatalogOf(markets, sport, FallbackMarkets)
    ensures IsLine(leg.line)
    ensures 100 <= leg.odds <= 600
    ensures next == k + 5
  {
    var ps := CatalogOf(players, sport, FallbackPlayers);
    var ms := CatalogOf(markets, sport, FallbackMarkets);
    var player := Pick(ps, draw(k));
    var market := Pick(ms, draw(k + 1));
    var sign := if draw(k + 2) > 0.5 then '+' else '-';
    PickBounds(draw(k + 3), 3);
    var n := (draw(k + 3) * 3.0).Floor + 1;
    var line := [sign, DigitChar(n)] + ".0";
    var odds := RandomOdds(Finite(100.0), Finite(600.0), draw(k + 4));
    leg := SlipLeg(player, market, line, odds);
    next := k + 5;
  }

  /** The number of legs of each slip: one in Single mode, otherwise at least one. */
  function LegsCount(input: GeneratorInput): (n: int)
    ensures n >= 1
    ensures input.mode == Single ==> n == 1
    ensures input.mode != Single && input.legs >= 1 ==> n == input.legs
    ensures input.mode != Single && input.legs < 1 ==> n == 1
  {
    if input.mode == Single then 1 else Max(1, input.legs)
  }

  /** "<sport> Single", or "<sport> <mode> x<legs>". */
  function Title(input: GeneratorInput): string {
    if input.mode == Single then input.sport + " Single"
    else input.sport + " " + ModeName(input.mode) + " x" + IntToDecimal(LegsCount(input))
  }

  const Rationale: seq<string> := [
    "Leans align across multiple models.",
    "Favorable matchup and pace.",
    "Recent form supports this angle."
  ]

  function OddsOf(legs: seq<SlipLeg>): (r: seq<int>)
    ensures |r| == |legs| && forall j :: 0 <= j < |legs| ==> r[j] == legs[j].odds
  {
    seq(|legs|, j requires 0 <= j < |legs| => legs[j].odds)
  }

  /** What `generate` promises of every slip it makes. */
  predicate SlipOk(input: GeneratorInput, combine: (seq<int>, Mode) -> int, s: Slip) {
    var b := OddsBounds(input.minOdds, input.maxOdds);
    && s.title == Title(input)
    && |s.legs| == LegsCount(input)
    && s.rationale == Rationale
    && (input.mode == Single ==>
          b.0 <= s.odds <= b.1 && forall j :: 0 <= j < |s.legs| ==> 100 <= s.legs[j].odds <= 600)
    && (input.mode != Single ==>
          s.odds == combine(OddsOf(s.legs), input.mode)
          && forall j :: 0 <= j < |s.legs| ==> b.0 <= s.legs[j].odds <= b.1)
  }

  /** One pass of `generate`'s loop: the slip built from the draws from `k` on. */
  method GenerateSlip(input: GeneratorInput, players: map<string, seq<string>>, markets: map<string, seq<string>>,
                      combine: (seq<int>, Mode) -> int, draw: nat -> real, k: nat) returns (slip: Slip, next: nat)
    requires IsRandom(draw) && CatalogOk(players) && CatalogOk(markets)
    ensures SlipOk(input, combine, slip)
    ensures next == k + 5 * LegsCount(input) + (if input.mode == Single then 1 else LegsCount(input))
  {
    var legsCount := LegsCount(input);
    var b := OddsBounds(input.minOdds, input.maxOdds);
    next := k;
    var legs: seq<SlipLeg> := [];
    for j := 0 to legsCount
      invariant |legs| == j && next == k + 5 * j
      invariant forall n :: 0 <= n < j ==> 100 <= legs[n].odds <= 600
    {
      var leg;
      leg, next := RandomLeg(input.sport, players, markets, draw, next);
      legs := legs + [leg];
    }
    var odds: int;
    if input.mode == Single {
      odds := RandomOdds(input.minOdds, input.maxOdds, draw(next));
      next := next + 1;
    } else {
      var legOdds: seq<int> := [];
      for j := 0 to |legs|
        invariant |legOdds| == j && next == k + 5 * legsCount + j
        invariant forall n :: 0 <= n < j ==> b.0 <= legOdds[n] <= b.1
      {
        var o := RandomOdds(input.minOdds, input.maxOdds, draw(next));
        legOdds := legOdds + [o];
        next := next + 1;
      }
      for idx := 0 to |legOdds|
        invariant |legs| == |legOdds|
        invariant forall n :: 0 <= n < idx ==> legs[n].odds == legOdds[n]
      {
        legs := legs[idx := legs[idx].(odds := legOdds[idx])];
      }
      assert OddsOf(legs) == legOdds;
      odds := combine(legOdds, input.mode);
    }
    var title := if input.mode == Single then input.sport + " Single"
                 else input.sport + " " + ModeName(input.mode) + " x" + IntToDecimal(legsCount);
    slip := Slip(title, odds, legs, Rationale);
  }

  /**
   * `generate`: `input.slips` slips (none when it is not positive), each with the
   * title of the mode, the legs count of the mode and random legs. A Single slip
   * takes its own random odds; otherwise every leg's odds are redrawn between the
   * input bounds and the slip's odds combine them (`combine` stands for the
   * floating-point `combineAmerican`).
   */
  method Generate(input: GeneratorInput, players: map<string, seq<string>>, markets: map<string, seq<string>>,
                  combine: (seq<int>, Mode) -> int, draw: nat -> real) returns (slips: seq<Slip>)
    requires IsRandom(draw) && CatalogOk(players) && CatalogOk(markets)
    ensures |slips| == Max(0, input.slips)
    ensures forall i :: 0 <= i < |slips| ==> SlipOk(input, combine, slips[i])
  {
    slips := [];
    var k := 0;
    var i := 0;
    while i < input.slips
      invariant 0 <= i == |slips| <= Max(0, input.slips)
      invariant forall n :: 0 <= n < |slips| ==> SlipOk(input, combine, slips[n])
      decreases input.slips - i
    {
      var slip;
      slip, k := GenerateSlip(input, players, markets, combine, draw, k);
      slips := slips + [slip];
      i := i + 1;
    }
  }
}
