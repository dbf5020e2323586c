/**
 * The bet-generator page of the Angular front end: the pure helpers that snap
 * American odds typed as free text to a multiple of 5 outside the dead zone
 * (-100, 100), validate odds text, clamp numbers and format calendar days, and
 * the component whose handlers update the page state (mode and legs, the odds
 * filter, the slip odds, the stake, the day window and the selected games and
 * models).
 */
module BetGenerator {
  import opened Wrappers
  import opened Text
  import opened Numbers

  // ---------------------------------------------------------------------------
  // Odds text
  // ---------------------------------------------------------------------------

  /** The value and the display text the odds normaliser produces. */
  datatype Snapped = Snapped(value: int, textOut: string)

  /** Odds as displayed: an explicit "+" for non-negative values, the plain decimal otherwise. */
  function SignedText(v: int): (t: string)
    ensures v >= 0 ==> t == "+" + NatToDigits(v)
    ensures v < 0 ==> t == IntToDecimal(v)
  {
    if v >= 0 then "+" + NatToDigits(v) else IntToDecimal(v)
  }

  /**
   * The number part of `normalizeOddsFromText`: the nearest multiple of 5
   * (halves up), moved out of (-100, 100): -100 and the negative part of the
   * dead zone go to -105, the rest of the dead zone to +100.
   */
  function SnapOdds(x: real): (v: int)
    ensures v % 5 == 0 && (v >= 100 || v <= -105)
    ensures x >= 97.5 || x < -102.5 ==> x - 2.5 < v as real <= x + 2.5
    ensures -2.5 <= x < 97.5 ==> v == 100
    ensures -102.5 <= x < -2.5 ==> v == -105
  {
    var k := JsRound(x / 5.0);
    var v0 := k * 5;
    assert x / 5.0 - 0.5 < k as real <= x / 5.0 + 0.5;
    assert v0 as real == 5.0 * (k as real);
    if v0 == -100 then -105
    else if -100 < v0 < 100 then (if v0 >= 0 then 100 else -105)
    else v0
  }

  /** Snapped odds snap to themselves. */
  lemma SnapOddsFixed(v: int)
    requires v % 5 == 0 && (v >= 100 || v <= -105)
    ensures SnapOdds(v as real) == v
  {
    var k := v / 5;
    assert v == 5 * k;
    assert v as real / 5.0 == k as real;
    assert JsRound(v as real / 5.0) == k;
  }

  /** `normalizeOddsFromText`: no result when the trimmed text is not a finite number;
      otherwise the snapped odds and their display text. */
  function NormalizeOddsFromText(text: string): (r: Option<Snapped>)
    ensures r.None? <==> !ParseNumber(Trim(text)).Finite?
    ensures r.Some? ==> r.value == Snapped(SnapOdds(ParseNumber(Trim(text)).r), SignedText(r.value.value))
  {
    var num := ParseNumber(Trim(text));
    if !num.Finite? then None
    else
      var v := SnapOdds(num.r);
      Some(Snapped(v, SignedText(v)))
  }

  /** `Number` trims its argument itself, so trimming first changes nothing. */
  lemma ParseNumberTrim(s: string)
    ensures ParseNumber(Trim(s)) == ParseNumber(s)
  {
    TrimIdempotent(s);
  }

  /** The display text of odds reads back as the odds. */
  lemma SignedTextReads(v: int)
    ensures ParseNumber(Trim(SignedText(v))) == Finite(v as real)
  {
    ParseNumberTrim(SignedText(v));
    if v >= 0 {
      ParseNumberOfSigned(v);
    } else {
      ParseNumberOfDecimal(v);
    }
  }

  /** Normalising the text the normaliser produced gives the same value and text. */
  lemma NormalizeIdempotent(text: string)
    requires NormalizeOddsFromText(text).Some?
    ensures NormalizeOddsFromText(NormalizeOddsFromText(text).value.textOut) == NormalizeOddsFromText(text)
  {
    var v := NormalizeOddsFromText(text).value.value;
    SignedTextReads(v);
    SnapOddsFixed(v);
  }

  /** Empty, "-" and "+": the texts the blur handlers treat as "restore the last value". */
  predicate BlankOrSign(raw: string) {
    raw == "" || raw == "-" || raw == "+"
  }

  lemma SignOnlyIsNaN(raw: string)
    requires raw == "-" || raw == "+" || raw == "."
    ensures ParseNumber(raw) == NaN
  {
    assert NoSpace(raw);
    TrimNoSpace(raw);
    assert raw[1..] == "";
  }

  /** `oddsInvalid` on the text of one odds box (the text is not trimmed). */
  function OddsTextInvalid(raw: string): (b: bool)
    ensures b <==> var x := ParseNumber(raw); x.Finite? && x.r != 0.0 && -100.0 < x.r < 100.0
  {
    if BlankOrSign(raw) then
      (if raw == "" then false else SignOnlyIsNaN(raw); false)
    else
      var x := ParseNumber(raw);
      x.Finite? && x.r != 0.0 && -100.0 < x.r < 100.0
  }

  /** Blank and sign-only text is never flagged. */
  lemma BlankOrSignNeverInvalid(raw: string)
    requires BlankOrSign(raw)
    ensures !OddsTextInvalid(raw)
  {
  }

  /** Neither the texts the normaliser writes nor restored last-valid odds are ever flagged. */
  lemma WrittenOddsNeverInvalid(v: int)
    requires v >= 100 || v <= -100
    ensures !OddsTextInvalid(SignedText(v))
    ensures !OddsTextInvalid(IntToDecimal(v))
  {
    SignedTextReads(v);
    ParseNumberTrim(SignedText(v));
    ParseNumberOfDecimal(v);
  }

  /** Text the normaliser rejects is not flagged either (it is not a finite number). */
  lemma JunkNeverInvalid(text: string)
    requires NormalizeOddsFromText(text).None?
    ensures !OddsTextInvalid(text)
  {
    ParseNumberTrim(text);
  }

  /** What leaving an odds box does: restore the last valid odds, keep the junk as typed,
      or take the snapped odds. */
  datatype Blur = Restore(value: int, text: string) | Keep | Take(value: int, text: string)

  /**
   * The decision of `onOddsBlur` and `onSlipOddsBlur` for the box text and the
   * last valid odds: blank or sign-only text restores the last valid odds,
   * text that is not a finite number is kept, anything else is snapped.
   */
  function OddsBlur(text: string, prev: int): (b: Blur)
    ensures b.Restore? <==> BlankOrSign(Trim(text))
    ensures b.Restore? ==> b == Restore(prev, IntToDecimal(prev))
    ensures b.Take? ==> Abs(b.value) >= 100
  {
    if BlankOrSign(Trim(text)) then Restore(prev, IntToDecimal(prev))
    else
      match NormalizeOddsFromText(text)
      case None => Keep
      case Some(s) => Take(s.value, s.textOut)
  }

  /** When a blur keeps the text and what it takes: text that is not blank, not a bare
      sign and not a finite number is kept; any other number is snapped and written
      with its sign. */
  lemma OddsBlurCases(text: string, prev: int)
    ensures var b := OddsBlur(text, prev);
      && (b.Keep? <==> !BlankOrSign(Trim(text)) && !ParseNumber(Trim(text)).Finite?)
      && (b.Take? <==> !BlankOrSign(Trim(text)) && ParseNumber(Trim(text)).Finite?)
      && (b.Take? ==> b.value == SnapOdds(ParseNumber(Trim(text)).r) && b.text == SignedText(b.value))
  {
  }

  /** Whatever an odds box shows after it blurs is never flagged invalid. */
  lemma OddsBlurNeverInvalid(text: string, prev: int)
    requires Abs(prev) >= 100
    ensures var b := OddsBlur(text, prev); !OddsTextInvalid(if b.Keep? then text else b.text)
  {
    if BlankOrSign(Trim(text)) {
      WrittenOddsNeverInvalid(prev);
    } else if NormalizeOddsFromText(text).None? {
      JunkNeverInvalid(text);
    } else {
      WrittenOddsNeverInvalid(NormalizeOddsFromText(text).value.value);
    }
  }

  /** Surrounding white space never changes whether odds text is flagged. */
  lemma InvalidIgnoresSpace(text: string)
    ensures OddsTextInvalid(Trim(text)) == OddsTextInvalid(text)
  {
    ParseNumberTrim(text);
  }

  // ---------------------------------------------------------------------------
  // Numeric helpers
  // ---------------------------------------------------------------------------

  /** `clampInt`: NaN gives lo; otherwise the value truncated and clamped into [lo, hi]. */
  function ClampInt(n: JsNum, lo: int, hi: int): (r: int)
    ensures lo <= hi ==> lo <= r <= hi
    ensures n.NaN? ==> r == lo
    ensures n.PosInf? ==> r == hi
    ensures n.NegInf? ==> r == Min(hi, lo)
    ensures n.Finite? && lo <= Trunc(n.r) <= hi ==> r == Trunc(n.r)
    ensures n.Finite? && Trunc(n.r) < lo ==> r == Min(hi, lo)
    ensures n.Finite? && hi < Trunc(n.r) ==> r == hi
  {
    match n
    case NaN => lo
    case PosInf => hi
    case NegInf => Min(hi, lo)
    case Finite(x) => Min(hi, Max(lo, Trunc(x)))
  }

  /** `clamp`: a non-finite value counts as lo; otherwise truncated and clamped into [lo, hi]. */
  function Clamp(n: JsNum, lo: int, hi: int): (r: int)
    ensures lo <= hi ==> lo <= r <= hi
    ensures !n.Finite? ==> r == Min(hi, lo)
    ensures n.Finite? && lo <= Trunc(n.r) <= hi ==> r == Trunc(n.r)
    ensures n.Finite? && Trunc(n.r) < lo ==> r == Min(hi, lo)
    ensures n.Finite? && hi < Trunc(n.r) ==> r == hi
  {
    Min(hi, Max(lo, if n.Finite? then Trunc(n.r) else lo))
  }

  // ---------------------------------------------------------------------------
  // Day keys
  // ---------------------------------------------------------------------------

  /** `padStart(2, '0')` of a number below 100. */
  function Pad2(n: nat): (r: string)
    requires n < 100
    ensures |r| == 2 && AllDigits(r) && DigitsValue(r) == n
  {
    if n < 10 then
      var r := ['0', DigitChar(n)];
      assert r[..1] == ['0'] && DigitsValue(r[..1]) == 0;
      r
    else
      assert |NatToDigits(n / 10)| == 1;
      NatToDigits(n)
  }

  /** `ymdLocal`: year, two-digit month (getMonth is 0-based) and two-digit day, joined by "-". */
  function YmdLocal(year: int, month0: int, day: int): (r: string)
    requires 0 <= month0 < 12 && 1 <= day <= 31
    ensures |r| == |IntToDecimal(year)| + 6
    ensures r[..|r| - 6] == IntToDecimal(year)
    ensures r[|r| - 6] == '-' && r[|r| - 3] == '-'
    ensures r[|r| - 5..|r| - 3] == Pad2(month0 + 1) && r[|r| - 2..] == Pad2(day)
  {
    IntToDecimal(year) + "-" + Pad2(month0 + 1) + "-" + Pad2(day)
  }

  lemma {:induction false} DecimalInjective(a: int, b: int)
    requires IntToDecimal(a) == IntToDecimal(b)
    ensures a == b
  {
    ParseNumberOfDecimal(a);
    ParseNumberOfDecimal(b);
  }

  /** Different calendar days get different keys, so games are never grouped under a wrong day. */
  lemma YmdInjective(y1: int, m1: int, d1: int, y2: int, m2: int, d2: int)
    requires 0 <= m1 < 12 && 1 <= d1 <= 31
    requires 0 <= m2 < 12 && 1 <= d2 <= 31
    requires YmdLocal(y1, m1, d1) == YmdLocal(y2, m2, d2)
    ensures y1 == y2 && m1 == m2 && d1 == d2
  {
    var s := YmdLocal(y1, m1, d1);
    assert DigitsValue(Pad2(m1 + 1)) == DigitsValue(Pad2(m2 + 1));
    assert DigitsValue(Pad2(d1)) == DigitsValue(Pad2(d2));
    DecimalInjective(y1, y2);
  }

  // ---------------------------------------------------------------------------
  // Games shown on the page
  // ---------------------------------------------------------------------------

  /** One day of the page's game list: its key and the ids of its games in display order. */
  datatype DayGroup = DayGroup(dateKey: string, items: seq<string>)

  function Ids(items: seq<string>): (r: set<string>)
    ensures forall id :: id in r <==> id in items
  {
    set id | id in items
  }

  /** The ids of every game shown, over all days. */
  function VisibleIds(days: seq<DayGroup>): (r: set<string>)
    ensures forall id :: id in r <==> exists i :: 0 <= i < |days| && id in days[i].items
  {
    if days == [] then {}
    else
      var r := VisibleIds(days[..|days| - 1]) + Ids(days[|days| - 1].items);
      assert forall i :: 0 <= i < |days| - 1 ==> days[..|days| - 1][i] == days[i];
      r
  }

  /** `find` on the day groups: the index of the first day with the key, or -1. */
  function DayIndex(days: seq<DayGroup>, key: string): (r: int)
    ensures -1 <= r < |days|
    ensures r == -1 <==> forall k :: 0 <= k < |days| ==> days[k].dateKey != key
    ensures r >= 0 ==> days[r].dateKey == key && forall k :: 0 <= k < r ==> days[k].dateKey != key
  {
    if days == [] then -1
    else if days[0].dateKey == key then 0
    else
      var r := DayIndex(days[1..], key);
      if r == -1 then -1 else r + 1
  }

  /** The ids of the first day with the key; none when there is no such day. */
  function DayIds(days: seq<DayGroup>, key: string): (r: set<string>)
    ensures r <= VisibleIds(days)
    ensures DayIndex(days, key) == -1 ==> r == {}
    ensures DayIndex(days, key) >= 0 ==> forall id :: id in r <==> id in days[DayIndex(days, key)].items
  {
    var i := DayIndex(days, key);
    if i == -1 then {} else Ids(days[i].items)
  }

  // ---------------------------------------------------------------------------
  // The component
  // ---------------------------------------------------------------------------

  datatype BetMode = Single | Sgp | SgpPlus

  datatype Preset = Safe | Balanced | Longshot

  datatype Which = MinBox | MaxBox

  /** One odds filter box: its numeric odds, its text and its last valid odds. */
  datatype OddsBox = OddsBox(odds: int, text: string, last: int)

  function Other(which: Which): Which {
    if which == MinBox then MaxBox else MinBox
  }

  /** An odds box after it blurs with outcome b. */
  function BlurBox(box: OddsBox, b: Blur): (r: OddsBox)
    ensures b.Keep? ==> r == box
    ensures b.Restore? ==> r == OddsBox(b.value, b.text, box.last)
    ensures b.Take? ==> r == OddsBox(b.value, b.text, b.value)
  {
    match b
    case Keep => box
    case Restore(v, t) => box.(odds := v, text := t)
    case Take(v, t) => OddsBox(v, t, v)
  }

  /**
   * An odds box after `onOddsBlur`: the decision taken on its own text and last
   * valid odds. The box keeps its odds equal to its last valid odds outside
   * (-100, 100).
   */
  function BlurOddsBox(box: OddsBox): (r: OddsBox)
    ensures box.odds == box.last && Abs(box.last) >= 100 ==> r.odds == r.last && Abs(r.last) >= 100
  {
    BlurBox(box, OddsBlur(box.text, box.last))
  }

  /** The odds range of each preset button. */
  function PresetRange(p: Preset): (r: (int, int))
    ensures 100 <= r.0 < r.1
  {
    match p
    case Safe => (100, 300)
    case Balanced => (300, 700)
    case Longshot => (600, 1000)
  }

  /** The texts `String(minOdds)` and `String(maxOdds)` of each preset: the decimal texts of its range. */
  function PresetTexts(p: Preset): (string, string)
  {
    match p
    case Safe => ("100", "300")
    case Balanced => ("300", "700")
    case Longshot => ("600", "1000")
  }

  /** The decimal text of a whole number of hundreds below 1000. */
  lemma DecimalOfHundreds(d: nat)
    requires 1 <= d <= 9
    ensures IntToDecimal(d * 100) == [DigitChar(d), '0', '0']
  {
    assert DigitChar(0) == '0';
    assert NatToDigits(d) == [DigitChar(d)];
    assert NatToDigits(d * 10) == NatToDigits(d) + ['0'];
    assert NatToDigits(d * 100) == NatToDigits(d * 10) + ['0'];
  }

  /** A preset's texts are the decimal texts of its range. */
  lemma PresetTextsOfRange(p: Preset)
    ensures PresetTexts(p) == (IntToDecimal(PresetRange(p).0), IntToDecimal(PresetRange(p).1))
  {
    match p
    case Safe =>
      DecimalOfHundreds(1);
      DecimalOfHundreds(3);
    case Balanced =>
      DecimalOfHundreds(3);
      DecimalOfHundreds(7);
    case Longshot =>
      DecimalOfHundreds(6);
      DecimalOfHundreds(1);
      assert NatToDigits(1000) == NatToDigits(100) + ['0'];
      assert IntToDecimal(1000) == "1000";
  }

  /** The number of days `loadGames` asks for: the window end, inclusive, within 1..7. */
  function DaysToLoad(endOffset: int): (d: int)
    ensures 1 <= d <= 7
    ensures 0 <= endOffset <= 6 ==> d == endOffset + 1
  {
    Max(1, Min(7, endOffset + 1))
  }

  class BetGeneratorComponent {
    var sport: string
    var mode: BetMode
    var legs: int
    var minOdds: int
    var maxOdds: int
    var minOddsText: string
    var maxOddsText: string
    var lastMin: int
    var lastMax: int
    var editableOdds: string
    var slipOddsText: string
    var lastSlipOdds: int
    var units: real
    var unitsText: string
    var startOffset: int
    var endOffset: int
    var selectedGameIds: set<string>
    var selectedIds: set<string>

    /** The day window lies inside today..+6. */
    predicate OffsetsOk()
      reads this`startOffset, this`endOffset
    {
      0 <= startOffset <= endOffset <= 6
    }

    /** Legs within 1..12, and at least 2 outside Single mode. */
    predicate LegsOk()
      reads this`mode, this`legs
    {
      1 <= legs <= 12 && (mode != Single ==> legs >= 2)
    }

    /** The last valid odds lie outside (-100, 100) and the numeric odds always equal them. */
    predicate OddsOk()
      reads this`minOdds, this`maxOdds, this`lastMin, this`lastMax, this`lastSlipOdds
    {
      && minOdds == lastMin && maxOdds == lastMax
      && Abs(lastMin) >= 100 && Abs(lastMax) >= 100 && Abs(lastSlipOdds) >= 100
    }

    /** What every handler keeps: the window, the legs, the odds and a positive stake. */
    predicate Valid()
      reads this
    {
      OffsetsOk() && LegsOk() && OddsOk() && units > 0.0
    }

    /** The rule the generate button checks: one leg in Single mode, 2..12 otherwise. */
    predicate LegsRule()
      reads this
    {
      (mode == Single ==> legs == 1) && (mode != Single ==> 2 <= legs <= 12)
    }

    /** The state of one odds filter box. */
    function Box(which: Which): OddsBox
      reads this
    {
      if which == MinBox then OddsBox(minOdds, minOddsText, lastMin)
      else OddsBox(maxOdds, maxOddsText, lastMax)
    }

    /** The initial page: the first model option (when it has an id) is selected. */
    constructor (modelIds: seq<string>)
      ensures Valid()
      ensures sport == "MLB" && mode == Single && legs == 2
      ensures Box(MinBox) == OddsBox(300, "300", 300) && Box(MaxBox) == OddsBox(700, "700", 700)
      ensures editableOdds == "" && slipOddsText == "" && lastSlipOdds == 100
      ensures units == 1.0 && unitsText == "1"
      ensures startOffset == 0 && endOffset == 0 && selectedGameIds == {}
      ensures selectedIds == if |modelIds| > 0 && modelIds[0] != "" then {modelIds[0]} else {}
    {
      sport, mode, legs := "MLB", Single, 2;
      minOdds, maxOdds := 300, 700;
      minOddsText, maxOddsText := "300", "700";
      lastMin, lastMax := 300, 700;
      editableOdds, slipOddsText, lastSlipOdds := "", "", 100;
      units, unitsText := 1.0, "1";
      selectedGameIds := {};
      selectedIds := if |modelIds| > 0 && modelIds[0] != "" then {modelIds[0]} else {};
      startOffset, endOffset := 0, 0;
    }

    /** The synchronous part of `loadGames`: no sport clears the selection and asks for
        nothing; otherwise the number of days to ask for. */
    method LoadGames() returns (request: Option<int>)
      requires Valid()
      modifies this`selectedGameIds
      ensures Valid()
      ensures sport == "" ==> request == None && selectedGameIds == {}
      ensures sport != "" ==> request == Some(endOffset + 1) && selectedGameIds == old(selectedGameIds)
    {
      if sport == "" {
        selectedGameIds := {};
        return None;
      }
      request := Some(DaysToLoad(endOffset));
    }

    /** `setSport`: a new sport clears the selection and resets the window to today. */
    method SetSport(s: string) returns (request: Option<int>)
      requires Valid()
      modifies this`sport, this`selectedGameIds, this`startOffset, this`endOffset
      ensures Valid()
      ensures sport == s && selectedGameIds == {} && startOffset == 0 && endOffset == 0
      ensures request == if s == "" then None else Some(1)
    {
      sport := s;
      selectedGameIds := {};
      startOffset := 0;
      endOffset := 0;
      request := LoadGames();
    }

    /** `setMode`: Single forces one leg; the other modes keep the legs but at least 2. */
    method SetMode(m: BetMode)
      requires Valid()
      modifies this`mode, this`legs
      ensures Valid() && LegsRule()
      ensures mode == m && legs == if m == Single then 1 else Max(2, old(legs))
    {
      mode := m;
      if m == Single {
        legs := 1;
      } else {
        legs := Max(2, if legs == 0 then 2 else legs);
      }
    }

    /** `onLegsInput`: the typed count clamped to 1..12 (2..12 outside Single); Single stays at 1. */
    method OnLegsInput(raw: JsNum)
      requires Valid()
      modifies this`legs
      ensures Valid() && LegsRule()
      ensures legs == if mode == Single then 1 else ClampInt(raw, 2, 12)
      ensures mode != Single && raw.Finite? && 2 <= Trunc(raw.r) <= 12 ==> legs == Trunc(raw.r)
    {
      var lo := if mode == Single then 1 else 2;
      var v := ClampInt(raw, lo, 12);
      legs := if mode == Single then 1 else v;
    }

    /** `onOddsInput`: free typing, nothing is snapped. */
    method OnOddsInput(which: Which, raw: string)
      requires Valid()
      modifies this`minOddsText, this`maxOddsText
      ensures Valid()
      ensures Box(which) == old(Box(which)).(text := raw)
      ensures Box(Other(which)) == old(Box(Other(which)))
    {
      if which == MinBox {
        minOddsText := raw;
      } else {
        maxOddsText := raw;
      }
    }

    /**
     * `onOddsBlur`: blank or sign-only text restores the last valid odds (shown
     * without "+"); junk leaves everything as it is; otherwise the snapped value
     * becomes the odds and the last valid odds, and its text is shown. The other
     * box is untouched.
     */
    method OnOddsBlur(which: Which)
      requires Valid()
      modifies this`minOdds, this`minOddsText, this`lastMin, this`maxOdds, this`maxOddsText, this`lastMax
      ensures Valid()
      ensures Box(which) == BlurOddsBox(old(Box(which)))
      ensures Box(Other(which)) == old(Box(Other(which)))
    {
      var box := BlurOddsBox(Box(which));
      if which == MinBox {
        minOdds, minOddsText, lastMin := box.odds, box.text, box.last;
      } else {
        maxOdds, maxOddsText, lastMax := box.odds, box.text, box.last;
      }
    }

    /** `onSlipOddsInput`: free typing in the slip odds box. */
    method OnSlipOddsInput(raw: string)
      requires Valid()
      modifies this`slipOddsText
      ensures Valid()
      ensures slipOddsText == raw
    {
      slipOddsText := raw;
    }

    /**
     * `onSlipOddsBlur`: the same rules on the trimmed slip odds text, where both
     * the typed text and the odds to save receive the result.
     */
    method OnSlipOddsBlur()
      requires Valid()
      modifies this`slipOddsText, this`editableOdds, this`lastSlipOdds
      ensures Valid()
      ensures
        var b := OddsBlur(Trim(old(slipOddsText)), old(lastSlipOdds));
        match b
        case Keep => slipOddsText == old(slipOddsText) && editableOdds == old(editableOdds)
                     && lastSlipOdds == old(lastSlipOdds)
        case Restore(_, t) => slipOddsText == editableOdds == t && lastSlipOdds == old(lastSlipOdds)
        case Take(v, t) => slipOddsText == editableOdds == t && lastSlipOdds == v
    {
      var b := OddsBlur(Trim(slipOddsText), lastSlipOdds);
      match b
      case Restore(_, out) =>
        slipOddsText, editableOdds := out, out;
      case Keep =>
      case Take(value, textOut) =>
        lastSlipOdds, slipOddsText, editableOdds := value, textOut, textOut;
    }

    /** `onUnitsInput`: free typing in the stake box. */
    method OnUnitsInput(raw: string)
      requires Valid()
      modifies this`unitsText
      ensures Valid()
      ensures unitsText == raw
    {
      unitsText := raw;
    }

    /**
     * `onUnitsBlur`: a finite positive stake is taken; anything else (blank, ".",
     * a sign, junk, zero or negative) keeps the previous stake. Either way the box
     * shows the stake as `pretty` formats it.
     */
    method OnUnitsBlur(pretty: real -> string)
      requires Valid()
      modifies this`units, this`unitsText
      ensures Valid()
      ensures
        var n := ParseNumber(old(unitsText));
        units == (if n.Finite? && n.r > 0.0 then n.r else old(units)) && unitsText == pretty(units)
    {
      var raw := Trim(unitsText);
      ParseNumberTrim(unitsText);
      if raw == "" || raw == "." || raw == "-" || raw == "+" {
        if raw != "" {
          SignOnlyIsNaN(raw);
        }
        unitsText := pretty(units);
        return;
      }
      var n := ParseNumber(raw);
      if !n.Finite? || n.r <= 0.0 {
        unitsText := pretty(units);
        return;
      }
      units := n.r;
      unitsText := pretty(n.r);
    }

    /** `setPreset`: both odds, their texts and the last valid odds take the preset range. */
    method SetPreset(kind: Preset)
      requires Valid()
      modifies this`minOdds, this`minOddsText, this`lastMin, this`maxOdds, this`maxOddsText, this`lastMax
      ensures Valid()
      ensures
        var p := PresetRange(kind);
        var t := PresetTexts(kind);
        Box(MinBox) == OddsBox(p.0, t.0, p.0) && Box(MaxBox) == OddsBox(p.1, t.1, p.1)
    {
      var range := PresetRange(kind);
      minOdds, maxOdds := range.0, range.1;
      var texts := PresetTexts(kind);
      minOddsText, maxOddsText := texts.0, texts.1;
      lastMin := minOdds;
      lastMax := maxOdds;
    }

    /** `toggleModel`: adds or removes one model id. */
    method ToggleModel(id: string, checked: bool)
      requires Valid()
      modifies this`selectedIds
      ensures Valid()
      ensures selectedIds == if checked then old(selectedIds) + {id} else old(selectedIds) - {id}
    {
      selectedIds := if checked then selectedIds + {id} else selectedIds - {id};
    }

    /** `setExclusiveModel`: checking a model makes it the only one selected. */
    method SetExclusiveModel(id: string, checked: bool)
      requires Valid()
      modifies this`selectedIds
      ensures Valid()
      ensures selectedIds == if checked then {id} else old(selectedIds)
    {
      if !checked {
        return;
      }
      selectedIds := {id};
    }

    /** `setStartOffset`: the start day clamped to 0..6; the end follows when it would fall before it. */
    method SetStartOffset(v: JsNum) returns (request: Option<int>)
      requires Valid()
      modifies this`startOffset, this`endOffset, this`selectedGameIds
      ensures Valid()
      ensures startOffset == Clamp(v, 0, 6) && endOffset == Max(startOffset, old(endOffset))
      ensures sport == "" ==> request == None && selectedGameIds == {}
      ensures sport != "" ==> request == Some(endOffset + 1) && selectedGameIds == old(selectedGameIds)
    {
      var s := Clamp(v, 0, 6);
      startOffset := s;
      if endOffset < s {
        endOffset := s;
      }
      request := LoadGames();
    }

    /** `setEndOffset`: the end day clamped to 0..6; the start follows when it would fall after it. */
    method SetEndOffset(v: JsNum) returns (request: Option<int>)
      requires Valid()
      modifies this`startOffset, this`endOffset, this`selectedGameIds
      ensures Valid()
      ensures endOffset == Clamp(v, 0, 6) && startOffset == Min(endOffset, old(startOffset))
      ensures sport == "" ==> request == None && selectedGameIds == {}
      ensures sport != "" ==> request == Some(endOffset + 1) && selectedGameIds == old(selectedGameIds)
    {
      var e := Clamp(v, 0, 6);
      if e < startOffset {
        startOffset := e;
      }
      endOffset := e;
      request := LoadGames();
    }

    /** `toggleGame`: adds or removes one game id and touches no other. */
    method ToggleGame(id: string, checked: bool)
      requires Valid()
      modifies this`selectedGameIds
      ensures Valid()
      ensures selectedGameIds == if checked then old(selectedGameIds) + {id} else old(selectedGameIds) - {id}
      ensures forall g :: g != id ==> (g in selectedGameIds <==> g in old(selectedGameIds))
    {
      var next := selectedGameIds;
      if checked {
        next := next + {id};
      } else {
        next := next - {id};
      }
      selectedGameIds := next;
    }

    /** `selectAllVisible`: every game shown becomes selected; other ids keep their state. */
    method SelectAllVisible(days: seq<DayGroup>)
      requires Valid()
      modifies this`selectedGameIds
      ensures Valid()
      ensures selectedGameIds == old(selectedGameIds) + VisibleIds(days)
      ensures forall g :: g !in VisibleIds(days) ==> (g in selectedGameIds <==> g in old(selectedGameIds))
    {
      var next := selectedGameIds;
      for i := 0 to |days|
        invariant next == old(selectedGameIds) + VisibleIds(days[..i])
      {
        var items := days[i].items;
        for j := 0 to |items|
          invariant next == old(selectedGameIds) + VisibleIds(days[..i]) + Ids(items[..j])
        {
          assert items[..j + 1] == items[..j] + [items[j]];
          next := next + {items[j]};
        }
        assert items[..|items|] == items;
        assert days[..i + 1][..i] == days[..i];
        assert VisibleIds(days[..i + 1]) == VisibleIds(days[..i]) + Ids(items);
      }
      assert days[..|days|] == days;
      selectedGameIds := next;
    }

    /** `clearVisible`: every game shown becomes unselected; other ids keep their state. */
    method ClearVisible(days: seq<DayGroup>)
      requires Valid()
      modifies this`selectedGameIds
      ensures Valid()
      ensures selectedGameIds == old(selectedGameIds) - VisibleIds(days)
      ensures forall g :: g !in VisibleIds(days) ==> (g in selectedGameIds <==> g in old(selectedGameIds))
    {
      var next := selectedGameIds;
      for i := 0 to |days|
        invariant next == old(selectedGameIds) - VisibleIds(days[..i])
      {
        var items := days[i].items;
        for j := 0 to |items|
          invariant next == old(selectedGameIds) - VisibleIds(days[..i]) - Ids(items[..j])
        {
          assert items[..j + 1] == items[..j] + [items[j]];
          next := next - {items[j]};
        }
        assert items[..|items|] == items;
        assert days[..i + 1][..i] == days[..i];
        assert VisibleIds(days[..i + 1]) == VisibleIds(days[..i]) + Ids(items);
      }
      assert days[..|days|] == days;
      selectedGameIds := next;
    }

    /** `selectDay`: the games of the first day with the key become selected. */
    method SelectDay(days: seq<DayGroup>, dateKey: string)
      requires Valid()
      modifies this`selectedGameIds
      ensures Valid()
      ensures selectedGameIds == old(selectedGameIds) + DayIds(days, dateKey)
      ensures forall g :: g !in DayIds(days, dateKey) ==> (g in selectedGameIds <==> g in old(selectedGameIds))
    {
      var next := selectedGameIds;
      var idx := DayIndex(days, dateKey);
      if idx >= 0 {
        var items := days[idx].items;
        for j := 0 to |items|
          invariant next == old(selectedGameIds) + Ids(items[..j])
        {
          assert items[..j + 1] == items[..j] + [items[j]];
          next := next + {items[j]};
        }
        assert items[..|items|] == items;
      }
      selectedGameIds := next;
    }

    /** `clearDay`: the games of the first day with the key become unselected. */
    method ClearDay(days: seq<DayGroup>, dateKey: string)
      requires Valid()
      modifies this`selectedGameIds
      ensures Valid()
      ensures selectedGameIds == old(selectedGameIds) - DayIds(days, dateKey)
      ensures forall g :: g !in DayIds(days, dateKey) ==> (g in selectedGameIds <==> g in old(selectedGameIds))
    {
      var next := selectedGameIds;
      var idx := DayIndex(days, dateKey);
      if idx >= 0 {
        var items := days[idx].items;
        for j := 0 to |items|
          invariant next == old(selectedGameIds) - Ids(items[..j])
        {
          assert items[..j + 1] == items[..j] + [items[j]];
          next := next - {items[j]};
        }
        assert items[..|items|] == items;
      }
      selectedGameIds := next;
    }
  }
}
