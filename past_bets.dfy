/**
 * Past bets on the Go back end: the public and stored forms of a bet, the
 * American odds found in an odds text, the units a graded bet earns, the
 * in-memory per-user bet list used when no database is configured, and the
 * incremental update of a user's per-model statistics when a bet is graded.
 */
module PastBets {
  import opened Wrappers
  import opened Text
  import opened Numbers

  /** A bet as the API returns it; `result` is "" and `resultUnits` 0 while ungraded. */
  datatype PastBet = PastBet(
    id: string, betType: string, date: string, model: string, sport: string,
    event: string, odds: string, result: string, resultUnits: real)

  /** A stored bet: result and units are absent until the bet is graded.
      `date` is the instant already in its UTC RFC 3339 text form. */
  datatype PastBetRecord = PastBetRecord(
    id: string, userKey: string, betType: string, date: string, model: string,
    sport: string, event: string, odds: string,
    result: Option<string>, resultUnits: Option<real>)

  /** One row of per-user, per-model aggregates. `id` 0 means the row is not stored yet. */
  datatype UserModelStat = UserModelStat(
    id: nat, userKey: string, model: string, sport: string, mode: string,
    wins: int, losses: int, pushes: int, bets: int, units: real, roiPct: real)

  /** The public form of a stored bet: absent result and units read as "" and 0. */
  function ToPublic(b: PastBetRecord): (p: PastBet)
    ensures p.id == b.id && p.betType == b.betType && p.date == b.date && p.model == b.model
    ensures p.sport == b.sport && p.event == b.event && p.odds == b.odds
    ensures p.result == (if b.result.Some? then b.result.value else "")
    ensures p.resultUnits == (if b.resultUnits.Some? then b.resultUnits.value else 0.0)
  {
    PastBet(b.id, b.betType, b.date, b.model, b.sport, b.event, b.odds,
            match b.result case Some(r) => r case None => "",
            match b.resultUnits case Some(u) => u case None => 0.0)
  }

  /* ---------------- American odds in a text ---------------- */

  predicate IsSign(c: char) { c == '+' || c == '-' }

  /** A match of `[+-]?\d+` starts at i: a digit, or a sign followed by a digit. */
  predicate MatchStartsAt(s: string, i: nat)
    requires i < |s|
  {
    IsDigit(s[i]) || (IsSign(s[i]) && i + 1 < |s| && IsDigit(s[i + 1]))
  }

  /** Where the digits of a match starting at a begin: after its sign, if any. */
  function DigitsFrom(s: string, a: nat): nat
    requires a < |s|
  {
    if IsSign(s[a]) then a + 1 else a
  }

  /** [a, b) is a whole match of `[+-]?\d+`: it starts a match and its digit run
      extends as far as the digits go. */
  predicate IsMatch(s: string, a: nat, b: nat) {
    && a < b <= |s| && MatchStartsAt(s, a)
    && DigitsFrom(s, a) < b && AllDigits(s[DigitsFrom(s, a)..b])
    && (b == |s| || !IsDigit(s[b]))
  }

  /** The unsigned value of the digits of a match. */
  function MatchDigits(s: string, a: nat, b: nat): nat
    requires IsMatch(s, a, b)
  {
    DigitsValue(s[DigitsFrom(s, a)..b])
  }

  /** The whole match that starts at a: its digit run extends to the first non-digit. */
  function MatchEnd(s: string, a: nat): (b: nat)
    requires a < |s| && MatchStartsAt(s, a)
    ensures IsMatch(s, a, b)
  {
    var d := DigitsFrom(s, a);
    var k := DigitPrefix(s[d..]);
    assert s[d..][0] == s[d];
    assert s[d..d + k] == s[d..][..k];
    assert d + k < |s| ==> s[d + k] == s[d..][k];
    d + k
  }

  /** The leftmost match of `[+-]?\d+` at or after `from`, as [start, end). */
  function FindInt(s: string, from: nat): (r: Option<(nat, nat)>)
    requires from <= |s|
    decreases |s| - from
    ensures r.None? ==> forall i :: from <= i < |s| ==> !MatchStartsAt(s, i)
    ensures r.Some? ==> from <= r.value.0 && IsMatch(s, r.value.0, r.value.1)
    ensures r.Some? ==> forall i :: from <= i < r.value.0 ==> !MatchStartsAt(s, i)
  {
    if from == |s| then None
    else if MatchStartsAt(s, from) then Some((from, MatchEnd(s, from)))
    else FindInt(s, from + 1)
  }

  /**
   * `extractAmerican`: the signed integer of the first `[+-]?\d+` in s. The answer is
   * (0, false) when there is no match, or when the match's digits read as zero or do
   * not fit in 64 bits; otherwise it carries the match's sign and digit value.
   */
  function ExtractAmerican(s: string): (r: (int, bool))
    ensures r.1 ==> r.0 != 0 && -MaxInt64 <= r.0 <= MaxInt64
    ensures !r.1 ==> r.0 == 0
    ensures (forall i :: 0 <= i < |s| ==> !MatchStartsAt(s, i)) ==> r == (0, false)
    ensures r.1 <==> (FindInt(s, 0).Some? &&
                      0 < MatchDigits(s, FindInt(s, 0).value.0, FindInt(s, 0).value.1) <= MaxInt64)
    ensures r.1 ==> var (a, b) := FindInt(s, 0).value;
      r.0 == if s[a] == '-' then -(MatchDigits(s, a, b) as int) else MatchDigits(s, a, b)
  {
    match FindInt(s, 0)
    case None => (0, false)
    case Some((i, j)) =>
      var digits := s[DigitsFrom(s, i)..j];
      AtoiOfDigits(digits);
      match Atoi(digits)
      case None => (0, false)
      case Some(n) => if n == 0 then (0, false) else (if s[i] == '-' then -n else n, true)
  }

  /** Words before the odds are skipped and only the first match counts: whatever
      follows it, including other numbers, is ignored. */
  lemma FirstMatchWins(w: string, m: string, rest: string)
    requires forall i :: 0 <= i < |w| ==> !IsDigit(w[i]) && !IsSign(w[i])
    requires IsMatch(m, 0, |m|)
    requires rest == [] || !IsDigit(rest[0])
    ensures ExtractAmerican(w + m + rest) == ExtractAmerican(m)
  {
    var s := w + m + rest;
    MatchAfterWords(w, m, rest);
    WholeMatch(m);
    assert s[|w|] == m[0];
    ExtractOfMatch(s, |w|, |w| + |m|);
    ExtractOfMatch(m, 0, |m|);
  }

  /** A text that is one whole match is found as that match. */
  lemma WholeMatch(m: string)
    requires IsMatch(m, 0, |m|)
    ensures FindInt(m, 0) == Some((0, |m|))
  {
    var d := DigitsFrom(m, 0);
    assert m[d..] == m[d..|m|];
    DigitPrefixAll(m[d..]);
    FindAt(m, 0);
  }

  /** The odds a match with digit value v and the given sign stands for. */
  function AmericanOf(negative: bool, v: nat): (int, bool) {
    if 0 < v <= MaxInt64 then (if negative then -(v as int) else v, true) else (0, false)
  }

  /** The odds of a text whose first match is [a, b). */
  lemma ExtractOfMatch(s: string, a: nat, b: nat)
    requires FindInt(s, 0) == Some((a, b))
    ensures ExtractAmerican(s) == AmericanOf(s[a] == '-', MatchDigits(s, a, b))
  {
  }

  /** The match in the words-odds-rest text is the odds, with the same digits. */
  lemma MatchAfterWords(w: string, m: string, rest: string)
    requires forall i :: 0 <= i < |w| ==> !IsDigit(w[i]) && !IsSign(w[i])
    requires IsMatch(m, 0, |m|)
    requires rest == [] || !IsDigit(rest[0])
    ensures var s := w + m + rest;
      && FindInt(s, 0) == Some((|w|, |w| + |m|))
      && IsMatch(s, |w|, |w| + |m|)
      && MatchDigits(s, |w|, |w| + |m|) == MatchDigits(m, 0, |m|)
  {
    var s := w + m + rest;
    MatchShift(w, m, rest);
    MatchEndAfterWords(w, m, rest);
    FindAfterWords(s, w);
    FindAt(s, |w|);
  }

  /** A search from a match start finds that match. */
  lemma FindAt(s: string, a: nat)
    requires a < |s| && MatchStartsAt(s, a)
    ensures FindInt(s, a) == Some((a, MatchEnd(s, a)))
  {
  }

  /** A search from the start skips the leading words. */
  lemma FindAfterWords(s: string, w: string)
    requires |w| <= |s| && s[..|w|] == w
    requires forall k :: 0 <= k < |w| ==> !IsDigit(w[k]) && !IsSign(w[k])
    ensures FindInt(s, 0) == FindInt(s, |w|)
  {
    SkipWords(s, w, 0);
  }

  /** The match behind the words ends where the odds end. */
  lemma MatchEndAfterWords(w: string, m: string, rest: string)
    requires IsMatch(m, 0, |m|)
    requires rest == [] || !IsDigit(rest[0])
    requires MatchStartsAt(w + m + rest, |w|)
    requires DigitsFrom(w + m + rest, |w|) == |w| + DigitsFrom(m, 0)
    ensures MatchEnd(w + m + rest, |w|) == |w| + |m|
  {
    var dm := DigitsFrom(m, 0);
    TailAfterWords(w, m, rest, dm);
    DigitPrefixConcat(m[dm..], rest);
  }

  lemma TailAfterWords(w: string, m: string, rest: string, k: nat)
    requires k <= |m|
    ensures (w + m + rest)[|w| + k..] == m[k..] + rest
  {
  }

  /** A whole match stays a whole match, with the same digits, behind words and before
      a non-digit. */
  lemma MatchShift(w: string, m: string, rest: string)
    requires IsMatch(m, 0, |m|)
    requires rest == [] || !IsDigit(rest[0])
    ensures DigitsFrom(w + m + rest, |w|) == |w| + DigitsFrom(m, 0)
    ensures IsMatch(w + m + rest, |w|, |w| + |m|)
    ensures MatchDigits(w + m + rest, |w|, |w| + |m|) == MatchDigits(m, 0, |m|)
  {
    var s := w + m + rest;
    var n := |w|;
    var dm := DigitsFrom(m, 0);
    assert s[n] == m[0];
    if |m| > 1 {
      assert s[n + 1] == m[1];
    }
    assert DigitsFrom(s, n) == n + dm;
    assert s[n + dm..n + |m|] == m[dm..|m|];
    if rest != [] {
      assert s[n + |m|] == rest[0];
    }
  }

  /** Positions inside the leading words start no match. */
  lemma {:induction false} SkipWords(s: string, w: string, i: nat)
    requires |w| <= |s| && s[..|w|] == w && i <= |w|
    requires forall k :: 0 <= k < |w| ==> !IsDigit(w[k]) && !IsSign(w[k])
    decreases |w| - i
    ensures FindInt(s, i) == FindInt(s, |w|)
  {
    if i < |w| {
      assert s[i] == w[i];
      SkipWords(s, w, i + 1);
    }
  }

  /** Plain digits read back as their value. */
  lemma AmericanOfDigits(n: nat)
    requires 0 < n <= MaxInt64
    ensures ExtractAmerican(NatToDigits(n)) == (n, true)
  {
    var d := NatToDigits(n);
    DigitPrefixAll(d);
    AtoiOfDecimal(n);
    assert FindInt(d, 0) == Some((0, |d|));
    assert d[0..|d|] == d;
  }

  /** Signed digits read back as their signed value. */
  lemma AmericanOfSignedDigits(sign: char, n: nat)
    requires IsSign(sign) && 0 < n <= MaxInt64
    ensures ExtractAmerican([sign] + NatToDigits(n)) == (if sign == '-' then -(n as int) else n as int, true)
  {
    var d := NatToDigits(n);
    var s := [sign] + d;
    DigitPrefixAll(d);
    AtoiOfDecimal(n);
    assert s[1..] == d;
    assert FindInt(s, 0) == Some((0, |s|));
    assert s[0..|s|] == s;
  }

  /** The odds texts the system writes ("+650", "-115", "650") read back as their value. */
  lemma AmericanOfDecimal(n: int)
    requires n != 0 && -MaxInt64 <= n <= MaxInt64
    ensures ExtractAmerican(IntToDecimal(n)) == (n, true)
    ensures n > 0 ==> ExtractAmerican("+" + IntToDecimal(n)) == (n, true)
  {
    if n < 0 {
      AmericanOfSignedDigits('-', -n);
      assert IntToDecimal(n) == ['-'] + NatToDigits(-n);
    } else {
      AmericanOfDigits(n);
      AmericanOfSignedDigits('+', n);
      assert "+" + IntToDecimal(n) == ['+'] + NatToDigits(n);
    }
  }

  /* ---------------- Units for an outcome ---------------- */

  /** The profit per unit staked of a winning bet at American odds o. */
  function WinProfit(o: int): (p: real)
    requires o != 0
    ensures p > 0.0
  {
    if o > 0 then o as real / 100.0 else 100.0 / (-o) as real
  }

  /** The decimal multiple the slip prompt uses (api_generate_slip.go) is one more than
      the profit per unit: the two payout formulas agree. */
  lemma WinProfitIsDecimalMinusOne(o: int)
    requires o != 0
    ensures WinProfit(o) == (if o >= 0 then 1.0 + o as real / 100.0 else 1.0 + 100.0 / (-o) as real) - 1.0
  {
  }

  /** `unitsForOutcome` at the one stake the system grades with (1 unit): a loss costs
      the unit, a win earns the profit of the odds, anything else (a push, an unknown
      outcome, a win at unreadable odds) earns nothing. */
  function UnitsForOutcome(odds: string, outcome: string): (u: real)
    ensures var o := Lower(Trim(outcome));
      && (o == "loss" ==> u == -1.0)
      && (o != "win" && o != "loss" ==> u == 0.0)
      && (o == "win" && !ExtractAmerican(odds).1 ==> u == 0.0)
      && (o == "win" && ExtractAmerican(odds).1 ==> u == WinProfit(ExtractAmerican(odds).0))
      && (o == "win" ==> u >= 0.0)
      && -1.0 <= u
  {
    var o := Lower(Trim(outcome));
    var american := ExtractAmerican(odds);
    if o == "loss" then -1.0
    else if o == "push" then 0.0
    else if o != "win" then 0.0
    else if !american.1 || american.0 == 0 then 0.0
    else WinProfit(american.0)
  }

  /* ---------------- In-memory bet lists ---------------- */

  const MaxKept: nat := 15

  /** The newest 15 bets of a list (its suffix of at most 15 entries). */
  function KeepNewest(list: seq<PastBet>): (r: seq<PastBet>)
    ensures |r| == Min(|list|, MaxKept)
    ensures forall k :: 0 <= k < |r| ==> r[k] == list[|list| - |r| + k]
  {
    if |list| > MaxKept then list[|list| - MaxKept..] else list
  }

  /** The list after appending a bet: at most 15 entries, ending with the bet,
      and a suffix of the old list followed by the bet. */
  function AfterSave(list: seq<PastBet>, bet: PastBet): (r: seq<PastBet>)
    ensures 1 <= |r| <= MaxKept && r[|r| - 1] == bet
    ensures |list| < MaxKept ==> r == list + [bet]
    ensures forall k :: 0 <= k < |r| - 1 ==> r[k] == list[|list| + 1 - |r| + k]
  {
    KeepNewest(list + [bet])
  }

  /** The saved form of a posted bet: a new id, and a blank date replaced by `now`. */
  function Stamped(bet: PastBet, id: string, now: string): PastBet
  {
    var b := bet.(id := id);
    if Trim(bet.date) == "" then b.(date := now) else b
  }

  /** A stamped bet carries the new id and a date that is blank only when `now` is; a
      date the client gave is kept, and stamping again with the same id changes nothing. */
  lemma StampedDate(bet: PastBet, id: string, now: string, now2: string)
    requires Trim(now) != ""
    ensures Stamped(bet, id, now).id == id
    ensures Trim(Stamped(bet, id, now).date) != ""
    ensures Trim(bet.date) != "" ==> Stamped(bet, id, now).date == bet.date
    ensures Stamped(Stamped(bet, id, now), id, now2) == Stamped(bet, id, now)
  {
  }

  /** The index of the first bet with the given id, or -1. */
  function FirstIndex(list: seq<PastBet>, id: string): (r: int)
    ensures -1 <= r < |list|
    ensures r == -1 <==> forall k :: 0 <= k < |list| ==> list[k].id != id
    ensures r >= 0 ==> list[r].id == id && forall k :: 0 <= k < r ==> list[k].id != id
  {
    if list == [] then -1
    else if list[0].id == id then 0
    else
      var r := FirstIndex(list[1..], id);
      if r == -1 then -1 else r + 1
  }

  /** The search loop of the grading handler. */
  method IndexOfBet(list: seq<PastBet>, id: string) returns (idx: int)
    ensures idx == FirstIndex(list, id)
  {
    idx := -1;
    var i := 0;
    while i < |list|
      invariant 0 <= i <= |list|
      invariant forall k :: 0 <= k < i ==> list[k].id != id
    {
      if list[i].id == id {
        idx := i;
        return;
      }
      i := i + 1;
    }
  }

  /** A bet after grading: only its result and its units change. */
  function GradeBet(b: PastBet, outcome: string): PastBet
  {
    b.(result := outcome, resultUnits := UnitsForOutcome(b.odds, outcome))
  }

  datatype GradeError = InvalidRequest | BetNotFound

  /** A database call that failed. */
  datatype DbError = DbError

  /** The per-user bet lists kept when no database is configured (oldest to newest). */
  class PastBetStore {
    var pastByUser: map<string, seq<PastBet>>

    constructor ()
      ensures pastByUser == map[]
    {
      pastByUser := map[];
    }

    /** The stored list of a user; a user never seen has none. */
    function Bets(userKey: string): seq<PastBet>
      reads this
    {
      if userKey in pastByUser then pastByUser[userKey] else []
    }

    /** GET: a copy of the user's bets, newest first; the stored list is untouched. */
    method List(userKey: string) returns (list: seq<PastBet>)
      ensures |list| == |Bets(userKey)|
      ensures forall k :: 0 <= k < |list| ==> list[k] == Bets(userKey)[|list| - 1 - k]
    {
      var stored := Bets(userKey);
      var a := new PastBet[|stored|](k requires 0 <= k < |stored| => stored[k]);
      var n := a.Length;
      var i, j := 0, n - 1;
      while i < j
        invariant 0 <= i && i + i <= n && j == n - 1 - i
        invariant forall k {:trigger a[k]} :: 0 <= k < n ==>
                    a[k] == if k < i || j < k then stored[n - 1 - k] else stored[k]
      {
        a[i], a[j] := a[j], a[i];
        i, j := i + 1, j - 1;
      }
      list := a[..];
    }

    /** POST: append the bet under a fresh id and keep the newest 15. */
    method Save(userKey: string, bet: PastBet, id: string, now: string)
      modifies this
      ensures pastByUser == old(pastByUser)[userKey := AfterSave(old(Bets(userKey)), Stamped(bet, id, now))]
    {
      var b := bet;
      if Trim(b.date) == "" {
        b := b.(date := now);
      }
      b := b.(id := id);
      var list := Bets(userKey);
      list := list + [b];
      if |list| > MaxKept {
        list := list[|list| - MaxKept..];
      }
      pastByUser := pastByUser[userKey := list];
    }

    /** POST result: grade the first bet with the id; a blank id is refused and a
        missing id changes nothing. */
    method Grade(userKey: string, id: string, rawOutcome: string) returns (r: Result<PastBet, GradeError>)
      modifies this
      ensures Trim(id) == "" ==> r == Err(InvalidRequest) && pastByUser == old(pastByUser)
      ensures Trim(id) != "" && FirstIndex(old(Bets(userKey)), id) == -1 ==>
                r == Err(BetNotFound) && pastByUser == old(pastByUser)
      ensures Trim(id) != "" && FirstIndex(old(Bets(userKey)), id) >= 0 ==>
                var list := old(Bets(userKey));
                var k := FirstIndex(list, id);
                var g := GradeBet(list[k], Lower(Trim(rawOutcome)));
                r == Ok(g) && pastByUser == old(pastByUser)[userKey := list[k := g]]
    {
      if Trim(id) == "" {
        return Err(InvalidRequest);
      }
      var outcome := Lower(Trim(rawOutcome));
      var list := Bets(userKey);
      var idx := IndexOfBet(list, id);
      if idx == -1 {
        return Err(BetNotFound);
      }
      var bet := list[idx];
      bet := bet.(result := outcome);
      bet := bet.(resultUnits := UnitsForOutcome(bet.odds, outcome));
      list := list[idx := bet];
      pastByUser := pastByUser[userKey := list];
      r := Ok(bet);
    }
  }

  /** A graded list keeps its length, its order and every other bet. */
  lemma GradeTouchesOneBet(list: seq<PastBet>, id: string, outcome: string)
    requires FirstIndex(list, id) >= 0
    ensures var k := FirstIndex(list, id);
      var after := list[k := GradeBet(list[k], outcome)];
      && |after| == |list|
      && (forall j :: 0 <= j < |list| && j != k ==> after[j] == list[j])
      && after[k].id == list[k].id && after[k].odds == list[k].odds && after[k].date == list[k].date
      && after[k].model == list[k].model && after[k].sport == list[k].sport
      && after[k].event == list[k].event && after[k].betType == list[k].betType
      && after[k].result == outcome && after[k].resultUnits == UnitsForOutcome(list[k].odds, outcome)
  {
  }

  /* ---------------- Per-model statistics ---------------- */

  /** The four counters of a statistics row. */
  datatype Tally = Tally(wins: int, losses: int, pushes: int, bets: int)

  function TallyOf(s: UserModelStat): Tally {
    Tally(s.wins, s.losses, s.pushes, s.bets)
  }

  /** 1 when the outcome names the bucket, else 0. */
  function Hit(outcome: string, bucket: string): int {
    if outcome == bucket then 1 else 0
  }

  predicate IsOutcome(o: string) { o == "win" || o == "loss" || o == "push" }

  /** ROI in percent of a 1-unit stake per bet; 0 while nothing is counted. */
  function RoiPct(units: real, bets: int): real {
    if bets > 0 then units / bets as real * 100.0 else 0.0
  }

  /** What the statistics lookup by (user, model, sport) found. */
  datatype Lookup = Found(row: UserModelStat) | NotFound | LookupFailed

  /** The row a grading starts from: the stored one, or a new zero row for the key. */
  function Fetched(lookup: Lookup, userKey: string, model: string, sport: string): UserModelStat {
    match lookup
    case Found(s) => s
    case _ => UserModelStat(0, userKey, model, sport, "", 0, 0, 0, 0, 0.0, 0.0)
  }

  /** The previous outcome as compared by `updateUserModelStat`: trimmed, lower-cased, nil as "". */
  function PrevKey(prev: Option<string>): string {
    match prev
    case Some(p) => Lower(Trim(p))
    case None => ""
  }

  /** The counters with the bucket of one outcome moved by delta; other outcomes move nothing. */
  function AddTo(t: Tally, outcome: string, delta: int): Tally {
    if outcome == "win" then t.(wins := t.wins + delta)
    else if outcome == "loss" then t.(losses := t.losses + delta)
    else if outcome == "push" then t.(pushes := t.pushes + delta)
    else t
  }

  /** The same move on a statistics row (the `switch` statements of `updateUserModelStat`). */
  function Bump(s: UserModelStat, outcome: string, delta: int): (r: UserModelStat)
    ensures TallyOf(r) == AddTo(TallyOf(s), outcome, delta)
    ensures r == s.(wins := r.wins, losses := r.losses, pushes := r.pushes)
  {
    if outcome == "win" then s.(wins := s.wins + delta)
    else if outcome == "loss" then s.(losses := s.losses + delta)
    else if outcome == "push" then s.(pushes := s.pushes + delta)
    else s
  }

  /** The counters after `updateUserModelStat` moves a bet from outcome `prev` to `next`:
      a first grading counts the bet and its outcome, a change moves it between
      buckets, a repeat changes nothing. */
  function NextTally(t: Tally, prev: string, next: string): (r: Tally)
    ensures prev == "" ==> r == Tally(t.wins + Hit(next, "win"), t.losses + Hit(next, "loss"),
                                      t.pushes + Hit(next, "push"), t.bets + 1)
    ensures prev != "" && prev != next ==>
      r == Tally(t.wins - Hit(prev, "win") + Hit(next, "win"),
                 t.losses - Hit(prev, "loss") + Hit(next, "loss"),
                 t.pushes - Hit(prev, "push") + Hit(next, "push"), t.bets)
    ensures prev != "" && prev == next ==> r == t
    ensures (prev == "" || IsOutcome(prev)) && IsOutcome(next) ==>
      (r.wins + r.losses + r.pushes) - (t.wins + t.losses + t.pushes) == r.bets - t.bets
  {
    if prev == "" then AddTo(t.(bets := t.bets + 1), next, 1)
    else if prev != next then AddTo(AddTo(t, prev, -1), next, 1)
    else t
  }

  /** `updateUserModelStat`: the row to save after a bet moves from its previous
      outcome and units to new ones, or an error when the lookup failed. Keys are
      kept; counts follow NextTally; units move by the difference; ROI is recomputed. */
  method UpdateUserModelStat(lookup: Lookup, userKey: string, model: string, sport: string,
                             prevOutcome: Option<string>, prevUnits: Option<real>,
                             newOutcome: string, newUnits: real) returns (r: Result<UserModelStat, DbError>)
    ensures lookup.LookupFailed? <==> r.Err?
    ensures r.Ok? ==>
      var s0 := Fetched(lookup, userKey, model, sport);
      var s := r.value;
      && s.id == s0.id && s.userKey == s0.userKey && s.model == s0.model
      && s.sport == s0.sport && s.mode == s0.mode
      && TallyOf(s) == NextTally(TallyOf(s0), PrevKey(prevOutcome), newOutcome)
      && s.units == s0.units + (newUnits - (if prevUnits.Some? then prevUnits.value else 0.0))
      && s.roiPct == RoiPct(s.units, s.bets)
  {
    if lookup.LookupFailed? {
      return Err(DbError);
    }
    var s := Fetched(lookup, userKey, model, sport);
    var prev := "";
    var pUnits := 0.0;
    if prevOutcome.Some? {
      prev := Lower(Trim(prevOutcome.value));
    }
    if prevUnits.Some? {
      pUnits := prevUnits.value;
    }
    assert prev == PrevKey(prevOutcome);
    if prev == "" {
      s := s.(bets := s.bets + 1);
      s := Bump(s, newOutcome, 1);
    } else if prev != newOutcome {
      s := Bump(s, prev, -1);
      s := Bump(s, newOutcome, 1);
    }
    s := s.(units := s.units + (newUnits - pUnits));
    s := s.(roiPct := RoiPct(s.units, s.bets));
    r := Ok(s);
  }
}
