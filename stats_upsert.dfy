/**
 * The second statistics update of the Go back end, `upsertUserModelStat`:
 * the same row as `updateUserModelStat` changes, but outcomes are compared
 * as given (no trimming or lower-casing), a bet is counted only when it goes
 * from ungraded to graded, and a blank new outcome grades nothing.
 */
module StatsUpsert {
  import opened Wrappers
  import opened PastBets

  /** The counters after `upsertUserModelStat` moves a bet from `prev` to `next`. */
  function UpsertTally(t: Tally, prev: string, next: string): (r: Tally)
    ensures r.bets == t.bets + (if prev == "" && next != "" then 1 else 0)
    ensures prev == "" && next != "" ==>
      r == Tally(t.wins + Hit(next, "win"), t.losses + Hit(next, "loss"),
                 t.pushes + Hit(next, "push"), t.bets + 1)
    ensures prev == next ==> r == t
    ensures prev != "" && prev != next ==>
      r == Tally(t.wins - Hit(prev, "win") + Hit(next, "win"),
                 t.losses - Hit(prev, "loss") + Hit(next, "loss"),
                 t.pushes - Hit(prev, "push") + Hit(next, "push"), t.bets)
    ensures (prev == "" || IsOutcome(prev)) && IsOutcome(next) ==>
      (r.wins + r.losses + r.pushes) - (t.wins + t.losses + t.pushes) == r.bets - t.bets
  {
    var t1 := if next != "" && prev == "" then t.(bets := t.bets + 1) else t;
    if prev == "" && next == "" then t1
    else if prev == "" && next != "" then AddTo(t1, next, 1)
    else if prev != next then AddTo(AddTo(t1, prev, -1), next, 1)
    else t1
  }

  /** For a real new outcome the two update rules agree (given the normalised previous outcome). */
  lemma UpsertAgreesOnOutcomes(t: Tally, prev: string, next: string)
    requires IsOutcome(next)
    ensures UpsertTally(t, prev, next) == NextTally(t, prev, next)
  {
  }

  /** A blank new outcome on an ungraded bet: `updateUserModelStat` still counts a bet,
      `upsertUserModelStat` changes nothing. */
  lemma VariantsDifferOnBlank(t: Tally)
    ensures UpsertTally(t, "", "") == t
    ensures NextTally(t, "", "") == t.(bets := t.bets + 1)
  {
  }

  /** Un-grading a bet (a blank new outcome) takes it out of its bucket but keeps it counted. */
  lemma UngradeKeepsBets(t: Tally, prev: string)
    requires IsOutcome(prev)
    ensures UpsertTally(t, prev, "").bets == t.bets
    ensures var r := UpsertTally(t, prev, "");
      r.wins + r.losses + r.pushes == t.wins + t.losses + t.pushes - 1
  {
  }

  /** `upsertUserModelStat`: the row to save, or an error when the lookup failed. */
  method UpsertUserModelStat(lookup: Lookup, userKey: string, model: string, sport: string,
                             prev: string, next: string, prevUnits: real, nextUnits: real)
    returns (r: Result<UserModelStat, DbError>)
    ensures lookup.LookupFailed? <==> r.Err?
    ensures r.Ok? ==>
      var s0 := Fetched(lookup, userKey, model, sport);
      var s := r.value;
      && s.id == s0.id && s.userKey == s0.userKey && s.model == s0.model
      && s.sport == s0.sport && s.mode == s0.mode
      && TallyOf(s) == UpsertTally(TallyOf(s0), prev, next)
      && s.units == s0.units + (nextUnits - prevUnits)
      && s.roiPct == RoiPct(s.units, s.bets)
  {
    if lookup.LookupFailed? {
      return Err(DbError);
    }
    var s := Fetched(lookup, userKey, model, sport);
    if next != "" && prev == "" {
      s := s.(bets := s.bets + 1);
    }
    if prev == "" && next == "" {
    } else if prev == "" && next != "" {
      s := Bump(s, next, 1);
    } else if prev != next {
      s := Bump(s, prev, -1);
      s := Bump(s, next, 1);
    }
    s := s.(units := s.units + (nextUnits - prevUnits));
    s := s.(roiPct := RoiPct(s.units, s.bets));
    r := Ok(s);
  }
}
