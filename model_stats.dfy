/**
 * The model-statistics endpoint of the Go back end, `handleModelStats`: the
 * `mode` query parameter folded onto one of four stored modes, the checks made
 * before the database is asked, and the copy of each stored row into the
 * response row.
 */
module ModelStats {
  import opened Wrappers
  import opened Text
  import opened PastBets

  /** One row of the response. */
  datatype StatRow = StatRow(
    model: string, sport: string, bets: int, wins: int, losses: int, pushes: int,
    units: real, roiPct: real)

  /** The four modes under which aggregates are stored. */
  predicate IsStoredMode(m: string) {
    m == "Single" || m == "SGP" || m == "SGP+" || m == "ALL"
  }

  /** The `mode` query parameter, trimmed and upper-cased, as a stored mode; anything
      unrecognised, the empty string included, reads as "ALL". */
  function NormalizeMode(raw: string): (m: string)
    ensures IsStoredMode(m)
    ensures Upper(Trim(raw)) == "SINGLE" <==> m == "Single"
    ensures Upper(Trim(raw)) == "SGP" <==> m == "SGP"
    ensures Upper(Trim(raw)) == "SGP+" <==> m == "SGP+"
    ensures m == "ALL" <==> Upper(Trim(raw)) !in {"SINGLE", "SGP", "SGP+"}
  {
    var key := Upper(Trim(raw));
    if key == "SINGLE" then "Single"
    else if key == "SGP" then "SGP"
    else if key == "SGP+" then "SGP+"
    else "ALL"
  }

  /** A stored mode has no surrounding space. */
  lemma StoredModeTrimmed(m: string)
    requires IsStoredMode(m)
    ensures Trim(m) == m
  {
    TrimNoSpace(m);
  }

  /** Each stored mode is its own normal form. */
  lemma NormalizeStoredMode(m: string)
    requires IsStoredMode(m)
    ensures NormalizeMode(m) == m
  {
    StoredModeTrimmed(m);
    if m == "Single" {
      assert Upper(m) == "SINGLE";
    } else if m == "SGP" {
      assert Upper(m) == "SGP";
    } else if m == "SGP+" {
      assert Upper(m) == "SGP+";
    } else {
      assert Upper(m) == "ALL";
    }
  }

  /** Normalising a normalised mode changes nothing. */
  lemma NormalizeModeIdempotent(raw: string)
    ensures NormalizeMode(NormalizeMode(raw)) == NormalizeMode(raw)
  {
    NormalizeStoredMode(NormalizeMode(raw));
  }

  /** The answers of the endpoint. */
  datatype Response =
    | Unauthorized
    | DbNotInitialized
    | DbFailed
    | Stats(rows: seq<StatRow>)

  /** The response row a stored aggregate is shown as. */
  predicate Copies(out: StatRow, s: UserModelStat) {
    && out.model == s.model && out.sport == s.sport
    && out.bets == s.bets && out.wins == s.wins && out.losses == s.losses && out.pushes == s.pushes
    && out.units == s.units && out.roiPct == s.roiPct
  }

  /** The append loop: one response row per stored row, in order. */
  method CopyRows(rows: seq<UserModelStat>) returns (out: seq<StatRow>)
    ensures |out| == |rows|
    ensures forall k :: 0 <= k < |rows| ==> Copies(out[k], rows[k])
  {
    out := [];
    for i := 0 to |rows|
      invariant |out| == i
      invariant forall k :: 0 <= k < i ==> Copies(out[k], rows[k])
    {
      var s := rows[i];
      out := out + [StatRow(s.model, s.sport, s.bets, s.wins, s.losses, s.pushes, s.units, s.roiPct)];
    }
  }

  /**
   * `handleModelStats`. `userKey` is the caller's key ("" when there is none),
   * `dbReady` says whether the database handle is set, and `find(userKey, mode)`
   * is the database query for the user's rows under a mode (None when it fails).
   */
  method HandleModelStats(userKey: string, dbReady: bool, rawMode: string,
                          find: (string, string) -> Option<seq<UserModelStat>>)
    returns (r: Response)
    ensures userKey == "" ==> r == Unauthorized
    ensures userKey != "" && !dbReady ==> r == DbNotInitialized
    ensures userKey != "" && dbReady ==>
      match find(userKey, NormalizeMode(rawMode))
      case None => r == DbFailed
      case Some(rows) =>
        && r.Stats? && |r.rows| == |rows|
        && forall k :: 0 <= k < |rows| ==> Copies(r.rows[k], rows[k])
  {
    if userKey == "" {
      return Unauthorized;
    }
    if !dbReady {
      return DbNotInitialized;
    }
    var mode := NormalizeMode(rawMode);
    var found := find(userKey, mode);
    if found.None? {
      return DbFailed;
    }
    var out := CopyRows(found.value);
    r := Stats(out);
  }
}
