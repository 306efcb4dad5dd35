/**
 * Match state: player score, AI score, rounds played and the direction of
 * the next serve (src/pong/core/GameState.ts).
 *
 * The transitions are first given as functions on immutable snapshots
 * (`PointRecorded`, `ScoresReset`, `Sanitised`); the class `GameState`
 * holds the mutable fields the source updates in place, and each of its
 * methods is specified by the corresponding function.
 */
module MatchState {
  import opened Optional

  /** The side that won a point. */
  datatype Side = Player | Ai

  /** Direction the next serve travels along the forward axis. */
  type ServeDirection = d: int | d == 1 || d == -1 witness 1

  /** The value handed to the presentation layer. */
  datatype ScoreSnapshot = ScoreSnapshot(player: nat, ai: nat, rounds: nat, serveDirection: ServeDirection)

  /** The durable form of a snapshot, with the persisted field names. */
  datatype SerializedGameState = SerializedGameState(playerScore: nat, aiScore: nat, rounds: nat, serveDirection: ServeDirection)

  /**
   * One field of an untrusted, partially present record, as the runtime
   * sees it: absent (`undefined`), a value that is not a number, a number
   * that is NaN or infinite, or a finite number.
   */
  datatype Field = Missing | NonNumber | NonFinite | Finite(value: real)

  /** A record read back from storage or supplied by a caller; nothing about it is trusted. */
  datatype UntrustedRecord = UntrustedRecord(playerScore: Field, aiScore: Field, rounds: Field, serveDirection: Field)

  /** The state of a fresh match, and the result of every reset. */
  const ScoresReset: ScoreSnapshot := ScoreSnapshot(0, 0, 0, 1)

  /** The round count agrees with the two scores. */
  predicate Consistent(s: ScoreSnapshot) {
    s.rounds == s.player + s.ai
  }

  function Max(a: int, b: int): int {
    if a >= b then a else b
  }

  /** `Math.round`: the nearest integer, halves rounded up. */
  function Round(x: real): (n: int)
    ensures n as real - 0.5 <= x < n as real + 0.5
  {
    (x + 0.5).Floor
  }

  /** The source's `safeNumber`: finite numbers are rounded and clamped at zero, anything else becomes 0. */
  function SafeNumber(v: Field): (n: nat)
    ensures !v.Finite? ==> n == 0
    ensures v.Finite? && v.value < 0.5 ==> n == 0
    ensures v.Finite? && v.value >= -0.5 ==> n as real - 0.5 <= v.value < n as real + 0.5
  {
    if v.Finite? then Max(0, Round(v.value)) else 0
  }

  /** The serve direction is -1 only when the record holds exactly the number -1. */
  function SafeServe(v: Field): (d: ServeDirection)
    ensures d == -1 <==> v == Finite(-1.0)
  {
    if v == Finite(-1.0) then -1 else 1
  }

  /** `recordPoint`: one more point for the winner, one more round, and the serve goes the winner's way. */
  function PointRecorded(s: ScoreSnapshot, winner: Side): (r: ScoreSnapshot)
    ensures r.rounds == s.rounds + 1
    ensures r.player + r.ai == s.player + s.ai + 1
    ensures winner == Player ==> r.player == s.player + 1 && r.ai == s.ai && r.serveDirection == 1
    ensures winner == Ai ==> r.ai == s.ai + 1 && r.player == s.player && r.serveDirection == -1
  {
    match winner
    case Player => ScoreSnapshot(s.player + 1, s.ai, s.rounds + 1, 1)
    case Ai => ScoreSnapshot(s.player, s.ai + 1, s.rounds + 1, -1)
  }

  /** `applySerialized`: an absent record changes nothing; otherwise every field is sanitised independently. */
  function Sanitised(s: ScoreSnapshot, data: Option<UntrustedRecord>): ScoreSnapshot {
    match data
    case None => s
    case Some(d) =>
      var rounds := Max(0, SafeNumber(d.rounds));
      ScoreSnapshot(SafeNumber(d.playerScore), SafeNumber(d.aiScore), rounds, SafeServe(d.serveDirection))
  }

  /** `toJSON`: the snapshot under the persisted field names. */
  function Serialized(s: ScoreSnapshot): SerializedGameState {
    SerializedGameState(s.player, s.ai, s.rounds, s.serveDirection)
  }

  /** A serialized state as the untrusted ingest path sees it once it has been stored and read back. */
  function AsUntrusted(j: SerializedGameState): UntrustedRecord {
    UntrustedRecord(Finite(j.playerScore as real), Finite(j.aiScore as real), Finite(j.rounds as real), Finite(j.serveDirection as real))
  }

  /** Rounding leaves an integer alone. */
  lemma RoundOfInteger(k: int)
    ensures Round(k as real) == k
  {
  }

  /** Recording a point keeps the rounds equal to the sum of the scores. */
  lemma PointPreservesConsistency(s: ScoreSnapshot, winner: Side)
    requires Consistent(s)
    ensures Consistent(PointRecorded(s, winner))
  {
  }

  /** A reset yields the fresh-match state whatever came before; it is consistent. */
  lemma ResetIsConsistent()
    ensures Consistent(ScoresReset)
    ensures ScoresReset.player == 0 && ScoresReset.ai == 0 && ScoresReset.rounds == 0 && ScoresReset.serveDirection == 1
  {
  }

  /** An absent record leaves the snapshot as it was. */
  lemma SanitisedAbsent(s: ScoreSnapshot)
    ensures Sanitised(s, None) == s
  {
  }

  /**
   * Every numeric field of a sanitised record is a non-negative integer that
   * is 0 for missing, non-numeric, non-finite and negative input and the
   * rounded value otherwise; the serve direction is -1 exactly when the
   * input is exactly -1.
   */
  lemma SanitisedFields(s: ScoreSnapshot, d: UntrustedRecord)
    ensures var r := Sanitised(s, Some(d));
      && (!d.playerScore.Finite? || d.playerScore.value < 0.0 ==> r.player == 0)
      && (!d.aiScore.Finite? || d.aiScore.value < 0.0 ==> r.ai == 0)
      && (!d.rounds.Finite? || d.rounds.value < 0.0 ==> r.rounds == 0)
      && (d.playerScore.Finite? && d.playerScore.value >= 0.0 ==> r.player == Round(d.playerScore.value))
      && (d.aiScore.Finite? && d.aiScore.value >= 0.0 ==> r.ai == Round(d.aiScore.value))
      && (d.rounds.Finite? && d.rounds.value >= 0.0 ==> r.rounds == Round(d.rounds.value))
      && (r.serveDirection == -1 <==> d.serveDirection == Finite(-1.0))
  {
  }

  /** Ingesting a record that holds non-negative integers and a valid serve direction stores exactly those values. */
  lemma SanitisedExact(s: ScoreSnapshot, player: nat, ai: nat, rounds: nat, serve: ServeDirection)
    ensures Sanitised(s, Some(UntrustedRecord(Finite(player as real), Finite(ai as real), Finite(rounds as real), Finite(serve as real))))
         == ScoreSnapshot(player, ai, rounds, serve)
  {
    RoundOfInteger(player);
    RoundOfInteger(ai);
    RoundOfInteger(rounds);
  }

  /** `applySerialized(toJSON())` reproduces the snapshot, whatever the state it is applied to. */
  lemma SerializedRoundTrip(current: ScoreSnapshot, s: ScoreSnapshot)
    ensures Sanitised(current, Some(AsUntrusted(Serialized(s)))) == s
  {
    SanitisedExact(current, s.player, s.ai, s.rounds, s.serveDirection);
  }

  /** The ingest path takes rounds from the record on its own, so it does not restore `Consistent`. */
  lemma SanitisedMayBreakConsistency()
    ensures !Consistent(Sanitised(ScoresReset, Some(UntrustedRecord(Finite(1.0), Missing, Missing, Missing))))
  {
    RoundOfInteger(1);
  }

  /** A player goal and then an AI goal from a fresh match. */
  lemma TwoGoalsScenario()
    ensures PointRecorded(ScoresReset, Player) == ScoreSnapshot(1, 0, 1, 1)
    ensures PointRecorded(PointRecorded(ScoresReset, Player), Ai) == ScoreSnapshot(1, 1, 2, -1)
  {
  }

  /** The unit tests' two ingest scenarios. */
  lemma SanitisedExamples()
    ensures Sanitised(ScoresReset, Some(UntrustedRecord(Finite(4.0), Finite(3.0), Finite(7.0), Finite(-1.0))))
         == ScoreSnapshot(4, 3, 7, -1)
    ensures Sanitised(ScoresReset, Some(UntrustedRecord(Finite(-10.0), NonFinite, NonFinite, Finite(0.0))))
         == ScoreSnapshot(0, 0, 0, 1)
  {
    SanitisedExact(ScoresReset, 4, 3, 7, -1);
  }

  /** The match state object; the engine is its only writer. */
  class GameState {
    var playerScore: nat
    var aiScore: nat
    var rounds: nat
    var serveDirection: ServeDirection
    var isRunning: bool

    constructor ()
      ensures Snapshot() == ScoresReset && !isRunning
    {
      playerScore, aiScore, rounds, serveDirection := 0, 0, 0, 1;
      isRunning := false;
    }

    /** `snapshot`: a read-only projection of the fields. */
    function Snapshot(): ScoreSnapshot
      reads this
    {
      ScoreSnapshot(playerScore, aiScore, rounds, serveDirection)
    }

    /** `toJSON`: a read-only projection under the persisted field names. */
    function ToJSON(): SerializedGameState
      reads this
    {
      Serialized(Snapshot())
    }

    method RecordPoint(winner: Side) returns (snap: ScoreSnapshot)
      modifies this
      ensures Snapshot() == PointRecorded(old(Snapshot()), winner)
      ensures isRunning == old(isRunning)
      ensures snap == Snapshot()
    {
      if winner == Player {
        playerScore := playerScore + 1;
        serveDirection := 1;
      } else {
        aiScore := aiScore + 1;
        serveDirection := -1;
      }
      rounds := rounds + 1;
      snap := Snapshot();
    }

    method ResetScores() returns (snap: ScoreSnapshot)
      modifies this
      ensures Snapshot() == ScoresReset
      ensures isRunning == old(isRunning)
      ensures snap == Snapshot()
    {
      playerScore := 0;
      aiScore := 0;
      rounds := 0;
      serveDirection := 1;
      snap := Snapshot();
    }

    method ApplySerialized(data: Option<UntrustedRecord>) returns (snap: ScoreSnapshot)
      modifies this
      ensures Snapshot() == Sanitised(old(Snapshot()), data)
      ensures data.None? ==> unchanged(this)
      ensures isRunning == old(isRunning)
      ensures snap == Snapshot()
    {
      if data.None? {
        snap := Snapshot();
        return;
      }
      var d := data.value;
      var serve := SafeServe(d.serveDirection);
      playerScore := SafeNumber(d.playerScore);
      aiScore := SafeNumber(d.aiScore);
      rounds := Max(0, SafeNumber(d.rounds));
      serveDirection := serve;
      snap := Snapshot();
    }
  }
}
