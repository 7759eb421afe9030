/** One play or pass as a function on the table (game_engine.cpp, playCards and pass). */
module Round {
  import opened Cards
  import opened Shapes
  import opened Patterns
  import opened Rules
  import opened State
  import opened Seats
  import opened Turns
  import opened FinishRanks
  import opened Settlements
  import opened Hands

  datatype Config = Config(playerCount: nat, deckCount: nat, playersPerTeam: nat, enableTribute: bool,
      enableWildCard: bool, soloTest: bool)

  datatype Code = Ok | NotYourTurn | InvalidCards | InvalidPatternCode | CannotBeat | InvalidState | NotAllReady

  function Context(t: Table, cfg: Config): RuleContext {
    RuleContext(t.currentLevel, cfg.enableWildCard)
  }

  /** First seat from `k` on of the player with this id; -1 if there is none. */
  function SeatFrom(p: seq<Player>, n: nat, id: nat, k: nat): (s: int)
    requires k <= n <= |p|
    ensures -1 <= s < n
    ensures s >= 0 ==> p[s].id == id
    decreases n - k
  {
    if k == n then -1 else if p[k].id == id then k else SeatFrom(p, n, id, k + 1)
  }

  function SeatOf(t: Table, id: nat): (s: int)
    requires Placed(t)
    ensures -1 <= s < t.playerCount
    ensures s >= 0 ==> t.players[s].id == id
  {
    SeatFrom(t.players, t.playerCount, id, 0)
  }

  ghost function PatternOf(t: Table, cfg: Config, cards: seq<CardId>): CardPattern {
    Analyze(CardsFromIds(t.allCards, cards), Context(t, cfg))
  }

  /** The answer to a play. */
  ghost function PlayCode(t: Table, cfg: Config, id: nat, cards: seq<CardId>): Code
    requires Seated(t)
  {
    var seat := SeatOf(t, id);
    if t.phase != Playing then InvalidState
    else if seat < 0 then InvalidState
    else if seat != t.currentPlayerIndex then NotYourTurn
    else if t.players[seat].hasFinished then InvalidState
    else if !ContainsAll(t.players[seat].hand, cards) then InvalidCards
    else if !PatternOf(t, cfg, cards).isValid then InvalidPatternCode
    else if t.lastPattern.isValid && !Rules.CanBeat(PatternOf(t, cfg, cards), t.lastPattern) then CannotBeat
    else Ok
  }

  /** The answer to a pass. */
  function PassCode(t: Table, id: nat): Code
    requires Seated(t)
  {
    var seat := SeatOf(t, id);
    if t.phase != Playing then InvalidState
    else if seat < 0 || seat != t.currentPlayerIndex then NotYourTurn
    else if !t.lastPattern.isValid then InvalidState
    else Ok
  }

  /** The seats the code indexes exist. */
  predicate Ready(t: Table) {
    Seated(t) && t.lastPlayedPlayerIndex < t.playerCount
  }

  /** The cards leave the hand and lie on the table. */
  function PutDown(t: Table, cards: seq<CardId>, pattern: CardPattern): Table
    requires Seated(t)
  {
    var s := t.currentPlayerIndex;
    t.(players := t.players[s := t.players[s].(hand := HandAfter(t.players[s].hand, cards))],
       lastPlayedCards := cards, lastPattern := pattern, lastPlayedPlayerIndex := s, passCount := 0,
       stateVersion := t.stateVersion + 1)
  }

  /** The rank of the next player to go out. */
  ghost function NextRank(p: seq<Player>): int {
    1 + |FinishedSeats(p, |p|)|
  }

  ghost function TeamFinished(p: seq<Player>, k: nat, team: int): set<int>
    requires k <= |p|
  {
    set s | s in Range(k) && p[s].team == team && p[s].hasFinished
  }

  /** All players of one team have gone out. */
  ghost predicate TeamWin(p: seq<Player>, playersPerTeam: nat) {
    |TeamFinished(p, |p|, 0)| >= playersPerTeam || |TeamFinished(p, |p|, 1)| >= playersPerTeam
  }

  ghost function GoOut(t: Table): Table
    requires Seated(t)
  {
    t.(players := Finish(t.players, t.currentPlayerIndex, NextRank(t.players)))
  }

  function NextTurn(t: Table): Table
    requires Seated(t)
  {
    SkipFinished(AdvanceTurn(t))
  }

  /** The table with the cards put down and the player, if out of cards, ranked. */
  ghost function Laid(t: Table, cfg: Config, cards: seq<CardId>): (u: Table)
    requires Seated(t)
    ensures Ready(u) && u.playerCount == t.playerCount && u.allCards == t.allCards && u.currentLevel == t.currentLevel
  {
    hide Analyze;
    var put := PutDown(t, cards, PatternOf(t, cfg, cards));
    if put.players[t.currentPlayerIndex].hand == [] then GoOut(put) else put
  }

  /** The play ends the round. */
  ghost predicate PlayEnds(t: Table, cfg: Config, cards: seq<CardId>)
    requires Seated(t)
  {
    HandAfter(t.players[t.currentPlayerIndex].hand, cards) == []
        && TeamWin(Laid(t, cfg, cards).players, cfg.playersPerTeam)
  }

  /** The table after an accepted play. */
  ghost function PlayTable(t: Table, cfg: Config, cards: seq<CardId>): (t': Table)
    requires Seated(t)
    ensures Ready(t') && t'.playerCount == t.playerCount && t'.allCards == t.allCards
    ensures t'.currentLevel == t.currentLevel
  {
    hide Analyze, HandAfter, Laid, PlayEnds, AssignRemaining, NextActive;
    var u := Laid(t, cfg, cards);
    if PlayEnds(t, cfg, cards) then u.(players := AssignRemaining(u.players, t.playerCount), phase := Finished)
    else NextTurn(u)
  }

  ghost predicate TrickOver(t: Table)
    requires Seated(t)
  {
    t.lastPlayedPlayerIndex >= 0 && (LeaderIsNext(t, t.currentPlayerIndex) || AllOthersPassed(t))
  }

  /** The table after an accepted pass. */
  ghost function PassTable(t: Table): (t': Table)
    requires Ready(t)
    ensures Ready(t') && t'.playerCount == t.playerCount && t'.allCards == t.allCards
    ensures t'.currentLevel == t.currentLevel
  {
    hide Responders, AllOthersPassed, NextActive, ResolveLead;
    var counted := t.(passCount := t.passCount + 1, stateVersion := t.stateVersion + 1);
    SkipFinished(if TrickOver(counted) then ResetRound(counted, t.lastPlayedPlayerIndex) else AdvanceTurn(counted))
  }

  // ----- the invariant of a round -----

  ghost predicate TeamActive(p: seq<Player>, n: int, team: int) {
    exists s :: Active(p, n, s) && p[s].team == team
  }

  /** Seats beyond the game never finish. */
  ghost predicate IdleSeats(p: seq<Player>, n: int) {
    forall s :: 0 <= n <= s < |p| ==> !p[s].hasFinished
  }

  ghost predicate OutIffEmpty(p: seq<Player>, n: int) {
    n <= |p| && forall s :: 0 <= s < n ==> (p[s].hasFinished <==> p[s].hand == [])
  }

  /** While a pattern lies on the table, `passers` are the active seats strictly clockwise between its
      owner and the current seat. */
  ghost predicate Trick(t: Table, passers: seq<int>) {
    Seated(t) &&
    if t.lastPattern.isValid then
      && 0 <= t.lastPlayedPlayerIndex < t.playerCount && t.lastPlayedPlayerIndex != t.currentPlayerIndex
      && passers == Arc(t.players, t.playerCount, t.lastPlayedPlayerIndex,
                        Dist(t.lastPlayedPlayerIndex, t.currentPlayerIndex, t.playerCount) - 1)
      && t.passCount == |passers|
    else t.lastPlayedPlayerIndex == -1 && t.passCount == 0
  }

  /** Who holds cards, who has gone out and in which order. */
  ghost predicate Standing(p: seq<Player>, n: int, ppt: nat, order: seq<int>) {
    && TeamsAlternate(p, n, ppt) && IdleSeats(p, n) && FinishOrder(p, n, order) && OutIffEmpty(p, n)
  }

  ghost predicate RoundInv(t: Table, ppt: nat, order: seq<int>, passers: seq<int>) {
    && t.phase == Playing && Seated(t) && Standing(t.players, t.playerCount, ppt, order)
    && TeamActive(t.players, t.playerCount, 0) && TeamActive(t.players, t.playerCount, 1)
    && Active(t.players, t.playerCount, t.currentPlayerIndex)
    && Trick(t, passers)
  }
}
