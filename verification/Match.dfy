/** A whole match as a function on values: deal, tribute, play, settlement, next round (game_engine.cpp). */
module Match {
  import opened Lists
  import opened Cards
  import opened State
  import opened Turns
  import opened Settlements
  import opened Decks
  import opened Round
  import opened Tributes
  import opened TributePhase
  import Progress
  import Conservation
  import Hands

  /** Everything the engine keeps: the table and the tribute, the standing and the last round. */
  datatype Game = Game(desk: Desk, standing: Progress.Standing, previous: Previous)

  // ----- the deal -----

  /** What the library's shuffle can leave of a new deck. */
  ghost predicate Shuffled(cfg: Config, cards: seq<Card>) {
    exists full :: IsFullDeck(full, cfg.deckCount) && multiset(cards) == multiset(full)
  }

  function CardsPerPlayer(cfg: Config): int {
    if cfg.soloTest then SOLO_TEST_CARDS_PER_PLAYER else 0
  }

  /** The first `k` seats with their new hands. */
  function DealtPlayers(p: seq<Player>, hands: seq<seq<CardId>>, k: nat): (q: seq<Player>)
    requires k <= |p| && k <= |hands|
    ensures |q| == |p|
    ensures forall s :: 0 <= s < |p| ==> q[s] == if s < k
              then p[s].(hand := hands[s], hasFinished := false, finishRank := 0) else p[s]
  {
    if k == 0 then p
    else DealtPlayers(p, hands, k - 1)[k - 1 := p[k - 1].(hand := hands[k - 1], hasFinished := false, finishRank := 0)]
  }

  /** The table with the cards dealt, at the attackers' level. */
  function RoundTable(t: Table, s: Progress.Standing, shuffled: seq<Card>, hands: seq<seq<CardId>>): Table
    requires t.playerCount <= |t.players| && |hands| == t.playerCount
    requires Progress.Shaped(s) && 2 <= s.levels[s.attackingTeam] <= 14
  {
    t.(players := DealtPlayers(t.players, hands, t.playerCount), allCards := shuffled, attackingTeam := s.attackingTeam,
       currentLevel := s.levels[s.attackingTeam], isPassARound := Progress.IsPassARound(s), round := t.round + 1,
       lastPlayedCards := [], lastPattern := INVALID_PATTERN, lastPlayedPlayerIndex := -1, passCount := 0, turnId := 1)
  }

  /** The deck deals evenly and the standing names a level. */
  predicate CanDeal(g: Game, cfg: Config, shuffled: seq<Card>) {
    && Placed(g.desk.table) && |g.previous.ranks| == MAX_PLAYERS
    && DealSpec(shuffled, g.desk.table.playerCount, CardsPerPlayer(cfg)).Dealt?
    && var s := Progress.PrepareNextRound(g.standing);
       Progress.Shaped(s) && 2 <= s.levels[s.attackingTeam] <= 14
  }

  lemma DealtHands(cards: seq<Card>, n: int, k: int)
    requires DealSpec(cards, n, k).Dealt?
    ensures |DealSpec(cards, n, k).hands| == n
  {
    hide Blocks, RoundRobin;
  }

  function DealtTable(g: Game, cfg: Config, shuffled: seq<Card>): (t: Table)
    requires CanDeal(g, cfg, shuffled)
    ensures Placed(t) && t.playerCount == g.desk.table.playerCount
  {
    DealtHands(shuffled, g.desk.table.playerCount, CardsPerPlayer(cfg));
    RoundTable(g.desk.table, Progress.PrepareNextRound(g.standing), shuffled,
               DealSpec(shuffled, g.desk.table.playerCount, CardsPerPlayer(cfg)).hands)
  }

  /** The first round of a match has no tribute. */
  function DealFirst(g: Game, cfg: Config, shuffled: seq<Card>): Game
    requires CanDeal(g, cfg, shuffled)
  {
    Game(Desk(BeginPlaying(DealtTable(g, cfg, shuffled), 0), g.desk.tribute, NO_OUTCOME.(skipped := true)),
         Progress.PrepareNextRound(g.standing), g.previous)
  }

  /** The tribute of a dealt table, skipped or countered at once where the plan says so. */
  function OpenedDesk(t: Table, cfg: Config, prev: Previous): Desk
    requires t.playerCount <= |t.players| == |prev.ranks|
  {
    var plan := PlanRound(t, cfg, prev);
    if plan.skipped then
      Desk(BeginPlaying(t, plan.headSeat), NO_TRIBUTE, NO_OUTCOME.(skipped := true, firstPlayerSeat := plan.headSeat))
    else if plan.antiTribute then
      Desk(BeginPlaying(t, plan.headSeat), NO_TRIBUTE,
          NO_OUTCOME.(antiTribute := true, firstPlayerSeat := plan.headSeat, summary := plan.summary))
    else
      Desk(t.(phase := Tribute, stateVersion := t.stateVersion + 1),
           TributeState(true, plan, map[], plan.tributerSeats, [], map[]), NO_OUTCOME)
  }

  /** Later rounds begin with the tribute. */
  function DealNext(g: Game, cfg: Config, shuffled: seq<Card>): Game
    requires CanDeal(g, cfg, shuffled)
  {
    Game(OpenedDesk(DealtTable(g, cfg, shuffled), cfg, g.previous), Progress.PrepareNextRound(g.standing), g.previous)
  }

  predicate AllReady(t: Table, cfg: Config)
    requires t.playerCount <= |t.players|
  {
    (forall s :: 0 <= s < t.playerCount ==> t.players[s].isReady) && t.playerCount == cfg.playerCount
  }

  function StartCode(g: Game, cfg: Config): Code
    requires Placed(g.desk.table)
  {
    if g.desk.table.phase != Waiting && g.desk.table.phase != Phase.Ready then InvalidState
    else if !AllReady(g.desk.table, cfg) then NotAllReady
    else Ok
  }

  function NextCode(g: Game): Code {
    if g.desk.table.phase != Finished then InvalidState else Ok
  }

  // ----- the end of a round -----

  /** The round is over: the winners climb, and the ranks are kept for the next tribute. */
  function EndRound(g: Game, t: Table, cfg: Config): Game
    requires t.playerCount <= |t.players| == MAX_PLAYERS && Progress.Shaped(g.standing)
    requires Calculate(t, cfg.playersPerTeam).winningTeam < TEAM_COUNT
  {
    var r := Calculate(t, cfg.playersPerTeam);
    Game(g.desk.(table := t), Progress.AfterRound(g.standing, r.winningTeam, r.levelUpgrade),
        BuildPrevious(t, r.winningTeam))
  }

  /** Sets the ready mark of the first seat with this id, idle seats included, if there is one. */
  function MarkReady(p: seq<Player>, id: nat, ready: bool): (q: seq<Player>)
    ensures |q| == |p|
  {
    var s := SeatFrom(p, |p|, id, 0);
    if s < 0 then p else p[s := p[s].(isReady := ready)]
  }

  // ----- all that can happen -----

  datatype Action =
    | SetReady(player: nat, ready: bool)
    | StartGame(shuffled: seq<Card>)
    | StartNextRound(shuffled: seq<Card>)
    | PlayCards(player: nat, cards: seq<CardId>)
    | PassTurn(player: nat)
    | SubmitTribute(player: nat, card: CardId)
    | SubmitReturn(player: nat, card: CardId)
    | FinalizeTribute

  ghost function ActionCode(g: Game, cfg: Config, a: Action): Code
    requires Seated(g.desk.table)
  {
    match a
    case SetReady(_, _) => Ok
    case StartGame(_) => StartCode(g, cfg)
    case StartNextRound(_) => NextCode(g)
    case PlayCards(id, cards) => PlayCode(g.desk.table, cfg, id, cards)
    case PassTurn(id) => PassCode(g.desk.table, id)
    case SubmitTribute(id, card) => TributeCode(g.desk, cfg, id, card)
    case SubmitReturn(id, card) => ReturnCode(g.desk, cfg, id, card)
    case FinalizeTribute => Ok
  }

  /** Rounds are dealt from a shuffled deck; the room marks players ready before and between rounds only,
      and closes the tribute phase only when its last return is in. */
  ghost predicate Enabled(g: Game, cfg: Config, a: Action) {
    match a
    case StartGame(shuffled) => Shuffled(cfg, shuffled)
    case StartNextRound(shuffled) => Shuffled(cfg, shuffled)
    case SetReady(_, _) => g.desk.table.phase in {Waiting, Phase.Ready, Finished}
    case FinalizeTribute => Complete(g.desk)
    case _ => true
  }

  /** What every state of a match keeps so that each action is defined. */
  ghost predicate Sound(g: Game, cfg: Config) {
    && Round.Ready(g.desk.table) && g.desk.table.playerCount == cfg.playerCount && |g.previous.ranks| == MAX_PLAYERS
    && TeamsAlternate(g.desk.table.players, g.desk.table.playerCount, cfg.playersPerTeam)
    && Progress.StandingInv(g.standing)
  }

  /** The room configurations: two teams of two or three; a deck that can be numbered and dealt. */
  ghost predicate GoodConfig(cfg: Config) {
    && (cfg.playersPerTeam == 2 || cfg.playersPerTeam == 3) && cfg.playerCount == 2 * cfg.playersPerTeam
    && 0 < cfg.deckCount && CARDS_PER_DECK * cfg.deckCount <= 0x1_0000
    && (!cfg.soloTest ==> (CARDS_PER_DECK * cfg.deckCount) % cfg.playerCount == 0)
  }

  /** The three room types have such configurations. */
  lemma RoomConfigsAreGood(tribute: bool, wild: bool)
    ensures GoodConfig(Config(4, 2, 2, tribute, wild, false)) && GoodConfig(Config(4, 2, 2, tribute, wild, true))
    ensures GoodConfig(Config(6, 3, 3, tribute, wild, false))
  {
  }

  lemma ShuffledSize(cfg: Config, shuffled: seq<Card>)
    requires Shuffled(cfg, shuffled)
    ensures |shuffled| == CARDS_PER_DECK * cfg.deckCount && NoDuplicates(IdsOf(shuffled))
  {
    var full :| IsFullDeck(full, cfg.deckCount) && multiset(shuffled) == multiset(full);
    ShuffledIdsDistinct(full, shuffled, cfg.deckCount);
  }

  /** Such a deal never fails. */
  lemma CanAlwaysDeal(g: Game, cfg: Config, shuffled: seq<Card>)
    requires Sound(g, cfg) && GoodConfig(cfg) && Shuffled(cfg, shuffled)
    ensures CanDeal(g, cfg, shuffled)
  {
    hide Blocks, RoundRobin;
    ShuffledSize(cfg, shuffled);
  }

  /** The winner of a round played at this table is one of the two teams. */
  lemma WinnerIsATeam(p: seq<Player>, q: Table, cfg: Config)
    requires TeamsAlternate(p, q.playerCount, cfg.playersPerTeam) && |q.players| == |p| && q.playerCount <= |p|
    requires forall s :: 0 <= s < |p| ==> q.players[s].team == p[s].team
    ensures Calculate(q, cfg.playersPerTeam).winningTeam < TEAM_COUNT
  {
    hide WinningRankSum;
  }

  ghost function AfterPlay(g: Game, cfg: Config, cards: seq<CardId>): Game
    requires Sound(g, cfg)
  {
    hide PlayTable, WinningRankSum, Conservation.SameHandsBut, Hands.HandAfter;
    var t := PlayTable(g.desk.table, cfg, cards);
    Conservation.PlaySeats(g.desk.table, cfg, cards);
    WinnerIsATeam(g.desk.table.players, t, cfg);
    if t.phase == Finished then EndRound(g, t, cfg) else g.(desk := g.desk.(table := t))
  }

  ghost function AfterAction(g: Game, cfg: Config, a: Action): Game
    requires Sound(g, cfg) && GoodConfig(cfg) && Enabled(g, cfg, a)
  {
    hide PassTable, PlayTable, AfterTribute, AfterReturn, StartPlay;
    var t := g.desk.table;
    if ActionCode(g, cfg, a) != Ok then g
    else match a
      case SetReady(id, ready) => g.(desk := g.desk.(table := t.(players := MarkReady(t.players, id, ready))))
      case StartGame(shuffled) => CanAlwaysDeal(g, cfg, shuffled); DealFirst(g.(previous := NO_PREVIOUS), cfg, shuffled)
      case StartNextRound(shuffled) => CanAlwaysDeal(g, cfg, shuffled); DealNext(g, cfg, shuffled)
      case PlayCards(id, cards) => AfterPlay(g, cfg, cards)
      case PassTurn(id) => g.(desk := g.desk.(table := PassTable(t)))
      case SubmitTribute(id, card) => g.(desk := AfterTribute(g.desk, cfg, g.previous, SeatOf(t, id), card))
      case SubmitReturn(id, card) => g.(desk := AfterReturn(g.desk, SeatOf(t, id), card))
      case FinalizeTribute => g.(desk := StartPlay(g.desk, cfg, g.previous))
  }
}
