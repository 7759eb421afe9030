/** The state of a table (game_state.h): the object the engine and the turn manager share,
    and its value. */
module State {
  import opened Cards

  const MAX_PLAYERS := 6
  const TEAM_COUNT := 2
  const SOLO_TEST_CARDS_PER_PLAYER := 2

  datatype Phase = Waiting | Ready | Dealing | Tribute | ReturnTribute | Playing | RoundEnd | Settlement | Finished

  datatype Player = Player(id: nat, team: int, hand: seq<CardId>, isReady: bool, hasFinished: bool, finishRank: int)

  /** A default-constructed seat. */
  const EMPTY_SEAT := Player(0, 0, [], false, false, 0)

  /** The value of a GameState object. */
  datatype Table = Table(
    phase: Phase, players: seq<Player>, playerCount: nat,
    currentPlayerIndex: int, currentLevel: Level, attackingTeam: int, isPassARound: bool, firstPlayerIndex: int,
    lastPlayedCards: seq<CardId>, lastPattern: CardPattern, lastPlayedPlayerIndex: int, passCount: nat,
    turnId: nat, stateVersion: nat, round: nat, allCards: seq<Card>)

  /** A default-constructed state. */
  const INITIAL_TABLE := Table(Waiting, seq(MAX_PLAYERS, _ => EMPTY_SEAT), 0, 0, 2, 0, false, 0, [], INVALID_PATTERN,
      -1, 0, 0, 0, 0, [])

  class GameState {
    var phase: Phase
    var players: seq<Player>
    var playerCount: nat
    var currentPlayerIndex: int
    var currentLevel: Level
    var attackingTeam: int
    var isPassARound: bool
    var firstPlayerIndex: int
    var lastPlayedCards: seq<CardId>
    var lastPattern: CardPattern
    var lastPlayedPlayerIndex: int
    var passCount: nat
    var turnId: nat
    var stateVersion: nat
    var round: nat
    var allCards: seq<Card>

    function View(): Table
      reads this
    {
      Table(phase, players, playerCount, currentPlayerIndex, currentLevel, attackingTeam, isPassARound,
          firstPlayerIndex,
            lastPlayedCards, lastPattern, lastPlayedPlayerIndex, passCount, turnId, stateVersion, round, allCards)
    }

    /** The state of a table before any player has been seated. */
    constructor ()
      ensures View() == INITIAL_TABLE
    {
      phase, players, playerCount := Waiting, INITIAL_TABLE.players, 0;
      currentPlayerIndex, currentLevel, attackingTeam, isPassARound, firstPlayerIndex := 0, 2, 0, false, 0;
      lastPlayedCards, lastPattern, lastPlayedPlayerIndex, passCount := [], INVALID_PATTERN, -1, 0;
      turnId, stateVersion, round, allCards := 0, 0, 0, [];
    }

    /** Back to that state. */
    method Clear()
      modifies this
      ensures View() == INITIAL_TABLE
    {
      ClearSeats();
      ClearLevel();
      ClearTurn();
      ShowTrick([], INVALID_PATTERN, -1);
    }

    method ClearSeats()
      modifies this
      ensures View() == old(View()).(phase := Waiting, players := INITIAL_TABLE.players, playerCount := 0,
                allCards := [])
    {
      phase, players, playerCount, allCards := Waiting, INITIAL_TABLE.players, 0, [];
    }

    method ClearLevel()
      modifies this
      ensures View() == old(View()).(currentLevel := 2, attackingTeam := 0, isPassARound := false, round := 0)
    {
      currentLevel, attackingTeam, isPassARound, round := 2, 0, false, 0;
    }

    method ClearTurn()
      modifies this
      ensures View() == old(View()).(currentPlayerIndex := 0, firstPlayerIndex := 0, turnId := 0, stateVersion := 0)
    {
      currentPlayerIndex, firstPlayerIndex, turnId, stateVersion := 0, 0, 0, 0;
    }

    /** What lies on the table, and who put it there; nobody has passed on it yet. */
    method ShowTrick(cards: seq<CardId>, pattern: CardPattern, seat: int)
      modifies this
      ensures View() == old(View()).(lastPlayedCards := cards, lastPattern := pattern, lastPlayedPlayerIndex := seat,
                passCount := 0)
    {
      lastPlayedCards, lastPattern, lastPlayedPlayerIndex, passCount := cards, pattern, seat, 0;
    }
  }
}
