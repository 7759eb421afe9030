/** Rounds of a match can always be brought to their end, unless the tribute is stuck on its cards. */
module MatchEnds {
  import opened Options
  import opened Arithmetic
  import opened Lists
  import opened Cards
  import opened State
  import opened Turns
  import opened Settlements
  import opened Hands
  import opened Decks
  import opened Round
  import opened RoundProofs
  import opened Runs
  import opened Conservation
  import opened Termination
  import opened Liveness
  import opened Tributes
  import opened Exchange
  import opened TributePhase
  import opened AnyOrder
  import opened TributeEnds
  import opened Match
  import opened MatchProofs
  import Bot
  import Progress

  // ----- runs of a round and of a tribute phase as actions of the match -----

  function MoveAction(m: Move): Action {
    match m
    case Play(id, cards) => PlayCards(id, cards)
    case Pass(id) => PassTurn(id)
  }

  function OfferAction(o: Offer): Action {
    match o
    case Pay(id, card) => SubmitTribute(id, card)
    case GiveBack(id, card) => SubmitReturn(id, card)
  }

  function MoveActions(moves: seq<Move>): (actions: seq<Action>)
    ensures |actions| == |moves|
  {
    seq(|moves|, i requires 0 <= i < |moves| => MoveAction(moves[i]))
  }

  function OfferActions(offers: seq<Offer>): (actions: seq<Action>)
    ensures |actions| == |offers|
  {
    seq(|offers|, i requires 0 <= i < |offers| => OfferAction(offers[i]))
  }

  lemma ReachesOneMore(g: Game, cfg: Config, actions: seq<Action>, before: Game, a: Action)
    requires Reaches(g, cfg, actions, before) && Sound(before, cfg) && GoodConfig(cfg) && Enabled(before, cfg, a)
    ensures Reaches(g, cfg, actions + [a], AfterAction(before, cfg, a))
  {
    hide AfterAction, Sound, GoodConfig, Enabled;
    assert (actions + [a])[..|actions|] == actions;
  }

  lemma {:induction false} ReachesOn(g: Game, cfg: Config, a: seq<Action>, mid: Game, b: seq<Action>, h: Game)
    requires Reaches(g, cfg, a, mid) && Reaches(mid, cfg, b, h)
    ensures Reaches(g, cfg, a + b, h)
  {
    hide AfterAction, Sound, GoodConfig, Enabled;
    if b == [] {
      assert a + b == a;
    } else {
      var k := |b| - 1;
      var before: Game :| Reaches(mid, cfg, b[..k], before) && Sound(before, cfg) && GoodConfig(cfg)
                          && Enabled(before, cfg, b[k]) && h == AfterAction(before, cfg, b[k]);
      ReachesOn(g, cfg, a, mid, b[..k], before);
      ReachesOneMore(g, cfg, a + b[..k], before, b[k]);
      assert (a + b[..k]) + [b[k]] == a + b;
    }
  }

  lemma MoveIsAction(g: Game, cfg: Config, h: History, m: Move)
    requires Sound(g, cfg) && GoodConfig(cfg) && g.desk.table == h.table
    ensures Enabled(g, cfg, MoveAction(m)) && AfterAction(g, cfg, MoveAction(m)).desk.table == After(h, cfg, m).table
  {
    hide PlayTable, PassTable, PlayCode, PassCode, OrderAfter, PatternOf, Calculate, TeamsAlternate;
    hide Progress.StandingInv;
  }

  /** The match follows the run of its round. */
  lemma {:induction false} PlayOut(g: Game, cfg: Config, w: Witness, more: seq<Move>) returns (h: Game, w': Witness)
    requires MatchInv(g, cfg, w) && g.desk.table.phase == Playing
    ensures Reaches(g, cfg, MoveActions(more), h) && MatchInv(h, cfg, w')
    ensures Round.Ready(w.opening) && h.desk.table == Run(w.opening, cfg, w.moves + more).table
  {
    hide MatchInv, Reaches, Sound, GoodConfig, Enabled, AfterAction, After, Run;
    PlayingRun(g, cfg, w);
    if more == [] {
      assert w.moves + more == w.moves;
      ReachesAtOnce(g, cfg);
      h, w' := g, w;
    } else {
      var k := |more| - 1;
      var before, w0 := PlayOut(g, cfg, w, more[..k]);
      MatchSound(before, cfg, w0);
      MoveIsAction(before, cfg, Run(w.opening, cfg, w.moves + more[..k]), more[k]);
      w' := ActionInv(before, cfg, w0, MoveAction(more[k]));
      h := AfterAction(before, cfg, MoveAction(more[k]));
      ReachesOneMore(g, cfg, MoveActions(more[..k]), before, MoveAction(more[k]));
      assert MoveActions(more[..k]) + [MoveAction(more[k])] == MoveActions(more);
      RunSnoc(w.opening, cfg, w.moves + more[..k], more[k]);
      assert (w.moves + more[..k]) + [more[k]] == w.moves + more;
    }
  }

  lemma ReachesAtOnce(g: Game, cfg: Config)
    ensures Reaches(g, cfg, [], g)
  {
  }

  lemma PlayingRun(g: Game, cfg: Config, w: Witness)
    requires MatchInv(g, cfg, w) && g.desk.table.phase == Playing
    ensures Round.Ready(w.opening) && g.desk.table == Run(w.opening, cfg, w.moves).table
    ensures InRound(g.desk.table, cfg, w)
  {
    hide Sound, GoodConfig, InRound, DistinctIds, IdleSeats, Run, Terms;
    RunTable(g.desk.table, cfg, w);
  }

  /** From every state of play the round can be played to its end. */
  lemma PlayCanEnd(g: Game, cfg: Config, w: Witness) returns (actions: seq<Action>, h: Game)
    requires MatchInv(g, cfg, w) && g.desk.table.phase == Playing
    ensures Reaches(g, cfg, actions, h) && h.desk.table.phase == Finished
  {
    hide MatchInv, Reaches, Run, RoundOver, PoolOf, Unrepeated, Shuffled, DistinctIds, Opening;
    PlayingRun(g, cfg, w);
    var more := CanComplete(w.opening, cfg, w.moves);
    var w';
    h, w' := PlayOut(g, cfg, w, more);
    OverPhase(h.desk.table, cfg.playersPerTeam, Run(w.opening, cfg, w.moves + more).order);
    actions := MoveActions(more);
  }

  // ----- the tribute phase -----

  lemma OfferIsAction(g: Game, cfg: Config, w: Witness, o: Offer)
    requires MatchInv(g, cfg, w) && g.desk.table.phase in {Tribute, ReturnTribute}
    ensures Sound(g, cfg) && GoodConfig(cfg) && Placed(g.desk.table) && g.desk.table.playerCount <= |g.previous.ranks|
    ensures Enabled(g, cfg, OfferAction(o))
    ensures AfterAction(g, cfg, OfferAction(o)) == g.(desk := AfterOffer(g.desk, cfg, g.previous, o))
  {
    hide InTribute, AfterTribute, AfterReturn, TributeCode, ReturnCode, DistinctIds, IdleSeats, TeamsAlternate;
    hide Progress.StandingInv, Terms;
  }

  /** What has been submitted in a tribute phase so far. */
  lemma TributeSoFar(g: Game, cfg: Config, w: Witness)
    requires MatchInv(g, cfg, w) && g.desk.table.phase in {Tribute, ReturnTribute}
    ensures Due(w.due, cfg, g.previous) && DistinctIds(w.due.table.players, w.due.table.playerCount)
    ensures Placed(w.due.table) && w.due.table.playerCount <= |g.previous.ranks|
    ensures SeatsExist(w.due.table, w.due.tribute.plan.tributerSeats)
    ensures g.desk == AfterOffers(w.due, cfg, g.previous, w.offers)
  {
    hide Due, AfterOffers, FreshDeal, DistinctIds, IdleSeats, TeamsAlternate, Progress.StandingInv, Terms, PermRanks;
    DuePlaced(w.due, cfg, g.previous);
  }

  /** One more submission: the phase goes on from the same deal. */
  lemma OfferKeeps(g: Game, cfg: Config, w: Witness, o: Offer) returns (w': Witness)
    requires MatchInv(g, cfg, w) && g.desk.table.phase in {Tribute, ReturnTribute}
    ensures Sound(g, cfg) && GoodConfig(cfg) && Enabled(g, cfg, OfferAction(o))
    ensures var h := AfterAction(g, cfg, OfferAction(o));
            MatchInv(h, cfg, w') && h.previous == g.previous && h.desk.table.phase in {Tribute, ReturnTribute}
    ensures w'.due == w.due && w'.offers == w.offers + [o]
  {
    hide MatchInv, Sound, GoodConfig, Enabled, AfterAction, Due, AfterOffers, AfterOffer, DistinctIds, PhaseInv;
    OfferIsAction(g, cfg, w, o);
    TributeSoFar(g, cfg, w);
    w' := SubmitInv(g, cfg, w, o);
    OffersSnoc(w.due, cfg, g.previous, w.offers, o);
    EveryOrder(w.due, cfg, g.previous, w.offers + [o]);
    DeskTables(w.due, cfg, AfterOffers(w.due, cfg, g.previous, w.offers + [o]));
  }

  lemma {:induction false} SubmitAll(g: Game, cfg: Config, w: Witness, more: seq<Offer>) returns (h: Game, w': Witness)
    requires MatchInv(g, cfg, w) && g.desk.table.phase in {Tribute, ReturnTribute}
    ensures Reaches(g, cfg, OfferActions(more), h) && MatchInv(h, cfg, w')
    ensures h.previous == g.previous && h.desk.table.phase in {Tribute, ReturnTribute} && w'.due == w.due
    ensures w'.offers == w.offers + more
  {
    hide MatchInv, Reaches, Sound, GoodConfig, Enabled, AfterAction;
    if more == [] {
      assert w.offers + more == w.offers;
      ReachesAtOnce(g, cfg);
      h, w' := g, w;
    } else {
      var k := |more| - 1;
      var before, w0 := SubmitAll(g, cfg, w, more[..k]);
      w' := OfferKeeps(before, cfg, w0, more[k]);
      h := AfterAction(before, cfg, OfferAction(more[k]));
      ReachesOneMore(g, cfg, OfferActions(more[..k]), before, OfferAction(more[k]));
      assert OfferActions(more[..k]) + [OfferAction(more[k])] == OfferActions(more);
      assert (w.offers + more[..k]) + [more[k]] == w.offers + more;
    }
  }

  lemma FinalizeIsAction(g: Game, cfg: Config)
    requires Sound(g, cfg) && GoodConfig(cfg) && Complete(g.desk)
    ensures Enabled(g, cfg, FinalizeTribute) && AfterAction(g, cfg, FinalizeTribute).desk.table.phase == Playing
  {
    hide FirstPlayer, PayerOf, TeamsAlternate, Progress.StandingInv;
  }

  /** If the cards allow it, the tribute can be completed and the round played to its end. */
  lemma TributeCanEnd(g: Game, cfg: Config, w: Witness) returns (actions: seq<Action>, h: Game)
    requires MatchInv(g, cfg, w) && g.desk.table.phase in {Tribute, ReturnTribute}
    requires SeatsExist(w.due.table, w.due.tribute.plan.tributerSeats) && CanSettle(w.due, cfg)
    ensures Reaches(g, cfg, actions, h) && h.desk.table.phase == Finished
  {
    hide MatchInv, Reaches, Due, DistinctIds, CanSettle, AfterOffers, Complete, Sound, GoodConfig, Enabled, AfterAction;
    TributeSoFar(g, cfg, w);
    var more := CanBeCompleted(w.due, cfg, g.previous, w.offers);
    var paid, w1 := SubmitAll(g, cfg, w, more);
    TributeSoFar(paid, cfg, w1);
    MatchSound(paid, cfg, w1);
    FinalizeIsAction(paid, cfg);
    var w2 := ActionInv(paid, cfg, w1, FinalizeTribute);
    var inPlay := AfterAction(paid, cfg, FinalizeTribute);
    ReachesOneMore(g, cfg, OfferActions(more), paid, FinalizeTribute);
    var rest;
    rest, h := PlayCanEnd(inPlay, cfg, w2);
    ReachesOn(g, cfg, OfferActions(more) + [FinalizeTribute], inPlay, rest, h);
    actions := (OfferActions(more) + [FinalizeTribute]) + rest;
  }

  // ----- stuck -----

  lemma NotInTribute(g: Game, cfg: Config, a: Action)
    requires Sound(g, cfg) && GoodConfig(cfg) && Enabled(g, cfg, a) && g.desk.table.phase in {Tribute, ReturnTribute}
    requires !a.SubmitTribute? && !a.SubmitReturn? && !Complete(g.desk)
    ensures AfterAction(g, cfg, a) == g
  {
    hide Complete, Shuffled, TeamsAlternate, Progress.StandingInv;
  }

  /** A tribute that the cards do not allow to complete is never left. */
  lemma {:induction false} StuckStays(g: Game, cfg: Config, w: Witness, actions: seq<Action>, h: Game)
      returns (w': Witness)
    requires MatchInv(g, cfg, w) && g.desk.table.phase in {Tribute, ReturnTribute} && Reaches(g, cfg, actions, h)
    requires SeatsExist(w.due.table, w.due.tribute.plan.tributerSeats) && !CanSettle(w.due, cfg)
    ensures MatchInv(h, cfg, w') && w'.due == w.due && h.previous == g.previous
    ensures h.desk.table.phase in {Tribute, ReturnTribute}
  {
    hide MatchInv, AfterAction, Enabled, Sound, GoodConfig, CanSettle, Due, DistinctIds, AfterOffers, Complete;
    if actions == [] {
      w' := w;
    } else {
      var k := |actions| - 1;
      var a := actions[k];
      var before: Game :| Reaches(g, cfg, actions[..k], before) && Sound(before, cfg) && GoodConfig(cfg)
                          && Enabled(before, cfg, a) && h == AfterAction(before, cfg, a);
      var w0 := StuckStays(g, cfg, w, actions[..k], before);
      TributeSoFar(before, cfg, w0);
      if a.SubmitTribute? {
        w' := OfferKeeps(before, cfg, w0, Pay(a.player, a.card));
      } else if a.SubmitReturn? {
        w' := OfferKeeps(before, cfg, w0, GiveBack(a.player, a.card));
      } else {
        CompletedIffCanSettle(w0.due, cfg, before.previous);
        assert !Complete(AfterOffers(w0.due, cfg, before.previous, w0.offers));
        NotInTribute(before, cfg, a);
        w' := w0;
      }
    }
  }

  /** Some sequence of requests ends the round. */
  ghost predicate CanEnd(g: Game, cfg: Config) {
    exists actions, h :: Reaches(g, cfg, actions, h) && h.desk.table.phase == Finished
  }

  /** The round of a reachable state can be brought to its end exactly if play has begun or the cards dealt
      allow the tribute to be completed; otherwise the match stays in the tribute for good. */
  lemma RoundCanEndIff(start: Game, cfg: Config, past: seq<Action>, g: Game) returns (w: Witness)
    requires Seating(start, cfg) && Reaches(start, cfg, past, g)
    requires g.desk.table.phase in {Playing, Tribute, ReturnTribute}
    ensures MatchInv(g, cfg, w)
    ensures g.desk.table.phase == Playing ==> CanEnd(g, cfg)
    ensures g.desk.table.phase != Playing ==>
              SeatsExist(w.due.table, w.due.tribute.plan.tributerSeats) && (CanEnd(g, cfg) <==> CanSettle(w.due, cfg))
  {
    hide MatchInv, Reaches, Seating, CanSettle, Due, DistinctIds, AfterOffers;
    w := EveryMatch(start, cfg, past, g);
    if g.desk.table.phase == Playing {
      var actions, h := PlayCanEnd(g, cfg, w);
    } else {
      TributeSoFar(g, cfg, w);
      if CanSettle(w.due, cfg) {
        var actions, h := TributeCanEnd(g, cfg, w);
      } else {
        forall actions, h | Reaches(g, cfg, actions, h)
          ensures h.desk.table.phase != Finished
        {
          var w' := StuckStays(g, cfg, w, actions, h);
        }
      }
    }
  }

  // ----- the answers in a match -----

  /** In every reachable state of play every play and every pass is answered as said of rounds. */
  lemma PlaysAreAnswered(start: Game, cfg: Config, past: seq<Action>, g: Game, id: nat, cards: seq<CardId>)
    requires Seating(start, cfg) && Reaches(start, cfg, past, g) && g.desk.table.phase == Playing
    ensures Seated(g.desk.table) && AnswersPlay(g.desk.table, cfg, id, cards, ActionCode(g, cfg, PlayCards(id, cards)))
    ensures ActionCode(g, cfg, PassTurn(id)) == Ok <==>
              g.desk.table.lastPattern.isValid && id == g.desk.table.players[g.desk.table.currentPlayerIndex].id
  {
    hide MatchInv, Reaches, Seating, InRound, Course, DistinctIds, Run, AnswersPlay, PlayCode, PassCode;
    var w := EveryMatch(start, cfg, past, g);
    PlayingRun(g, cfg, w);
    MatchSound(g, cfg, w);
    RoundOf(g.desk.table, cfg, w);
    PlayAnswers(Run(w.opening, cfg, w.moves), cfg, w.opening.turnId, id, cards);
    PassAnswers(g.desk.table, id);
  }

  // ----- the bot in a match -----

  lemma {:induction false} SmallerHands(t: Table, cfg: Config, moves: seq<Move>, s: int)
    requires Round.Ready(t) && 0 <= s < |t.players|
    ensures |Run(t, cfg, moves).table.players| == |t.players|
    ensures |Run(t, cfg, moves).table.players[s].hand| <= |t.players[s].hand|
  {
    hide PlayTable, PassTable, PatternOf, PlayCode, PassCode, OrderAfter, HandAfter;
    if moves != [] {
      var k := |moves| - 1;
      var u, m := Run(t, cfg, moves[..k]).table, moves[k];
      SmallerHands(t, cfg, moves[..k], s);
      PassSeats(u);
      if m.Play? {
        PlaySeats(u, cfg, m.cards);
        HandShrinks(u.players[u.currentPlayerIndex].hand, m.cards);
      }
    }
  }

  lemma HandShrinks(hand: seq<CardId>, cards: seq<CardId>)
    ensures |HandAfter(hand, cards)| <= |hand|
  {
    RemoveEachBag(hand, cards);
    if RemoveEach(hand, cards).Removed? {
      var rest := RemoveEach(hand, cards).rest;
      assert |multiset(rest) + multiset(cards)| == |rest| + |cards| && |multiset(hand)| == |hand|;
    }
  }

  lemma BagSize(a: multiset<CardId>, b: multiset<CardId>)
    requires a <= b
    ensures |a| <= |b|
  {
    assert |b - a| == |b| - |a|;
  }

  lemma CancelFactor(n: nat, a: nat, b: nat)
    requires 0 < n && n * a <= n * b
    ensures a <= b
  {
    if a > b {
      assert n * (b + 1) == n * b + n;
      MulMonotone(b + 1, a, n);
    }
  }

  /** The deck is small enough for the bot: at most thirty cards for each player. */
  predicate SmallDeck(cfg: Config) {
    CARDS_PER_DECK * cfg.deckCount <= 30 * cfg.playerCount
  }

  lemma DealtHandsSmall(t: Table, cfg: Config, s: int)
    requires DealtFrom(t, cfg) && SmallDeck(cfg) && t.playerCount == cfg.playerCount && 0 <= s < t.playerCount
    ensures |t.players[s].hand| <= 30
  {
    hide Pool;
    var n, each := t.playerCount, |t.players[s].hand|;
    ShuffledSize(cfg, t.allCards);
    PoolSize(HandsOf(t.players), n, each);
    var ids := multiset(IdsOf(t.allCards));
    assert PoolOf(t) <= ids;
    BagSize(PoolOf(t), ids);
    CancelFactor(n, each, 30);
  }

  lemma RoundHandsSmall(t: Table, cfg: Config, w: Witness, s: int)
    requires InRound(t, cfg, w) && SmallDeck(cfg) && t.playerCount == cfg.playerCount
    requires 0 <= s < t.playerCount <= |t.players|
    ensures |t.players[s].hand| <= 30 && NoDuplicates(t.players[s].hand)
  {
    hide Run, DealtFrom, Unrepeated, DistinctIds, NoDuplicates, Pool, TeamsAlternate;
    RunTable(t, cfg, w);
    UnrepeatedDeal(w.opening, cfg);
    ConservedIffNoRepeats(w.opening, cfg, w.moves);
    SmallerHands(w.opening, cfg, w.moves, s);
    DealtHandsSmall(w.opening, cfg, s);
    SingleHand(HandsOf(t.players), s, t.playerCount);
  }

  lemma UnrepeatedDeal(t: Table, cfg: Config)
    requires DealtFrom(t, cfg)
    ensures t.playerCount <= |t.players| && Unrepeated(PoolOf(t))
  {
    hide Shuffled, Pool, Unrepeated;
  }

  /** In every reachable state of play with such a deck, whatever the bot's search answers for the player to
      move is accepted: its play, the cheapest of all plays that name no card twice, or a pass if there is none. */
  lemma BotPlaysOn(start: Game, cfg: Config, past: seq<Action>, g: Game)
    requires Seating(start, cfg) && Reaches(start, cfg, past, g) && g.desk.table.phase == Playing && SmallDeck(cfg)
    ensures var t := g.desk.table;
            && Seated(t)
            && var hand, id := t.players[t.currentPlayerIndex].hand, t.players[t.currentPlayerIndex].id;
               && |hand| <= 30
               && forall best :: Bot.Best(t.allCards, hand, Context(t, cfg), t.lastPattern, Bot.Pow2(|hand|), best) ==>
                    if best.Some? then CheapestPlay(t, cfg, id, best.value) else OnlyPass(t, cfg, id)
  {
    hide MatchInv, Reaches, Seating, Bot.Best, Bot.Pow2, CheapestPlay, OnlyPass, InRound, RoundInv, DistinctIds;
    hide NoDuplicates, Run, Course;
    var w := EveryMatch(start, cfg, past, g);
    var t := g.desk.table;
    PlayingRun(g, cfg, w);
    MatchSound(g, cfg, w);
    var order, passers := PlayingInv(t, cfg, w);
    HoldsCards(t, cfg.playersPerTeam, order, passers);
    SameTableSize(g, cfg);
    RoundHandsSmall(t, cfg, w, t.currentPlayerIndex);
    forall best | Bot.Best(t.allCards, t.players[t.currentPlayerIndex].hand, Context(t, cfg), t.lastPattern,
                           Bot.Pow2(|t.players[t.currentPlayerIndex].hand|), best)
      ensures var id := t.players[t.currentPlayerIndex].id;
              if best.Some? then CheapestPlay(t, cfg, id, best.value) else OnlyPass(t, cfg, id)
    {
      BotAnswers(t, cfg, order, passers, best);
    }
  }

  lemma SameTableSize(g: Game, cfg: Config)
    requires Sound(g, cfg)
    ensures g.desk.table.playerCount == cfg.playerCount
  {
    hide TeamsAlternate, Progress.StandingInv;
  }

  lemma PlayingInv(t: Table, cfg: Config, w: Witness) returns (order: seq<int>, passers: seq<int>)
    requires InRound(t, cfg, w) && t.phase == Playing
    ensures RoundInv(t, cfg.playersPerTeam, order, passers)
  {
    hide InRound, Run, RoundInv, RoundOver, Rising, OnTable;
    RoundOf(t, cfg, w);
    RunTable(t, cfg, w);
    order, passers := Run(w.opening, cfg, w.moves).order, Run(w.opening, cfg, w.moves).passers;
  }

  /** The three room types have decks that small. */
  lemma RoomDecksAreSmall(tribute: bool, wild: bool, solo: bool)
    ensures SmallDeck(Config(4, 2, 2, tribute, wild, solo)) && SmallDeck(Config(6, 3, 3, tribute, wild, solo))
  {
  }
}
