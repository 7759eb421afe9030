/** Tribute as a sequence of submissions (game_engine.cpp, submitTribute and submitReturn). */
module TributePhase {
  import opened Lists
  import opened Cards
  import opened State
  import opened Turns
  import opened Hands
  import opened Pickers
  import opened Round
  import opened Tributes
  import opened Exchange

  datatype TributeState = TributeState(active: bool, plan: Plan, submissions: map<int, CardId>,
      pendingTributers: seq<int>,
                                       pendingReturnSeats: seq<int>, returnToTributer: map<int, int>)

  const NO_TRIBUTE := TributeState(false, NO_PLAN, map[], [], [], map[])

  /** What the tribute phase works on. */
  datatype Desk = Desk(table: Table, tribute: TributeState, last: Outcome)

  function BeginPlaying(t: Table, first: int): Table {
    t.(phase := Playing, firstPlayerIndex := first, currentPlayerIndex := first, stateVersion := t.stateVersion + 1)
  }

  /** The cards have changed hands: work out the first player and let the round begin. */
  function StartPlay(d: Desk, cfg: Config, prev: Previous): Desk
    requires d.table.playerCount <= |prev.ranks|
  {
    var first := FirstPlayer(d.last, d.tribute.plan.headSeat, d.table, Context(d.table, cfg), prev);
    Desk(BeginPlaying(d.table, first), NO_TRIBUTE,
         d.last.(firstPlayerSeat := first, headTributerSeat := PayerOf(d.last.tributes, d.tribute.plan.headSeat, 0)))
  }

  function TributeCode(d: Desk, cfg: Config, id: nat, card: CardId): Code
    requires Placed(d.table)
  {
    var seat := SeatOf(d.table, id);
    if d.table.phase != Tribute || !d.tribute.active then InvalidState
    else if seat < 0 then InvalidState
    else if seat !in d.tribute.pendingTributers then NotYourTurn
    else if !ValidTributeSubmission(d.table.allCards, Context(d.table, cfg), d.table.players[seat].hand, card)
        then InvalidCards
    else Ok
  }

  function Recipients(tributes: seq<Transfer>, k: nat): (seats: seq<int>)
    requires k <= |tributes|
    ensures |seats| == k && forall i :: 0 <= i < k ==> seats[i] == tributes[i].toSeat
  {
    if k == 0 then [] else Recipients(tributes, k - 1) + [tributes[k - 1].toSeat]
  }

  /** Whom each recipient owes a card. */
  function Payers(tributes: seq<Transfer>, k: nat): (m: map<int, int>)
    requires k <= |tributes|
    ensures forall s :: s in m ==> exists i :: 0 <= i < k && tributes[i].toSeat == s && m[s] == tributes[i].fromSeat
    ensures forall i :: 0 <= i < k ==> tributes[i].toSeat in m
  {
    if k == 0 then map[] else Payers(tributes, k - 1)[tributes[k - 1].toSeat := tributes[k - 1].fromSeat]
  }

  /** All tributes are in: the cards change hands. */
  function Collect(d: Desk, cfg: Config, prev: Previous): Desk
    requires d.table.playerCount <= |prev.ranks|
  {
    var t := d.table;
    var ctx := Context(t, cfg);
    var tributes := TributesOf(t, ctx, d.tribute.plan, d.tribute.submissions);
    var paid := t.(players := MoveCards(t.players, tributes, |tributes|));
    var last := d.last.(skipped := false, antiTribute := false, tributes := tributes,
        summary := AssignSummary(d.tribute.plan, d.tribute.submissions));
    if tributes == [] then StartPlay(Desk(paid, d.tribute, last.(firstPlayerSeat := d.tribute.plan.headSeat)), cfg,
        prev)
    else
      Desk(paid.(phase := ReturnTribute, stateVersion := t.stateVersion + 1),
           d.tribute.(pendingReturnSeats := Recipients(tributes, |tributes|),
               returnToTributer := Payers(tributes, |tributes|)), last)
  }

  /** The desk after an accepted tribute. */
  function AfterTribute(d: Desk, cfg: Config, prev: Previous, seat: int, card: CardId): Desk
    requires d.table.playerCount <= |prev.ranks|
  {
    var tribute := d.tribute.(submissions := d.tribute.submissions[seat := card],
        pendingTributers := Erase(d.tribute.pendingTributers, seat));
    var d' := Desk(d.table.(stateVersion := d.table.stateVersion + 1), tribute, d.last);
    if tribute.pendingTributers != [] then d' else Collect(d', cfg, prev)
  }

  function ReturnCode(d: Desk, cfg: Config, id: nat, card: CardId): Code
    requires Placed(d.table)
  {
    var seat := SeatOf(d.table, id);
    if d.table.phase != ReturnTribute || !d.tribute.active then InvalidState
    else if seat < 0 then InvalidState
    else if seat !in d.tribute.pendingReturnSeats then NotYourTurn
    else if !ValidReturnSubmission(d.table.allCards, Context(d.table, cfg), d.table.players[seat].hand, card)
        then InvalidCards
    else Ok
  }

  /** The desk after an accepted return. */
  function AfterReturn(d: Desk, seat: int, card: CardId): Desk {
    var to := if seat in d.tribute.returnToTributer then d.tribute.returnToTributer[seat] else 0;
    var back := Transfer(seat, to, card);
    Desk(d.table.(players := MoveCard(d.table.players, back), stateVersion := d.table.stateVersion + 1),
         d.tribute.(pendingReturnSeats := Erase(d.tribute.pendingReturnSeats, seat)),
         d.last.(returned := d.last.returned + [back]))
  }

  /** All returns are in; the dispatcher then lets the round begin. */
  predicate Complete(d: Desk) {
    d.table.phase == ReturnTribute && d.tribute.active && d.tribute.pendingReturnSeats == []
  }

  // ----- submissions in any order -----

  datatype Offer = Pay(player: nat, card: CardId) | GiveBack(player: nat, card: CardId)

  function OfferCode(d: Desk, cfg: Config, o: Offer): Code
    requires Placed(d.table)
  {
    match o
    case Pay(id, card) => TributeCode(d, cfg, id, card)
    case GiveBack(id, card) => ReturnCode(d, cfg, id, card)
  }

  /** An offer that is not accepted changes nothing. */
  function AfterOffer(d: Desk, cfg: Config, prev: Previous, o: Offer): (d': Desk)
    requires Placed(d.table) && d.table.playerCount <= |prev.ranks|
    ensures Placed(d'.table) && d'.table.playerCount == d.table.playerCount
  {
    hide TributesOf, MoveCards, FirstPlayer, PayerOf, Payers, MoveCard;
    if OfferCode(d, cfg, o) != Ok then d
    else match o
      case Pay(id, card) => AfterTribute(d, cfg, prev, SeatOf(d.table, id), card)
      case GiveBack(id, card) => AfterReturn(d, SeatOf(d.table, id), card)
  }

  function AfterOffers(d: Desk, cfg: Config, prev: Previous, offers: seq<Offer>): (d': Desk)
    requires Placed(d.table) && d.table.playerCount <= |prev.ranks|
    ensures Placed(d'.table) && d'.table.playerCount == d.table.playerCount
  {
    if offers == [] then d else AfterOffer(AfterOffers(d, cfg, prev, offers[..|offers| - 1]), cfg, prev,
        offers[|offers| - 1])
  }
}
