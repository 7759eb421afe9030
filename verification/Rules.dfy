/** Which pattern beats which (rule_engine.cpp), and the order behind it. */
module Rules {
  import opened Cards
  import opened Shapes
  import opened Patterns

  predicate SameTypeBeat(cur: CardPattern, prev: CardPattern) {
    cur.kind == prev.kind &&
    match cur.kind
    case Single | Pair | Triple | Straight | ThreePairs | TwoTriples | StraightFlush =>
      cur.length == prev.length && cur.primaryRank > prev.primaryRank
    case TripleWithPair =>
      if cur.primaryRank != prev.primaryRank then cur.primaryRank > prev.primaryRank else cur.pairRank > prev.pairRank
    case Bomb =>
      if cur.length != prev.length then cur.length > prev.length else cur.primaryRank > prev.primaryRank
    case JokerBomb => cur.length > prev.length
    case Invalid => false
  }

  predicate CanBeat(current: CardPattern, previous: CardPattern) {
    if !current.isValid then false
    else if !previous.isValid then true
    else if current.kind == JokerBomb then
      if previous.kind == JokerBomb then current.length > previous.length else true
    else if current.kind == StraightFlush then
      if previous.kind == JokerBomb then false
      else if previous.kind == Bomb then previous.length < 6
      else if previous.kind == StraightFlush then SameTypeBeat(current, previous)
      else true
    else if current.kind == Bomb then
      if previous.kind == JokerBomb then false
      else if previous.kind == StraightFlush then current.length >= 6
      else if previous.kind == Bomb then
        if current.length != previous.length then current.length > previous.length
        else current.primaryRank > previous.primaryRank
      else true
    else if previous.kind in {JokerBomb, StraightFlush, Bomb} then false
    else SameTypeBeat(current, previous)
  }

  /** The patterns the analyser returns. */
  predicate Playable(p: CardPattern) {
    p.isValid && p.kind != Invalid && 2 <= p.primaryRank <= 17 && 0 <= p.pairRank <= 16 &&
    match p.kind
    case Single => p.length == 1 && p.pairRank == 0
    case Pair => p.length == 2 && p.pairRank == 0
    case Triple => p.length == 3 && p.pairRank == 0
    case TripleWithPair => p.length == 5
    case Straight | StraightFlush => p.length == 5 && p.pairRank == 0
    case ThreePairs => p.length == 3 && p.pairRank == 0
    case TwoTriples => p.length == 2 && p.pairRank == 0
    case Bomb | JokerBomb => p.length >= 4 && p.pairRank == 0
    case Invalid => false
  }

  lemma AnalyzePlayable(cards: seq<Card>, ctx: RuleContext)
    requires Analyze(cards, ctx).isValid
    ensures Playable(Analyze(cards, ctx))
  {
    var t := TallyOf(cards, ctx);
    TallyWellFormed(cards, ctx);
    if OneRank(t.counts) {
      var r := BaseRank(t, ctx);
      assert 2 <= r <= 16 by {
        if exists x :: Occurs(t.counts, x) {}
      }
    }
  }

  // ----- the order behind CanBeat -----

  /** 0: ordinary patterns, 1: bombs and straight flushes, 2: joker bombs. */
  function Rung(p: CardPattern): nat {
    match p.kind
    case JokerBomb => 2
    case Bomb | StraightFlush => 1
    case _ => 0
  }

  /** Size on the bomb scale, in half cards: a straight flush lies between five and six cards. */
  function BombSize(p: CardPattern): int {
    if p.kind == StraightFlush then 11 else 2 * p.length
  }

  /** Stronger by rung; inside the bombs by size, then rank; ordinary patterns only against
      their own kind, by rank, then rank of the pair. */
  predicate Stronger(p: CardPattern, q: CardPattern) {
    if Rung(p) != Rung(q) then Rung(p) > Rung(q)
    else if Rung(p) == 2 then p.length > q.length
    else if Rung(p) == 1 then BombSize(p) > BombSize(q) || (BombSize(p) == BombSize(q) && p.primaryRank > q.primaryRank)
    else
      p.kind == q.kind &&
      (p.primaryRank > q.primaryRank || (p.primaryRank == q.primaryRank && p.pairRank > q.pairRank))
  }

  /** The case analysis of canBeat is this order. */
  lemma CanBeatIffStronger(p: CardPattern, q: CardPattern)
    requires Playable(p) && Playable(q)
    ensures CanBeat(p, q) <==> Stronger(p, q)
  {
  }

  lemma CanBeatStrictOrder(p: CardPattern, q: CardPattern, r: CardPattern)
    requires Playable(p) && Playable(q) && Playable(r)
    ensures !CanBeat(p, p)
    ensures CanBeat(p, q) && CanBeat(q, r) ==> CanBeat(p, r)
  {
    CanBeatIffStronger(p, p);
    CanBeatIffStronger(p, q);
    CanBeatIffStronger(q, r);
    CanBeatIffStronger(p, r);
  }

  /** Among bombs, straight flushes and joker bombs, two patterns that do not beat each other have
      equal strength: the same size and, below the joker bombs, the same rank. */
  lemma BombsTotallyOrdered(p: CardPattern, q: CardPattern)
    requires Playable(p) && Playable(q) && Rung(p) >= 1 && Rung(q) >= 1
    ensures CanBeat(p, q) || CanBeat(q, p) ||
            (p.kind == q.kind && p.length == q.length && (p.kind == JokerBomb || p.primaryRank == q.primaryRank))
  {
    CanBeatIffStronger(p, q);
    CanBeatIffStronger(q, p);
  }
}
