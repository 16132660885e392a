/** The emoji memory game: sixteen cards, each of eight emoji twice, dealt
    in a random order; two face-up cards of the same emoji become matched,
    and a timer turns the unmatched ones back. As written, a match keeps the
    match check re-running, so its timer never fires and the game freezes
    after the first pair; the intended check is modelled beside it. */
module MemoryPatchGame {

  datatype MemoryCard = MemoryCard(id: int, emoji: string, isFlipped: bool, isMatched: bool)

  const Emojis: seq<string> := ["🐱", "🐶", "🦄", "🦊", "🐼", "🐢", "🦁", "🐘"]

  /** `[...emojis, ...emojis]`, before sorting in a random order. */
  function DuplicatedEmojis(): (d: seq<string>)
    ensures |d| == 2 * |Emojis|
  {
    Emojis + Emojis
  }

  /** The emoji of a row of cards, in order. */
  function EmojisOf(cards: seq<MemoryCard>): (e: seq<string>)
    ensures |e| == |cards| && forall i :: 0 <= i < |cards| ==> e[i] == cards[i].emoji
  {
    seq(|cards|, i requires 0 <= i < |cards| => cards[i].emoji)
  }

  /** Each emoji is in the duplicated list exactly twice. */
  lemma DuplicatedHasEachEmojiTwice()
    ensures forall e :: e in Emojis ==> multiset(DuplicatedEmojis())[e] == 2
  {
    var m := multiset(Emojis);
    assert m == multiset{"🐱", "🐶", "🦄", "🦊", "🐼", "🐢", "🦁", "🐘"};
    assert multiset(DuplicatedEmojis()) == m + m;
  }

  /** `shuffledEmojis.map((emoji, index) => ...)`: card `i` has id `i` and
      the `i`-th emoji, face down and unmatched. */
  function Deal(shuffled: seq<string>): (cards: seq<MemoryCard>)
    ensures |cards| == |shuffled|
    ensures forall i :: 0 <= i < |cards| ==> cards[i] == MemoryCard(i, shuffled[i], false, false)
  {
    seq(|shuffled|, i requires 0 <= i < |shuffled| => MemoryCard(i, shuffled[i], false, false))
  }

  /** Every emoji is on a dealt board exactly twice, whatever order the
      random sort chose. */
  lemma DealHasEachEmojiTwice(shuffled: seq<string>)
    requires multiset(shuffled) == multiset(DuplicatedEmojis())
    ensures |Deal(shuffled)| == 2 * |Emojis|
    ensures EmojisOf(Deal(shuffled)) == shuffled
    ensures forall e :: e in Emojis ==> multiset(EmojisOf(Deal(shuffled)))[e] == 2
  {
    DuplicatedHasEachEmojiTwice();
    assert |shuffled| == |multiset(shuffled)| == 2 * |Emojis|;
    assert EmojisOf(Deal(shuffled)) == shuffled;
  }

  /** The click's `map`: card `index` is turned face up, nothing else
      changes. */
  function FlipAt(cards: seq<MemoryCard>, index: int): (r: seq<MemoryCard>)
    requires 0 <= index < |cards|
    ensures |r| == |cards| && r[index] == cards[index].(isFlipped := true)
    ensures forall i :: 0 <= i < |cards| && i != index ==> r[i] == cards[i]
  {
    cards[index := cards[index].(isFlipped := true)]
  }

  /** The match check's `map`: the two cards become matched, nothing else
      changes. */
  function MarkMatched(cards: seq<MemoryCard>, a: int, b: int): (r: seq<MemoryCard>)
    ensures |r| == |cards|
    ensures forall i :: 0 <= i < |cards| && (i == a || i == b) ==> r[i] == cards[i].(isMatched := true)
    ensures forall i :: 0 <= i < |cards| && i != a && i != b ==> r[i] == cards[i]
  {
    seq(|cards|, i requires 0 <= i < |cards| =>
      if i == a || i == b then cards[i].(isMatched := true) else cards[i])
  }

  /** The timer's `map`: every unmatched card goes face down, matched cards
      stay as they are. */
  function UnflipUnmatched(cards: seq<MemoryCard>): (r: seq<MemoryCard>)
    ensures |r| == |cards|
    ensures forall i :: 0 <= i < |cards| ==>
              r[i] == (if cards[i].isMatched then cards[i] else cards[i].(isFlipped := false))
  {
    seq(|cards|, i requires 0 <= i < |cards| =>
      if cards[i].isMatched then cards[i] else cards[i].(isFlipped := false))
  }

  predicate AllMatched(cards: seq<MemoryCard>) {
    forall i :: 0 <= i < |cards| ==> cards[i].isMatched
  }

  /** `cards.length > 0 && cards.every(card => card.isMatched)`. */
  predicate IsWon(cards: seq<MemoryCard>) {
    |cards| > 0 && AllMatched(cards)
  }

  /** No card that was matched is unmatched by `b`. */
  predicate KeepsMatches(a: seq<MemoryCard>, b: seq<MemoryCard>) {
    |a| == |b| && forall i :: 0 <= i < |a| ==> a[i].isMatched ==> b[i].isMatched
  }

  /** None of the three card updates ever turns a matched card back, and
      none changes an id or an emoji. */
  lemma UpdatesKeepMatches(cards: seq<MemoryCard>, index: int, a: int, b: int)
    requires 0 <= index < |cards|
    ensures KeepsMatches(cards, FlipAt(cards, index))
    ensures KeepsMatches(cards, MarkMatched(cards, a, b))
    ensures KeepsMatches(cards, UnflipUnmatched(cards))
    ensures EmojisOf(FlipAt(cards, index)) == EmojisOf(cards)
    ensures EmojisOf(MarkMatched(cards, a, b)) == EmojisOf(cards)
    ensures EmojisOf(UnflipUnmatched(cards)) == EmojisOf(cards)
  {
    assert EmojisOf(FlipAt(cards, index)) == EmojisOf(cards);
    assert EmojisOf(MarkMatched(cards, a, b)) == EmojisOf(cards);
    assert EmojisOf(UnflipUnmatched(cards)) == EmojisOf(cards);
  }


  /** A matched card stays as it is when it is marked again. */
  lemma MarkMatchedKeepsMatchedPair(cards: seq<MemoryCard>, a: int, b: int)
    requires 0 <= a < |cards| && 0 <= b < |cards| && cards[a].isMatched && cards[b].isMatched
    ensures MarkMatched(cards, a, b) == cards
  {
    var r := MarkMatched(cards, a, b);
    forall i | 0 <= i < |cards|
      ensures r[i] == cards[i]
    {
      if i == a || i == b {
        assert r[i] == cards[i].(isMatched := true);
      }
    }
  }

  // ----- The game --------------------------------------------------------

  /** The component's state; `resetPending` says that a reset timer of the
      match check is waiting and will fire. */
  datatype Game = Game(
    cards: seq<MemoryCard>, flipped: seq<int>, moves: int, complete: bool, resetPending: bool)

  const InitialGame := Game([], [], 0, false, false)

  /** The face-up list names at most two cards of the board. */
  predicate FlippedOk(g: Game) {
    |g.flipped| <= 2 && forall k :: 0 <= k < |g.flipped| ==> 0 <= g.flipped[k] < |g.cards|
  }

  /** What every reachable state satisfies: no board or a full one, card `i`
      with id `i`, every matched card face up, at most two distinct face-up
      cards in the face-up list, and a complete game fully matched. */
  predicate Valid(g: Game) {
    && (|g.cards| == 0 || |g.cards| == 2 * |Emojis|)
    && (forall i :: 0 <= i < |g.cards| ==> g.cards[i].id == i)
    && (forall i :: 0 <= i < |g.cards| && g.cards[i].isMatched ==> g.cards[i].isFlipped)
    && FlippedOk(g)
    && (forall k :: 0 <= k < |g.flipped| ==> g.cards[g.flipped[k]].isFlipped)
    && (|g.flipped| == 2 ==> g.flipped[0] != g.flipped[1])
    && 0 <= g.moves
    && (g.complete ==> IsWon(g.cards))
  }

  /** `initializeGame` with `shuffled` the order the random sort produced.
      Emptying the face-up list also runs the clean-up of the match check,
      so no reset timer is left waiting. */
  function Restart(shuffled: seq<string>): (r: Game)
    requires multiset(shuffled) == multiset(DuplicatedEmojis())
    ensures Valid(r) && |r.cards| == 2 * |Emojis|
    ensures r.cards == Deal(shuffled) && r.flipped == [] && r.moves == 0 && !r.complete && !r.resetPending
    ensures forall i :: 0 <= i < |r.cards| ==> !r.cards[i].isFlipped && !r.cards[i].isMatched
  {
    DealHasEachEmojiTwice(shuffled);
    Game(Deal(shuffled), [], 0, false, false)
  }

  /** The guard of `handleCardClick`: a face-up or matched card, or any card
      while two are face up. */
  predicate ClickIgnored(g: Game, index: int)
    requires 0 <= index < |g.cards|
  {
    g.cards[index].isFlipped || g.cards[index].isMatched || |g.flipped| == 2
  }

  /** `handleCardClick(index)` on one of the rendered cards: exactly that
      card turns face up, its index joins the face-up list, and the second
      card of a turn counts a move. */
  function Click(g: Game, index: int): (r: Game)
    requires 0 <= index < |g.cards|
    ensures Valid(g) ==> Valid(r)
    ensures ClickIgnored(g, index) ==> r == g
    ensures !ClickIgnored(g, index) ==>
              r.cards == FlipAt(g.cards, index) && r.flipped == g.flipped + [index]
              && r.moves == (if |g.flipped| == 1 then g.moves + 1 else g.moves)
              && r.complete == g.complete && r.resetPending == g.resetPending
  {
    if ClickIgnored(g, index) then g
    else
      g.(cards := FlipAt(g.cards, index), flipped := g.flipped + [index],
         moves := if |g.flipped| == 1 then g.moves + 1 else g.moves)
  }

  /** Two cards are face up and show the same emoji. */
  predicate PairMatches(g: Game)
    requires FlippedOk(g)
  {
    |g.flipped| == 2 && g.cards[g.flipped[0]].emoji == g.cards[g.flipped[1]].emoji
  }

  /** The match-check effect as the code is written. With two cards face up
      it starts the reset timer; for equal emoji it also stores a new array
      with the pair matched. The effect depends on `cards`, so the new array
      makes it run again: its clean-up clears the timer, it marks the pair
      again into yet another array and starts a new timer, and so at every
      render. A matched pair's timer is always cleared before it fires;
      only a mismatch leaves a reset waiting. */
  function MatchEffect(g: Game): (r: Game)
    requires FlippedOk(g)
    ensures Valid(g) ==> Valid(r)
    ensures r.flipped == g.flipped && r.moves == g.moves && r.complete == g.complete
    ensures |g.flipped| != 2 ==> r == g
    ensures PairMatches(g) ==> r.cards == MarkMatched(g.cards, g.flipped[0], g.flipped[1]) && !r.resetPending
    ensures |g.flipped| == 2 && !PairMatches(g) ==> r.cards == g.cards && r.resetPending
  {
    if |g.flipped| != 2 then g
    else if PairMatches(g) then
      var r := g.(cards := MarkMatched(g.cards, g.flipped[0], g.flipped[1]), resetPending := false);
      assert IsWon(g.cards) ==> IsWon(r.cards);
      r
    else g.(resetPending := true)
  }

  /** After a match the effect's condition still holds and running it again
      gives the same state, so it keeps running, and clearing its timer, at
      every render. */
  lemma MatchEffectRerunsOnMatch(g: Game)
    requires Valid(g) && PairMatches(g)
    ensures PairMatches(MatchEffect(g))
    ensures MatchEffect(MatchEffect(g)) == MatchEffect(g)
  {
    var r := MatchEffect(g);
    MarkMatchedKeepsMatchedPair(r.cards, g.flipped[0], g.flipped[1]);
  }

  /** The match check as evidently intended: it runs once per turn, so the
      reset timer it starts is left waiting after a match as after a
      mismatch. */
  function MatchEffectOnce(g: Game): (r: Game)
    requires FlippedOk(g)
    ensures Valid(g) ==> Valid(r)
    ensures r.flipped == g.flipped && r.moves == g.moves && r.complete == g.complete
    ensures |g.flipped| != 2 ==> r == g
    ensures |g.flipped| == 2 ==> r.resetPending
    ensures PairMatches(g) ==> r.cards == MarkMatched(g.cards, g.flipped[0], g.flipped[1])
    ensures |g.flipped| == 2 && !PairMatches(g) ==> r.cards == g.cards
  {
    if |g.flipped| != 2 then g
    else if PairMatches(g) then
      var r := g.(cards := MarkMatched(g.cards, g.flipped[0], g.flipped[1]), resetPending := true);
      assert IsWon(g.cards) ==> IsWon(r.cards);
      r
    else g.(resetPending := true)
  }

  /** The reset timer fires: the face-up list empties and every unmatched
      card goes face down. */
  function ResetTimer(g: Game): (r: Game)
    requires g.resetPending
    ensures Valid(g) ==> Valid(r)
    ensures r.flipped == [] && r.cards == UnflipUnmatched(g.cards) && !r.resetPending
    ensures r.moves == g.moves && r.complete == g.complete
  {
    var r := g.(flipped := [], cards := UnflipUnmatched(g.cards), resetPending := false);
    assert IsWon(g.cards) ==> IsWon(r.cards);
    r
  }

  /** The completion effect: a non-empty, fully matched board is won, and
      nothing but a new game clears the flag. */
  function CompleteEffect(g: Game): (r: Game)
    ensures Valid(g) ==> Valid(r)
    ensures r.complete == (g.complete || IsWon(g.cards))
    ensures r == g.(complete := r.complete)
  {
    if |g.cards| > 0 && AllMatched(g.cards) then g.(complete := true) else g
  }

  /** Once the completion effect has run, the game is complete exactly when
      the board is non-empty and every card is matched. */
  lemma CompleteIffAllMatched(g: Game)
    requires Valid(g)
    ensures CompleteEffect(g).complete <==> |g.cards| > 0 && AllMatched(g.cards)
  {
  }

  // ----- After a match, as written ---------------------------------------

  /** What can happen between renders: a click on card `index`, a run of
      either effect, or the reset timer firing. */
  datatype Event = ClickCard(index: int) | MatchCheck | CompletionCheck | ResetFires

  /** One event, as the code is written. A click off the board and a reset
      with no timer waiting do nothing. */
  function Step(g: Game, e: Event): (r: Game)
    requires Valid(g)
    ensures Valid(r)
  {
    match e
    case ClickCard(i) => if 0 <= i < |g.cards| then Click(g, i) else g
    case MatchCheck => MatchEffect(g)
    case CompletionCheck => CompleteEffect(g)
    case ResetFires => if g.resetPending then ResetTimer(g) else g
  }

  /** A sequence of events, in order. */
  function Run(g: Game, events: seq<Event>): (r: Game)
    requires Valid(g)
    ensures Valid(r)
    decreases |events|
  {
    if events == [] then g else Run(Step(g, events[0]), events[1..])
  }

  /** The state the written match check leaves after a match: the pair face
      up and matched, and no reset timer that will fire. */
  predicate Frozen(g: Game) {
    Valid(g) && PairMatches(g)
    && g.cards[g.flipped[0]].isMatched && g.cards[g.flipped[1]].isMatched
    && !g.resetPending
  }

  /** A frozen, unwon state is left as it is by every event. */
  lemma FrozenIgnoresEvent(g: Game, e: Event)
    requires Frozen(g) && !IsWon(g.cards)
    ensures Step(g, e) == g
  {
    if e.MatchCheck? {
      MarkMatchedKeepsMatchedPair(g.cards, g.flipped[0], g.flipped[1]);
    }
  }

  /** ... and so by every sequence of events. */
  lemma {:induction false} FrozenRun(g: Game, events: seq<Event>)
    requires Frozen(g) && !IsWon(g.cards)
    ensures Run(g, events) == g
    decreases |events|
  {
    if events != [] {
      FrozenIgnoresEvent(g, events[0]);
      FrozenRun(g, events[1..]);
    }
  }

  /** On a board with every card face down and unmatched, a matching turn
      leaves a frozen state with only two of sixteen cards matched. */
  lemma FirstMatchIsFrozen(g: Game, a: int, b: int)
    requires Valid(g) && g.flipped == [] && !g.complete
    requires forall i :: 0 <= i < |g.cards| ==> !g.cards[i].isFlipped && !g.cards[i].isMatched
    requires 0 <= a < |g.cards| && 0 <= b < |g.cards| && a != b && g.cards[a].emoji == g.cards[b].emoji
    ensures var r := MatchEffect(Click(Click(g, a), b));
            Frozen(r) && r.flipped == [a, b] && !IsWon(r.cards) && !r.complete
  {
    assert !ClickIgnored(g, a);
    var g1 := Click(g, a);
    assert g1.cards[b] == g.cards[b];
    assert !ClickIgnored(g1, b);
    var g2 := Click(g1, b);
    assert PairMatches(g2);
    var r := MatchEffect(g2);
    var c := if a != 0 && b != 0 then 0 else if a != 1 && b != 1 then 1 else 2;
    assert r.cards[c] == g.cards[c];
  }

  /** On a freshly dealt board, turning up two cards of the same emoji
      freezes the game: the pair is matched, stays face up, no reset will
      fire, and afterwards no sequence of clicks, effects and timers changes
      anything, so the game is never complete. Only `initializeGame` leaves
      this state. */
  lemma FirstMatchFreezesGame(shuffled: seq<string>, a: int, b: int, events: seq<Event>)
    requires multiset(shuffled) == multiset(DuplicatedEmojis())
    requires 0 <= a < |shuffled| && 0 <= b < |shuffled| && a != b && shuffled[a] == shuffled[b]
    ensures var g := MatchEffect(Click(Click(Restart(shuffled), a), b));
            Frozen(g) && g.flipped == [a, b] && Run(g, events) == g && !Run(g, events).complete
  {
    FirstMatchIsFrozen(Restart(shuffled), a, b);
    FrozenRun(MatchEffect(Click(Click(Restart(shuffled), a), b)), events);
  }

  /** The board dealt in the unshuffled order is one such input: cards 0
      and 8 both show the cat. */
  lemma UnshuffledBoardFreezesAfterFirstPair(events: seq<Event>)
    ensures var g := MatchEffect(Click(Click(Restart(DuplicatedEmojis()), 0), 8));
            Frozen(g) && Run(g, events) == g && !Run(g, events).complete
  {
    FirstMatchFreezesGame(DuplicatedEmojis(), 0, 8, events);
  }

  /** With the intended match check, a matched pair's reset fires: the two
      cards stay matched, the face-up list empties, one move is counted,
      every other card is as the reset leaves it, and every unmatched card
      can be clicked again. */
  lemma MatchOnceLetsPlayContinue(g: Game, a: int, b: int)
    requires Valid(g) && g.flipped == []
    requires 0 <= a < |g.cards| && 0 <= b < |g.cards| && a != b
    requires !g.cards[a].isFlipped && !g.cards[b].isFlipped && g.cards[a].emoji == g.cards[b].emoji
    ensures MatchEffectOnce(Click(Click(g, a), b)).resetPending
    ensures var r := ResetTimer(MatchEffectOnce(Click(Click(g, a), b)));
            r.flipped == [] && r.moves == g.moves + 1
            && r.cards[a].isMatched && r.cards[b].isMatched
            && (forall i :: 0 <= i < |g.cards| && i != a && i != b ==> r.cards[i] == UnflipUnmatched(g.cards)[i])
            && (forall c :: 0 <= c < |r.cards| && !r.cards[c].isMatched ==> !ClickIgnored(r, c))
  {
    var g1 := Click(g, a);
    assert !ClickIgnored(g, a);
    assert g1.cards[b] == g.cards[b];
    var g2 := Click(g1, b);
    assert !ClickIgnored(g1, b);
    assert PairMatches(g2);
  }

  /** The component: its state is a `Game`, each handler and effect one
      transition. */
  class MemoryPatch {
    var cards: seq<MemoryCard>
    var flippedCards: seq<int>
    var moves: int
    var gameComplete: bool
    var resetPending: bool

    function State(): Game
      reads this
    {
      Game(cards, flippedCards, moves, gameComplete, resetPending)
    }

    constructor ()
      ensures State() == InitialGame && Valid(State())
    {
      cards := [];
      flippedCards := [];
      moves := 0;
      gameComplete := false;
      resetPending := false;
    }

    /** Stores a whole game state; every handler below goes through it. */
    method SetState(g: Game)
      modifies this
      ensures State() == g
    {
      cards, flippedCards, moves, gameComplete, resetPending := g.cards, g.flipped, g.moves, g.complete, g.resetPending;
    }

    /** `initializeGame` with `shuffled` the order the random sort produced:
        sixteen cards, each emoji twice. */
    method InitializeGame(shuffled: seq<string>)
      requires multiset(shuffled) == multiset(DuplicatedEmojis())
      modifies this
      ensures Valid(State()) && State() == Restart(shuffled)
      ensures |cards| == 2 * |Emojis| && forall e :: e in Emojis ==> multiset(EmojisOf(cards))[e] == 2
    {
      DealHasEachEmojiTwice(shuffled);
      SetState(Restart(shuffled));
    }

    /** `handleCardClick(index)` on one of the rendered cards. */
    method HandleCardClick(index: int)
      requires Valid(State()) && 0 <= index < |cards|
      modifies this
      ensures Valid(State()) && State() == Click(old(State()), index)
    {
      SetState(Click(State(), index));
    }

    /** The match-check effect as written. */
    method CheckMatch()
      requires Valid(State())
      modifies this
      ensures Valid(State()) && State() == MatchEffect(old(State()))
    {
      SetState(MatchEffect(State()));
    }

    /** The match-check effect as evidently intended, running once per turn. */
    method CheckMatchOnce()
      requires Valid(State())
      modifies this
      ensures Valid(State()) && State() == MatchEffectOnce(old(State()))
    {
      SetState(MatchEffectOnce(State()));
    }

    /** The waiting reset timer fires. */
    method ResetFlipped()
      requires Valid(State()) && resetPending
      modifies this
      ensures Valid(State()) && State() == ResetTimer(old(State()))
    {
      SetState(ResetTimer(State()));
    }

    /** The completion effect. */
    method CheckComplete()
      requires Valid(State())
      modifies this
      ensures Valid(State()) && State() == CompleteEffect(old(State()))
    {
      SetState(CompleteEffect(State()));
    }
  }
}
