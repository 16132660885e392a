/** The colour memory game: twelve cells, each of six colours twice, shuffled
    in place; the player uncovers two cells at a time and a timer either
    counts a pair or turns the cells back. */
module SimpleGame {

  const PossibleColors: seq<string> := [
      "bg-blue-500", "bg-green-500", "bg-yellow-500", "bg-red-500", "bg-purple-500", "bg-pink-500"
    ]

  /** `[...possibleColors, ...possibleColors]`, before shuffling. */
  function PairBoard(): (b: seq<string>)
    ensures |b| == 2 * |PossibleColors|
  {
    PossibleColors + PossibleColors
  }

  /** Every colour is on the unshuffled board exactly twice, and nothing
      else is. */
  lemma PairBoardHasEachColourTwice()
    ensures forall c :: c in PossibleColors ==> multiset(PairBoard())[c] == 2
    ensures forall c :: c !in PossibleColors ==> multiset(PairBoard())[c] == 0
  {
    var m := multiset(PossibleColors);
    assert m == multiset{"bg-blue-500", "bg-green-500", "bg-yellow-500", "bg-red-500", "bg-purple-500", "bg-pink-500"};
    assert multiset(PairBoard()) == m + m;
  }

  // ----- Fisher-Yates ----------------------------------------------------

  /** The random choices of one shuffle: for every `i` from the last index
      down to 1, the `j` with `0 <= j <= i` that `Math.floor(Math.random() *
      (i + 1))` produced. */
  predicate ValidPicks(picks: seq<int>, n: int) {
    |picks| == n && forall i :: 0 < i < n ==> 0 <= picks[i] <= i
  }

  function Swap<T>(s: seq<T>, i: nat, j: nat): (r: seq<T>)
    requires i < |s| && j < |s|
    ensures |r| == |s| && r[i] == s[j] && r[j] == s[i]
    ensures forall k :: 0 <= k < |s| && k != i && k != j ==> r[k] == s[k]
  {
    s[i := s[j]][j := s[i]]
  }

  lemma SwapPermutes<T>(s: seq<T>, i: nat, j: nat)
    requires i < |s| && j < |s|
    ensures multiset(Swap(s, i, j)) == multiset(s)
  {
    if i != j {
      var t := s[i := s[j]];
      assert multiset(t) == multiset(s) - multiset{s[i]} + multiset{s[j]};
      assert multiset(t[j := s[i]]) == multiset(t) - multiset{t[j]} + multiset{s[i]};
    }
  }

  /** The swaps of the shuffle loop for indices `i` down to 1. */
  ghost function FisherYates<T>(s: seq<T>, picks: seq<int>, i: int): seq<T>
    requires ValidPicks(picks, |s|) && -1 <= i < |s|
    decreases i
  {
    if i <= 0 then s else FisherYates(Swap(s, i, picks[i]), picks, i - 1)
  }

  /** Whatever the random choices, the shuffle only permutes the board. */
  lemma {:induction false} FisherYatesPermutes<T>(s: seq<T>, picks: seq<int>, i: int)
    requires ValidPicks(picks, |s|) && -1 <= i < |s|
    ensures |FisherYates(s, picks, i)| == |s|
    ensures multiset(FisherYates(s, picks, i)) == multiset(s)
    decreases i
  {
    if i > 0 {
      SwapPermutes(s, i, picks[i]);
      FisherYatesPermutes(Swap(s, i, picks[i]), picks, i - 1);
    }
  }

  /** The loop of `initializeGame`, in place. */
  method Shuffle(a: array<string>, picks: seq<int>)
    requires ValidPicks(picks, a.Length)
    modifies a
    ensures a[..] == FisherYates(old(a[..]), picks, a.Length - 1)
    ensures multiset(a[..]) == multiset(old(a[..]))
  {
    var i := a.Length - 1;
    while i > 0
      invariant -1 <= i < a.Length
      invariant ValidPicks(picks, |a[..]|)
      invariant FisherYates(a[..], picks, i) == FisherYates(old(a[..]), picks, a.Length - 1)
      decreases i
    {
      var j := picks[i];
      ghost var before := a[..];
      a[i], a[j] := a[j], a[i];
      assert a[..] == Swap(before, i, j);
      i := i - 1;
    }
    FisherYatesPermutes(old(a[..]), picks, a.Length - 1);
  }

  // ----- The game --------------------------------------------------------

  /** A timer `handleCardClick` started: for a matching pair it carries the
      pair count and the board length its closure saw. */
  datatype Deferred = MatchFound(capturedPairs: int, capturedLength: int) | Mismatch

  datatype Game = Game(
    colors: seq<string>, selected: seq<int>, matchedPairs: int, moves: int,
    started: bool, complete: bool, pending: seq<Deferred>)

  /** The selection names distinct cells of the board. */
  predicate SelectionOk(g: Game) {
    (forall k :: 0 <= k < |g.selected| ==> 0 <= g.selected[k] < |g.colors|)
    && (forall k, l :: 0 <= k < l < |g.selected| ==> g.selected[k] != g.selected[l])
  }

  /** What every reachable game satisfies: an empty board before the first
      start and a full one after, at most two selected cells, a pair count
      within the board, and every pending match one that still fits. */
  predicate Valid(g: Game) {
    && (if g.started then |g.colors| == 2 * |PossibleColors| else g.colors == [] && g.pending == [])
    && SelectionOk(g) && |g.selected| <= 2
    && 0 <= g.matchedPairs && 2 * g.matchedPairs <= |g.colors| && 0 <= g.moves
    && (forall k :: 0 <= k < |g.pending| && g.pending[k].MatchFound? ==>
          g.pending[k].capturedLength == |g.colors|
          && 0 <= g.pending[k].capturedPairs && 2 * (g.pending[k].capturedPairs + 1) <= |g.colors|)
  }

  const InitialGame := Game([], [], 0, 0, false, false, [])

  /** A click is refused on a selected cell, with two cells already
      selected, or once every pair is counted. */
  predicate ClickIgnored(g: Game, index: int) {
    index in g.selected || |g.selected| >= 2 || g.matchedPairs * 2 == |g.colors|
  }

  /** `handleCardClick(index)`. */
  function Click(g: Game, index: int): (r: Game)
    requires SelectionOk(g) && 0 <= index < |g.colors|
    ensures ClickIgnored(g, index) ==> r == g
    ensures !ClickIgnored(g, index) ==>
              r.selected == g.selected + [index]
              && r.colors == g.colors && r.matchedPairs == g.matchedPairs
              && r.started == g.started && r.complete == g.complete
              && r.moves == (if |r.selected| == 2 then g.moves + 1 else g.moves)
              && r.pending == g.pending + (if |r.selected| == 2 then [PairTimer(g.colors, r.selected, g.matchedPairs)] else [])
  {
    if ClickIgnored(g, index) then g
    else
      var sel := g.selected + [index];
      if |sel| == 2 then
        g.(selected := sel, moves := g.moves + 1,
           pending := g.pending + [PairTimer(g.colors, sel, g.matchedPairs)])
      else g.(selected := sel)
  }

  /** The timer the second click starts: a match for two equal colours. */
  function PairTimer(colors: seq<string>, sel: seq<int>, pairs: int): (d: Deferred)
    requires |sel| == 2 && 0 <= sel[0] < |colors| && 0 <= sel[1] < |colors|
    ensures d.MatchFound? <==> colors[sel[0]] == colors[sel[1]]
    ensures d.MatchFound? ==> d.capturedPairs == pairs && d.capturedLength == |colors|
  {
    if colors[sel[0]] == colors[sel[1]] then MatchFound(pairs, |colors|) else Mismatch
  }

  /** The `k`-th pending timer fires. A match sets the count to the captured
      count plus one, clears the selection and marks the game complete when
      that count is half the board; a mismatch only clears the selection. */
  function Fire(g: Game, k: nat): (r: Game)
    requires k < |g.pending|
    ensures r.pending == g.pending[..k] + g.pending[k + 1..] && r.selected == []
    ensures r.colors == g.colors && r.moves == g.moves && r.started == g.started
    ensures g.pending[k].MatchFound? ==>
              r.matchedPairs == g.pending[k].capturedPairs + 1
              && r.complete == (g.complete || 2 * (g.pending[k].capturedPairs + 1) == g.pending[k].capturedLength)
    ensures g.pending[k].Mismatch? ==> r.matchedPairs == g.matchedPairs && r.complete == g.complete
  {
    var rest := g.pending[..k] + g.pending[k + 1..];
    match g.pending[k]
    case MatchFound(c, len) =>
      g.(matchedPairs := c + 1, selected := [], pending := rest,
         complete := if 2 * (c + 1) == len then true else g.complete)
    case Mismatch => g.(selected := [], pending := rest)
  }

  /** `initializeGame` after the shuffle: a fresh count, no selection, not
      complete, started. Timers of the previous round are still pending. */
  function Restart(g: Game, board: seq<string>): (r: Game)
    ensures r.colors == board && r.selected == [] && r.matchedPairs == 0 && r.moves == 0
    ensures r.started && !r.complete && r.pending == g.pending
  {
    Game(board, [], 0, 0, true, false, g.pending)
  }

  lemma ClickPreservesValid(g: Game, index: int)
    requires Valid(g) && 0 <= index < |g.colors|
    ensures Valid(Click(g, index))
  {
    var r := Click(g, index);
    if !ClickIgnored(g, index) && |r.selected| == 2 {
      assert r.pending[|g.pending|] == PairTimer(g.colors, r.selected, g.matchedPairs);
      assert 2 * g.matchedPairs < |g.colors| by {
        assert 2 * g.matchedPairs != |g.colors|;
      }
      forall k | 0 <= k < |r.pending| && r.pending[k].MatchFound?
        ensures r.pending[k].capturedLength == |r.colors|
        ensures 0 <= r.pending[k].capturedPairs && 2 * (r.pending[k].capturedPairs + 1) <= |r.colors|
      {
        if k < |g.pending| { assert r.pending[k] == g.pending[k]; }
      }
    }
  }

  lemma FirePreservesValid(g: Game, k: nat)
    requires Valid(g) && k < |g.pending|
    ensures Valid(Fire(g, k))
  {
    var r := Fire(g, k);
    forall m | 0 <= m < |r.pending| && r.pending[m].MatchFound?
      ensures r.pending[m].capturedLength == |r.colors|
      ensures 0 <= r.pending[m].capturedPairs && 2 * (r.pending[m].capturedPairs + 1) <= |r.colors|
    {
      if m < k { assert r.pending[m] == g.pending[m]; } else { assert r.pending[m] == g.pending[m + 1]; }
    }
  }

  lemma RestartPreservesValid(g: Game, board: seq<string>)
    requires Valid(g) && |board| == 2 * |PossibleColors| && (g.started || g.pending == [])
    ensures Valid(Restart(g, board))
  {
  }

  /** In every reachable game the selection holds at most two cells and the
      pair count stays within half the board. */
  lemma ValidBounds(g: Game)
    requires Valid(g)
    ensures |g.selected| <= 2 && 0 <= g.matchedPairs <= |PossibleColors|
  {
  }

  /** `isCardMatched`: only the two currently selected cells of equal colour
      count as matched. */
  predicate IsCardMatched(g: Game, index: int)
    requires SelectionOk(g)
  {
    |g.selected| == 2 && g.colors[g.selected[0]] == g.colors[g.selected[1]]
    && (index == g.selected[0] || index == g.selected[1])
  }

  /** `isCardFlipped`: selected or matched. */
  predicate IsCardFlipped(g: Game, index: int)
    requires SelectionOk(g)
  {
    index in g.selected || IsCardMatched(g, index)
  }

  /** A cell is face up exactly when it is selected. */
  lemma FlippedIffSelected(g: Game, index: int)
    requires SelectionOk(g)
    ensures IsCardFlipped(g, index) <==> index in g.selected
  {
  }

  /** A game between turns whose first two cells have the same colour. */
  predicate ReadyToRematch(g: Game) {
    Valid(g) && g.started && g.selected == [] && g.pending == [] && g.colors[0] == g.colors[1]
  }

  /** One turn on cells 0 and 1 followed by its timer. */
  function Round(g: Game): (r: Game)
    requires ReadyToRematch(g) && g.matchedPairs < |PossibleColors|
    ensures ReadyToRematch(r) && r.colors == g.colors
    ensures r.matchedPairs == g.matchedPairs + 1
    ensures r.complete == (g.complete || g.matchedPairs + 1 == |PossibleColors|)
  {
    assert !ClickIgnored(g, 0);
    ClickPreservesValid(g, 0);
    var g1 := Click(g, 0);
    assert !ClickIgnored(g1, 1);
    ClickPreservesValid(g1, 1);
    var g2 := Click(g1, 1);
    assert g2.pending == [MatchFound(g.matchedPairs, |g.colors|)];
    FirePreservesValid(g2, 0);
    Fire(g2, 0)
  }

  /** `n` such turns in a row. */
  function Rematch(g: Game, n: nat): (r: Game)
    requires ReadyToRematch(g) && g.matchedPairs + n <= |PossibleColors|
    ensures ReadyToRematch(r) && r.colors == g.colors
    ensures r.matchedPairs == g.matchedPairs + n
    ensures r.complete == (g.complete || (n > 0 && g.matchedPairs + n == |PossibleColors|))
    decreases n
  {
    if n == 0 then g else Rematch(Round(g), n - 1)
  }

  /** Nothing remembers a counted pair once its timer has cleared the
      selection, so the same two cells can be matched again and again: on a
      fresh board whose first two cells share a colour, matching those two
      cells six times over completes the game while the other ten cells were
      never turned up. */
  lemma SamePairSixTimesCompletes(board: seq<string>)
    requires |board| == 2 * |PossibleColors| && board[0] == board[1]
    ensures var r := Rematch(Restart(InitialGame, board), |PossibleColors|);
            r.complete && r.matchedPairs == |PossibleColors| && r.colors == board
  {
    RestartPreservesValid(InitialGame, board);
  }

  // ----- Intended: a counted pair stays matched -------------------------

  /** The game as the comment on `handleCardClick` describes it, one whole
      turn at a time: the cells of every counted pair are kept in `matched`
      and a click on one of them is refused. */
  datatype KeptGame = KeptGame(colors: seq<string>, matched: set<int>, matchedPairs: int, moves: int, complete: bool)

  predicate KeptValid(k: KeptGame) {
    && |k.colors| == 2 * |PossibleColors|
    && (forall c :: c in k.matched ==> 0 <= c < |k.colors|)
    && |k.matched| == 2 * k.matchedPairs
    && (k.complete <==> k.matchedPairs == |PossibleColors|)
  }

  /** A fresh board in the intended game: nothing matched yet. */
  function KeptStart(board: seq<string>): (k: KeptGame)
    requires |board| == 2 * |PossibleColors|
    ensures KeptValid(k) && k.matched == {} && k.matchedPairs == 0 && !k.complete
  {
    KeptGame(board, {}, 0, 0, false)
  }

  /** A turn is refused when it names one cell twice, a matched cell, or
      the board is finished. */
  predicate TurnRefused(k: KeptGame, i: int, j: int) {
    i == j || i in k.matched || j in k.matched || k.complete
  }

  /** Two clicks and the timer they start: a pair of equal colours joins
      `matched` and is counted, completing the game at six pairs; any other
      accepted turn only counts a move. */
  function KeptTurn(k: KeptGame, i: int, j: int): (r: KeptGame)
    requires KeptValid(k) && 0 <= i < |k.colors| && 0 <= j < |k.colors|
    ensures KeptValid(r) && r.colors == k.colors && k.matched <= r.matched
    ensures TurnRefused(k, i, j) ==> r == k
    ensures !TurnRefused(k, i, j) ==> r.moves == k.moves + 1
    ensures !TurnRefused(k, i, j) && k.colors[i] == k.colors[j] ==>
              r.matched == k.matched + {i, j} && r.matchedPairs == k.matchedPairs + 1
    ensures !TurnRefused(k, i, j) && k.colors[i] != k.colors[j] ==>
              r.matched == k.matched && r.matchedPairs == k.matchedPairs
  {
    if TurnRefused(k, i, j) then k
    else if k.colors[i] == k.colors[j] then
      var pairs := k.matchedPairs + 1;
      assert |k.matched + {i, j}| == |k.matched| + 2;
      MatchedWithinBoard(k.matched + {i, j}, |k.colors|);
      KeptGame(k.colors, k.matched + {i, j}, pairs, k.moves + 1, pairs == |PossibleColors|)
    else k.(moves := k.moves + 1)
  }

  /** A set of cells of a board of `n` has at most `n` of them, and exactly
      `n` only when it holds them all. */
  lemma {:induction false} MatchedWithinBoard(m: set<int>, n: nat)
    requires forall c :: c in m ==> 0 <= c < n
    ensures |m| <= n
    ensures |m| == n ==> forall c :: 0 <= c < n ==> c in m
    decreases n
  {
    if n > 0 {
      var rest := m - {n - 1};
      MatchedWithinBoard(rest, n - 1);
      if n - 1 in m {
        assert m == rest + {n - 1};
      } else {
        assert rest == m;
      }
    } else {
      assert forall c :: c in m ==> false;
      assert m == {};
    }
  }

  /** In the intended game a finished board has every cell matched. */
  lemma KeptCompleteMeansEveryCellMatched(k: KeptGame)
    requires KeptValid(k) && k.complete
    ensures forall c :: 0 <= c < |k.colors| ==> c in k.matched
  {
    MatchedWithinBoard(k.matched, |k.colors|);
  }

  /** In the intended game a pair once counted is refused afterwards: the
      turn that repeats it changes nothing. */
  lemma MatchedPairRefusedAgain(k: KeptGame, i: int, j: int)
    requires KeptValid(k) && 0 <= i < |k.colors| && 0 <= j < |k.colors|
    requires !TurnRefused(k, i, j) && k.colors[i] == k.colors[j]
    ensures var r := KeptTurn(k, i, j);
            KeptTurn(r, i, j) == r && r.matchedPairs == k.matchedPairs + 1
  {
  }

  /** The component: its state is a `Game`, each handler one transition. */
  class SimpleGameBoard {
    var colors: seq<string>
    var selectedIndices: seq<int>
    var matchedPairs: int
    var moves: int
    var gameStarted: bool
    var isComplete: bool
    var pending: seq<Deferred>

    function State(): Game
      reads this
    {
      Game(colors, selectedIndices, matchedPairs, moves, gameStarted, isComplete, pending)
    }

    constructor ()
      ensures State() == InitialGame && Valid(State())
    {
      colors := [];
      selectedIndices := [];
      matchedPairs := 0;
      moves := 0;
      gameStarted := false;
      isComplete := false;
      pending := [];
    }

    /** Stores a whole game state; every handler below goes through it. */
    method SetState(g: Game)
      modifies this
      ensures State() == g
    {
      colors, selectedIndices, matchedPairs, moves := g.colors, g.selected, g.matchedPairs, g.moves;
      gameStarted, isComplete, pending := g.started, g.complete, g.pending;
    }

    /** `initializeGame`, with the shuffle's random choices passed in: the
        new board is a permutation of the pair board, so each colour is on
        it exactly twice. */
    method InitializeGame(picks: seq<int>)
      requires Valid(State()) && ValidPicks(picks, |PairBoard()|)
      modifies this
      ensures Valid(State())
      ensures State() == Restart(old(State()), colors)
      ensures |colors| == |PairBoard()| && multiset(colors) == multiset(PairBoard())
      ensures forall c :: c in PossibleColors ==> multiset(colors)[c] == 2
    {
      var board := PairBoard();
      var a := new string[|board|](i requires 0 <= i < |board| => board[i]);
      assert a[..] == board;
      Shuffle(a, picks);
      PairBoardHasEachColourTwice();
      RestartPreservesValid(State(), a[..]);
      SetState(Restart(State(), a[..]));
    }

    /** `handleCardClick(index)` on one of the rendered cells. */
    method HandleCardClick(index: int)
      requires Valid(State()) && 0 <= index < |colors|
      modifies this
      ensures Valid(State())
      ensures State() == Click(old(State()), index)
    {
      ClickPreservesValid(State(), index);
      SetState(Click(State(), index));
    }

    /** The `k`-th pending timer fires. */
    method FireTimer(k: nat)
      requires Valid(State()) && k < |pending|
      modifies this
      ensures Valid(State())
      ensures State() == Fire(old(State()), k)
    {
      FirePreservesValid(State(), k);
      SetState(Fire(State(), k));
    }
  }
}
