/** The per-player statistics arithmetic of the storefront endpoint
    (app/routes/popup.js, lines 77-151): what one recorded play does to the
    three counters of one game, and what a whole series of plays adds up to. */
module Stats {
  import opened Wrappers

  /** The two mini-games; the request names them "wordGame" and "birdGame". */
  datatype Game = WordGame | BirdGame

  /** The game a request's `game` string selects; any other string selects none. */
  function ParseGame(name: string): (g: Option<Game>)
    ensures g == Some(WordGame) <==> name == "wordGame"
    ensures g == Some(BirdGame) <==> name == "birdGame"
  {
    if name == "wordGame" then Some(WordGame)
    else if name == "birdGame" then Some(BirdGame)
    else None
  }

  function Other(g: Game): Game
  {
    match g
    case WordGame => BirdGame
    case BirdGame => WordGame
  }

  /** The three counters of one game: games played, cumulative score, best score. */
  datatype GameStats = GameStats(played: int, total: int, best: int)

  /** One row of the user table, keyed by e-mail: `word` holds wordGamesPlayed,
      wordGamesTotal and wordGameBest, `bird` the three bird-game counters. */
  datatype PlayerStats = PlayerStats(word: GameStats, bird: GameStats)

  function Of(p: PlayerStats, g: Game): GameStats
  {
    match g
    case WordGame => p.word
    case BirdGame => p.bird
  }

  /** The row with the counters of game `g` replaced and the other game's kept. */
  function With(p: PlayerStats, g: Game, s: GameStats): (q: PlayerStats)
    ensures Of(q, g) == s
    ensures Of(q, Other(g)) == Of(p, Other(g))
  {
    match g
    case WordGame => p.(word := s)
    case BirdGame => p.(bird := s)
  }

  /** The per-game notion of a better score: fewer is better in the word game,
      more is better in the bird game. */
  predicate AtLeastAsGood(g: Game, a: int, b: int)
  {
    match g
    case WordGame => a <= b
    case BirdGame => a >= b
  }

  /** The best score after a play: Math.min for the word game, Math.max for the
      bird game. */
  function BestAfter(g: Game, best: int, score: int): (b: int)
    ensures AtLeastAsGood(g, b, best) && AtLeastAsGood(g, b, score)
    ensures b == best || b == score
  {
    match g
    case WordGame => if score < best then score else best
    case BirdGame => if score > best then score else best
  }

  /** The counters of a row created by a first play. */
  function FirstPlay(score: int): GameStats
  {
    GameStats(1, score, score)
  }

  /** The counters after one more play on an existing row. */
  function AddPlay(g: Game, s: GameStats, score: int): GameStats
  {
    GameStats(s.played + 1, s.total + score, BestAfter(g, s.best, score))
  }

  /** The row stored after one play of game `g` with `score`: a new row when the
      e-mail has none (the other game's counters then take the schema defaults),
      otherwise the old row with the game's counters advanced. */
  function Upsert(row: Option<PlayerStats>, g: Game, score: int, defaults: PlayerStats): (r: PlayerStats)
    ensures Of(r, Other(g)) == Of(if row.Some? then row.value else defaults, Other(g))
    ensures row.None? ==> Of(r, g).played == 1 && Of(r, g).total == score && Of(r, g).best == score
    ensures row.Some? ==> var s := Of(row.value, g);
      && Of(r, g).played == s.played + 1
      && Of(r, g).total == s.total + score
      && AtLeastAsGood(g, Of(r, g).best, s.best)
      && AtLeastAsGood(g, Of(r, g).best, score)
      && (Of(r, g).best == s.best || Of(r, g).best == score)
  {
    match row
    case None => With(defaults, g, FirstPlay(score))
    case Some(p) => With(p, g, AddPlay(g, Of(p, g), score))
  }

  /** The row after a series of plays of one game, applied in order, one request
      after the other. */
  function Replay(row: Option<PlayerStats>, g: Game, scores: seq<int>, defaults: PlayerStats): Option<PlayerStats>
  {
    if scores == [] then row
    else Some(Upsert(Replay(row, g, scores[..|scores| - 1], defaults), g, scores[|scores| - 1], defaults))
  }

  function Sum(scores: seq<int>): int
  {
    if scores == [] then 0 else Sum(scores[..|scores| - 1]) + scores[|scores| - 1]
  }

  /** `b` is one of `scores` and at least as good as each of them. */
  ghost predicate IsBest(g: Game, b: int, scores: seq<int>)
  {
    && b in scores
    && forall i :: 0 <= i < |scores| ==> AtLeastAsGood(g, b, scores[i])
  }

  /** A best that beats every earlier score, advanced by one more score,
      beats every score so far. */
  lemma BestAfterExtends(g: Game, best: int, scores: seq<int>, last: int)
    requires forall i :: 0 <= i < |scores| ==> AtLeastAsGood(g, best, scores[i])
    ensures forall i :: 0 <= i < |scores + [last]| ==> AtLeastAsGood(g, BestAfter(g, best, last), (scores + [last])[i])
  {
    var b := BestAfter(g, best, last);
    forall i | 0 <= i < |scores + [last]|
      ensures AtLeastAsGood(g, b, (scores + [last])[i])
    {
      if i < |scores| {
        assert (scores + [last])[i] == scores[i];
        assert AtLeastAsGood(g, best, scores[i]);
      }
    }
  }

  /** From no row, n plays leave: played = n, total = the sum of the scores,
      best = the best of the scores (the minimum for the word game, the maximum
      for the bird game), and the other game's counters at the schema defaults. */
  lemma {:induction false} ReplayFromNoRow(g: Game, scores: seq<int>, defaults: PlayerStats)
    requires |scores| > 0
    ensures Replay(None, g, scores, defaults).Some?
    ensures var s := Of(Replay(None, g, scores, defaults).value, g);
      s.played == |scores| && s.total == Sum(scores) && IsBest(g, s.best, scores)
    ensures Of(Replay(None, g, scores, defaults).value, Other(g)) == Of(defaults, Other(g))
  {
    var n := |scores|;
    var prefix, last := scores[..n - 1], scores[n - 1];
    assert scores == prefix + [last];
    if n == 1 {
      assert prefix == [];
    } else {
      ReplayFromNoRow(g, prefix, defaults);
      var before := Replay(None, g, prefix, defaults).value;
      var s := Of(before, g);
      assert Replay(None, g, scores, defaults) == Some(Upsert(Some(before), g, last, defaults));
      BestAfterExtends(g, s.best, prefix, last);
      assert BestAfter(g, s.best, last) in scores;
    }
  }

  /** From an existing row, n plays leave: played grown by exactly n, total grown
      by the sum of the scores, best at least as good as the old best and every
      score and equal to one of them, and the other game's counters untouched. */
  lemma {:induction false} ReplayOnRow(row: PlayerStats, g: Game, scores: seq<int>, defaults: PlayerStats)
    ensures Replay(Some(row), g, scores, defaults).Some?
    ensures var s := Of(Replay(Some(row), g, scores, defaults).value, g);
      && s.played == Of(row, g).played + |scores|
      && s.total == Of(row, g).total + Sum(scores)
      && AtLeastAsGood(g, s.best, Of(row, g).best)
      && (forall i :: 0 <= i < |scores| ==> AtLeastAsGood(g, s.best, scores[i]))
      && (s.best == Of(row, g).best || s.best in scores)
    ensures Of(Replay(Some(row), g, scores, defaults).value, Other(g)) == Of(row, Other(g))
  {
    var n := |scores|;
    if n > 0 {
      var prefix, last := scores[..n - 1], scores[n - 1];
      assert scores == prefix + [last];
      ReplayOnRow(row, g, prefix, defaults);
      var before := Replay(Some(row), g, prefix, defaults).value;
      var s := Of(before, g);
      assert Replay(Some(row), g, scores, defaults) == Some(Upsert(Some(before), g, last, defaults));
      BestAfterExtends(g, s.best, prefix, last);
      assert s.best in prefix ==> s.best in scores;
    }
  }

  /** Word game from no row, scores 50 then 30: played 2, total 80, best 30. */
  lemma WordGameExample(defaults: PlayerStats)
    ensures Replay(None, WordGame, [50, 30], defaults).Some?
    ensures Of(Replay(None, WordGame, [50, 30], defaults).value, WordGame) == GameStats(2, 80, 30)
  {
    assert [50, 30][..1] == [50];
    assert [50][..0] == [];
    var first := Upsert(None, WordGame, 50, defaults);
    assert Replay(None, WordGame, [50], defaults) == Some(first);
    assert Of(first, WordGame) == GameStats(1, 50, 50);
  }

  /** Bird game from no row, scores 3 then 5: played 2, total 8, best 5. */
  lemma BirdGameExample(defaults: PlayerStats)
    ensures Replay(None, BirdGame, [3, 5], defaults).Some?
    ensures Of(Replay(None, BirdGame, [3, 5], defaults).value, BirdGame) == GameStats(2, 8, 5)
  {
    assert [3, 5][..1] == [3];
    assert [3][..0] == [];
    var first := Upsert(None, BirdGame, 3, defaults);
    assert Replay(None, BirdGame, [3], defaults) == Some(first);
    assert Of(first, BirdGame) == GameStats(1, 3, 3);
  }

  /** The row is shared by both games: after a first bird-game play has created
      it, a first word-game play takes the update path and advances the schema
      default counters instead of starting from (1, score, score). */
  lemma SharedRow(birdScore: int, wordScore: int, defaults: PlayerStats)
    ensures var created := Upsert(None, BirdGame, birdScore, defaults);
      var after := Upsert(Some(created), WordGame, wordScore, defaults);
      && Of(after, WordGame) == AddPlay(WordGame, Of(defaults, WordGame), wordScore)
      && Of(after, BirdGame) == FirstPlay(birdScore)
  {
  }

  /** A consequence of the shared row: when the schema default of the word
      best is below a player's first word score, the stored word best stays at
      that default, a value the player never scored. */
  lemma SharedRowKeepsDefaultWordBest(birdScore: int, wordScore: int, defaults: PlayerStats)
    requires Of(defaults, WordGame).best < wordScore
    ensures var created := Upsert(None, BirdGame, birdScore, defaults);
      Of(Upsert(Some(created), WordGame, wordScore, defaults), WordGame).best == Of(defaults, WordGame).best
  {
  }
}
