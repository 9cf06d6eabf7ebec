/**
 * The text shown by jpacman's score panel: one score label and one lives label
 * per player, rewritten from the players' current state on every refresh.
 * Swing widgets are left out: a label is its text.  Formatters see a player
 * through a PlayerView, the three values the default formatters read.
 */
module UI {
  import opened Wrappers
  import opened Format
  import opened Level

  /** What a formatter reads from a player: `getScore()`, `getLives()` and `isAlive()`. */
  datatype PlayerView = PlayerView(score: int, lives: int, alive: bool)

  function ViewOf(p: Player): PlayerView
    reads p
  {
    PlayerView(p.GetScore(), p.GetLives(), p.IsAlive())
  }

  function Max(a: int, b: int): int {
    if a < b then b else a
  }

  /** The lives label of a dead player, whatever the lives formatter. */
  const DeathNotice: string := "You died."

  /** A label followed by a field: both can be read back by position. */
  lemma LabelAndField(caption: string, field: string)
    ensures |caption + field| == |caption| + |field|
    ensures (caption + field)[..|caption|] == caption && (caption + field)[|caption|..] == field
  {
  }

  /** The `%3d` field reads back as the number it shows. */
  lemma PaddedFieldReadsBack(i: int)
    ensures ParseInt(TrimLeft(PadLeft(IntToDecimal(i), 3))) == Some(i)
  {
    PadLeftTrimLeft(IntToDecimal(i), 3);
    IntToDecimalRoundTrip(i);
  }

  lemma ScoreTextShape(score: int, r: string)
    requires r == "Score: " + PadLeft(IntToDecimal(score), 3)
    ensures |r| >= 10 && r[..7] == "Score: "
    ensures |r| == 7 + Max(3, |IntToDecimal(score)|)
    ensures ParseInt(TrimLeft(r[7..])) == Some(score)
    ensures r[|r| - |IntToDecimal(score)|..] == IntToDecimal(score)
    ensures forall k :: 7 <= k < |r| - |IntToDecimal(score)| ==> r[k] == ' '
  {
    var field := PadLeft(IntToDecimal(score), 3);
    assert |field| == Max(3, |IntToDecimal(score)|);
    LabelAndField("Score: ", field);
    PaddedFieldReadsBack(score);
  }

  /**
   * `String.format("Score: %3d", score)`: the label, then the decimal score
   * padded on the left with spaces to three characters; longer numbers are
   * shown in full.
   */
  function DefaultScoreFormatter(v: PlayerView): (r: string)
    ensures |r| >= 10 && r[..7] == "Score: "
    ensures |r| == 7 + Max(3, |IntToDecimal(v.score)|)
    ensures ParseInt(TrimLeft(r[7..])) == Some(v.score)
    ensures r[|r| - |IntToDecimal(v.score)|..] == IntToDecimal(v.score)
    ensures forall k :: 7 <= k < |r| - |IntToDecimal(v.score)| ==> r[k] == ' '
  {
    var r := "Score: " + PadLeft(IntToDecimal(v.score), 3);
    ScoreTextShape(v.score, r);
    r
  }

  /** `String.format("Lives: %d", lives)`: the label, then the decimal lives count, unpadded. */
  function DefaultLivesFormatter(v: PlayerView): (r: string)
    ensures |r| >= 8 && r[..7] == "Lives: "
    ensures |r| == 7 + |IntToDecimal(v.lives)|
    ensures r[7..] == IntToDecimal(v.lives)
    ensures ParseInt(r[7..]) == Some(v.lives)
    ensures (r[7] == '-') <==> v.lives < 0
  {
    var field := IntToDecimal(v.lives);
    LabelAndField("Lives: ", field);
    IntToDecimalRoundTrip(v.lives);
    "Lives: " + field
  }

  /** At score 0 the default score text is padded to width three. */
  lemma DefaultScoreTextOfZero(lives: int, alive: bool)
    ensures DefaultScoreFormatter(PlayerView(0, lives, alive)) == "Score:   0"
  {
    assert IntToDecimal(0) == "0";
    assert PadLeft("0", 3) == "  0";
  }

  lemma DefaultLivesTextOfTwo(score: int, alive: bool)
    ensures DefaultLivesFormatter(PlayerView(score, 2, alive)) == "Lives: 2"
  {
    assert IntToDecimal(2) == "2";
  }

  class ScorePanel {
    /** The players in the order they were given, which is the order of the label maps. */
    const players: seq<Player>
    var scoreLabels: seq<string>
    var livesLabels: seq<string>
    var scoreFormatter: PlayerView -> string
    /** Only ever the default: the panel has no way to replace it. */
    const livesFormatter: PlayerView -> string

    /** There is one score label and one lives label for every player. */
    ghost predicate Valid()
      reads this
    {
      |scoreLabels| == |players| && |livesLabels| == |players|
    }

    constructor (players: seq<Player>)
      requires forall i, j :: 0 <= i < j < |players| ==> players[i] != players[j]
      ensures Valid() && this.players == players
      ensures forall i :: 0 <= i < |players| ==> scoreLabels[i] == "0" && livesLabels[i] == "3"
      ensures scoreFormatter == DefaultScoreFormatter && livesFormatter == DefaultLivesFormatter
    {
      var scores, lives := [], [];
      for i := 0 to |players|
        invariant |scores| == i && |lives| == i
        invariant forall k :: 0 <= k < i ==> scores[k] == "0" && lives[k] == "3"
      {
        scores := scores + ["0"];
        lives := lives + ["3"];
      }
      this.players := players;
      scoreLabels, livesLabels := scores, lives;
      scoreFormatter, livesFormatter := DefaultScoreFormatter, DefaultLivesFormatter;
    }

    /**
     * Rewrites every label from its player's current state: the score label
     * with the score formatter, the lives label with `DeathNotice` for a dead
     * player and with the lives formatter otherwise.  Players are only read.
     */
    method Refresh()
      requires Valid()
      modifies this`scoreLabels, this`livesLabels
      ensures Valid()
      ensures forall i :: 0 <= i < |players| ==> scoreLabels[i] == scoreFormatter(ViewOf(players[i]))
      ensures forall i :: 0 <= i < |players| && !players[i].alive ==> livesLabels[i] == DeathNotice
      ensures forall i :: 0 <= i < |players| && players[i].alive ==>
        livesLabels[i] == livesFormatter(ViewOf(players[i]))
    {
      for i := 0 to |players|
        invariant |scoreLabels| == |players| && livesLabels == old(livesLabels)
        invariant forall k :: 0 <= k < i ==> scoreLabels[k] == scoreFormatter(ViewOf(players[k]))
      {
        scoreLabels := scoreLabels[i := scoreFormatter(ViewOf(players[i]))];
      }
      ghost var scores := scoreLabels;
      for i := 0 to |players|
        invariant |livesLabels| == |players| && scoreLabels == scores
        invariant forall k :: 0 <= k < i && !players[k].alive ==> livesLabels[k] == DeathNotice
        invariant forall k :: 0 <= k < i && players[k].alive ==>
          livesLabels[k] == livesFormatter(ViewOf(players[k]))
      {
        var lives;
        if !players[i].IsAlive() {
          lives := DeathNotice;
        } else {
          lives := livesFormatter(ViewOf(players[i]));
        }
        livesLabels := livesLabels[i := lives];
      }
    }

    /** Replaces the score formatter; a formatter value can never be null. */
    method SetScoreFormatter(formatter: PlayerView -> string)
      requires Valid()
      modifies this`scoreFormatter
      ensures Valid() && scoreFormatter == formatter
    {
      scoreFormatter := formatter;
    }
  }

  /** A new player on a new panel loses a life: the refreshed panel shows "Score:   0" and "You died.". */
  method DeathShownOnPanel() returns (scoreText: string, livesText: string)
    ensures scoreText == "Score:   0" && livesText == DeathNotice
  {
    var p := new Player(map[]);
    var panel := new ScorePanel([p]);
    p.RemoveLife();
    panel.Refresh();
    DefaultScoreTextOfZero(p.lives, p.alive);
    scoreText, livesText := panel.scoreLabels[0], panel.livesLabels[0];
  }

  /** After a lost life and `setAlive(true)` the refreshed panel shows two lives. */
  method RevivalShownOnPanel() returns (scoreText: string, livesText: string)
    ensures scoreText == "Score:   0" && livesText == "Lives: 2"
  {
    var p := new Player(map[]);
    var panel := new ScorePanel([p]);
    p.RemoveLife();
    p.SetAlive(true);
    panel.Refresh();
    DefaultScoreTextOfZero(p.lives, p.alive);
    DefaultLivesTextOfTwo(p.score, p.alive);
    scoreText, livesText := panel.scoreLabels[0], panel.livesLabels[0];
  }
}
