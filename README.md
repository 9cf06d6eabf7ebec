# jpacman player life-cycle and score panel, modelled in Dafny

This project models two pieces of the jpacman game:

- **`Player`** (`src/main/java/nl/tudelft/jpacman/level/Player.java`): the
  player's score, remaining lives (3 at the start, with no floor), alive flag,
  optional killer, death animation, and set of `LifeObserver`s. `removeLife`
  takes a life, makes the player dead and calls `lifeLost` on every registered
  observer.
- **`ScorePanel`** (`src/main/java/nl/tudelft/jpacman/ui/ScorePanel.java`):
  the text of one score label and one lives label per player. There are two
  default formatters, `"Score: %3d"` and `"Lives: %d"`. A refresh rewrites
  every label; a dead player's lives label reads `"You died."`.

Files:

- `wrappers.dfy`: `Option`, used where the Java code has `null`.
- `format.dfy` (module `Format`): the part of `String.format` the panel uses.
  `IntToDecimal` models `%d`. `PadLeft(IntToDecimal(i), 3)` models `%3d`.
  `ParseInt` and `TrimLeft` are their inverses, used to state what the
  formatters show.
- `player_life.dfy` (module `PlayerLife`): the player as a value,
  `PlayerState`. Each operation is a member function that returns the next
  state. `Op`, `Step` and `Run` replay a sequence of calls, and the lemmas
  state what holds over such sequences. `heard` is the multiset of observers
  that have received `lifeLost`.
- `player.dfy` (module `Level`): class `Player`, whose fields are the Java
  fields plus a log of `lifeLost` calls, `lifeLostCalls`, which has no Java
  counterpart. Each state-changing operation of `Player` changes its fields in
  place, and its postcondition says that
  `State()`, the fields as a `PlayerState`, becomes the matching `PlayerLife`
  function applied to the old state. The exception is `CallLifeLost`, the loop
  behind `UpdateObservers`, whose contract covers only the log. Each entry of the log records the receiver and the lives and alive
  flag the receiver would read at that moment.
- `score_panel.dfy` (module `UI`): the default formatters and class
  `ScorePanel`. Labels are sequences of strings in player order. The two
  formatters are fields of type `PlayerView -> string`, where `PlayerView` is
  the score, lives and alive flag that a formatter reads from a player.

In these places the model follows the code where a reader might expect otherwise:

- At score 0 the default score text is `"Score:   0"` (padded to three characters), not `"Score: 0"` (`DefaultScoreTextOfZero`).
- The panel has no `setLivesFormatter`. The lives formatter is always the default, so it is a `const`.
- "Alive implies no killer" and "alive implies the death animation is stopped" do not hold: `setKiller` and `playDeathAnimation` are public and ignore `alive` (`AliveWithKillerOrAnimation`). The invariant that does hold is "dead implies the death animation is playing" (`RunKeepsDeadShowsDeathAnimation`).
- `addPoints` accepts negative amounts, so the score can go down.

## Model

| member | source | states |
|---|---|---|
| Format.NatToDecimal | src/main/java/nl/tudelft/jpacman/ui/ScorePanel.java:51 | the digits of a natural number: at least one, all decimal digits, no leading zero, and exactly `"0"` for 0 |
| Format.DecimalValueOfNatToDecimal | src/main/java/nl/tudelft/jpacman/ui/ScorePanel.java:51 | reading the digits back as a decimal number gives the original number |
| Format.IntToDecimal | src/main/java/nl/tudelft/jpacman/ui/ScorePanel.java:51 | `%d` output is never empty; it starts with `-` exactly when the value is negative; the rest is digits with no leading zero, and the text of 0 is exactly `"0"` |
| Format.IntToDecimalRoundTrip | src/main/java/nl/tudelft/jpacman/ui/ScorePanel.java:51 | parsing the `%d` text gives back the integer, negative ones included |
| Format.PadLeft | src/main/java/nl/tudelft/jpacman/ui/ScorePanel.java:40 | the result is as long as the width or the string, whichever is longer (never truncated); it ends with the string; everything before it is spaces |
| Format.TrimLeft | src/main/java/nl/tudelft/jpacman/ui/ScorePanel.java:40 | the result is the input with its leading spaces removed: everything dropped is a space, and what is left is a suffix that does not start with a space |
| Format.PadLeftTrimLeft | src/main/java/nl/tudelft/jpacman/ui/ScorePanel.java:40 | removing the padding gives back a string that did not start with a space |
| PlayerLife.Initial | src/main/java/nl/tudelft/jpacman/level/Player.java:27-70 | a new player: score 0, 3 lives, alive, no killer, death animation stopped, no observers, no `lifeLost` received |
| PlayerLife.PlayerState.AddObserver | src/main/java/nl/tudelft/jpacman/level/Player.java:78-80 | the observer set gains the observer; adding an observer that is already there changes nothing; nothing else changes |
| PlayerLife.PlayerState.RemoveObserver | src/main/java/nl/tudelft/jpacman/level/Player.java:88-90 | the observer set loses the observer; removing an absent observer changes nothing; nothing else changes |
| PlayerLife.PlayerState.PlayDeathAnimation | src/main/java/nl/tudelft/jpacman/level/Player.java:101-103 | the death animation restarts from the beginning; nothing else changes, `alive` included |
| PlayerLife.PlayerState.SetAlive | src/main/java/nl/tudelft/jpacman/level/Player.java:113-122 | `alive` takes the given value. `true` clears the killer and stops the death animation, whatever held before. `false` restarts the animation and keeps the killer. Score, lives and observers do not change |
| PlayerLife.PlayerState.SetKiller | src/main/java/nl/tudelft/jpacman/level/Player.java:139-141 | only the killer changes, and it becomes the given unit or none |
| PlayerLife.PlayerState.AddPoints | src/main/java/nl/tudelft/jpacman/level/Player.java:180-182 | the score changes by exactly the amount, with no sign check; nothing else changes |
| PlayerLife.PlayerState.UpdateObservers | src/main/java/nl/tudelft/jpacman/level/Player.java:187-191 | every registered observer receives one more `lifeLost`, and no other observer receives one |
| PlayerLife.PlayerState.RemoveLife | src/main/java/nl/tudelft/jpacman/level/Player.java:146-150 | lives go down by exactly 1; the player is dead with the death animation restarted; score, killer and observers are unchanged; each registered observer receives exactly one `lifeLost` and nobody else does |
| PlayerLife.PlayerState.CurrentVisual | src/main/java/nl/tudelft/jpacman/level/Player.java:165-171 | the death animation exactly when the player is dead; otherwise the sprite for the direction, or none (Java's `null`) when the map has no sprite for it |
| PlayerLife.InitialShowsNoDeathAnimation | src/main/java/nl/tudelft/jpacman/level/Player.java:63-70 | a new player satisfies the dead-implies-animation invariant and, for any sprite map and facing direction, does not show the death animation |
| PlayerLife.StepKeepsDeadShowsDeathAnimation | src/main/java/nl/tudelft/jpacman/level/Player.java:101-150 | every public operation keeps "dead implies the death animation is playing" |
| PlayerLife.RunKeepsDeadShowsDeathAnimation | src/main/java/nl/tudelft/jpacman/level/Player.java:101-150 | any sequence of calls keeps "dead implies the death animation is playing" |
| PlayerLife.RunLives | src/main/java/nl/tudelft/jpacman/level/Player.java:146-150 | after any sequence of calls, lives are the starting lives minus the number of `removeLife` calls, with no floor |
| PlayerLife.RunScore | src/main/java/nl/tudelft/jpacman/level/Player.java:180-182 | after any sequence of calls, the score is the starting score plus the sum of all amounts passed to `addPoints` |
| PlayerLife.RunKeepsKiller | src/main/java/nl/tudelft/jpacman/level/Player.java:113-141 | the killer does not change until a `setKiller` or a `setAlive(true)` call |
| PlayerLife.SetKillerThenGetKiller | src/main/java/nl/tudelft/jpacman/level/Player.java:130-141 | after `setKiller(u)`, the killer is `u` until the next `setKiller` or `setAlive(true)` |
| PlayerLife.RunHeard | src/main/java/nl/tudelft/jpacman/level/Player.java:78-90 | if the calls never add or remove observer `o`, `o` stays registered or unregistered and gets one `lifeLost` per `removeLife` if registered, else none |
| PlayerLife.LivesRemovedByRemoveLives | src/main/java/nl/tudelft/jpacman/level/Player.java:146-150 | `n` calls of `removeLife` in a row count as `n` lost lives |
| PlayerLife.RemoveLivesFromInitial | src/main/java/nl/tudelft/jpacman/level/Player.java:27 | after `n` `removeLife` calls a new player has `3 - n` lives, which is negative for `n > 3` |
| PlayerLife.RemoveLivesLeavesDead | src/main/java/nl/tudelft/jpacman/level/Player.java:146-171 | after one or more `removeLife` calls from any state the player is dead and, for any sprite map and facing direction, shows the death animation |
| PlayerLife.ThreeLivesLost | src/main/java/nl/tudelft/jpacman/level/Player.java:146-191 | a new player with one observer who loses three lives has 0 lives and is dead, and the observer has received `lifeLost` three times |
| PlayerLife.RemovingAbsentObserver | src/main/java/nl/tudelft/jpacman/level/Player.java:88-90 | removing an unregistered observer does not change what the next `removeLife` does |
| PlayerLife.AddPointsTwice | src/main/java/nl/tudelft/jpacman/level/Player.java:180-182 | `addPoints(p)` then `addPoints(q)` is the same as `addPoints(p + q)` and gives `score + p + q` |
| PlayerLife.ReviveClearsDeath | src/main/java/nl/tudelft/jpacman/level/Player.java:113-117 | `setAlive(true)` after a death leaves the player alive, with no killer and the death animation stopped, whatever the killer was |
| PlayerLife.AliveWithKillerOrAnimation | src/main/java/nl/tudelft/jpacman/level/Player.java:101-141 | an alive player can have a killer (after `setKiller`) or a playing death animation (after `playDeathAnimation`) |
| Level.Player.constructor | src/main/java/nl/tudelft/jpacman/level/Player.java:63-70 | the new player's state is `Initial()`; it keeps the given sprite map and has made no `lifeLost` calls |
| Level.Player.AddObserver | src/main/java/nl/tudelft/jpacman/level/Player.java:78-80 | the new state is `AddObserver` of the old one |
| Level.Player.RemoveObserver | src/main/java/nl/tudelft/jpacman/level/Player.java:88-90 | the new state is `RemoveObserver` of the old one |
| Level.Player.IsAlive | src/main/java/nl/tudelft/jpacman/level/Player.java:97-99 | returns the state's alive flag without changing anything |
| Level.Player.PlayDeathAnimation | src/main/java/nl/tudelft/jpacman/level/Player.java:101-103 | the new state is `PlayDeathAnimation` of the old one |
| Level.Player.SetAlive | src/main/java/nl/tudelft/jpacman/level/Player.java:113-122 | the new state is `SetAlive(isAlive)` of the old one |
| Level.Player.GetKiller | src/main/java/nl/tudelft/jpacman/level/Player.java:130-132 | returns the state's killer without changing anything |
| Level.Player.SetKiller | src/main/java/nl/tudelft/jpacman/level/Player.java:139-141 | the new state is `SetKiller(k)` of the old one |
| Level.Player.RemoveLife | src/main/java/nl/tudelft/jpacman/level/Player.java:146-150 | the new state is `RemoveLife` of the old one. One `lifeLost` call is appended per registered observer and earlier calls are kept. Each new call sees the decremented lives and `alive == false` |
| Level.Player.GetLives | src/main/java/nl/tudelft/jpacman/level/Player.java:152-154 | returns the state's lives without changing anything |
| Level.Player.GetScore | src/main/java/nl/tudelft/jpacman/level/Player.java:161-163 | returns the state's score without changing anything |
| Level.Player.GetSprite | src/main/java/nl/tudelft/jpacman/level/Player.java:165-171 | returns `CurrentVisual` of the state, the sprite map and the facing direction |
| Level.Player.AddPoints | src/main/java/nl/tudelft/jpacman/level/Player.java:180-182 | the new state is `AddPoints(points)` of the old one |
| Level.Player.UpdateObservers | src/main/java/nl/tudelft/jpacman/level/Player.java:187-191 | the new state is `UpdateObservers` of the old one; one call per observer is appended, each seeing the player as it now is |
| Level.Player.CallLifeLost | src/main/java/nl/tudelft/jpacman/level/Player.java:188-190 | the loop: the receivers of the appended calls are exactly the given observers, once each, and earlier calls are kept |
| Level.LoseThreeLives | src/main/java/nl/tudelft/jpacman/level/Player.java:63-191 | on the class, a new player with observer `o` that loses three lives has 0 lives and is dead, and `o` was called three times |
| UI.DefaultScoreFormatter | src/main/java/nl/tudelft/jpacman/ui/ScorePanel.java:39-40 | the text is `"Score: "`, then only spaces, then exactly the `%d` digits of the score, at least three characters in all and never truncated; the field reads back as the score |
| UI.ScoreTextShape | src/main/java/nl/tudelft/jpacman/ui/ScorePanel.java:40 | the `"Score: %3d"` text has the caption, the padded width, only spaces before the exact `%d` digits, and a field that reads back as the score |
| UI.PaddedFieldReadsBack | src/main/java/nl/tudelft/jpacman/ui/ScorePanel.java:40 | a `%3d` field without its padding parses back to the number |
| UI.DefaultLivesFormatter | src/main/java/nl/tudelft/jpacman/ui/ScorePanel.java:50-51 | the text is `"Lives: "` then exactly the `%d` digits of the lives count, unpadded, which read back as the count and starts with `-` exactly when the count is negative |
| UI.DefaultScoreTextOfZero | src/main/java/nl/tudelft/jpacman/ui/ScorePanel.java:40 | at score 0 the default score text is `"Score:   0"` |
| UI.DefaultLivesTextOfTwo | src/main/java/nl/tudelft/jpacman/ui/ScorePanel.java:51 | with 2 lives the default lives text is `"Lives: 2"` |
| UI.ScorePanel.constructor | src/main/java/nl/tudelft/jpacman/ui/ScorePanel.java:45-86 | each player in list order gets the score label `"0"` and the lives label `"3"`; both formatters are the defaults |
| UI.ScorePanel.Refresh | src/main/java/nl/tudelft/jpacman/ui/ScorePanel.java:92-110 | every score label equals the score formatter applied to its player, dead or alive. A dead player's lives label is `"You died."`, whatever the lives formatter. A live player's lives label is the lives formatter's output. Players are only read |
| UI.ScorePanel.SetScoreFormatter | src/main/java/nl/tudelft/jpacman/ui/ScorePanel.java:129-132 | only the score formatter is replaced, by the given one |
| UI.DeathShownOnPanel | src/main/java/nl/tudelft/jpacman/ui/ScorePanel.java:92-110 | a new player who loses a life is shown as `"Score:   0"` and `"You died."` after a refresh |
| UI.RevivalShownOnPanel | src/main/java/nl/tudelft/jpacman/ui/ScorePanel.java:92-110 | a new player who loses a life and is set alive again is shown as `"Score:   0"` and `"Lives: 2"` after a refresh |

## Left out

- Swing: the grid layout, `JLabel` creation and alignment, the `"Player i"` header labels and `serialVersionUID`. A label is modelled as its text.
- `AnimatedSprite`, `Sprite`, `Unit` and `Direction` are not part of this model. A sprite is a number handle. The killer is a unit number. The death animation is reduced to `Stopped` (after `setAnimating(false)`) and `PlayingFromStart` (after `restart()`). Only that state is kept, so the `Player` constructor takes the sprite map but no death-animation handle. The four directions are assumed to be the board's compass directions.
- `Level.Player.GetSprite`: the facing direction belongs to the `Unit` superclass, so it is passed in as a parameter.
- What observers do inside `lifeLost`, including calls back into the player while the loop runs (where Java could throw `ConcurrentModificationException`). A call is modelled as a log entry.
- The order in which `HashSet` delivers `lifeLost`: the loop chooses any pending observer, and no contract states an order.
- Java's 32-bit `int` wrap-around in `score += points` and `lives -= 1`: integers are unbounded.
- Locale-dependent digits in `String.format`: the model uses the ASCII digits.
- Custom formatters receive a `PlayerView` of score, lives and alive flag rather than the `Player` object, so a custom formatter that reads other player state is not modelled.
- `UI.ScorePanel.constructor`: requires the players to be distinct. With a repeated player, Java's `LinkedHashMap` keeps one entry per player while the panel still holds a label for each list element. That case is not modelled.
- `UI.ScorePanel.SetScoreFormatter`: Java's `assert scoreFormatter != null` has no Dafny counterpart because a value of the arrow type cannot be null. The type carries the precondition.
- The order in which `refresh` writes the labels is the loop order. It is not visible in the final label texts and no contract states it.
