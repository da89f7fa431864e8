/** The `ScoreManager` component and the `PlayerPrefs` store it shares with
    the rest of the game. The manager keeps the current and the high score;
    whenever the high score changes it is written to the store under the
    manager's key, so the store always holds the high score the manager
    shows. */
module Scoring {

  /** The engine's persistent key-value store, integer entries only. */
  class Prefs {
    var ints: map<string, int>

    constructor (ints: map<string, int>)
      ensures this.ints == ints
    {
      this.ints := ints;
    }
  }

  /** `PlayerPrefs.GetInt(key, defaultValue)`. */
  function GetInt(ints: map<string, int>, key: string, defaultValue: int): (r: int)
    ensures key in ints ==> r == ints[key]
    ensures key !in ints ==> r == defaultValue
  {
    if key in ints then ints[key] else defaultValue
  }

  /** Reading a key back returns what was last written to it, and writing
      one key leaves every other key as it was. */
  lemma GetAfterSet(ints: map<string, int>, key: string, value: int, other: string, defaultValue: int)
    ensures GetInt(ints[key := value], key, defaultValue) == value
    ensures other != key ==> GetInt(ints[key := value], other, defaultValue) == GetInt(ints, other, defaultValue)
  {
  }

  /** The static `instance` slot of the singleton. */
  class ScoreSlot {
    var instance: ScoreManager?

    constructor ()
      ensures instance == null
    {
      instance := null;
    }
  }

  class ScoreManager {
    var pointsPerCoin: int
    var pointsPerMeter: int
    var highScoreKey: string
    var currentScore: int
    var highScore: int
    var prefs: Prefs
    /** Set when `Awake` destroys a second manager. */
    var destroyed: bool

    /** The store holds the high score under the manager's key (a missing
        key reads as 0, the value `LoadHighScore` defaults to). */
    predicate Synced()
      reads this, prefs
    {
      GetInt(prefs.ints, highScoreKey, 0) == highScore
    }

    /** The component with its serialized defaults: 10 points a coin, key "HighScore". */
    constructor (prefs: Prefs)
      ensures pointsPerCoin == 10 && pointsPerMeter == 1 && highScoreKey == "HighScore"
      ensures currentScore == 0 && highScore == 0 && this.prefs == prefs && !destroyed
    {
      pointsPerCoin := 10;
      pointsPerMeter := 1;
      highScoreKey := "HighScore";
      currentScore := 0;
      highScore := 0;
      this.prefs := prefs;
      destroyed := false;
    }

    /** `Awake`: the first manager becomes the instance; any other one is destroyed. */
    method Awake(slot: ScoreSlot)
      modifies slot, this`destroyed
      ensures slot.instance == if old(slot.instance) == null then this else old(slot.instance)
      ensures destroyed == (old(destroyed) || (old(slot.instance) != null && old(slot.instance) != this))
    {
      if slot.instance == null {
        slot.instance := this;
      } else if slot.instance != this {
        destroyed := true;
      }
    }

    /** `Start`, whose only game-rule effect is `LoadHighScore`. */
    method Start()
      modifies this`highScore
      ensures Synced()
      ensures highScore == GetInt(prefs.ints, highScoreKey, 0)
    {
      LoadHighScore();
    }

    /** `LoadHighScore`: the high score is read from the store, 0 when absent. */
    method LoadHighScore()
      modifies this`highScore
      ensures Synced()
      ensures highScore == GetInt(prefs.ints, highScoreKey, 0)
    {
      highScore := GetInt(prefs.ints, highScoreKey, 0);
    }

    /** `SaveHighScore`: the high score is written under the key; nothing else in the store changes. */
    method SaveHighScore()
      modifies prefs
      ensures prefs.ints == old(prefs.ints)[highScoreKey := highScore]
      ensures Synced()
    {
      prefs.ints := prefs.ints[highScoreKey := highScore];
    }

    /** `AddScore`: the current score grows by exactly `points`; the high
        score becomes the larger of itself and the new current score, and
        the store follows it. */
    method AddScore(points: int)
      requires Synced()
      modifies this`currentScore, this`highScore, prefs
      ensures Synced()
      ensures currentScore == old(currentScore) + points
      ensures highScore == if currentScore > old(highScore) then currentScore else old(highScore)
      ensures highScore >= currentScore && highScore >= old(highScore)
      ensures forall k :: k != highScoreKey ==> GetInt(prefs.ints, k, 0) == GetInt(old(prefs.ints), k, 0)
    {
      currentScore := currentScore + points;
      if currentScore > highScore {
        highScore := currentScore;
        SaveHighScore();
      }
    }

    /** `AddCoinScore`: a coin is worth `pointsPerCoin`. */
    method AddCoinScore()
      requires Synced()
      modifies this`currentScore, this`highScore, prefs
      ensures Synced()
      ensures currentScore == old(currentScore) + pointsPerCoin
      ensures highScore == if currentScore > old(highScore) then currentScore else old(highScore)
    {
      AddScore(pointsPerCoin);
    }

    /** `ResetCurrentScore`: the current score returns to 0; the high score stays. */
    method ResetCurrentScore()
      modifies this`currentScore
      ensures currentScore == 0
    {
      currentScore := 0;
    }

    /** `ResetHighScore`: the high score returns to 0 and 0 is stored; the current score stays. */
    method ResetHighScore()
      modifies this`highScore, prefs
      ensures highScore == 0 && Synced()
      ensures prefs.ints == old(prefs.ints)[highScoreKey := 0]
    {
      highScore := 0;
      SaveHighScore();
    }

    /** `GameOver`: a current score above the high score becomes the high
        score and is stored. Afterwards the high score is at least the
        current score, so a second call changes nothing. */
    method GameOver()
      requires Synced()
      modifies this`highScore, prefs
      ensures Synced() && highScore >= currentScore
      ensures highScore == if currentScore > old(highScore) then currentScore else old(highScore)
      ensures old(highScore) >= currentScore ==> highScore == old(highScore) && prefs.ints == old(prefs.ints)
    {
      if currentScore > highScore {
        highScore := currentScore;
        SaveHighScore();
      }
    }
  }
}
