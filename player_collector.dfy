/** The in-run coin purse of a player (PlayerCollector) and its transfer into the
    persisted save record when a run ends. */
module PlayerCollector {
  import opened MetaUpgrades

  class Collector {
    var coins: real

    /** Start: the purse begins empty. */
    constructor ()
      ensures coins == 0.0
    {
      coins := 0.0;
    }

    /** GetCoins: the current purse. */
    function GetCoins(): real
      reads this
    {
      coins
    }

    /** AddCoins: the purse grows by exactly the amount and the new total is returned
        (the UI callback is not modelled). */
    method AddCoins(amount: real) returns (total: real)
      modifies this
      ensures coins == old(coins) + amount
      ensures total == coins
    {
      coins := coins + amount;
      total := coins;
    }

    /** SaveCoinsToStash: the whole purse moves into the save record and the purse is
        emptied, so purse plus stash is conserved (writing the file is not modelled). */
    method SaveCoinsToStash(save: GameData)
      modifies this, save
      ensures save.coins == old(save.coins) + old(coins)
      ensures coins == 0.0
      ensures save.coins + coins == old(save.coins) + old(coins)
      ensures save.levels == old(save.levels)
    {
      save.coins := save.coins + coins;
      coins := 0.0;
    }
  }
}
