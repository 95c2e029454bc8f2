/** A player: a name and a bid, fixed when the player is made. The source's
    getters `getName` and `getBid` are the datatype's fields. */
module Players {

  datatype Player = Player(name: string, bid: int)
}
