/** The coin pickup: the first contact from the player adds one coin to the
    player's count, plays the coin sound through the player and removes
    the coin from the scene. */
module CoinScript {
  import opened Engine
  import opened PlayerScript

  const CoinVolume: real := 0.4

  /** Whether the coin is gone, and the collecting player's coin count. */
  datatype Pickup = Pickup(destroyed: bool, coins: int)

  /** A contact from an object tagged `tag`, as the engine delivers it: a
      destroyed coin receives no more contacts. */
  function CoinContact(p: Pickup, tag: string): (r: Pickup)
    ensures !p.destroyed && tag == PlayerTag ==> r.coins == p.coins + 1 && r.destroyed
    ensures p.destroyed || tag != PlayerTag ==> r == p
  {
    if !p.destroyed && tag == PlayerTag then Pickup(true, p.coins + 1) else p
  }

  function CoinContacts(p: Pickup, tags: seq<string>): Pickup
    decreases |tags|
  {
    if tags == [] then p else CoinContacts(CoinContact(p, tags[0]), tags[1..])
  }

  /** One coin adds at most one to the count: exactly one when it was still
      there and the player touched it at least once, otherwise none. */
  lemma {:induction false} AtMostOneCoin(p: Pickup, tags: seq<string>)
    ensures CoinContacts(p, tags).coins == p.coins + if !p.destroyed && PlayerTag in tags then 1 else 0
    ensures CoinContacts(p, tags).destroyed <==> p.destroyed || PlayerTag in tags
    decreases |tags|
  {
    if tags != [] {
      assert PlayerTag in tags <==> tags[0] == PlayerTag || PlayerTag in tags[1..] by {
        assert tags == [tags[0]] + tags[1..];
      }
      AtMostOneCoin(CoinContact(p, tags[0]), tags[1..]);
    }
  }

  class Coin {
    /** The scene object the script is attached to; Destroy removes it. */
    const gameObject: GameObject

    constructor (gameObject: GameObject)
      ensures this.gameObject == gameObject
    {
      this.gameObject := gameObject;
    }

    /** A trigger overlap with an object tagged `tag` whose Player component
        is `player`. */
    method OnTriggerEnter2D(tag: string, player: Player)
      requires !gameObject.destroyed
      modifies gameObject`destroyed, player
      ensures Pickup(gameObject.destroyed, player.coins)
           == CoinContact(old(Pickup(gameObject.destroyed, player.coins)), tag)
      ensures player.sounds == old(player.sounds) + if tag == PlayerTag then [Sound(CoinClip, CoinVolume)] else []
      // nothing else about the player changes
      ensures player.CurrentMotion() == old(player.CurrentMotion())
      ensures player.CurrentVitals() == old(player.CurrentVitals())
      ensures player.Config() == old(player.Config())
      ensures player.animation == old(player.animation)
    {
      if tag == PlayerTag {
        player.coins := player.coins + 1;
        player.PlaySFX(CoinClip, CoinVolume);
        gameObject.destroyed := true;
      }
    }
  }
}
