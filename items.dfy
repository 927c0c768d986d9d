/** The item, actor and chat-card data the item entity reads. */
module Items {
  import opened Wrappers

  /** A tag on an item: `value` is the descriptor, `title` its annotation. */
  datatype Tag = Tag(title: string, value: string)

  /** The item types of the system ("item" is the plain gear type). */
  datatype ItemKind = Weapon | Spell | Ability | Armor | Gear

  /**
   * The fields of an item's `data.data` that the entity reads. `tags` is
   * `None` when the field is absent; `roll`, `rollType` and `rollTarget` are
   * `None` when undefined.
   */
  datatype ItemData = ItemData(
    tags: Option<seq<Tag>>,
    melee: bool,
    slow: bool,
    missile: bool,
    damage: string,
    bonus: int,
    roll: Option<string>,
    rollType: Option<string>,
    rollTarget: Option<int>,
    blindroll: bool,
    cast: int)

  datatype Item = Item(id: string, name: string, kind: ItemKind, data: ItemData)

  /** Where a synthetic (token) actor lives: the scene id and the token id. */
  datatype TokenRef = TokenRef(sceneId: string, tokenId: string)

  /**
   * An actor: `kind` is `actor.data.type` ("character" for player
   * characters), `items` its owned items by id, `token` set for a synthetic
   * token actor.
   */
  datatype Actor = Actor(id: string, name: string, kind: string, items: map<string, Item>, token: Option<TokenRef>)

  /**
   * The addressing data a chat card carries in its `data-actor-id`,
   * `data-token-id` and `data-item-id` attributes (`None` when absent).
   */
  datatype CardAddress = CardAddress(actorId: Option<string>, tokenKey: Option<string>, itemId: Option<string>)
}
