/**
 * What rolling an item asks for: the weapon attack (`rollWeapon`), the
 * formula roll (`rollFormula`), spending a spell slot (`spendSpell`) and the
 * chat card of `roll` with its roll-mode visibility.
 */
module ActionResolver {
  import opened Wrappers
  import opened Text
  import opened Items

  datatype AttackType = MeleeAttack | MissileAttack | RawAttack

  /** The first argument of `actor.rollAttack`; `itemLabel` is its `label` key, `bonus` is `None` when that key is absent. */
  datatype AttackRequest = AttackRequest(kind: AttackType, itemLabel: string, dmg: string, bonus: Option<int>)

  /**
   * What `rollWeapon` does: open the "Choose Attack Range" dialog, whose two
   * buttons each roll one of the two attacks, or roll one attack at once.
   */
  datatype WeaponRoll = PendingChoice(melee: AttackRequest, missile: AttackRequest) | Attack(request: AttackRequest)

  /** The TypeError `rollWeapon` and `roll` raise on `this.actor` for an item no actor owns. */
  datatype OwnerError = Unowned

  /**
   * `rollWeapon`: an item without an owner throws on `this.actor`; a
   * character's weapon that is both melee and missile asks for a choice (the
   * melee option carries the bonus, the missile option does not); otherwise
   * a character attacks missile before melee before raw, and every other
   * actor type always attacks "raw". The direct attack always carries the
   * bonus.
   */
  function RollWeapon(item: Item, owner: Option<Actor>): (r: Result<WeaponRoll, OwnerError>)
    ensures r.Failure? <==> owner.None?
    ensures r.Success? ==>
      var actor, w := owner.value, r.value;
      w.PendingChoice? <==> actor.kind == "character" && item.data.melee && item.data.missile
    ensures r.Success? && r.value.PendingChoice? ==>
      && r.value.melee == AttackRequest(MeleeAttack, item.name, item.data.damage, Some(item.data.bonus))
      && r.value.missile == AttackRequest(MissileAttack, item.name, item.data.damage, None)
    ensures r.Success? && r.value.Attack? ==>
      var request := r.value.request;
      && request.itemLabel == item.name
      && request.dmg == item.data.damage
      && request.bonus == Some(item.data.bonus)
    ensures r.Success? && r.value.Attack? ==>
      var actor, request := owner.value, r.value.request;
      && (request.kind == MissileAttack <==> actor.kind == "character" && item.data.missile)
      && (request.kind == MeleeAttack <==> actor.kind == "character" && item.data.melee)
      && (request.kind == RawAttack <==> actor.kind != "character" || (!item.data.melee && !item.data.missile))
  {
    match owner
    case None => Failure(Unowned)
    case Some(actor) =>
      var isNPC := actor.kind != "character";
      var data := item.data;
      if data.missile && data.melee && !isNPC then
        Success(PendingChoice(
          AttackRequest(MeleeAttack, item.name, data.damage, Some(data.bonus)),
          AttackRequest(MissileAttack, item.name, data.damage, None)))
      else
        var kind := if data.missile && !isNPC then MissileAttack
                    else if data.melee && !isNPC then MeleeAttack
                    else RawAttack;
        Success(Attack(AttackRequest(kind, item.name, data.damage, Some(data.bonus))))
  }

  /** The contextual data of a formula roll. */
  datatype RollData = RollData(rollType: Option<string>, target: Option<int>, blindroll: bool)

  /** The request `rollFormula` hands to the dice roller. */
  datatype FormulaRequest = FormulaRequest(parts: seq<string>, itemLabel: string, rollData: RollData, skipDialog: bool)

  /** The error `rollFormula` throws. */
  datatype RollError = MissingFormula

  /** `data.roll` is truthy: present and not the empty string. */
  predicate HasFormula(data: ItemData) {
    data.roll.Some? && data.roll.value != ""
  }

  /**
   * `rollFormula`: throws when the item has no formula; otherwise one formula
   * part, the item's roll type, target and blind flag, and no dialog.
   */
  function RollFormula(item: Item): (r: Result<FormulaRequest, RollError>)
    ensures r.Failure? <==> !HasFormula(item.data)
    ensures r.Success? ==>
      && |r.value.parts| == 1 && r.value.parts[0] == item.data.roll.value && r.value.parts[0] != ""
      && r.value.skipDialog
      && r.value.itemLabel == item.name
      && r.value.rollData == RollData(item.data.rollType, item.data.rollTarget, item.data.blindroll)
  {
    if !HasFormula(item.data) then Failure(MissingFormula)
    else
      var data := item.data;
      Success(FormulaRequest([data.roll.value], item.name, RollData(data.rollType, data.rollTarget, data.blindroll), true))
  }

  /** The steps of `spendSpell`: persist the decremented counter, then roll the item. */
  datatype SpellStep = PersistCast(cast: int) | RollItem(skipDialog: bool)

  /**
   * `spendSpell`: the update writing `cast - 1` comes first; the roll (with
   * no dialog) follows only once that update has succeeded (`persisted`).
   * Nothing stops the counter from going below zero.
   */
  function SpendSpell(item: Item, persisted: bool): (steps: seq<SpellStep>)
    ensures |steps| == (if persisted then 2 else 1) && steps[0] == PersistCast(item.data.cast - 1)
    ensures forall i :: 1 <= i < |steps| ==> !steps[i].PersistCast?
    ensures persisted <==> exists i :: 0 <= i < |steps| && steps[i].RollItem?
    ensures forall i :: 0 <= i < |steps| && steps[i].RollItem? ==> 0 < i && steps[i].skipDialog
  {
    var steps := [PersistCast(item.data.cast - 1)] + (if persisted then [RollItem(true)] else []);
    assert persisted ==> steps[1].RollItem?;
    steps
  }

  /** The chat message `roll` creates (its HTML content is rendered by the host). */
  datatype ChatData = ChatData(user: string, speakerActor: string, speakerAlias: string, whisper: Option<seq<string>>, blind: bool)

  /**
   * The roll-mode block of `roll`: "gmroll" and "blindroll" whisper to the
   * GMs, "selfroll" whispers to the current user only, only "blindroll" makes
   * the message blind, and every other mode leaves both fields as they were.
   */
  method ApplyRollMode(chat: ChatData, rollMode: string, gmIds: seq<string>, userId: string) returns (c: ChatData)
    ensures rollMode == "gmroll" || rollMode == "blindroll" ==> c.whisper == Some(gmIds)
    ensures rollMode == "selfroll" ==> c.whisper == Some([userId])
    ensures rollMode != "gmroll" && rollMode != "blindroll" && rollMode != "selfroll" ==> c.whisper == chat.whisper
    ensures c.blind <==> rollMode == "blindroll" || chat.blind
    ensures c.user == chat.user && c.speakerActor == chat.speakerActor && c.speakerAlias == chat.speakerAlias
  {
    c := chat;
    if rollMode == "gmroll" || rollMode == "blindroll" {
      c := c.(whisper := Some(gmIds));
    }
    if rollMode == "selfroll" {
      c := c.(whisper := Some([userId]));
    }
    if rollMode == "blindroll" {
      c := c.(blind := true);
    }
  }

  /**
   * The `tokenId` of the card template: "<scene id>.<token id>" for a token
   * actor. When neither id holds a dot, splitting the key on "." gives the
   * two ids back.
   */
  function TokenKey(token: Option<TokenRef>): (k: Option<string>)
    ensures k.Some? <==> token.Some?
    ensures token.Some? && '.' !in token.value.sceneId && '.' !in token.value.tokenId ==>
      Split(k.value, '.') == [token.value.sceneId, token.value.tokenId]
  {
    match token
    case Some(t) =>
      KeySplits(t);
      Some(t.sceneId + "." + t.tokenId)
    case None => None
  }

  lemma KeySplits(t: TokenRef)
    ensures '.' !in t.sceneId && '.' !in t.tokenId ==> Split(t.sceneId + "." + t.tokenId, '.') == [t.sceneId, t.tokenId]
  {
    if '.' !in t.sceneId && '.' !in t.tokenId {
      SplitPair(t.sceneId, t.tokenId, '.');
    }
  }

  /** The address a card rolled for `item` of `actor` carries. */
  function CardAddressOf(actor: Actor, item: Item): CardAddress {
    CardAddress(Some(actor.id), TokenKey(actor.token), Some(item.id))
  }

  /** What `roll` produced: a weapon roll, which returns early, or a chat card. */
  datatype RollOutcome = WeaponHandled(weapon: WeaponRoll) | ChatCard(address: CardAddress, message: ChatData)

  /**
   * `roll`: a weapon goes through `rollWeapon`, which always reports that it
   * handled the roll, so no chat message is created; any other item gets a
   * chat card addressed to its actor, token and item, sent by the current
   * user with the visibility of the roll mode. Without an owner both paths
   * throw on `this.actor`.
   */
  method Roll(item: Item, owner: Option<Actor>, rollMode: string, gmIds: seq<string>, userId: string)
    returns (r: Result<RollOutcome, OwnerError>)
    ensures r.Failure? <==> owner.None?
    ensures r.Success? ==> (r.value.WeaponHandled? <==> item.kind == Weapon)
    ensures r.Success? && r.value.WeaponHandled? ==> Success(r.value.weapon) == RollWeapon(item, owner)
    ensures r.Success? && r.value.ChatCard? ==>
      var actor, card := owner.value, r.value;
      && card.address == CardAddressOf(actor, item)
      && card.message.user == userId
      && card.message.speakerActor == actor.id && card.message.speakerAlias == actor.name
    ensures r.Success? && r.value.ChatCard? ==>
      var message := r.value.message;
      && (rollMode == "gmroll" || rollMode == "blindroll" ==> message.whisper == Some(gmIds))
      && (rollMode == "selfroll" ==> message.whisper == Some([userId]))
      && (rollMode != "gmroll" && rollMode != "blindroll" && rollMode != "selfroll" ==> message.whisper.None?)
      && (message.blind <==> rollMode == "blindroll")
  {
    if item.kind == Weapon {
      var weapon := RollWeapon(item, owner);
      match weapon {
        case Failure(e) => r := Failure(e);
        case Success(w) => r := Success(WeaponHandled(w));
      }
      return;
    }
    if owner.None? {
      r := Failure(Unowned);
      return;
    }
    var actor := owner.value;
    var chat := ChatData(userId, actor.id, actor.name, None, false);
    chat := ApplyRollMode(chat, rollMode, gmIds, userId);
    r := Success(ChatCard(CardAddressOf(actor, item), chat));
  }
}
