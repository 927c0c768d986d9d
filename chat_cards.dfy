/**
 * Chat-card actions: a click on a card button (`_onChatCardAction`) finds
 * the card's actor (`_getChatCardActor`), its item and, for saving throws,
 * the targets (`_getChatCardTargets`), then rolls once or rolls a save for
 * each target in turn. The button's `disabled` field is the only guard
 * against a second click.
 */
module ChatCards {
  import opened Wrappers
  import opened Text
  import opened Items
  import opened ActionResolver

  /** A token: placed on a scene, or controlled on the canvas; `actor` is `token.actor`. */
  datatype Token = Token(id: string, actor: Option<Actor>)

  datatype Scene = Scene(tokens: map<string, Token>)

  /** A chat message; `author` is the id of the user who created it. */
  datatype Message = Message(author: string)

  /** The host's collections: `game.scenes`, `game.actors`, `game.messages`. */
  datatype World = World(scenes: map<string, Scene>, actors: map<string, Actor>, messages: map<string, Message>)

  /** `game.user`: its id, whether it is a GM, and its assigned character. */
  datatype User = User(id: string, isGM: bool, character: Option<Actor>)

  /** The ambient state a click reads: the user, the world and `canvas.tokens.controlled`. */
  datatype Context = Context(user: User, world: World, controlled: seq<Token>)

  /** A dataset attribute that is present and not empty. */
  predicate Truthy(s: Option<string>) {
    s.Some? && s.value != ""
  }

  /** The token a "<scene id>.<token id>" key names, looked up scene first. */
  function TokenAt(world: World, parts: seq<string>): Option<Token>
    requires |parts| >= 1
  {
    if parts[0] !in world.scenes then None
    else if |parts| < 2 || parts[1] !in world.scenes[parts[0]].tokens then None
    else Some(world.scenes[parts[0]].tokens[parts[1]])
  }

  /**
   * `_getChatCardActor`: with a token key, the scene id and token id are the
   * first two pieces of the key split on "."; a missing scene or token gives
   * null, and the actor id is then not consulted. Without a token key, the
   * actor is looked up by id.
   */
  function GetChatCardActor(world: World, card: CardAddress): (r: Option<Actor>)
    ensures Truthy(card.tokenKey) ==>
      var parts := Split(card.tokenKey.value, '.');
      && (r.Some? ==> parts[0] in world.scenes && |parts| >= 2 && parts[1] in world.scenes[parts[0]].tokens)
      && (parts[0] in world.scenes && |parts| >= 2 && parts[1] in world.scenes[parts[0]].tokens ==>
            r == world.scenes[parts[0]].tokens[parts[1]].actor)
    ensures !Truthy(card.tokenKey) ==>
      && (r.Some? <==> card.actorId.Some? && card.actorId.value in world.actors)
      && (r.Some? ==> r.value == world.actors[card.actorId.value])
  {
    if Truthy(card.tokenKey) then
      match TokenAt(world, Split(card.tokenKey.value, '.'))
      case Some(token) => token.actor
      case None => None
    else
      match card.actorId
      case Some(id) => if id in world.actors then Some(world.actors[id]) else None
      case None => None
  }

  /**
   * The card `roll` renders for an actor comes back to the same actor: its
   * token when it has one (if scene and token still exist), otherwise the
   * actor of its id. Scene and token ids never contain ".".
   */
  lemma RolledCardFindsActor(world: World, actor: Actor, item: Item)
    requires actor.token.Some? ==> '.' !in actor.token.value.sceneId && '.' !in actor.token.value.tokenId
    ensures actor.token.None? ==>
      GetChatCardActor(world, CardAddressOf(actor, item)) ==
        (if actor.id in world.actors then Some(world.actors[actor.id]) else None)
    ensures actor.token.Some? ==>
      var t := actor.token.value;
      GetChatCardActor(world, CardAddressOf(actor, item)) ==
        (if t.sceneId in world.scenes && t.tokenId in world.scenes[t.sceneId].tokens
         then world.scenes[t.sceneId].tokens[t.tokenId].actor else None)
  {
    if actor.token.Some? {
      var t := actor.token.value;
      SplitPair(t.sceneId, t.tokenId, '.');
      assert t.sceneId + "." + t.tokenId == t.sceneId + ['.'] + t.tokenId;
    }
  }

  /** The actors of `tokens`, in order, skipping tokens without an actor. */
  function ActorsOf(tokens: seq<Token>): (r: seq<Actor>)
    ensures |r| <= |tokens|
  {
    if tokens == [] then [] else ActorOf(tokens[0]) + ActorsOf(tokens[1..])
  }

  /** The step of the `reduce`: a token contributes its actor, if it has one. */
  function ActorOf(t: Token): seq<Actor> {
    if t.actor.Some? then [t.actor.value] else []
  }

  /** The `reduce` keeps exactly the actors of the tokens that have one. */
  lemma {:induction false} ActorsOfMembers(tokens: seq<Token>)
    ensures forall a :: a in ActorsOf(tokens) <==> exists i :: 0 <= i < |tokens| && tokens[i].actor == Some(a)
  {
    if tokens != [] {
      ActorsOfMembers(tokens[1..]);
      assert forall i :: 1 <= i < |tokens| ==> tokens[i] == tokens[1..][i - 1];
      forall a | a in ActorsOf(tokens[1..])
        ensures exists i :: 0 <= i < |tokens| && tokens[i].actor == Some(a)
      {
        var j :| 0 <= j < |tokens[1..]| && tokens[1..][j].actor == Some(a);
        assert tokens[j + 1].actor == Some(a);
      }
    }
  }

  /** Collecting the actors of two runs of tokens is collecting each run, in order. */
  lemma {:induction false} ActorsOfConcat(a: seq<Token>, b: seq<Token>)
    ensures ActorsOf(a + b) == ActorsOf(a) + ActorsOf(b)
  {
    if a == [] {
      assert a + b == b;
    } else {
      var ab := a + b;
      assert ab != [] && ab[0] == a[0] && ab[1..] == a[1..] + b;
      var head, rest := ActorOf(a[0]), ActorsOf(a[1..] + b);
      assert ActorsOf(ab) == head + rest;
      ActorsOfConcat(a[1..], b);
      assert rest == ActorsOf(a[1..]) + ActorsOf(b);
      assert ActorsOf(a) == head + ActorsOf(a[1..]);
    }
  }

  /**
   * The targets of a saving throw: the actors of the controlled tokens in
   * order, and the user's character only when no token at all is controlled
   * (a controlled token without an actor still blocks that fallback).
   */
  function CardTargets(user: User, controlled: seq<Token>): (r: seq<Actor>)
    ensures |controlled| > 0 ==> r == ActorsOf(controlled)
    ensures |controlled| == 0 ==> r == (if user.character.Some? then [user.character.value] else [])
    ensures forall a :: a in r <==>
      (exists i :: 0 <= i < |controlled| && controlled[i].actor == Some(a))
      || (|controlled| == 0 && user.character == Some(a))
  {
    ActorsOfMembers(controlled);
    ActorsOf(controlled) + (if user.character.Some? && |controlled| == 0 then [user.character.value] else [])
  }

  /** `_getChatCardTargets`: the `reduce` over the controlled tokens, then the conditional `push`. */
  method GetChatCardTargets(user: User, controlled: seq<Token>) returns (targets: seq<Actor>)
    ensures targets == CardTargets(user, controlled)
  {
    targets := [];
    var i := 0;
    while i < |controlled|
      invariant 0 <= i <= |controlled|
      invariant targets == ActorsOf(controlled[..i])
    {
      var t := controlled[i];
      if t.actor.Some? {
        targets := targets + [t.actor.value];
      }
      ActorsOfConcat(controlled[..i], [t]);
      assert controlled[..i + 1] == controlled[..i] + [t];
      i := i + 1;
    }
    assert controlled[..i] == controlled;
    if user.character.Some? && |controlled| == 0 {
      targets := targets + [user.character.value];
    }
  }

  /** How far the checks before the roll get. */
  datatype Resolution =
    | Unauthorized
    | MessageMissing
    | ActorMissing
    | ItemMissing(actor: Actor)
    | Resolved(actor: Actor, item: Item)

  /**
   * The checks of `_onChatCardAction` before anything is rolled. A "save" is
   * open to everybody; any other action needs a GM or the message's author
   * (the message is looked up only then, and a missing one throws). Then
   * the actor of the card, then its item.
   */
  function ResolveCard(ctx: Context, messageId: string, card: CardAddress, action: string): (r: Resolution)
    ensures r.Unauthorized? <==>
      action != "save" && !ctx.user.isGM && messageId in ctx.world.messages
      && ctx.world.messages[messageId].author != ctx.user.id
    ensures r.MessageMissing? <==> action != "save" && !ctx.user.isGM && messageId !in ctx.world.messages
    ensures r.ActorMissing? ==> GetChatCardActor(ctx.world, card).None?
    ensures (r.ItemMissing? || r.Resolved?) ==> GetChatCardActor(ctx.world, card) == Some(r.actor)
    ensures r.ItemMissing? ==> !(card.itemId.Some? && card.itemId.value in r.actor.items)
    ensures r.Resolved? ==>
      card.itemId.Some? && card.itemId.value in r.actor.items && r.item == r.actor.items[card.itemId.value]
  {
    if !(action == "save" || ctx.user.isGM) && messageId !in ctx.world.messages then MessageMissing
    else if !(action == "save" || ctx.user.isGM || ctx.world.messages[messageId].author == ctx.user.id) then Unauthorized
    else
      match GetChatCardActor(ctx.world, card)
      case None => ActorMissing
      case Some(actor) =>
        match card.itemId
        case Some(id) => if id in actor.items then Resolved(actor, actor.items[id]) else ItemMissing(actor)
        case None => ItemMissing(actor)
  }

  /**
   * A card rendered by `roll` for an actor without a token, clicked by a
   * permitted user while the actor and the item still exist, resolves to
   * exactly that actor and item.
   */
  lemma RolledCardResolves(ctx: Context, messageId: string, action: string, actor: Actor, item: Item)
    requires actor.token.None?
    requires actor.id in ctx.world.actors && ctx.world.actors[actor.id] == actor
    requires item.id in actor.items && actor.items[item.id] == item
    requires action == "save" || ctx.user.isGM
      || (messageId in ctx.world.messages && ctx.world.messages[messageId].author == ctx.user.id)
    ensures ResolveCard(ctx, messageId, CardAddressOf(actor, item), action) == Resolved(actor, item)
  {
    RolledCardFindsActor(ctx.world, actor, item);
  }

  /**
   * A card rendered by `roll` for a token actor, clicked by a permitted user
   * while its token still stands on its scene with that actor and the item
   * still exists, resolves to exactly that actor and item.
   */
  lemma RolledTokenCardResolves(ctx: Context, messageId: string, action: string, actor: Actor, item: Item)
    requires actor.token.Some?
    requires var t := actor.token.value;
      && '.' !in t.sceneId && '.' !in t.tokenId
      && t.sceneId in ctx.world.scenes && t.tokenId in ctx.world.scenes[t.sceneId].tokens
      && ctx.world.scenes[t.sceneId].tokens[t.tokenId].actor == Some(actor)
    requires item.id in actor.items && actor.items[item.id] == item
    requires action == "save" || ctx.user.isGM
      || (messageId in ctx.world.messages && ctx.world.messages[messageId].author == ctx.user.id)
    ensures ResolveCard(ctx, messageId, CardAddressOf(actor, item), action) == Resolved(actor, item)
  {
    RolledCardFindsActor(ctx.world, actor, item);
  }

  /**
   * What a click leaves behind in the log: the writes to `button.disabled`,
   * in the order they happen, and the notifications and roll calls between
   * them.
   */
  datatype Effect =
    | ButtonDisabled
    | ButtonEnabled
    | NotifyError(text: string)
    | NotifyWarn(text: string)
    | DamageRoll(itemId: string)
    | FormulaRoll(request: FormulaRequest)
    | SaveRoll(target: Actor, save: Option<string>)

  /** A notification or a roll call, as opposed to a write to `button.disabled`. */
  predicate IsCall(e: Effect) {
    !e.ButtonDisabled? && !e.ButtonEnabled?
  }

  predicate AllCalls(calls: seq<Effect>) {
    forall i :: 0 <= i < |calls| ==> IsCall(calls[i])
  }

  /** Whether the button is disabled after the writes in `log`: the last write decides, and a fresh button is enabled. */
  function ShowsDisabled(log: seq<Effect>): bool
    decreases |log|
  {
    if log == [] then false
    else if log[|log| - 1].ButtonDisabled? then true
    else if log[|log| - 1].ButtonEnabled? then false
    else ShowsDisabled(log[..|log| - 1])
  }

  /** Notifications and rolls leave the button as it was. */
  lemma {:induction false} ShowsDisabledAfterCalls(log: seq<Effect>, calls: seq<Effect>)
    requires AllCalls(calls)
    ensures ShowsDisabled(log + calls) == ShowsDisabled(log)
    decreases |calls|
  {
    if calls != [] {
      var n := |calls| - 1;
      var whole := log + calls;
      assert whole[|whole| - 1] == calls[n] && IsCall(calls[n]);
      assert whole[..|whole| - 1] == log + calls[..n];
      assert AllCalls(calls[..n]) by {
        forall i | 0 <= i < n
          ensures IsCall(calls[..n][i])
        {
          assert calls[..n][i] == calls[i];
        }
      }
      ShowsDisabledAfterCalls(log, calls[..n]);
      assert ShowsDisabled(whole) == ShowsDisabled(whole[..|whole| - 1]);
    } else {
      assert log + calls == log;
    }
  }

  /** How a click ends. */
  datatype Exit =
    | Ignored        // the button was disabled, so the click never reached the handler
    | NotPermitted
    | NoMessage      // `message.isAuthor` on a message that is gone throws
    | NoActor
    | NoItem
    | NoTargets
    | Threw(error: RollError)
    | Finished

  const NoTokensWarning := "You must have one or more controlled Tokens in order to use this option."

  /** The error shown when the card's item is gone (`undefined` when the card has no item id). */
  function ItemMissingText(itemId: Option<string>, actorName: string): string {
    "The requested item " + (match itemId case Some(id) => id case None => "undefined")
      + " no longer exists on Actor " + actorName
  }

  /** One saving throw per target, in target order. */
  function SaveRolls(targets: seq<Actor>, save: Option<string>): (r: seq<Effect>)
    ensures |r| == |targets|
    ensures forall i :: 0 <= i < |targets| ==> r[i] == SaveRoll(targets[i], save)
  {
    if targets == [] then [] else [SaveRoll(targets[0], save)] + SaveRolls(targets[1..], save)
  }

  /** How one dispatch ends: its exit, the notifications and rolls it makes, and whether it leaves the button disabled. */
  datatype DispatchOutcome = DispatchOutcome(exit: Exit, calls: seq<Effect>, disabled: bool)

  /**
   * The log of one dispatch: the button is disabled first, then the calls
   * follow, and the button is enabled again at the end unless the dispatch
   * leaves it disabled.
   */
  function Log(o: DispatchOutcome): seq<Effect> {
    [ButtonDisabled] + o.calls + (if o.disabled then [] else [ButtonEnabled])
  }

  /**
   * One run of `_onChatCardAction` on a button with `data-action` `action`
   * and `data-save` `save`: which exit it takes, what it logs, and whether
   * the button is left disabled. Only the empty-targets warning and a normal
   * end re-enable it; every earlier exit, and a thrown formula error, leave
   * it disabled.
   */
  function Dispatch(action: string, save: Option<string>, ctx: Context, messageId: string, card: CardAddress): (o: DispatchOutcome)
    ensures o.exit != Ignored
    ensures !o.disabled <==> o.exit == NoTargets || o.exit == Finished
    ensures o.exit == NoMessage <==> ResolveCard(ctx, messageId, card, action).MessageMissing?
    ensures o.exit == NotPermitted <==> ResolveCard(ctx, messageId, card, action).Unauthorized?
    ensures o.exit == NoActor <==> ResolveCard(ctx, messageId, card, action).ActorMissing?
    ensures o.exit == NoItem <==> ResolveCard(ctx, messageId, card, action).ItemMissing?
    ensures action == "save" ==> o.exit != NotPermitted && o.exit != NoMessage
    ensures o.exit == NotPermitted || o.exit == NoMessage || o.exit == NoActor ==> o.calls == []
    ensures o.exit == NoItem ==>
      var res := ResolveCard(ctx, messageId, card, action);
      res.ItemMissing? && o.calls == [NotifyError(ItemMissingText(card.itemId, res.actor.name))]
    ensures o.exit == NoTargets <==>
      action == "save" && ResolveCard(ctx, messageId, card, action).Resolved? && CardTargets(ctx.user, ctx.controlled) == []
    ensures o.exit == NoTargets ==> o.calls == [NotifyWarn(NoTokensWarning)]
    ensures o.exit.Threw? <==>
      var res := ResolveCard(ctx, messageId, card, action);
      action == "formula" && res.Resolved? && RollFormula(res.item).Failure?
    ensures o.exit.Threw? ==> o.calls == []
    ensures o.exit == Finished ==>
      var res := ResolveCard(ctx, messageId, card, action);
      && res.Resolved?
      && (action == "damage" ==> o.calls == [DamageRoll(res.item.id)])
      && (action == "formula" ==> RollFormula(res.item).Success? && o.calls == [FormulaRoll(RollFormula(res.item).value)])
      && (action == "save" ==> o.calls == SaveRolls(CardTargets(ctx.user, ctx.controlled), save) && o.calls != [])
      && (action != "damage" && action != "formula" && action != "save" ==> o.calls == [])
  {
    match ResolveCard(ctx, messageId, card, action)
    case MessageMissing => DispatchOutcome(NoMessage, [], true)
    case Unauthorized => DispatchOutcome(NotPermitted, [], true)
    case ActorMissing => DispatchOutcome(NoActor, [], true)
    case ItemMissing(actor) => DispatchOutcome(NoItem, [NotifyError(ItemMissingText(card.itemId, actor.name))], true)
    case Resolved(actor, item) =>
      if action == "damage" then DispatchOutcome(Finished, [DamageRoll(item.id)], false)
      else if action == "formula" then
        match RollFormula(item)
        case Success(request) => DispatchOutcome(Finished, [FormulaRoll(request)], false)
        case Failure(e) => DispatchOutcome(Threw(e), [], true)
      else if action == "save" then
        var targets := CardTargets(ctx.user, ctx.controlled);
        if targets == [] then DispatchOutcome(NoTargets, [NotifyWarn(NoTokensWarning)], false)
        else DispatchOutcome(Finished, SaveRolls(targets, save), false)
      else DispatchOutcome(Finished, [], false)
  }

  /** A dispatch writes `button.disabled` only around its calls, never among them. */
  lemma DispatchMakesOnlyCalls(action: string, save: Option<string>, ctx: Context, messageId: string, card: CardAddress)
    ensures AllCalls(Dispatch(action, save, ctx, messageId, card).calls)
  {
    var o := Dispatch(action, save, ctx, messageId, card);
    var res := ResolveCard(ctx, messageId, card, action);
    if res.Resolved? && action == "save" && o.exit == Finished {
      forall i | 0 <= i < |o.calls|
        ensures IsCall(o.calls[i])
      {
        assert o.calls[i] == SaveRoll(CardTargets(ctx.user, ctx.controlled)[i], save);
      }
    }
  }

  /** The log of a dispatch appended to an earlier log, written out piece by piece. */
  lemma LogAfter(prefix: seq<Effect>, o: DispatchOutcome)
    ensures prefix + Log(o) == prefix + [ButtonDisabled] + o.calls + (if o.disabled then [] else [ButtonEnabled])
  {
  }

  /** A card button with its click handler, and the log of what clicks did. */
  class ChatCardButton {
    const action: string
    const save: Option<string>
    var disabled: bool
    var effects: seq<Effect>

    /** The button's `disabled` field is what the last write in the log set it to. */
    predicate Consistent()
      reads this
    {
      disabled == ShowsDisabled(effects)
    }

    constructor (action: string, save: Option<string>)
      ensures this.action == action && this.save == save
      ensures !disabled && effects == []
      ensures Consistent()
    {
      this.action := action;
      this.save := save;
      disabled := false;
      effects := [];
    }

    /**
     * `_onChatCardAction`: disables the button before any check, then runs
     * the checks of ResolveCard and the rolls as Dispatch describes, saving
     * throws one target at a time and in order, and enables the button
     * again where Dispatch says so.
     */
    method OnChatCardAction(ctx: Context, messageId: string, card: CardAddress) returns (exit: Exit)
      modifies this
      ensures var o := Dispatch(action, save, ctx, messageId, card);
        exit == o.exit && disabled == o.disabled && effects == old(effects) + Log(o)
      ensures Consistent()
    {
      ghost var o := Dispatch(action, save, ctx, messageId, card);
      disabled := true;
      effects := effects + [ButtonDisabled];
      ghost var start := effects;

      match ResolveCard(ctx, messageId, card, action) {
        case MessageMissing =>
          exit := NoMessage;
          assert o == DispatchOutcome(exit, [], true);
        case Unauthorized =>
          exit := NotPermitted;
          assert o == DispatchOutcome(exit, [], true);
        case ActorMissing =>
          exit := NoActor;
          assert o == DispatchOutcome(exit, [], true);
        case ItemMissing(actor) =>
          var notify := NotifyError(ItemMissingText(card.itemId, actor.name));
          effects := effects + [notify];
          exit := NoItem;
          assert o == DispatchOutcome(exit, [notify], true);
        case Resolved(actor, item) =>
          var targets := [];
          if action == "save" {
            targets := GetChatCardTargets(ctx.user, ctx.controlled);
          }
          ghost var calls: seq<Effect> := [];
          if action == "damage" {
            effects := effects + [DamageRoll(item.id)];
            calls := [DamageRoll(item.id)];
            exit := Finished;
          } else if action == "formula" {
            var request := RollFormula(item);
            if request.Failure? {
              exit := Threw(request.error);
            } else {
              effects := effects + [FormulaRoll(request.value)];
              calls := [FormulaRoll(request.value)];
              exit := Finished;
            }
          } else if action == "save" && targets == [] {
            effects := effects + [NotifyWarn(NoTokensWarning)];
            calls := [NotifyWarn(NoTokensWarning)];
            exit := NoTargets;
          } else {
            if action == "save" {
              RollSaves(targets);
              calls := SaveRolls(targets, save);
            }
            exit := Finished;
          }
          assert effects == start + calls;
          assert o.exit == exit && o.calls == calls;
          if exit == Finished || exit == NoTargets {
            disabled := false;
            effects := effects + [ButtonEnabled];
          }
      }
      LogAfter(old(effects), o);
      assert effects == old(effects) + Log(o);
      DispatchMakesOnlyCalls(action, save, ctx, messageId, card);
      CallsWhileDisabled(old(effects), o);
    }

    /** Rolls one saving throw per target, in target order, with the button kept disabled. */
    method RollSaves(targets: seq<Actor>)
      modifies this
      ensures disabled == old(disabled)
      ensures effects == old(effects) + SaveRolls(targets, save)
    {
      ghost var before := effects;
      var i := 0;
      while i < |targets|
        invariant 0 <= i <= |targets|
        invariant disabled == old(disabled)
        invariant effects == before + SaveRolls(targets[..i], save)
      {
        SaveRollsSnoc(targets[..i], targets[i], save);
        assert targets[..i + 1] == targets[..i] + [targets[i]];
        effects := effects + [SaveRoll(targets[i], save)];
        i := i + 1;
      }
      assert targets[..i] == targets;
    }

    /**
     * A click: the browser does not deliver clicks to a disabled button, so
     * while a dispatch is pending, or after one left the button disabled,
     * nothing happens; otherwise the handler runs.
     */
    method Click(ctx: Context, messageId: string, card: CardAddress) returns (exit: Exit)
      requires Consistent()
      modifies this
      ensures Consistent()
      ensures old(disabled) ==> exit == Ignored && disabled && effects == old(effects)
      ensures !old(disabled) ==> var o := Dispatch(action, save, ctx, messageId, card);
        exit == o.exit && disabled == o.disabled && effects == old(effects) + Log(o)
    {
      if disabled {
        exit := Ignored;
      } else {
        exit := OnChatCardAction(ctx, messageId, card);
      }
    }
  }

  lemma {:induction false} SaveRollsSnoc(targets: seq<Actor>, t: Actor, save: Option<string>)
    ensures SaveRolls(targets + [t], save) == SaveRolls(targets, save) + [SaveRoll(t, save)]
  {
    var l, r := SaveRolls(targets + [t], save), SaveRolls(targets, save) + [SaveRoll(t, save)];
    forall i | 0 <= i < |l|
      ensures l[i] == r[i]
    {
      if i < |targets| {
        assert (targets + [t])[i] == targets[i];
      }
    }
  }

  /**
   * In the log of a dispatch, every notification and roll happens while the
   * button is disabled, and the button ends in the state the dispatch leaves
   * it in, whatever the log held before.
   */
  lemma CallsWhileDisabled(prefix: seq<Effect>, o: DispatchOutcome)
    requires AllCalls(o.calls)
    ensures forall k :: 0 <= k <= |o.calls| ==> ShowsDisabled(prefix + [ButtonDisabled] + o.calls[..k])
    ensures ShowsDisabled(prefix + Log(o)) == o.disabled
  {
    var start := prefix + [ButtonDisabled];
    assert ShowsDisabled(start);
    forall k | 0 <= k <= |o.calls|
      ensures ShowsDisabled(start + o.calls[..k])
    {
      ShowsDisabledAfterCalls(start, o.calls[..k]);
    }
    if o.disabled {
      assert prefix + Log(o) == start + o.calls;
      ShowsDisabledAfterCalls(start, o.calls);
    }
  }
}
