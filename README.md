# OSE item entity: tags, roll requests and chat-card actions

A Dafny model of the decision logic in `OseItem`, the item class of the
Old-School Essentials system for Foundry VTT (`src/module/item/entity.js`).
The model covers three parts:

- **Tag codec** (module `TagCodec`). `pushTag` parses free-text tags of the
  form `"Value (title)"` with the pattern `/\(([^)]+)\)/`. It appends the
  parsed tags to the item's tag list and switches on the `melee`, `slow` and
  `missile` flags whose configured keyword a parsed value equals. `popTag`
  filters tags out by value. Both return the data patch that the source hands
  to `this.update`. `pushTag` keeps its loop: `PushTag` is a method that copies the existing
  tags and then appends one parsed tag per input in a `while` loop.
- **Roll requests** (module `ActionResolver`). `rollWeapon` picks a melee,
  missile or raw attack, or returns the pending two-way choice that the source
  shows as a dialog. `rollFormula` builds the formula request or reports the
  missing-formula error. `spendSpell` persists the decremented counter before
  it rolls. `roll` returns early for weapons; for any other item it builds the
  chat card, whose whisper and blind fields follow the roll mode.
- **Chat-card actions** (module `ChatCards`). `_getChatCardActor` resolves the
  actor from a `"sceneId.tokenId"` key or from an actor id.
  `_getChatCardTargets` collects the save targets. `_onChatCardAction`
  handles one click. `ChatCardButton` is a class with the button's `disabled`
  field and a log of what clicks do: each write to `button.disabled`, and
  the notifications and roll calls between those writes, in order.
  `Dispatch` states, as a function of its inputs, what one click does.

Host state is passed in as parameters: the scenes, actors and messages
(`World`), the current user, the controlled tokens, the roll-mode setting,
the GM recipients and the tag keywords of `CONFIG.OSE.tags`. Calls into the
host and the dice roller (`rollAttack`, `rollDamage`, `rollSave`,
`OseDice.Roll`, `this.update`, `ChatMessage.create`) become returned requests
or log entries. What they compute is not modelled.

Modules `Text` (JavaScript `trim` and `split`), `Items` (the data model) and
`Wrappers` (`Option`, `Result`) support the three above.

The model keeps these behaviours of the code:

- A card whose actor cannot be resolved ends silently. No notification is
  shown.
- The button is re-enabled only on the empty-targets warning and at the
  normal end. An unauthorized click, a missing message, actor or item, and a
  thrown formula error all leave it disabled.
- The first parenthetical anywhere in the input is taken, not only a trailing
  one. Text after its `)` is dropped.
- Removing a tag never clears a flag that the tag once set.

## Model

| member | source | states |
|---|---|---|
| Text.Trim | src/module/item/entity.js:197-199 | `trim()` gives a slice of the input with no white space at either end, and everything cut from either end is ECMAScript white space |
| Text.TrimIdempotent | src/module/item/entity.js:197-199 | trimming twice is trimming once |
| Text.TrimTrailingBlank | src/module/item/entity.js:197 | the blank before `(` in `"Value (title)"` is trimmed off a trimmed value |
| Text.Split | src/module/item/entity.js:356 | `split(".")` yields at least one piece and no piece contains the separator |
| Text.JoinSplit | src/module/item/entity.js:356 | joining the pieces of `split` with the separator gives back the string |
| Text.SplitAtSeparator | src/module/item/entity.js:356 | a dot-free prefix is cut off exactly at the separator that follows it |
| Text.SplitPair | src/module/item/entity.js:244 | splitting `"x.y"` with dot-free parts yields exactly `[x, y]` |
| TagCodec.CloseFrom | src/module/item/entity.js:189 | finds the first `)` at or after a position, or reports that there is none |
| TagCodec.ExecFrom | src/module/item/entity.js:189-193 | the scan returns a match of `/\(([^)]+)\)/` (a `(`, at least one non-`)` character, a `)`) with no match starting earlier in the scanned range, or none exists there |
| TagCodec.Exec | src/module/item/entity.js:193 | `exec` returns the leftmost match and its captured group, or no match exists anywhere |
| TagCodec.ParseTag | src/module/item/entity.js:193-201 | one turn of the `forEach` parse; no contract of its own, since `ParseTagMeaning`, `ParseAnnotated` and `ParsePlain` state its result |
| TagCodec.ParseTagMeaning | src/module/item/entity.js:189-201 | with a first parenthetical, the value is the trimmed text before its `(` and the title its contents, untrimmed; with none, title and value are both the trimmed input |
| TagCodec.ParseAnnotated | src/module/item/entity.js:189-201 | `value + " (" + title + ")" + rest` parses back to that value and title, whatever `rest` holds |
| TagCodec.ParsePlain | src/module/item/entity.js:198-201 | input without `(` parses to its trimmed text as both value and title |
| TagCodec.ParseAll | src/module/item/entity.js:191-215 | one parsed tag per input value, in input order |
| TagCodec.KeywordFlag | src/module/item/entity.js:203-213 | the `switch` picks melee if the value equals the melee keyword, else slow, else missile, else no flag |
| TagCodec.DerivedFlags | src/module/item/entity.js:202-213 | each flag is derived iff some tag value equals its keyword and no earlier `switch` case takes that value |
| TagCodec.PushTag | src/module/item/entity.js:182-221 | the existing tags (none if the field is absent) stay an unchanged prefix, one parsed tag per input follows in order with no deduplication, and the patch switches on exactly the derived flags and never clears one |
| TagCodec.DerivedFlagsOrderIndependent | src/module/item/entity.js:202-213 | the derived flags depend only on which tags are present, not on their order or on repetitions |
| TagCodec.Without | src/module/item/entity.js:225 | the filter never lengthens the list |
| TagCodec.WithoutMembers | src/module/item/entity.js:225 | the filter keeps exactly the tags whose value differs from the removed one |
| TagCodec.WithoutConcat | src/module/item/entity.js:225 | the filter distributes over concatenation, so the kept tags stay in their original order |
| TagCodec.WithoutAbsent | src/module/item/entity.js:225 | removing a value that no tag carries changes nothing |
| TagCodec.WithoutAll | src/module/item/entity.js:225 | removing the value that every tag carries leaves no tags |
| TagCodec.WithoutIdempotent | src/module/item/entity.js:225 | removing a value twice is removing it once |
| TagCodec.PopTag | src/module/item/entity.js:223-230 | fails iff the tag list is absent; otherwise patches only `tags`, with every tag of that value removed and the rest in order, and sets no flag |
| TagCodec.PopUndoesPush | src/module/item/entity.js:182-230 | popping a value restores a list that had no tag of that value, after tags of only that value were pushed onto it |
| ActionResolver.RollWeapon | src/module/item/entity.js:48-102 | an item without an owner fails, as `this.actor.data` throws; otherwise a character with a melee-and-missile weapon gets a pending choice: melee with the bonus, missile without. Otherwise a character attacks missile, then melee, then raw, and every other actor type attacks raw; the direct attack carries the bonus |
| ActionResolver.RollFormula | src/module/item/entity.js:104-136 | fails iff `data.roll` is falsy; otherwise the request has the single part `data.roll`, no dialog, the item's label, and roll data holding the roll type, target and blind flag |
| ActionResolver.SpendSpell | src/module/item/entity.js:138-146 | the update writing `cast - 1` comes first and happens once; exactly one roll (with no dialog) follows it iff the update succeeded, and none otherwise |
| ActionResolver.ApplyRollMode | src/module/item/entity.js:271-276 | `gmroll` and `blindroll` whisper to the GMs, `selfroll` only to the current user, only `blindroll` sets blind, and other modes change neither field |
| ActionResolver.Roll | src/module/item/entity.js:236-280 | an item without an owner fails on both paths, as `this.actor` throws; otherwise a weapon goes through `rollWeapon` and creates no chat card; any other item gets a card addressed to its actor, token and item, from the current user, with the roll mode's visibility |
| ActionResolver.TokenKey | src/module/item/entity.js:244 | a key exists iff the actor has a token, and when neither id holds a dot, splitting the key on `.` gives back the scene id and the token id |
| ActionResolver.CardAddressOf | src/module/item/entity.js:241-245 | the address the card of `roll` carries; no contract of its own, since `RolledCardFindsActor`, `RolledCardResolves` and `RolledTokenCardResolves` state where it leads |
| ChatCards.TokenAt | src/module/item/entity.js:356-360 | the scene-then-token lookup; no contract of its own, since `GetChatCardActor` states its outcome |
| ChatCards.GetChatCardActor | src/module/item/entity.js:352-368 | with a token key, only the scene and token named by the two dot-separated pieces decide, and a missing one gives null with no fallback to the actor id; without a token key, the actor is looked up by id |
| ChatCards.RolledCardFindsActor | src/module/item/entity.js:241-244 | the card `roll` renders resolves to the actor's token actor, or to the actor of its id when it has no token |
| ChatCards.ActorsOf | src/module/item/entity.js:373-376 | the `reduce` yields at most one actor per token |
| ChatCards.ActorsOfMembers | src/module/item/entity.js:373-376 | the `reduce` keeps exactly the actors of tokens that have one |
| ChatCards.ActorsOfConcat | src/module/item/entity.js:373-376 | collecting actors distributes over concatenation, so the target order follows the token order |
| ChatCards.CardTargets | src/module/item/entity.js:370-379 | targets are the controlled tokens' actors; with zero tokens controlled the targets are exactly the character, once, or nothing without one; a controlled token without an actor still blocks that fallback |
| ChatCards.GetChatCardTargets | src/module/item/entity.js:370-379 | the loop with its final conditional push computes exactly those targets |
| ChatCards.ResolveCard | src/module/item/entity.js:310-324 | a save is always permitted; any other action is refused iff the user is neither GM nor the message's author; then the actor, then the owned item, is resolved |
| ChatCards.RolledCardResolves | src/module/item/entity.js:241-246 | a card rolled for an actor without a token resolves back to that actor and item for a permitted user: a save click, a GM or the message's author |
| ChatCards.RolledTokenCardResolves | src/module/item/entity.js:241-246 | a card rolled for a token actor whose token still stands on its scene resolves back to that actor and item for a permitted user |
| ChatCards.SaveRolls | src/module/item/entity.js:343-345 | one save roll per target actor, in target order, with the button's save kind |
| ChatCards.Dispatch | src/module/item/entity.js:299-350 | each resolution outcome (missing message, refused permission, missing actor, missing item) gives its own exit and no other does; an unauthorized or missing-actor click makes no call; a missing item makes one error notification; a save with no targets makes one warning and re-enables; otherwise one roll, or the saves of all targets in order, and re-enable; every other exit leaves the button disabled |
| ChatCards.DispatchMakesOnlyCalls | src/module/item/entity.js:310-346 | between the first and last writes to `button.disabled`, a dispatch makes only notifications and roll calls |
| ChatCards.ShowsDisabledAfterCalls | src/module/item/entity.js:320-346 | notifications and roll calls do not change the button's state |
| ChatCards.CallsWhileDisabled | src/module/item/entity.js:304-349 | in the log of a dispatch, every notification and roll comes after `button.disabled = true` and before any re-enabling write, and the last write leaves the button in the state the dispatch leaves it in |
| ChatCards.ChatCardButton.OnChatCardAction | src/module/item/entity.js:299-350 | appends to the log the write `button.disabled = true` before any check, then the calls `Dispatch` states, then the re-enabling write only where `Dispatch` re-enables the button; the `disabled` field ends as that last write set it |
| ChatCards.ChatCardButton.RollSaves | src/module/item/entity.js:343-345 | the `for` loop appends one save roll per target, in target order, and leaves `disabled` as it was |
| ChatCards.ChatCardButton.Click | src/module/item/entity.js:19 | a click on a disabled button changes nothing; on an enabled one the handler runs; either way the field keeps agreeing with the last write in the log |

## Left out

- The `Dialog` of `rollWeapon` (lines 54-89) is not rendered. `RollWeapon` returns a `PendingChoice` holding the two attack requests that its buttons would send.
- The `options` that `roll` and `rollWeapon` forward to `rollAttack`, and the `event` passed to the other rolls, are not modelled. They are forwarded unread.
- What `rollAttack`, `rollDamage`, `rollSave`, `OseDice.Roll`, `ChatMessage.create` and `this.update` compute is not modelled. These are host and dice-library calls. They appear as returned requests, patches and log entries. A rejection by any of them, other than the `spendSpell` update, is not modelled.
- `Text.Trim` covers only the white-space code points of the ECMAScript standard. It does no Unicode normalisation.
- The HTML pieces are not modelled: `renderTemplate`, `TextEditor.enrichHTML`, `getChatData`, `getTags` and the chat-message content. `prepareData`, `_onChatCardToggleContent`, `chatListeners` and i18n formatting of flavor and title are also left out. They are presentation only.
- `new Token(tokenData).actor` and `message.isAuthor` are host lookups. They are modelled as a token's stored actor and as a comparison of the message's author with the user id.
- Several cards' buttons can be processed interleaved across `await` points. This is not modelled: each dispatch runs to completion, and the per-button `disabled` field is the only guard.
- The `else` branch of `pushTag` (`update = values`) is dead code, because an array is always truthy. It is not modelled.
- `Roll` does not model the `skipDialog` argument. It reaches only `rollWeapon`, as an opaque option.
- The model assumes the host's item class provides `rollDamage`. `OseItem` does not define it, and without it the `damage` action would throw and leave the button disabled.
- `FormulaRequest` leaves out the item data spread into the roll data and the message speaker. `ChatData` leaves out the message `type` and `speaker.token`. No stated property reads them.
