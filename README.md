# Expression Avatar: a Dafny model of the avatar overlay reconciler

Expression Avatar is a plugin for a chat application. It watches the host's
expression image (`#expression-image`) and the chat (`#chat`). Into each chat
message's avatar wrapper (`.mesAvatarWrapper`) it places an overlay
(`.ea-expression-image`) that shows the current expression image. It restyles
or hides the original avatar (`.avatar`), and it installs a small style
element. This project models that reconciler, with the DOM reduced to data,
and proves what it does.

- `wrappers.dfy` (`Wrappers`): the `Option` type. `None` stands for a DOM element that is missing.
- `config.dfy` (`Config`): the seven settings and their defaults. It also holds
  the key/value object the settings are saved as, the defaults merge done by
  `loadSettings`, and the mode flip.
- `chat.dfy` (`Chat`): the chat as data. A message has an `isUser` flag and an
  optional wrapper. A wrapper holds its overlays in document order and an
  optional avatar with inline opacity and display. The functions in this module
  specify one render pass (`Pass`), the render (`RenderChat`), the teardown
  (`Teardown`) and the choice `updateStyles` makes between them (`Restyle`).
- `render_properties.dfy` (`RenderProperties`): lemmas about these functions.
  They cover coverage, idempotence, identity, the `replaceAll` gate, the avatar
  policy and teardown.
- `extension.dfy` (`ExpressionAvatar`): the class `Extension`. It holds the
  module-level state (`settings`, `currentExpressionUrl`, the style element,
  the mode button's label, the chat). Its methods are the source's functions
  and event handlers, written as loops over the chat that update these fields
  in place. Each method is proved against the functions above.

Overlay identity is modelled as a number. Each overlay created takes the
identity held in the field `nextId`, which then moves past it. `Valid()` keeps
every identity in the chat below `nextId`, so an overlay created later is
always a new node. The avatar's opacity is kept as the integer percentage
`originalOpacity`, which stands for the source's `originalOpacity / 100`.

In these places the code does something a reader might not expect, and the model follows the code:

- The avatar policy (opacity, or `display: none`) is applied only when an
  overlay is created. A message whose overlay already exists keeps its avatar's
  inline styles, even after `keepOriginal` or `originalOpacity` changes
  (`ExistingAvatarKeepsOldPolicy`).
- With `replaceAll` off, a render leaves user messages alone. An overlay they
  already carry is kept, not removed (`UserOverlayOutlivesReplaceAll`).
- Loading settings keeps saved keys the defaults do not know (`Merge`). It does not drop them.
- Unload detaches the style element but never resets the `styleElement`
  variable to null. It also leaves the observers connected. So a later
  `updateStyles` or expression change still writes the CSS and renders, and
  the model lets these methods run after `Unload` with that effect.
- The overlays that unload removes sit inside `#chat`, so their removal is a
  change the chat observer reports. When the extension and expression mode are
  both on, which is the only case in which overlays exist, its callback renders
  again. It re-creates an overlay for every reached message and applies the
  avatar policy again, so the teardown does not last (`UnloadThenChatMutation`).

## Model

| member | source | states |
|---|---|---|
| `Config.ToMap` | index.js:224-226 | the saved object holds exactly the seven setting keys, each with that setting's value |
| `Config.Merge` | index.js:232 | merging keeps every key of both objects; a saved value wins; keys only in the defaults keep the default value; unknown saved keys are kept |
| `Config.LoadedSettings` | index.js:229-234 | each loaded setting is the saved value when the saved object has that key, and the default otherwise |
| `Config.SaveThenLoad` | index.js:224-234 | loading what was saved gives back the same settings |
| `Config.LoadWithoutKnownKeys` | index.js:7-15 | a saved object with none of the seven keys loads as the defaults, whatever unknown keys it carries |
| `Config.FlipMode` | index.js:133 | the toggle inverts `expressionMode` and changes no other setting |
| `Config.FlipModeTwice` | index.js:133 | two toggles restore the settings |
| `RenderProperties.CreationsPrefix` | index.js:312-314 | a longer prefix of the chat creates at least as many overlays, and one more when the message in between creates one |
| `RenderProperties.PassRenders` | index.js:305-344 | after one pass, every message of that author with a wrapper has a first overlay showing the url at `avatarHeight` |
| `RenderProperties.PassFixesRendered` | index.js:310-312 | a pass over messages that are already up to date changes nothing and creates no overlay |
| `RenderProperties.PassNewIdsAbove` | index.js:312-314 | every overlay a pass creates gets an identity at or above the counter it started from |
| `RenderProperties.PassIdsBelow` | index.js:312-314 | after a pass, all identities are below the counter advanced by the number created, and the created ones are at or above the old counter |
| `RenderProperties.PassKeepsShape` | index.js:305-344 | a pass keeps the messages, authors, wrappers and avatars, and adds no second overlay to a wrapper |
| `RenderProperties.PassKeepsOthers` | index.js:305-308 | a pass does not change messages of the other author or messages without a wrapper |
| `RenderProperties.RenderCovers` | index.js:301-384 | with a non-empty url, every AI message with a wrapper, and with `replaceAll` every user message with one, has a first overlay showing the url at `avatarHeight` |
| `RenderProperties.RenderIdempotent` | index.js:309-312 | a second render returns the chat of the first and creates no overlay |
| `RenderProperties.RenderSkips` | index.js:302-308 | with an empty url, with no wrapper, or for a user message without `replaceAll`, the message is left exactly as it was |
| `RenderProperties.RenderCreatesOverlay` | index.js:312-337 | a reached wrapper with no overlay gets exactly one overlay; it has a new identity, the url, `avatarHeight`, and sits before the avatar or is appended; the avatar gets the opacity percentage or is hidden |
| `RenderProperties.RenderRefreshesOverlay` | index.js:338-341 | a reached wrapper that has an overlay keeps it (same identity and position); only its background and height change; later overlays and the avatar's inline styles are untouched |
| `RenderProperties.RenderNewIdsDistinct` | index.js:347-383 | two overlays created by one render, in either pass, have different identities |
| `RenderProperties.RenderIdsBelow` | index.js:301-384 | after a render, every identity is below the counter advanced by the number of overlays created |
| `RenderProperties.RenderKeepsShape` | index.js:301-384 | a render keeps messages, authors, wrappers and avatars; a wrapper with at most one overlay still has at most one |
| `RenderProperties.TeardownClears` | index.js:410-421 | after teardown there is no overlay anywhere, every avatar has opacity and display cleared, and the messages are kept |
| `RenderProperties.TeardownIdempotent` | index.js:432-443 | tearing down twice is tearing down once |
| `RenderProperties.RestyleIdempotent` | index.js:406-422 | applying the style switch twice gives the chat of one application, and the second creates no overlay |
| `RenderProperties.RestyleOffClears` | index.js:407-422 | unless both `enabled` and `expressionMode` hold, the style switch leaves no overlay and no inline avatar style |
| `RenderProperties.ExistingAvatarKeepsOldPolicy` | index.js:326-341 | for any chat, any two settings and any second url, an avatar whose overlay the first render created keeps the first settings' policy through the second render, whether or not the second render reaches that message |
| `RenderProperties.UserOverlayOutlivesReplaceAll` | index.js:347-383 | with the extension enabled, in expression mode and with `replaceAll` off, `updateStyles` leaves every user message exactly as it was, an existing overlay included |
| `ExpressionAvatar.Extension.constructor` | index.js:17-24 | the initial state: default settings, empty url, no style element |
| `ExpressionAvatar.Extension.ReconcileMessage` | index.js:306-344 | the `forEach` callback: the message becomes the pass's step for it, and the counter moves only when an overlay is created |
| `ExpressionAvatar.Extension.RenderPass` | index.js:305-345 | the loop over one author's messages produces exactly `Pass` of the old chat and advances the counter by the number created |
| `ExpressionAvatar.Extension.Render` | index.js:301-384 | the chat becomes `RenderChat` of the old chat; `Valid` is kept |
| `ExpressionAvatar.Extension.RemoveOverlays` | index.js:410-421 | the two loops turn the chat into `Teardown` of the old chat: no overlays, avatars cleared |
| `ExpressionAvatar.Extension.UpdateStyles` | index.js:387-423 | with no style element, nothing changes; otherwise the CSS is non-empty iff `enabled`, and the chat is rendered when `enabled && expressionMode` and torn down otherwise |
| `ExpressionAvatar.Extension.UpdateCurrentExpression` | index.js:288-298 | a missing element or empty `src` changes nothing; otherwise the url is taken and the chat ends up rendered once or torn down |
| `ExpressionAvatar.Extension.OnChatMutation` | index.js:274-278 | after the host changes the chat, it is rendered only when `enabled && expressionMode` |
| `ExpressionAvatar.Extension.UpdateToggleButton` | index.js:96-107 | the button reads "ON" exactly when expression mode is on |
| `ExpressionAvatar.Extension.SetEnabled` | index.js:126-130 | `enabled` is set, then styles are updated |
| `ExpressionAvatar.Extension.ToggleMode` | index.js:132-137 | the mode is flipped, the label follows it, then styles are updated |
| `ExpressionAvatar.Extension.SetReplaceAll` | index.js:139-143 | `replaceAll` is set, then styles are updated |
| `ExpressionAvatar.Extension.SetAvatarHeight` | index.js:145-150 | `avatarHeight` is set, then styles are updated |
| `ExpressionAvatar.Extension.SetMobileHeight` | index.js:152-157 | `mobileHeight` is set, then styles are updated |
| `ExpressionAvatar.Extension.SetKeepOriginal` | index.js:159-163 | `keepOriginal` is set, then styles are updated |
| `ExpressionAvatar.Extension.SetOriginalOpacity` | index.js:165-170 | `originalOpacity` is set, then styles are updated |
| `ExpressionAvatar.Extension.ResetSettings` | index.js:172-177 | the settings equal the defaults, the label follows, then styles are updated |
| `ExpressionAvatar.Extension.LoadSettings` | index.js:229-234 | with a stored object, the settings become the defaults overlaid with it; without one they are unchanged |
| `ExpressionAvatar.Extension.Load` | index.js:110-192 | after load, a style element is attached, the settings are loaded, the url is taken when `src` is non-empty, the label shows the mode, and the chat is restyled exactly once |
| `ExpressionAvatar.Extension.Unload` | index.js:426-446 | the style element is detached, and the chat becomes `Teardown` of the old chat |
| `ExpressionAvatar.UnloadTwice` | index.js:426-446 | two unloads leave the same state as one; only the style element's attachment and the chat change |
| `ExpressionAvatar.UnloadThenChatMutation` | index.js:274-278 | after unload, the still-connected chat observer's callback gives every reached message with a wrapper one overlay showing the url again, and its avatar, if it has one, the policy again |

## Left out

- The settings markup built by `createUI` (index.js:27-93) and the value display in `loadSettingsToUI` (index.js:195-221) are left out, because they are UI only. The mode button's label is the one exception, kept because its rule is stated.
- The `MutationObserver` wiring and the body-observer retry (index.js:237-285) are event plumbing. Each callback is a direct method call: `UpdateCurrentExpression` for a `src` change, `OnChatMutation` for a chat change.
- `localStorage` and JSON (index.js:224-226, 230-232) are foreign calls. The `localStorage` write is not modelled; `Config.ToMap` stands for the object passed to `JSON.stringify`. Loading receives the parsed object as a map, or `None` when nothing is stored or the stored string is empty. A stored string that is not valid JSON makes the source throw, and that is not modelled.
- `ExpressionAvatar.Extension.LoadSettings`, `ExpressionAvatar.Extension.Load`, `Config.LoadedSettings`: these require each of the seven known keys in the stored object to hold a value of that setting's kind. `saveSettings` only ever writes such values. A hand-edited object with, for example, a string under `avatarHeight` is not modelled.
- Unknown saved keys are kept by `Merge`, but they are not carried into the settings record. Nothing reads them, and the `localStorage` write is left out.
- `Config.ToMap` gives only the seven setting keys. In the source, `JSON.stringify(settings)` (index.js:225) also writes back every unknown key that an earlier load kept (index.js:232). The model does not keep those keys, so it does not capture that they survive a save.
- `Chat.ReconcileWrapper` and the render lemmas record the overlay's background as the raw url. The source writes it as the CSS value `url('…')` (index.js:318, 340, 359, 378). A url that contains `'` makes that value invalid, and the browser ignores the assignment. A new overlay then has no background, and an existing one keeps its old one. The model does not capture that case.
- `ExpressionAvatar.Extension.Load` assumes the host has the `#extensions_settings` area. Without it, `createUI` appends nothing (index.js:87-92). Line 126 then throws on a missing element, which skips the first `updateStyles`, `loadSettingsToUI`, the second `updateCurrentExpression` and `observeMessages` (index.js:180-189). The model does not capture that failed load.
- The CSS text (index.js:390-402) is recorded only as empty or not. The overlay's width, background size, position and repeat, and its bottom margin, are cosmetic and left out.
- Opacity is the integer percentage, not the float `originalOpacity / 100`.
- The slider handlers receive integers. `parseInt` and its `NaN` result are not modelled.
- `console.log` and the `window` registration object (index.js:191, 445, 449-462) hold no logic.
- The DOM shape is simplified. An avatar is a direct child of its wrapper, and a wrapper has at most one avatar. Overlays and avatars outside a message's wrapper are not represented, although the source's teardown would also clear them. Messages whose `is_user` is neither "true" nor "false" are not represented.
- Host changes to the chat arrive as a whole new chat in `OnChatMutation`. Identities handed out afterwards stay above those found in it.
- Calling `Load` a second time would leave the first style element in the document. The model keeps only one style element.
