/** The extension's module-level state and the callbacks that change it:
    rendering overlays, switching styles, following the expression image,
    the settings handlers, loading and unloading. */
module ExpressionAvatar {
  import opened Wrappers
  import opened Config
  import opened Chat
  import opened RenderProperties

  class Extension {
    var settings: Settings
    var currentExpressionUrl: string
    /** `styleElement` is not null. Once created it is never reset to null. */
    var hasStyleElement: bool
    /** The style element is attached to the document head. */
    var styleInDocument: bool
    /** The style element holds the feature's CSS rather than the empty string. */
    var styleNonEmpty: bool
    /** The text of the mode toggle button. */
    var toggleLabel: string
    /** The host's `#chat` messages, with the overlays and avatar styles the extension put there. */
    var chat: seq<Message>
    /** The identity the next overlay created will get. */
    var nextId: nat

    ghost predicate Valid()
      reads this
    {
      && IdsBelow(chat, nextId)
      && (styleInDocument ==> hasStyleElement)
    }

    /** The mode button reads "ON" exactly when expression mode is on. */
    ghost predicate LabelShowsMode()
      reads this
    {
      toggleLabel == if settings.expressionMode then "ON" else "OFF"
    }

    /** The state before the extension loads: default settings, no expression
        url, no style element, and the host's chat as it is. The mode button
        label holds "OFF", which means nothing until `Load` creates the
        settings markup and sets it from the mode. */
    constructor (hostChat: seq<Message>)
      ensures Valid() && LabelShowsMode()
      ensures settings == Defaults && currentExpressionUrl == ""
      ensures !hasStyleElement && !styleInDocument && !styleNonEmpty
      ensures chat == hostChat
    {
      settings := Defaults;
      currentExpressionUrl := "";
      hasStyleElement, styleInDocument, styleNonEmpty := false, false, false;
      toggleLabel := "OFF";
      chat := hostChat;
      nextId := IdBound(hostChat);
    }

    /** The `forEach` callback of `updateMessagesWithExpression` on message `i`
        of a pass over the messages whose `is_user` is `user`: skip it without a
        wrapper; create an overlay before its avatar (or at the end) and apply
        the avatar policy when it has none; refresh the first one otherwise. */
    method ReconcileMessage(i: nat, user: bool)
      requires i < |chat| && chat[i].isUser == user
      modifies this`chat, this`nextId
      ensures chat == old(chat)[i := Step(old(chat)[i], user, settings, currentExpressionUrl, old(nextId))]
      ensures nextId == old(nextId) + if Creates(old(chat)[i], user) then 1 else 0
    {
      var message := chat[i];
      if message.wrapper.Some? {
        var wrapper := message.wrapper.value;
        if wrapper.overlays == [] {
          match wrapper.avatar {
            case Some(avatar) =>
              var styled := if settings.keepOriginal then avatar.(opacity := Set(settings.originalOpacity))
                            else avatar.(display := Set("none"));
              wrapper := Wrapper([Overlay(nextId, currentExpressionUrl, settings.avatarHeight, BeforeAvatar)], Some(styled));
            case None =>
              wrapper := Wrapper([Overlay(nextId, currentExpressionUrl, settings.avatarHeight, Appended)], None);
          }
          nextId := nextId + 1;
        } else {
          var first := wrapper.overlays[0].(background := currentExpressionUrl, height := settings.avatarHeight);
          wrapper := wrapper.(overlays := [first] + wrapper.overlays[1..]);
        }
        chat := chat[i := message.(wrapper := Some(wrapper))];
      }
    }

    /** One `forEach` of `updateMessagesWithExpression`, over the messages whose
        `is_user` is `user`. */
    method RenderPass(user: bool)
      modifies this`chat, this`nextId
      ensures chat == Pass(old(chat), user, settings, currentExpressionUrl, old(nextId))
      ensures nextId == old(nextId) + Creations(old(chat), user)
    {
      ghost var c0 := chat;
      ghost var done := Pass(c0, user, settings, currentExpressionUrl, nextId);
      var i := 0;
      while i < |chat|
        invariant 0 <= i <= |chat| == |c0| == |done|
        invariant forall k :: 0 <= k < i ==> chat[k] == done[k]
        invariant forall k :: i <= k < |chat| ==> chat[k] == c0[k]
        invariant nextId == old(nextId) + Creations(c0[..i], user)
      {
        PassAt(c0, user, settings, currentExpressionUrl, old(nextId), i);
        if chat[i].isUser == user {
          ReconcileMessage(i, user);
        }
        CreationsStep(c0, user, i);
        i := i + 1;
      }
      assert c0[..|c0|] == c0;
    }

    /** `updateMessagesWithExpression`: nothing without an expression url; else
        the AI messages, then the user messages when `replaceAll` is set. */
    method Render()
      requires Valid()
      modifies this`chat, this`nextId
      ensures Valid()
      ensures chat == RenderChat(old(chat), settings, currentExpressionUrl, old(nextId))
      ensures nextId == old(nextId) + RenderCreations(old(chat), settings, currentExpressionUrl, old(nextId))
    {
      if currentExpressionUrl == "" {
        return;
      }
      RenderIdsBelow(chat, settings, currentExpressionUrl, nextId);
      RenderPass(false);
      if settings.replaceAll {
        RenderPass(true);
      }
    }

    /** Remove every overlay, then clear the inline opacity and display of every avatar. */
    method RemoveOverlays()
      modifies this`chat
      ensures chat == Teardown(old(chat))
      ensures NoOverlays(chat) && AvatarsRestored(chat)
    {
      ghost var c0 := chat;
      var i := 0;
      while i < |chat|
        invariant 0 <= i <= |chat| == |c0|
        invariant forall k :: 0 <= k < i ==> chat[k] == WithoutOverlays(c0[k])
        invariant forall k :: i <= k < |chat| ==> chat[k] == c0[k]
      {
        if chat[i].wrapper.Some? {
          chat := chat[i := chat[i].(wrapper := Some(chat[i].wrapper.value.(overlays := [])))];
        }
        i := i + 1;
      }
      i := 0;
      while i < |chat|
        invariant 0 <= i <= |chat| == |c0|
        invariant forall k :: 0 <= k < i ==> chat[k] == RestoreAvatar(WithoutOverlays(c0[k]))
        invariant forall k :: i <= k < |chat| ==> chat[k] == WithoutOverlays(c0[k])
      {
        var message := chat[i];
        if message.wrapper.Some? && message.wrapper.value.avatar.Some? {
          var avatar := message.wrapper.value.avatar.value;
          chat := chat[i := message.(wrapper := Some(message.wrapper.value.(avatar := Some(avatar.(opacity := Unset, display := Unset)))))];
        }
        i := i + 1;
      }
      TeardownClears(c0);
    }

    /** What `updateStyles` leaves behind: with a style element, CSS exactly when
        the extension is enabled, and the chat rendered or torn down; without
        one, nothing changed. */
    twostate predicate StylesUpdated()
      reads this
    {
      && hasStyleElement == old(hasStyleElement)
      && styleInDocument == old(styleInDocument)
      && if hasStyleElement then
           && styleNonEmpty == settings.enabled
           && chat == Restyle(old(chat), settings, currentExpressionUrl, old(nextId))
           && nextId == old(nextId) + RestyleCreations(old(chat), settings, currentExpressionUrl, old(nextId))
         else
           && styleNonEmpty == old(styleNonEmpty)
           && chat == old(chat)
           && nextId == old(nextId)
    }

    /** `updateStyles`. */
    method UpdateStyles()
      requires Valid()
      modifies this`styleNonEmpty, this`chat, this`nextId
      ensures Valid() && StylesUpdated()
    {
      if !hasStyleElement {
        return;
      }
      styleNonEmpty := settings.enabled;
      if settings.enabled && settings.expressionMode {
        Render();
      } else {
        RemoveOverlays();
      }
    }

    /** `updateCurrentExpression`, given the expression image's `src` (`None`
        when the element is missing): a missing element or an empty `src`
        changes nothing; otherwise the url is taken, styles are updated, and
        the messages are rendered once more when the extension and expression
        mode are both on. */
    method UpdateCurrentExpression(src: Option<string>)
      requires Valid()
      modifies this`currentExpressionUrl, this`styleNonEmpty, this`chat, this`nextId
      ensures Valid()
      ensures src.None? || src.value == "" ==>
        && currentExpressionUrl == old(currentExpressionUrl) && styleNonEmpty == old(styleNonEmpty)
        && chat == old(chat) && nextId == old(nextId)
      ensures src.Some? && src.value != "" ==> currentExpressionUrl == src.value
      ensures src.Some? && src.value != "" && hasStyleElement ==>
        && styleNonEmpty == settings.enabled
        && chat == Restyle(old(chat), settings, currentExpressionUrl, old(nextId))
        && nextId == old(nextId) + RestyleCreations(old(chat), settings, currentExpressionUrl, old(nextId))
      ensures src.Some? && src.value != "" && !hasStyleElement ==>
        && styleNonEmpty == old(styleNonEmpty)
        && var on := settings.enabled && settings.expressionMode;
        && chat == (if on then RenderChat(old(chat), settings, currentExpressionUrl, old(nextId)) else old(chat))
        && nextId == old(nextId) + (if on then RenderCreations(old(chat), settings, currentExpressionUrl, old(nextId)) else 0)
    {
      if src.Some? && src.value != "" {
        currentExpressionUrl := src.value;
        ghost var c0, id0 := chat, nextId;
        UpdateStyles();
        if settings.enabled && settings.expressionMode {
          if hasStyleElement {
            RenderIdempotent(c0, settings, currentExpressionUrl, id0, nextId);
          }
          Render();
        }
      }
    }

    /** The chat observer's callback, after the host changed `#chat` to
        `hostChat`: render when the extension and expression mode are both on.
        Identities handed out from here on stay above those in `hostChat`. */
    method OnChatMutation(hostChat: seq<Message>)
      requires Valid()
      modifies this`chat, this`nextId
      ensures Valid()
      ensures nextId >= old(nextId)
      ensures var id0 := if IdBound(hostChat) > old(nextId) then IdBound(hostChat) else old(nextId);
        chat == if settings.enabled && settings.expressionMode then RenderChat(hostChat, settings, currentExpressionUrl, id0)
                else hostChat
    {
      chat := hostChat;
      var bound := IdBound(hostChat);
      if bound > nextId {
        nextId := bound;
      }
      if settings.enabled && settings.expressionMode {
        Render();
      }
    }

    /** `updateToggleButton`. */
    method UpdateToggleButton()
      modifies this`toggleLabel
      ensures LabelShowsMode()
    {
      toggleLabel := if settings.expressionMode then "ON" else "OFF";
    }

    /** The `ea-enabled` checkbox handler. */
    method SetEnabled(on: bool)
      requires Valid() && LabelShowsMode()
      modifies this`settings, this`styleNonEmpty, this`chat, this`nextId
      ensures Valid() && LabelShowsMode()
      ensures settings == old(settings).(enabled := on) && StylesUpdated()
    {
      settings := settings.(enabled := on);
      UpdateStyles();
    }

    /** The mode button handler: flip expression mode and relabel the button. */
    method ToggleMode()
      requires Valid()
      modifies this`settings, this`toggleLabel, this`styleNonEmpty, this`chat, this`nextId
      ensures Valid() && LabelShowsMode()
      ensures settings == FlipMode(old(settings)) && StylesUpdated()
    {
      settings := FlipMode(settings);
      UpdateToggleButton();
      UpdateStyles();
    }

    /** The `ea-replace-all` checkbox handler. */
    method SetReplaceAll(on: bool)
      requires Valid() && LabelShowsMode()
      modifies this`settings, this`styleNonEmpty, this`chat, this`nextId
      ensures Valid() && LabelShowsMode()
      ensures settings == old(settings).(replaceAll := on) && StylesUpdated()
    {
      settings := settings.(replaceAll := on);
      UpdateStyles();
    }

    /** The `ea-avatar-height` slider handler. */
    method SetAvatarHeight(height: int)
      requires Valid() && LabelShowsMode()
      modifies this`settings, this`styleNonEmpty, this`chat, this`nextId
      ensures Valid() && LabelShowsMode()
      ensures settings == old(settings).(avatarHeight := height) && StylesUpdated()
    {
      settings := settings.(avatarHeight := height);
      UpdateStyles();
    }

    /** The `ea-mobile-height` slider handler. */
    method SetMobileHeight(height: int)
      requires Valid() && LabelShowsMode()
      modifies this`settings, this`styleNonEmpty, this`chat, this`nextId
      ensures Valid() && LabelShowsMode()
      ensures settings == old(settings).(mobileHeight := height) && StylesUpdated()
    {
      settings := settings.(mobileHeight := height);
      UpdateStyles();
    }

    /** The `ea-keep-original` checkbox handler. */
    method SetKeepOriginal(keep: bool)
      requires Valid() && LabelShowsMode()
      modifies this`settings, this`styleNonEmpty, this`chat, this`nextId
      ensures Valid() && LabelShowsMode()
      ensures settings == old(settings).(keepOriginal := keep) && StylesUpdated()
    {
      settings := settings.(keepOriginal := keep);
      UpdateStyles();
    }

    /** The `ea-original-opacity` slider handler. */
    method SetOriginalOpacity(percent: int)
      requires Valid() && LabelShowsMode()
      modifies this`settings, this`styleNonEmpty, this`chat, this`nextId
      ensures Valid() && LabelShowsMode()
      ensures settings == old(settings).(originalOpacity := percent) && StylesUpdated()
    {
      settings := settings.(originalOpacity := percent);
      UpdateStyles();
    }

    /** The reset button handler: back to the defaults, button relabelled. */
    method ResetSettings()
      requires Valid()
      modifies this`settings, this`toggleLabel, this`styleNonEmpty, this`chat, this`nextId
      ensures Valid() && LabelShowsMode()
      ensures settings == Defaults && StylesUpdated()
    {
      settings := Defaults;
      UpdateToggleButton();
      UpdateStyles();
    }

    /** `loadSettings`, given the stored object (`None` when nothing usable is
        stored): the defaults overlaid with the stored values. */
    method LoadSettings(saved: Option<map<string, Value>>)
      requires saved.Some? ==> Conforms(saved.value)
      modifies this`settings
      ensures settings == if saved.Some? then LoadedSettings(saved.value) else old(settings)
    {
      if saved.Some? {
        settings := FromMap(Merge(ToMap(Defaults), saved.value));
      }
    }

    /** `onExtensionLoad`, given the stored settings and the expression image's
        `src`: a fresh empty style element, the settings loaded, the url taken,
        and the chat restyled once. */
    method Load(saved: Option<map<string, Value>>, expressionSrc: Option<string>)
      requires Valid()
      requires saved.Some? ==> Conforms(saved.value)
      modifies this
      ensures Valid() && LabelShowsMode()
      ensures hasStyleElement && styleInDocument && styleNonEmpty == settings.enabled
      ensures settings == if saved.Some? then LoadedSettings(saved.value) else old(settings)
      ensures currentExpressionUrl ==
        if expressionSrc.Some? && expressionSrc.value != "" then expressionSrc.value else old(currentExpressionUrl)
      ensures chat == Restyle(old(chat), settings, currentExpressionUrl, old(nextId))
      ensures nextId == old(nextId) + RestyleCreations(old(chat), settings, currentExpressionUrl, old(nextId))
    {
      hasStyleElement, styleInDocument, styleNonEmpty := true, true, false;
      toggleLabel := "OFF";
      LoadSettings(saved);
      ghost var c0, id0 := chat, nextId;
      UpdateCurrentExpression(expressionSrc);
      ghost var id1 := nextId;
      RestyleIdempotent(c0, settings, currentExpressionUrl, id0, id1);
      UpdateStyles();
      assert chat == Restyle(c0, settings, currentExpressionUrl, id0);
      UpdateToggleButton();
      ghost var id2 := nextId;
      RestyleIdempotent(c0, settings, currentExpressionUrl, id0, id2);
      UpdateCurrentExpression(expressionSrc);
    }

    /** `onExtensionUnload`: detach the style element, remove every overlay and
        clear every avatar's inline opacity and display. */
    method Unload()
      requires Valid()
      modifies this`styleInDocument, this`chat
      ensures Valid()
      ensures !styleInDocument && chat == Teardown(old(chat))
    {
      if hasStyleElement {
        styleInDocument := false;
      }
      RemoveOverlays();
    }
  }

  /** Unloading twice leaves the state one unload leaves. */
  method UnloadTwice(e: Extension)
    requires e.Valid()
    modifies e`styleInDocument, e`chat
    ensures e.Valid()
    ensures !e.styleInDocument && e.chat == Teardown(old(e.chat))
    ensures e.settings == old(e.settings) && e.hasStyleElement == old(e.hasStyleElement)
    ensures e.styleNonEmpty == old(e.styleNonEmpty) && e.nextId == old(e.nextId)
    ensures e.currentExpressionUrl == old(e.currentExpressionUrl) && e.toggleLabel == old(e.toggleLabel)
  {
    e.Unload();
    e.Unload();
    TeardownIdempotent(old(e.chat));
  }

  /** Unloading removes overlays from `#chat`, a change the chat observer,
      still connected, reports. With the extension and expression mode on, its
      callback renders again: every reached message with a wrapper gets a new
      overlay, and its avatar, if it has one, the policy once more. */
  method UnloadThenChatMutation(e: Extension, k: nat)
    requires e.Valid() && e.settings.enabled && e.settings.expressionMode && e.currentExpressionUrl != ""
    requires k < |e.chat| && Reached(e.chat[k], e.settings)
    requires e.chat[k].wrapper.Some?
    modifies e`styleInDocument, e`chat, e`nextId
    ensures e.Valid() && !e.styleInDocument
    ensures |e.chat| == |old(e.chat)| && e.chat[k].wrapper.Some?
    ensures |e.chat[k].wrapper.value.overlays| == 1
    ensures e.chat[k].wrapper.value.overlays[0].background == e.currentExpressionUrl
    ensures e.chat[k].wrapper.value.avatar.Some? ==>
      e.chat[k].wrapper.value.avatar == Some(StyleAvatar(Avatar(Unset, Unset), e.settings))
  {
    e.Unload();
    ghost var t := e.chat;
    ghost var n := e.nextId;
    e.OnChatMutation(e.chat);
    ghost var id0 := if IdBound(t) > n then IdBound(t) else n;
    RenderCreatesOverlay(t, e.settings, e.currentExpressionUrl, id0, k);
  }
}
