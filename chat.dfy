/** The host's chat DOM reduced to data, and what the reconciler does to it,
    stated as functions: the render pass (`updateMessagesWithExpression`), the
    teardown (remove every overlay, clear the avatars' inline styles) and the
    choice between them that `updateStyles` makes. */
module Chat {
  import opened Wrappers
  import opened Config

  /** An inline style property: not set (the empty string in the DOM), or set. */
  datatype StyleProp<T> = Unset | Set(value: T)

  /** Where a new overlay went: right before the wrapper's avatar, or at the
      end of the wrapper because it had no avatar. */
  datatype Position = BeforeAvatar | Appended

  /** An `.ea-expression-image` element. `id` is its identity as a DOM node;
      `background` is the url of its background image, `height` its height in px. */
  datatype Overlay = Overlay(id: nat, background: string, height: int, position: Position)

  /** An `.avatar` element; only its inline opacity (a percentage) and display matter here. */
  datatype Avatar = Avatar(opacity: StyleProp<int>, display: StyleProp<string>)

  /** A `.mesAvatarWrapper`: its overlays in document order, and its avatar if it has one. */
  datatype Wrapper = Wrapper(overlays: seq<Overlay>, avatar: Option<Avatar>)

  /** A `.mes` element of `#chat`: whether `is_user` is "true", and its avatar wrapper if any. */
  datatype Message = Message(isUser: bool, wrapper: Option<Wrapper>)

  /** The message is one a pass over `is_user == user` messages works on. */
  predicate Targeted(m: Message, user: bool) {
    m.isUser == user && m.wrapper.Some?
  }

  /** A pass over `is_user == user` messages creates an overlay for this message. */
  predicate Creates(m: Message, user: bool) {
    Targeted(m, user) && m.wrapper.value.overlays == []
  }

  /** A render visits this message: AI messages always, user messages when `replaceAll` is set. */
  predicate Reached(m: Message, s: Settings) {
    !m.isUser || s.replaceAll
  }

  /** The avatar policy applied when an overlay is created: keep the avatar at
      the configured opacity, or hide it. */
  function StyleAvatar(a: Avatar, s: Settings): Avatar {
    if s.keepOriginal then a.(opacity := Set(s.originalOpacity)) else a.(display := Set("none"))
  }

  /** One wrapper in a render pass: create an overlay (with identity `id`) when
      there is none, otherwise refresh the first one's background and height. */
  function ReconcileWrapper(w: Wrapper, s: Settings, url: string, id: nat): Wrapper {
    if w.overlays == [] then
      match w.avatar
      case Some(a) => Wrapper([Overlay(id, url, s.avatarHeight, BeforeAvatar)], Some(StyleAvatar(a, s)))
      case None => Wrapper([Overlay(id, url, s.avatarHeight, Appended)], None)
    else
      w.(overlays := [w.overlays[0].(background := url, height := s.avatarHeight)] + w.overlays[1..])
  }

  function Step(m: Message, user: bool, s: Settings, url: string, id: nat): Message {
    if Targeted(m, user) then m.(wrapper := Some(ReconcileWrapper(m.wrapper.value, s, url, id))) else m
  }

  /** How many overlays a pass over `is_user == user` messages creates. */
  function Creations(c: seq<Message>, user: bool): nat {
    if c == [] then 0 else (if Creates(c[0], user) then 1 else 0) + Creations(c[1..], user)
  }

  /** One `forEach` over the `is_user == user` messages; overlays created in
      it get the identities `id0`, `id0 + 1`, ... in document order. */
  function Pass(c: seq<Message>, user: bool, s: Settings, url: string, id0: nat): seq<Message> {
    seq(|c|, k requires 0 <= k < |c| => Step(c[k], user, s, url, id0 + Creations(c[..k], user)))
  }

  /** `updateMessagesWithExpression`: nothing when the url is empty, otherwise a
      pass over the AI messages followed, with `replaceAll`, by one over the
      user messages. */
  function RenderChat(c: seq<Message>, s: Settings, url: string, id0: nat): seq<Message> {
    if url == "" then c
    else
      var ai := Pass(c, false, s, url, id0);
      if s.replaceAll then Pass(ai, true, s, url, id0 + Creations(c, false)) else ai
  }

  /** How many overlays `RenderChat` creates. */
  function RenderCreations(c: seq<Message>, s: Settings, url: string, id0: nat): nat {
    if url == "" then 0
    else Creations(c, false) + (if s.replaceAll then Creations(Pass(c, false, s, url, id0), true) else 0)
  }

  function WithoutOverlays(m: Message): Message {
    match m.wrapper
    case None => m
    case Some(w) => m.(wrapper := Some(w.(overlays := [])))
  }

  function RestoreAvatar(m: Message): Message {
    if m.wrapper.Some? && m.wrapper.value.avatar.Some? then
      var a := m.wrapper.value.avatar.value;
      m.(wrapper := Some(m.wrapper.value.(avatar := Some(a.(opacity := Unset, display := Unset)))))
    else m
  }

  /** Remove every `.ea-expression-image`, then clear the inline opacity and
      display of every avatar in the chat. */
  function Teardown(c: seq<Message>): seq<Message> {
    seq(|c|, k requires 0 <= k < |c| => RestoreAvatar(WithoutOverlays(c[k])))
  }

  /** What `updateStyles` does to the chat once the style element exists:
      render when the extension and expression mode are both on, tear down otherwise. */
  function Restyle(c: seq<Message>, s: Settings, url: string, id0: nat): seq<Message> {
    if s.enabled && s.expressionMode then RenderChat(c, s, url, id0) else Teardown(c)
  }

  function RestyleCreations(c: seq<Message>, s: Settings, url: string, id0: nat): nat {
    if s.enabled && s.expressionMode then RenderCreations(c, s, url, id0) else 0
  }

  /** Every overlay of the wrapper has an identity below `n`. */
  predicate WrapperIdsBelow(w: Wrapper, n: nat) {
    forall j :: 0 <= j < |w.overlays| ==> w.overlays[j].id < n
  }

  /** Every overlay in the chat has an identity below `n`: an overlay created
      with identity `n` or above is a new node. */
  predicate IdsBelow(c: seq<Message>, n: nat) {
    forall k :: 0 <= k < |c| && c[k].wrapper.Some? ==> WrapperIdsBelow(c[k].wrapper.value, n)
  }

  /** A bound above every overlay identity in a list of overlays. */
  function OverlayIdBound(os: seq<Overlay>): (n: nat)
    ensures forall j :: 0 <= j < |os| ==> os[j].id < n
  {
    if os == [] then 0
    else
      var rest := OverlayIdBound(os[1..]);
      if os[0].id + 1 > rest then os[0].id + 1 else rest
  }

  /** A bound above every overlay identity in a chat. */
  function IdBound(c: seq<Message>): (n: nat)
    ensures IdsBelow(c, n)
  {
    if c == [] then 0
    else
      var here := if c[0].wrapper.Some? then OverlayIdBound(c[0].wrapper.value.overlays) else 0;
      var rest := IdBound(c[1..]);
      assert forall k :: 1 <= k < |c| ==> c[k] == c[1..][k - 1];
      if here > rest then here else rest
  }
}
