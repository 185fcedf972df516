/** What a render and a teardown promise, proved about the functions of `Chat`. */
module RenderProperties {
  import opened Wrappers
  import opened Config
  import opened Chat

  /** The wrapper's first overlay already shows `url` at the configured height. */
  predicate Current(w: Wrapper, s: Settings, url: string) {
    w.overlays != [] && w.overlays[0].background == url && w.overlays[0].height == s.avatarHeight
  }

  /** Every `is_user == user` message that has a wrapper has an up-to-date overlay. */
  predicate Rendered(c: seq<Message>, user: bool, s: Settings, url: string) {
    forall k :: 0 <= k < |c| && Targeted(c[k], user) ==> Current(c[k].wrapper.value, s, url)
  }

  /** No wrapper holds more than one overlay. */
  predicate AtMostOneOverlay(c: seq<Message>) {
    forall k :: 0 <= k < |c| && c[k].wrapper.Some? ==> |c[k].wrapper.value.overlays| <= 1
  }

  /** No overlay anywhere in the chat. */
  predicate NoOverlays(c: seq<Message>) {
    forall k :: 0 <= k < |c| && c[k].wrapper.Some? ==> c[k].wrapper.value.overlays == []
  }

  /** Every avatar in the chat has its inline opacity and display cleared. */
  predicate AvatarsRestored(c: seq<Message>) {
    forall k :: 0 <= k < |c| && c[k].wrapper.Some? && c[k].wrapper.value.avatar.Some? ==>
      c[k].wrapper.value.avatar.value == Avatar(Unset, Unset)
  }

  /** The two chats have the same messages, the same authors and the same wrappers present. */
  predicate SameShape(c: seq<Message>, d: seq<Message>) {
    |c| == |d| &&
    forall k :: 0 <= k < |c| ==>
      d[k].isUser == c[k].isUser && d[k].wrapper.Some? == c[k].wrapper.Some? &&
      (c[k].wrapper.Some? ==> d[k].wrapper.value.avatar.Some? == c[k].wrapper.value.avatar.Some?)
  }

  // ---------------------------------------------------------------------------
  // Counting creations

  /** The overlays a pass creates over two stretches of messages add up. */
  lemma {:induction false} CreationsAppend(a: seq<Message>, b: seq<Message>, user: bool)
    ensures Creations(a + b, user) == Creations(a, user) + Creations(b, user)
  {
    if a == [] {
      assert a + b == b;
    } else {
      CreationsAppend(a[1..], b, user);
      assert (a + b)[1..] == a[1..] + b;
    }
  }

  /** Creations over a longer prefix are at least those over a shorter one, plus
      one for the element in between when it creates an overlay. */
  lemma {:induction false} CreationsPrefix(c: seq<Message>, user: bool, j: nat, k: nat)
    requires j <= k <= |c|
    ensures Creations(c[..j], user) + (if j < k && Creates(c[j], user) then 1 else 0) <= Creations(c[..k], user)
  {
    if j < k {
      CreationsPrefix(c, user, j, k - 1);
      assert c[..k] == c[..k - 1] + [c[k - 1]];
      CreationsAppend(c[..k - 1], [c[k - 1]], user);
    }
  }

  /** Counting one more message of the chat adds one when it creates an overlay. */
  lemma CreationsStep(c: seq<Message>, user: bool, i: nat)
    requires i < |c|
    ensures Creations(c[..i + 1], user) == Creations(c[..i], user) + if Creates(c[i], user) then 1 else 0
  {
    assert c[..i + 1] == c[..i] + [c[i]];
    CreationsAppend(c[..i], [c[i]], user);
  }

  /** A chat in which no message needs a new overlay makes a pass create none. */
  lemma {:induction false} NoCreations(c: seq<Message>, user: bool)
    requires forall k :: 0 <= k < |c| ==> !Creates(c[k], user)
    ensures Creations(c, user) == 0
  {
    if c != [] {
      NoCreations(c[1..], user);
    }
  }

  /** The identity a pass gives the overlay it creates for message `k` lies in
      `[id0, id0 + Creations(c, user))`. */
  lemma PassNewId(c: seq<Message>, user: bool, k: nat)
    requires k < |c| && Creates(c[k], user)
    ensures Creations(c[..k], user) < Creations(c, user)
  {
    CreationsPrefix(c, user, k, |c|);
    assert c[..|c|] == c;
  }

  // ---------------------------------------------------------------------------
  // One pass

  /** What a pass does to message `k`. */
  lemma PassAt(c: seq<Message>, user: bool, s: Settings, url: string, id0: nat, k: nat)
    requires k < |c|
    ensures |Pass(c, user, s, url, id0)| == |c|
    ensures Pass(c, user, s, url, id0)[k] == Step(c[k], user, s, url, id0 + Creations(c[..k], user))
  {
  }

  /** After a pass every message it targets has an up-to-date overlay. */
  lemma PassRenders(c: seq<Message>, user: bool, s: Settings, url: string, id0: nat)
    ensures Rendered(Pass(c, user, s, url, id0), user, s, url)
  {
  }

  /** Refreshing a message whose overlay is already up to date changes nothing. */
  lemma StepOnCurrent(m: Message, user: bool, s: Settings, url: string, id: nat)
    requires Targeted(m, user) ==> Current(m.wrapper.value, s, url)
    ensures Step(m, user, s, url, id) == m
  {
    if Targeted(m, user) {
      var os := m.wrapper.value.overlays;
      assert [os[0]] + os[1..] == os;
    }
  }

  /** A pass over a chat whose targeted messages are already up to date changes
      nothing and creates nothing, whatever identities it would hand out. */
  lemma PassFixesRendered(c: seq<Message>, user: bool, s: Settings, url: string, id0: nat)
    requires Rendered(c, user, s, url)
    ensures Pass(c, user, s, url, id0) == c
    ensures Creations(c, user) == 0
  {
    assert Pass(c, user, s, url, id0) == c by {
      forall k | 0 <= k < |c|
        ensures Pass(c, user, s, url, id0)[k] == c[k]
      {
        PassAt(c, user, s, url, id0, k);
        StepOnCurrent(c[k], user, s, url, id0 + Creations(c[..k], user));
      }
    }
    NoCreations(c, user);
  }

  /** A step keeps identities below `n` when the identity it may hand out is below `n`. */
  lemma StepIdsBelow(m: Message, user: bool, s: Settings, url: string, id: nat, n: nat)
    requires m.wrapper.Some? ==> WrapperIdsBelow(m.wrapper.value, n)
    requires Creates(m, user) ==> id < n
    ensures var m' := Step(m, user, s, url, id);
      m'.wrapper.Some? ==> WrapperIdsBelow(m'.wrapper.value, n)
  {
  }

  /** Every overlay a pass creates gets an identity at or above the counter it started from. */
  lemma PassNewIdsAbove(c: seq<Message>, user: bool, s: Settings, url: string, id0: nat)
    ensures forall k :: 0 <= k < |c| && Creates(c[k], user) ==>
      Pass(c, user, s, url, id0)[k].wrapper.value.overlays[0].id >= id0
  {
    forall k | 0 <= k < |c| && Creates(c[k], user)
      ensures Pass(c, user, s, url, id0)[k].wrapper.value.overlays[0].id >= id0
    {
      PassAt(c, user, s, url, id0, k);
    }
  }

  /** A pass keeps every identity below the counter once the counter has moved
      past the identities it handed out. */
  lemma PassIdsBelow(c: seq<Message>, user: bool, s: Settings, url: string, id0: nat)
    requires IdsBelow(c, id0)
    ensures IdsBelow(Pass(c, user, s, url, id0), id0 + Creations(c, user))
    ensures forall k :: 0 <= k < |c| && Creates(c[k], user) ==>
      Pass(c, user, s, url, id0)[k].wrapper.value.overlays[0].id >= id0
  {
    var n := id0 + Creations(c, user);
    forall k | 0 <= k < |c|
      ensures var m := Pass(c, user, s, url, id0)[k];
        m.wrapper.Some? ==> WrapperIdsBelow(m.wrapper.value, n)
    {
      PassAt(c, user, s, url, id0, k);
      if Creates(c[k], user) {
        PassNewId(c, user, k);
      }
      assert c[k].wrapper.Some? ==> WrapperIdsBelow(c[k].wrapper.value, n);
      StepIdsBelow(c[k], user, s, url, id0 + Creations(c[..k], user), n);
    }
    PassNewIdsAbove(c, user, s, url, id0);
  }

  /** A pass keeps the messages, authors, wrappers and avatars, and puts no
      second overlay into a wrapper that had at most one. */
  lemma PassKeepsShape(c: seq<Message>, user: bool, s: Settings, url: string, id0: nat)
    ensures SameShape(c, Pass(c, user, s, url, id0))
    ensures AtMostOneOverlay(c) ==> AtMostOneOverlay(Pass(c, user, s, url, id0))
  {
  }

  /** A pass over `is_user == user` messages leaves the other messages alone. */
  lemma PassKeepsOthers(c: seq<Message>, user: bool, s: Settings, url: string, id0: nat, k: nat)
    requires k < |c| && !Targeted(c[k], user)
    ensures |Pass(c, user, s, url, id0)| == |c| && Pass(c, user, s, url, id0)[k] == c[k]
  {
    PassAt(c, user, s, url, id0, k);
  }

  // ---------------------------------------------------------------------------
  // Render

  /** After a render with a non-empty url, every AI message that has a wrapper,
      and with `replaceAll` every user message that has one, shows an overlay
      with the current url at the configured height. */
  lemma RenderCovers(c: seq<Message>, s: Settings, url: string, id0: nat)
    requires url != ""
    ensures Rendered(RenderChat(c, s, url, id0), false, s, url)
    ensures s.replaceAll ==> Rendered(RenderChat(c, s, url, id0), true, s, url)
  {
    var ai := Pass(c, false, s, url, id0);
    PassRenders(c, false, s, url, id0);
    if s.replaceAll {
      PassRenders(ai, true, s, url, id0 + Creations(c, false));
    }
  }

  /** Rendering twice gives the same chat as rendering once, and the second
      render creates no overlay. */
  lemma RenderIdempotent(c: seq<Message>, s: Settings, url: string, id0: nat, id1: nat)
    ensures RenderChat(RenderChat(c, s, url, id0), s, url, id1) == RenderChat(c, s, url, id0)
    ensures RenderCreations(RenderChat(c, s, url, id0), s, url, id1) == 0
  {
    if url != "" {
      var r := RenderChat(c, s, url, id0);
      RenderCovers(c, s, url, id0);
      PassFixesRendered(r, false, s, url, id1);
      if s.replaceAll {
        PassFixesRendered(r, true, s, url, id1);
      }
    }
  }

  /** A message the render does not reach (a user message without `replaceAll`),
      a message without a wrapper, and every message when the url is empty, are
      left exactly as they were. */
  lemma RenderSkips(c: seq<Message>, s: Settings, url: string, id0: nat, k: nat)
    requires k < |c|
    requires url == "" || c[k].wrapper.None? || !Reached(c[k], s)
    ensures |RenderChat(c, s, url, id0)| == |c|
    ensures RenderChat(c, s, url, id0)[k] == c[k]
  {
  }

  /** A reached message that had no overlay gets exactly one: it shows the url
      at the configured height, it is a new node (its identity is at least
      `id0`, below `id0` plus the number created), it sits before the avatar or
      is appended when there is no avatar, and the avatar policy is applied. */
  lemma RenderCreatesOverlay(c: seq<Message>, s: Settings, url: string, id0: nat, k: nat)
    requires url != "" && k < |c| && Reached(c[k], s) && Creates(c[k], c[k].isUser)
    ensures var r := RenderChat(c, s, url, id0);
      && |r| == |c| && r[k].isUser == c[k].isUser && r[k].wrapper.Some?
      && |r[k].wrapper.value.overlays| == 1
      && var o := r[k].wrapper.value.overlays[0];
      && o.background == url && o.height == s.avatarHeight
      && id0 <= o.id < id0 + RenderCreations(c, s, url, id0)
      && o.position == (if c[k].wrapper.value.avatar.Some? then BeforeAvatar else Appended)
      && r[k].wrapper.value.avatar == match c[k].wrapper.value.avatar
                                      case None => None
                                      case Some(a) => Some(StyleAvatar(a, s))
  {
    if !c[k].isUser {
      PassNewId(c, false, k);
    } else {
      var ai := Pass(c, false, s, url, id0);
      assert ai[k] == c[k];
      PassNewId(ai, true, k);
    }
  }

  /** A reached message that already had an overlay keeps it: same identity and
      position, only its background and height refreshed; the overlays after
      the first and the avatar, inline styles included, are untouched. */
  lemma RenderRefreshesOverlay(c: seq<Message>, s: Settings, url: string, id0: nat, k: nat)
    requires url != "" && k < |c| && Reached(c[k], s)
    requires c[k].wrapper.Some? && c[k].wrapper.value.overlays != []
    ensures var r := RenderChat(c, s, url, id0);
      && var w := c[k].wrapper.value;
      && |r| == |c| && r[k].isUser == c[k].isUser && r[k].wrapper.Some?
      && var w' := r[k].wrapper.value;
      && |w'.overlays| == |w.overlays| && w'.overlays[1..] == w.overlays[1..]
      && w'.overlays[0].id == w.overlays[0].id
      && w'.overlays[0].position == w.overlays[0].position
      && w'.overlays[0].background == url && w'.overlays[0].height == s.avatarHeight
      && w'.avatar == w.avatar
  {
    if c[k].isUser {
      var ai := Pass(c, false, s, url, id0);
      assert ai[k] == c[k];
    }
  }

  /** Two overlays created by one render have different identities. */
  lemma RenderNewIdsDistinct(c: seq<Message>, s: Settings, url: string, id0: nat, j: nat, k: nat)
    requires url != "" && j < k < |c|
    requires Reached(c[j], s) && Creates(c[j], c[j].isUser)
    requires Reached(c[k], s) && Creates(c[k], c[k].isUser)
    ensures var r := RenderChat(c, s, url, id0);
      |r| == |c| && r[j].wrapper.Some? && r[k].wrapper.Some? &&
      r[j].wrapper.value.overlays != [] && r[k].wrapper.value.overlays != [] &&
      r[j].wrapper.value.overlays[0].id != r[k].wrapper.value.overlays[0].id
  {
    var ai := Pass(c, false, s, url, id0);
    if !c[j].isUser && !c[k].isUser {
      CreationsPrefix(c, false, j, k);
    } else if c[j].isUser && c[k].isUser {
      assert ai[j] == c[j] && ai[k] == c[k];
      CreationsPrefix(ai, true, j, k);
    } else if c[j].isUser {
      PassNewId(c, false, k);
    } else {
      PassNewId(c, false, j);
    }
  }

  /** After a render every identity is below the counter advanced by the number
      of overlays created, so the next overlay created is again a new node. */
  lemma RenderIdsBelow(c: seq<Message>, s: Settings, url: string, id0: nat)
    requires IdsBelow(c, id0)
    ensures IdsBelow(RenderChat(c, s, url, id0), id0 + RenderCreations(c, s, url, id0))
  {
    if url != "" {
      PassIdsBelow(c, false, s, url, id0);
      if s.replaceAll {
        PassIdsBelow(Pass(c, false, s, url, id0), true, s, url, id0 + Creations(c, false));
      }
    }
  }

  /** A render keeps every message, its author, its wrapper and its avatar, and
      never puts a second overlay into a wrapper that had at most one. */
  lemma RenderKeepsShape(c: seq<Message>, s: Settings, url: string, id0: nat)
    ensures SameShape(c, RenderChat(c, s, url, id0))
    ensures AtMostOneOverlay(c) ==> AtMostOneOverlay(RenderChat(c, s, url, id0))
  {
    if url != "" {
      PassKeepsShape(c, false, s, url, id0);
      PassKeepsShape(Pass(c, false, s, url, id0), true, s, url, id0 + Creations(c, false));
    }
  }

  // ---------------------------------------------------------------------------
  // Teardown and the style switch

  /** Teardown leaves no overlay and clears every avatar, and keeps the messages. */
  lemma TeardownClears(c: seq<Message>)
    ensures SameShape(c, Teardown(c))
    ensures NoOverlays(Teardown(c)) && AvatarsRestored(Teardown(c))
  {
  }

  /** Tearing down twice is tearing down once. */
  lemma TeardownIdempotent(c: seq<Message>)
    ensures Teardown(Teardown(c)) == Teardown(c)
  {
  }

  /** `updateStyles` run twice with nothing changed in between gives the chat of
      one run, and the second run creates no overlay. */
  lemma RestyleIdempotent(c: seq<Message>, s: Settings, url: string, id0: nat, id1: nat)
    ensures Restyle(Restyle(c, s, url, id0), s, url, id1) == Restyle(c, s, url, id0)
    ensures RestyleCreations(Restyle(c, s, url, id0), s, url, id1) == 0
  {
    if s.enabled && s.expressionMode {
      RenderIdempotent(c, s, url, id0, id1);
    } else {
      TeardownIdempotent(c);
    }
  }

  /** Outside expression mode, or with the extension off, `updateStyles` leaves
      no overlay and no inline avatar style behind. */
  lemma RestyleOffClears(c: seq<Message>, s: Settings, url: string, id0: nat)
    requires !(s.enabled && s.expressionMode)
    ensures NoOverlays(Restyle(c, s, url, id0)) && AvatarsRestored(Restyle(c, s, url, id0))
  {
    TeardownClears(c);
  }

  /** The avatar policy is applied only when an overlay is created: a message
      whose overlay was created by one render keeps that render's avatar
      styles through any later render, whatever the settings and the url are
      then, whether or not that render reaches the message. */
  lemma ExistingAvatarKeepsOldPolicy(c: seq<Message>, s1: Settings, u1: string, id0: nat,
                                     s2: Settings, u2: string, id1: nat, k: nat)
    requires u1 != "" && k < |c| && Reached(c[k], s1)
    requires Creates(c[k], c[k].isUser) && c[k].wrapper.value.avatar.Some?
    ensures var r := RenderChat(RenderChat(c, s1, u1, id0), s2, u2, id1);
      |r| == |c| && r[k].wrapper.Some? &&
      r[k].wrapper.value.avatar == Some(StyleAvatar(c[k].wrapper.value.avatar.value, s1))
  {
    RenderCreatesOverlay(c, s1, u1, id0, k);
    var r1 := RenderChat(c, s1, u1, id0);
    if u2 != "" && Reached(r1[k], s2) {
      RenderRefreshesOverlay(r1, s2, u2, id1, k);
    } else {
      RenderSkips(r1, s2, u2, id1, k);
    }
  }

  /** With `replaceAll` off, `updateStyles` in expression mode leaves every user
      message exactly as it was: an overlay it already has is neither refreshed
      nor removed. */
  lemma UserOverlayOutlivesReplaceAll(c: seq<Message>, s: Settings, url: string, id0: nat, k: nat)
    requires s.enabled && s.expressionMode && !s.replaceAll
    requires k < |c| && c[k].isUser
    ensures |Restyle(c, s, url, id0)| == |c| && Restyle(c, s, url, id0)[k] == c[k]
  {
    RenderSkips(c, s, url, id0, k);
  }
}
