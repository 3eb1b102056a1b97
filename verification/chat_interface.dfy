/**
 * The rendering rules of components/chat-interface.tsx: which member sent a
 * message, whether a message counts as the viewer's own, the bubble style of
 * each theme, and the layout of every bubble in the message list. Class
 * names and animations are kept as opaque values; scrolling is left out.
 */
module ChatInterface {
  import opened Results
  import opened ChatTypes
  import opened Text
  import opened UseChat

  /** `members.find(m => m.id === id)`: the first member with that id, if any. */
  function GetMemberById(members: seq<Member>, id: string): (r: Option<Member>)
    ensures r.Some? <==> exists i :: 0 <= i < |members| && members[i].id == id
    ensures r.Some? ==> exists k ::
      && 0 <= k < |members| && members[k] == r.value && r.value.id == id
      && forall j :: 0 <= j < k ==> members[j].id != id
  {
    if members == [] then None
    else if members[0].id == id then Some(members[0])
    else
      var r := GetMemberById(members[1..], id);
      assert forall i :: 0 < i < |members| ==> members[i] == members[1..][i - 1];
      r
  }

  /** One row of the theme table: the bubble classes for the viewer's own messages and for the others'. */
  datatype ThemeRow = ThemeRow(me: string, other: string)

  /** The `themes` table: in every theme the two columns differ. */
  function ThemeTable(theme: Theme): (row: ThemeRow)
    ensures row.me != row.other
  {
    match theme
    case Rose => ThemeRow(
      "bg-gradient-to-r from-rose-500/80 to-pink-500/80 border-rose-300/30 text-white shadow-rose-500/20",
      "bg-white/15 border-white/25 text-white")
    case Minimal => ThemeRow(
      "bg-gray-600/80 border-gray-400/30 text-white",
      "bg-white/10 border-white/20 text-white")
    case Brown => ThemeRow(
      "bg-gradient-to-r from-amber-600/80 to-orange-600/80 border-amber-400/30 text-white shadow-amber-500/20",
      "bg-stone-200/15 border-stone-300/25 text-white")
    case Dark => ThemeRow(
      "bg-gray-800/90 border-gray-600/40 text-white",
      "bg-gray-700/60 border-gray-500/30 text-white")
  }

  /**
   * `getThemeStyles(isMe)`: the current theme's `me` column for the viewer's
   * own messages, its `other` column otherwise, so the two kinds of bubble
   * never share a style.
   */
  function ThemeStyles(theme: Theme, isMe: bool): (r: string)
    ensures r == ThemeTable(theme).me <==> isMe
    ensures r == ThemeTable(theme).other <==> !isMe
  {
    var row := ThemeTable(theme);
    if isMe then row.me else row.other
  }

  /** Horizontal placement of a bubble row (`justify-start` / `justify-end`). */
  datatype Side = Start | End

  /** The corner without rounding, which marks the speaker (`rounded-bl-md` / `rounded-br-md`). */
  datatype Corner = BottomLeft | BottomRight

  /** What one rendered message shows. */
  datatype Bubble = Bubble(
    messageId: string,
    content: string,
    mine: bool,
    align: Side,
    corner: Corner,
    style: string,
    senderLabel: Option<string>,
    leftAvatar: Option<Member>,
    rightAvatar: Option<Member>,
    latest: bool,
    delayMs: nat)

  /** The message list: a placeholder when it is empty, otherwise one bubble per message. */
  datatype View = Placeholder | Bubbles(bubbles: seq<Bubble>)

  /** The bubble of message `m` at position `index` of a log of `count` messages. */
  function RenderBubble(m: Message, index: nat, count: nat, members: seq<Member>, viewer: string, theme: Theme): (b: Bubble)
    ensures b.messageId == m.id && b.content == m.content
    ensures b.mine <==> m.senderId == viewer
    ensures b.align == End <==> b.mine
    ensures b.corner == BottomRight <==> b.mine
    ensures b.style == ThemeStyles(theme, b.mine)
    ensures b.senderLabel.Some? ==> !b.mine && exists k :: 0 <= k < |members| && members[k].name == b.senderLabel.value
    ensures !(b.leftAvatar.Some? && b.rightAvatar.Some?)
    ensures b.latest <==> index + 1 == count
  {
    var sender := GetMemberById(members, m.senderId);
    var isMe := m.senderId == viewer;
    var isLatest := index == count - 1;
    Bubble(
      m.id, m.content, isMe,
      if isMe then End else Start,
      if isMe then BottomRight else BottomLeft,
      ThemeStyles(theme, isMe),
      if !isMe && sender.Some? then Some(sender.value.name) else None,
      if !isMe && sender.Some? then sender else None,
      if isMe && sender.Some? then sender else None,
      isLatest,
      if isLatest then 0 else index * 50)
  }

  /** The message area of the chat view for state `s`. */
  function RenderMessages(s: ChatState): (v: View)
    ensures v.Placeholder? <==> s.messages == []
    ensures v.Bubbles? ==> |v.bubbles| == |s.messages|
  {
    if s.messages == [] then Placeholder
    else
      Bubbles(seq(|s.messages|, i requires 0 <= i < |s.messages| =>
        RenderBubble(s.messages[i], i, |s.messages|, s.members, s.currentViewer, s.theme)))
  }

  /**
   * Layout of the i-th bubble: it is the viewer's own exactly when the
   * viewer sent it; own bubbles sit at the end with the bottom-right corner
   * and the "me" style, the others at the start with the bottom-left corner
   * and the "other" style; a name label and a left avatar appear only on
   * others' messages from a known member, a right avatar only on own
   * messages from a known member, so never both; only the last bubble is the
   * latest, and each earlier one is delayed by 50 ms per position.
   */
  lemma BubbleLayout(s: ChatState, i: nat)
    requires i < |s.messages|
    ensures RenderMessages(s).Bubbles?
    ensures var b := RenderMessages(s).bubbles[i];
      var m := s.messages[i];
      var sender := GetMemberById(s.members, m.senderId);
      && b.content == m.content
      && (b.mine <==> m.senderId == s.currentViewer)
      && (b.align == End <==> b.mine)
      && (b.corner == BottomRight <==> b.mine)
      && b.style == ThemeStyles(s.theme, b.mine)
      && (b.senderLabel.Some? <==> !b.mine && sender.Some?)
      && (b.senderLabel.Some? ==> b.senderLabel.value == sender.value.name)
      && (b.leftAvatar.Some? <==> !b.mine && sender.Some?)
      && (b.rightAvatar.Some? <==> b.mine && sender.Some?)
      && !(b.leftAvatar.Some? && b.rightAvatar.Some?)
      && (b.latest <==> i == |s.messages| - 1)
      && b.delayMs == (if b.latest then 0 else 50 * i)
  {
  }

  /** Exactly one bubble of a non-empty list is the latest: the last one. */
  lemma OnlyLastIsLatest(s: ChatState)
    requires s.messages != []
    ensures RenderMessages(s).Bubbles?
    ensures RenderMessages(s).bubbles[|s.messages| - 1].latest
    ensures forall i :: 0 <= i < |s.messages| - 1 ==> !RenderMessages(s).bubbles[i].latest
  {
  }

  /**
   * Rendering depends on the viewer, not on the sender: changing who sends
   * leaves the chat view unchanged, and after switching the viewer to `id`
   * a bubble is "mine" exactly when `id` sent it.
   */
  lemma ViewerRelative(s: ChatState, id: string, i: nat)
    requires i < |s.messages|
    ensures RenderMessages(WithSender(s, id)) == RenderMessages(s)
    ensures RenderMessages(WithViewer(s, id)).Bubbles?
    ensures RenderMessages(WithViewer(s, id)).bubbles[i].mine <==> s.messages[i].senderId == id
  {
    assert WithSender(s, id).messages == s.messages && WithSender(s, id).currentViewer == s.currentViewer;
  }

  /** Every roster member is found by id, and `find` returns that very member. */
  lemma RosterLookup()
    ensures GetMemberById(MEMBERS, "imandi") == Some(MEMBERS[0])
    ensures GetMemberById(MEMBERS, "sandani") == Some(MEMBERS[1])
    ensures GetMemberById(MEMBERS, "sachintha") == Some(MEMBERS[2])
    ensures GetMemberById(MEMBERS, "nobody") == None
  {
    assert MEMBERS[1..][1..] == [MEMBERS[2]];
  }

  /**
   * The end-to-end run: from the initial state, sending as sandani and then
   * viewing as sandani gives one message from sandani reading "hello",
   * which the chat view shows as the viewer's own, on the right.
   */
  lemma SendAsSandaniThenView(now: nat)
    ensures var s := WithViewer(AfterSend(WithSender(InitialState(), "sandani"), "hello", now), "sandani");
      && |s.messages| == 1
      && s.messages[0].senderId == "sandani" && s.messages[0].content == "hello"
      && RenderMessages(s).Bubbles?
      && RenderMessages(s).bubbles[0].mine
      && RenderMessages(s).bubbles[0].align == End
  {
    var s0 := WithSender(InitialState(), "sandani");
    var s := WithViewer(AfterSend(s0, "hello", now), "sandani");
    assert s.messages[0] == NewMessage(s0, "hello", now);
  }
}
