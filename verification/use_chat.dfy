/**
 * The chat store of hooks/use-chat.ts. The hook keeps one `ChatState`
 * record; each of its six operations replaces that record with a copy in
 * which one field differs. The transitions are written once as functions
 * on `ChatState` values; the class `ChatStore` holds the current record and
 * applies them. The store checks nothing: ids, names, texts and background
 * settings are stored exactly as given.
 */
module UseChat {
  import opened ChatTypes
  import opened Text
  import opened BackgroundStyle

  /** The background the store starts with: a linear "to-br" green gradient with three stops. */
  function InitialBackground(): BackgroundSettings {
    BackgroundSettings(
      Gradient, "#22c55e", Tenths(10), Linear, "to-br",
      [ColorStop("#16a34a", Tenths(9), 0), ColorStop("#22c55e", Tenths(8), 50), ColorStop("#15803d", Tenths(9), 100)])
  }

  /**
   * The state a freshly mounted store holds: the three roster members and no
   * messages, imandi both sending and viewing, the rose theme, the name
   * "Group Chat", and a linear gradient whose stops sit at 0, 50 and 100 and
   * are already in order.
   */
  function InitialState(): (s: ChatState)
    ensures s.members == MEMBERS && |s.members| == 3
    ensures s.messages == []
    ensures s.currentSender == s.currentViewer == "imandi"
    ensures s.currentSender in MemberIds(s.members)
    ensures s.theme == Rose && s.groupName == "Group Chat"
    ensures s.background.kind == Gradient
    ensures s.background.gradientType == Linear
    ensures s.background.gradientDirection == "to-br"
    ensures |s.background.gradientColors| == 3
    ensures forall i :: 0 <= i < 3 ==> s.background.gradientColors[i].position == 50 * i
    ensures SortedByPosition(s.background.gradientColors)
    ensures Renderable(s.background)
  {
    assert MemberIds(MEMBERS)[0] == "imandi";
    ChatState(MEMBERS, [], "imandi", "imandi", Rose, "Group Chat", InitialBackground())
  }

  /** The message `sendMessage(content)` appends when the clock reads `now` milliseconds. */
  function NewMessage(s: ChatState, content: string, now: nat): Message {
    Message(NatToString(now), s.currentSender, content, now)
  }

  /**
   * `sendMessage(content)`: one message from the current sender, carrying
   * `content` unchanged, is appended at the end of the log; every earlier
   * message and every other field stays as it was.
   */
  function AfterSend(s: ChatState, content: string, now: nat): (r: ChatState)
    ensures |r.messages| == |s.messages| + 1
    ensures r.messages[..|s.messages|] == s.messages
    ensures r.messages[|s.messages|].senderId == s.currentSender
    ensures r.messages[|s.messages|].content == content
    ensures r.messages[|s.messages|] == NewMessage(s, content, now)
    ensures r.(messages := s.messages) == s
  {
    s.(messages := s.messages + [NewMessage(s, content, now)])
  }

  /** `setCurrentSender(id)`: any id is accepted; only the sender changes. */
  function WithSender(s: ChatState, id: string): (r: ChatState)
    ensures r.currentSender == id && r.currentViewer == s.currentViewer
    ensures r.(currentSender := s.currentSender) == s
  {
    s.(currentSender := id)
  }

  /** `setCurrentViewer(id)`: any id is accepted; only the viewer changes. */
  function WithViewer(s: ChatState, id: string): (r: ChatState)
    ensures r.currentViewer == id && r.currentSender == s.currentSender
    ensures r.(currentViewer := s.currentViewer) == s
  {
    s.(currentViewer := id)
  }

  /** `setTheme(theme)`: only the theme changes. */
  function WithTheme(s: ChatState, theme: Theme): (r: ChatState)
    ensures r.theme == theme
    ensures r.(theme := s.theme) == s
  {
    s.(theme := theme)
  }

  /** `setGroupName(name)`: the name is stored verbatim, not trimmed nor checked for emptiness. */
  function WithGroupName(s: ChatState, name: string): (r: ChatState)
    ensures r.groupName == name
    ensures r.(groupName := s.groupName) == s
  {
    s.(groupName := name)
  }

  /** `setBackgroundSettings(bg)`: the settings replace the old ones wholesale, unchecked. */
  function WithBackground(s: ChatState, bg: BackgroundSettings): (r: ChatState)
    ensures r.background == bg
    ensures r.(background := s.background) == s
  {
    s.(background := bg)
  }

  /** One call of `sendMessage`: the text and the clock reading at the time. */
  datatype Send = Send(content: string, now: nat)

  /** The state after the given sends, in order. */
  function AfterSends(s: ChatState, sends: seq<Send>): ChatState
    decreases |sends|
  {
    if sends == [] then s else AfterSends(AfterSend(s, sends[0].content, sends[0].now), sends[1..])
  }

  /**
   * N successive sends grow the log by exactly N messages, appended in call
   * order, each from the sender current before the sends; the earlier log
   * and all other fields are untouched.
   */
  lemma {:induction false} SendsAppendInOrder(s: ChatState, sends: seq<Send>)
    ensures |AfterSends(s, sends).messages| == |s.messages| + |sends|
    ensures AfterSends(s, sends).messages[..|s.messages|] == s.messages
    ensures forall i :: 0 <= i < |sends| ==>
      AfterSends(s, sends).messages[|s.messages| + i] == NewMessage(s, sends[i].content, sends[i].now)
    ensures AfterSends(s, sends).(messages := s.messages) == s
    decreases |sends|
  {
    if sends != [] {
      var s1 := AfterSend(s, sends[0].content, sends[0].now);
      SendsAppendInOrder(s1, sends[1..]);
      var r := AfterSends(s1, sends[1..]);
      assert r.messages[..|s1.messages|] == s1.messages;
      assert r.messages[..|s.messages|] == s1.messages[..|s.messages|];
      forall i | 0 <= i < |sends|
        ensures r.messages[|s.messages| + i] == NewMessage(s, sends[i].content, sends[i].now)
      {
        if i > 0 {
          assert r.messages[|s1.messages| + (i - 1)] == NewMessage(s1, sends[1..][i - 1].content, sends[1..][i - 1].now);
        } else {
          assert r.messages[|s.messages|] == s1.messages[|s.messages|];
        }
      }
    }
  }

  /**
   * Message ids come from the clock alone: two messages of a run of sends
   * share an id exactly when they were sent in the same millisecond.
   */
  lemma MessageIdsFollowClock(s: ChatState, sends: seq<Send>, i: nat, j: nat)
    requires i < j < |sends|
    ensures var log := AfterSends(s, sends).messages;
      |log| == |s.messages| + |sends|
      && (log[|s.messages| + i].id == log[|s.messages| + j].id <==> sends[i].now == sends[j].now)
  {
    SendsAppendInOrder(s, sends);
    NatToStringRoundTrip(sends[i].now);
    NatToStringRoundTrip(sends[j].now);
  }

  /** The store does not check ids against the roster: an unknown sender is taken as is. */
  lemma SenderNotValidated()
    ensures WithSender(InitialState(), "nobody").currentSender == "nobody"
    ensures "nobody" !in MemberIds(WithSender(InitialState(), "nobody").members)
  {
  }

  /** The store as mounted by a provider: the one mutable cell holding the current `ChatState`. */
  class ChatStore {
    var state: ChatState

    constructor ()
      ensures state == InitialState()
    {
      state := InitialState();
    }

    method SendMessage(content: string, now: nat)
      modifies this
      ensures state == AfterSend(old(state), content, now)
    {
      state := AfterSend(state, content, now);
    }

    method SetCurrentSender(id: string)
      modifies this
      ensures state == WithSender(old(state), id)
    {
      state := WithSender(state, id);
    }

    method SetCurrentViewer(id: string)
      modifies this
      ensures state == WithViewer(old(state), id)
    {
      state := WithViewer(state, id);
    }

    method SetTheme(theme: Theme)
      modifies this
      ensures state == WithTheme(old(state), theme)
    {
      state := WithTheme(state, theme);
    }

    method SetGroupName(name: string)
      modifies this
      ensures state == WithGroupName(old(state), name)
    {
      state := WithGroupName(state, name);
    }

    method SetBackgroundSettings(bg: BackgroundSettings)
      modifies this
      ensures state == WithBackground(old(state), bg)
    {
      state := WithBackground(state, bg);
    }
  }
}
