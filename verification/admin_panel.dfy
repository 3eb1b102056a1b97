/**
 * The admin panel of components/admin-panel.tsx: the message composer, the
 * group-name editor, the sender, viewer and theme pickers, and the two cards
 * that show who is sending and who is viewing. Its local UI state is the
 * class `Panel`; every change to the chat itself goes through the store.
 */
module AdminPanel {
  import opened Results
  import opened ChatTypes
  import opened Text
  import opened UseChat
  import opened ChatInterface

  /**
   * The Send button is disabled while a send is in flight or while the
   * composer holds nothing but whitespace.
   */
  function SendDisabled(input: string, isSending: bool): (r: bool)
    ensures r <==> isSending || forall k :: 0 <= k < |input| ==> IsJsWhitespace(input[k])
  {
    TrimEmptyIffAllWhitespace(input);
    Trim(input) == [] || isSending
  }

  /** The "Sending as" card: the roster entry of the current sender, when there is one. */
  function SenderCard(s: ChatState): (r: Option<Member>)
    ensures r.Some? <==> exists i :: 0 <= i < |s.members| && s.members[i].id == s.currentSender
    ensures r.Some? ==> r.value in s.members && r.value.id == s.currentSender
  {
    GetMemberById(s.members, s.currentSender)
  }

  /** The "Viewing as" card: the roster entry of the current viewer, when there is one. */
  function ViewerCard(s: ChatState): (r: Option<Member>)
    ensures r.Some? <==> exists i :: 0 <= i < |s.members| && s.members[i].id == s.currentViewer
    ensures r.Some? ==> r.value in s.members && r.value.id == s.currentViewer
  {
    GetMemberById(s.members, s.currentViewer)
  }

  /**
   * The text of the viewer card: the viewer's name, a space, and "(Me)"
   * when the viewer is also the sender (a false condition renders nothing).
   */
  function ViewerLabel(s: ChatState): (r: Option<string>)
    ensures r.Some? <==> ViewerCard(s).Some?
    ensures r.Some? ==> |r.value| > |ViewerCard(s).value.name|
    ensures r.Some? ==> r.value[..|ViewerCard(s).value.name| + 1] == ViewerCard(s).value.name + " "
  {
    match ViewerCard(s)
    case None => None
    case Some(viewer) => Some(viewer.name + " " + if s.currentViewer == s.currentSender then "(Me)" else "")
  }

  /**
   * "(Me)" appears exactly when the viewer is the sender, and then both
   * cards show the same member.
   */
  lemma MeLabelIffSameMember(s: ChatState)
    requires ViewerCard(s).Some?
    ensures var name := ViewerCard(s).value.name;
      ViewerLabel(s).value == name + " (Me)" <==> s.currentViewer == s.currentSender
    ensures s.currentViewer == s.currentSender ==> SenderCard(s) == ViewerCard(s)
  {
    var name := ViewerCard(s).value.name;
    if s.currentViewer != s.currentSender {
      assert |ViewerLabel(s).value| == |name| + 1;
    }
  }

  /** On the initial state both cards show Imandi, labelled "(Me)". */
  lemma InitialCards()
    ensures SenderCard(InitialState()) == Some(MEMBERS[0])
    ensures ViewerLabel(InitialState()) == Some("Imandi (Me)")
  {
    RosterLookup();
    assert MEMBERS[0].name + " " + "(Me)" == "Imandi (Me)";
  }

  /** The Send button is enabled exactly when the send handler would send. */
  lemma ButtonMatchesHandler(input: string)
    ensures !SendDisabled(input, false) <==> Trim(input) != []
  {
  }

  /**
   * Whether a key reaches an `onKeyPress` handler. React passes on keypress
   * events only for keys that produce a character, and for Enter; Escape,
   * the arrows and the other named keys never arrive there.
   */
  predicate DeliveredAsKeyPress(key: string) {
    key == "Enter" || |key| == 1
  }

  /**
   * The Escape branch of the group-name `onKeyPress` handler is dead: no key
   * delivered as a keypress is Escape, while Enter is delivered.
   */
  lemma EscapeNeverReachesKeyPress()
    ensures !DeliveredAsKeyPress("Escape") && DeliveredAsKeyPress("Enter")
    ensures forall key :: DeliveredAsKeyPress(key) ==> key != "Escape"
  {
  }

  /** The UI state local to the admin panel, over the shared store. */
  class Panel {
    const store: ChatStore
    var messageInput: string
    var isSending: bool
    var isEditingGroupName: bool
    var groupNameInput: string

    /** The group-name input starts from the name the store holds when the panel mounts. */
    constructor (store: ChatStore)
      ensures this.store == store
      ensures messageInput == "" && !isSending && !isEditingGroupName
      ensures groupNameInput == store.state.groupName
    {
      this.store := store;
      messageInput := "";
      isSending := false;
      isEditingGroupName := false;
      groupNameInput := store.state.groupName;
    }

    method TypeMessage(text: string)
      modifies this
      ensures messageInput == text
      ensures isSending == old(isSending) && isEditingGroupName == old(isEditingGroupName)
      ensures groupNameInput == old(groupNameInput)
    {
      messageInput := text;
    }

    /**
     * Sends the trimmed composer text as the current sender and clears the
     * composer, unless the text is blank, in which case nothing happens.
     */
    method HandleSendMessage(now: nat) returns (sent: bool)
      modifies this, store
      ensures sent <==> exists k :: 0 <= k < |old(messageInput)| && !IsJsWhitespace(old(messageInput)[k])
      ensures sent ==> store.state == AfterSend(old(store.state), Trim(old(messageInput)), now)
      ensures sent ==> messageInput == ""
      ensures !sent ==> store.state == old(store.state) && messageInput == old(messageInput)
      ensures isSending == old(isSending) && isEditingGroupName == old(isEditingGroupName)
      ensures groupNameInput == old(groupNameInput)
    {
      TrimEmptyIffAllWhitespace(messageInput);
      var text := Trim(messageInput);
      sent := text != [];
      if sent {
        store.SendMessage(text, now);
        messageInput := "";
      }
    }

    /** Enter without Shift sends (and suppresses the newline); any other key is left to the text area. */
    method HandleKeyPress(key: string, shiftKey: bool, now: nat) returns (prevented: bool, sent: bool)
      modifies this, store
      ensures prevented <==> key == "Enter" && !shiftKey
      ensures sent ==> prevented
      ensures prevented ==> (sent <==> Trim(old(messageInput)) != [])
      ensures sent ==> store.state == AfterSend(old(store.state), Trim(old(messageInput)), now) && messageInput == ""
      ensures !sent ==> store.state == old(store.state) && messageInput == old(messageInput)
      ensures isSending == old(isSending) && isEditingGroupName == old(isEditingGroupName)
      ensures groupNameInput == old(groupNameInput)
    {
      prevented := key == "Enter" && !shiftKey;
      sent := false;
      if prevented {
        TrimEmptyIffAllWhitespace(messageInput);
        sent := HandleSendMessage(now);
      }
    }

    /** The pencil button: edit mode starts from whatever the input last held. */
    method StartEditGroupName()
      modifies this
      ensures isEditingGroupName && groupNameInput == old(groupNameInput)
      ensures messageInput == old(messageInput) && isSending == old(isSending)
    {
      isEditingGroupName := true;
    }

    method TypeGroupName(text: string)
      modifies this
      ensures groupNameInput == text
      ensures isEditingGroupName == old(isEditingGroupName)
      ensures messageInput == old(messageInput) && isSending == old(isSending)
    {
      groupNameInput := text;
    }

    /**
     * Saves the trimmed name and leaves edit mode; a blank name is refused
     * and edit mode stays on. The input keeps its untrimmed text.
     */
    method HandleSaveGroupName() returns (saved: bool)
      modifies this, store
      ensures saved <==> Trim(old(groupNameInput)) != []
      ensures saved ==> store.state == WithGroupName(old(store.state), Trim(old(groupNameInput)))
      ensures saved ==> !isEditingGroupName
      ensures saved ==> store.state.groupName == Trim(store.state.groupName) != []
      ensures !saved ==> store.state == old(store.state) && isEditingGroupName == old(isEditingGroupName)
      ensures groupNameInput == old(groupNameInput)
      ensures messageInput == old(messageInput) && isSending == old(isSending)
    {
      var name := Trim(groupNameInput);
      saved := name != [];
      if saved {
        TrimIdempotent(groupNameInput);
        store.SetGroupName(name);
        isEditingGroupName := false;
      }
    }

    /** Discards the edit: the input goes back to the stored name and edit mode ends. */
    method HandleCancelEdit()
      modifies this
      ensures groupNameInput == store.state.groupName && !isEditingGroupName
      ensures messageInput == old(messageInput) && isSending == old(isSending)
    {
      groupNameInput := store.state.groupName;
      isEditingGroupName := false;
    }

    /**
     * The `onKeyPress` handler of the group-name input: Enter saves (a blank
     * name is refused as by the Save button), Escape cancels, and other keys
     * do nothing here.
     */
    method HandleGroupNameKeyPress(key: string)
      modifies this, store
      ensures key == "Enter" && Trim(old(groupNameInput)) != [] ==>
        store.state == WithGroupName(old(store.state), Trim(old(groupNameInput))) && !isEditingGroupName
      ensures key == "Enter" && Trim(old(groupNameInput)) == [] ==>
        store.state == old(store.state) && isEditingGroupName == old(isEditingGroupName)
      ensures key == "Enter" ==> groupNameInput == old(groupNameInput)
      ensures key == "Escape" ==>
        store.state == old(store.state) && groupNameInput == store.state.groupName && !isEditingGroupName
      ensures key != "Enter" && key != "Escape" ==>
        store.state == old(store.state) && groupNameInput == old(groupNameInput)
        && isEditingGroupName == old(isEditingGroupName)
      ensures messageInput == old(messageInput) && isSending == old(isSending)
    {
      if key == "Enter" {
        var _ := HandleSaveGroupName();
      } else if key == "Escape" {
        HandleCancelEdit();
      }
    }

    /**
     * The same handler attached to `onKeyDown`, which every key reaches:
     * Escape now cancels the edit.
     */
    method HandleGroupNameKeyDown(key: string)
      modifies this, store
      ensures key == "Escape" ==>
        store.state == old(store.state) && groupNameInput == store.state.groupName && !isEditingGroupName
      ensures key == "Enter" && Trim(old(groupNameInput)) != [] ==>
        store.state == WithGroupName(old(store.state), Trim(old(groupNameInput))) && !isEditingGroupName
      ensures key == "Enter" && Trim(old(groupNameInput)) == [] ==>
        store.state == old(store.state) && isEditingGroupName == old(isEditingGroupName)
      ensures messageInput == old(messageInput) && isSending == old(isSending)
    {
      HandleGroupNameKeyPress(key);
    }

    /**
     * A click on the i-th sender button. The sender card then shows that
     * member, and when ids are distinct exactly that button is highlighted.
     */
    method ChooseSender(i: nat)
      requires i < |store.state.members|
      modifies store
      ensures store.state == WithSender(old(store.state), old(store.state).members[i].id)
      ensures SenderCard(store.state).Some?
      ensures DistinctIds(store.state.members) ==>
        forall j :: 0 <= j < |store.state.members| ==> (store.state.members[j].id == store.state.currentSender <==> j == i)
    {
      store.SetCurrentSender(store.state.members[i].id);
    }

    /**
     * A click on the i-th viewer button. The viewer card then shows that
     * member, and when ids are distinct exactly that button is highlighted.
     */
    method ChooseViewer(i: nat)
      requires i < |store.state.members|
      modifies store
      ensures store.state == WithViewer(old(store.state), old(store.state).members[i].id)
      ensures ViewerCard(store.state).Some?
      ensures DistinctIds(store.state.members) ==>
        forall j :: 0 <= j < |store.state.members| ==> (store.state.members[j].id == store.state.currentViewer <==> j == i)
    {
      store.SetCurrentViewer(store.state.members[i].id);
    }

    /** A click on one of the four theme buttons. */
    method ChooseTheme(theme: Theme)
      modifies store
      ensures store.state == WithTheme(old(store.state), theme)
    {
      store.SetTheme(theme);
    }
  }
}
