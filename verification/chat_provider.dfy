/**
 * The context plumbing of components/chat-provider.tsx: a provider mounts
 * one store and hands that same store to every component below it; reading
 * the context anywhere else fails.
 */
module ChatProvider {
  import opened Results
  import opened UseChat

  const NO_PROVIDER_ERROR: string := "useChatContext must be used within a ChatProvider"

  /**
   * `useChatContext()`, given the value the nearest provider supplies
   * (`None` outside every provider): that provider's store, or the error.
   */
  function UseChatContext(context: Option<ChatStore>): (r: Result<ChatStore>)
    ensures r.Failure? <==> context.None?
    ensures r.Failure? ==> r.error == NO_PROVIDER_ERROR
    ensures r.Success? ==> r.value == context.value
  {
    match context
    case None => Failure(NO_PROVIDER_ERROR)
    case Some(store) => Success(store)
  }

  /** The context's default value, seen by a component with no provider above it. */
  const DEFAULT_CONTEXT: Option<ChatStore> := None

  /** A component rendered outside any provider gets the error, never a store. */
  lemma OutsideProviderFails()
    ensures UseChatContext(DEFAULT_CONTEXT) == Failure(NO_PROVIDER_ERROR)
  {
  }

  /** A mounted provider: the one store its subtree shares. */
  class Provider {
    const store: ChatStore

    constructor ()
      ensures fresh(store) && store.state == InitialState()
    {
      store := new ChatStore();
    }

    /** The value this provider puts in the context: reading it gives this provider's store, not the error. */
    function Context(): (r: Option<ChatStore>)
      ensures UseChatContext(r) == Success(store)
    {
      Some(store)
    }
  }

  /**
   * Two components under the same provider get the same store, so a message
   * one of them sends is in the state the other one reads.
   */
  method SharedStore(content: string, now: nat) returns (sender: ChatStore, reader: ChatStore)
    ensures sender == reader && fresh(sender)
    ensures reader.state == AfterSend(InitialState(), content, now)
  {
    var provider := new Provider();
    var r1 := UseChatContext(provider.Context());
    var r2 := UseChatContext(provider.Context());
    sender, reader := r1.value, r2.value;
    sender.SendMessage(content, now);
  }
}
