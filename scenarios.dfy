/**
 * End-to-end runs of the page on a fresh browser store: each method builds
 * its own store and components, drives the handlers in the order a user
 * would, and states what the user then sees.
 */
module Scenarios {
  import opened Wrappers
  import opened Text
  import opened Conversations
  import opened Storage
  import opened Session
  import opened App
  import opened Login
  import opened PromptInput
  import opened Transcript

  /**
   * A first prompt on an empty store: one conversation titled after the
   * prompt, holding the prompt and then a reply quoting it, that a reload
   * of the page shows again.
   */
  method FirstExchange(prompt: string, t0: int, t1: int)
    returns (summaries: seq<ConversationItem>, messages: seq<Message>, reloaded: seq<Message>, reply: string)
    ensures |summaries| == 1
    ensures summaries[0] == ConversationItem("c-1", Title(prompt), t1, 2)
    ensures messages == [Message("c-1", User, prompt, t0), Message("r-1", Assistant, reply, t1)]
    ensures Includes(reply, prompt)
    ensures reply == MockReply(0, prompt, "researcher")
    ensures reloaded == messages
  {
    var store := new Store(map[], true, false);
    var page := new ChatSession(store);
    var accepted := page.BeginSend(prompt, t0, "c-1");
    reply := page.CompleteSend(t1, "r-1");
    var c := page.conversations[0];
    assert c.messages == [Message("c-1", User, prompt, t0), Message("r-1", Assistant, reply, t1)];
    summaries := Summaries(page.conversations);
    messages := CurrentMessages(page.conversations, page.currentId);
    var again := new ChatSession(store);
    reloaded := CurrentMessages(again.conversations, again.currentId);
  }

  /**
   * What the chat area shows around a first exchange: the welcome screen,
   * then, while the reply is pending, the thread with working exports and
   * the generating bubble, then the thread without the bubble.
   */
  method AreaDuringExchange(prompt: string, t0: int, t1: int)
    returns (before: AreaView, during: AreaView, after: AreaView)
    ensures before == Welcome
    ensures during == Thread(true, true)
    ensures after == Thread(true, false)
  {
    var store := new Store(map[], true, false);
    var page := new ChatSession(store);
    before := Area(CurrentMessages(page.conversations, page.currentId), page.isGenerating);
    var accepted := page.BeginSend(prompt, t0, "c-1");
    during := Area(CurrentMessages(page.conversations, page.currentId), page.isGenerating);
    var reply := page.CompleteSend(t1, "r-1");
    after := Area(CurrentMessages(page.conversations, page.currentId), page.isGenerating);
  }

  /** A second send while the first reply is pending is ignored. */
  method SendWhileGenerating(first: string, second: string, t0: int, t1: int)
    returns (accepted: bool, messages: seq<Message>)
    ensures !accepted
    ensures messages == [Message("c-1", User, first, t0)]
  {
    var store := new Store(map[], true, false);
    var page := new ChatSession(store);
    accepted := page.BeginSend(first, t0, "c-1");
    accepted := page.BeginSend(second, t1, "c-2");
    messages := CurrentMessages(page.conversations, page.currentId);
  }

  /** Deleting the conversation while its reply is pending: the reply lands nowhere. */
  method DeleteWhileGenerating(prompt: string, t0: int, t1: int)
    returns (convs: seq<Conversation>, current: Option<string>, stored: seq<Conversation>)
    ensures convs == [] && current == None && stored == []
  {
    var store := new Store(map[], true, false);
    var page := new ChatSession(store);
    var accepted := page.BeginSend(prompt, t0, "c-1");
    page.DeleteConversation("c-1");
    var reply := page.CompleteSend(t1, "r-1");
    convs, current := page.conversations, page.currentId;
    stored := StoredConversations(store.View());
  }

  /** With a store that throws, the chat still works in memory and nothing is written. */
  method StorageUnavailable(prompt: string, t0: int, t1: int)
    returns (messages: seq<Message>, items: Items)
    ensures |messages| == 2 && messages[0] == Message("c-1", User, prompt, t0)
    ensures items == map[]
  {
    var store := new Store(map[], false, false);
    var page := new ChatSession(store);
    assert store.items == map[];
    var accepted := page.BeginSend(prompt, t0, "c-1");
    assert store.items == map[];
    var reply := page.CompleteSend(t1, "r-1");
    assert store.items == map[];
    var c := page.conversations[0];
    assert c.messages == [Message("c-1", User, prompt, t0), Message("r-1", Assistant, reply, t1)];
    messages := CurrentMessages(page.conversations, page.currentId);
    items := store.items;
  }

  /**
   * A store that can be read but whose quota is exhausted: the exchange
   * happens in memory, the failed writes are swallowed, and a reload shows
   * the conversations the store held before.
   */
  method QuotaExceeded(before: seq<Conversation>, prompt: string, t0: int, t1: int)
    returns (messages: seq<Message>, inMemory: seq<Conversation>, reloaded: seq<Conversation>)
    ensures |messages| == 2 && messages[0] == Message("c-1", User, prompt, t0)
    ensures |inMemory| == |before| + 1
    ensures reloaded == before
  {
    var store := new Store(map[ConversationsKey := Json(ConversationList(before))], true, true);
    var page := new ChatSession(store);
    assert page.conversations == before && page.currentId == None;
    var accepted := page.BeginSend(prompt, t0, "c-1");
    var reply := page.CompleteSend(t1, "r-1");
    var c := page.conversations[0];
    assert c.messages == [Message("c-1", User, prompt, t0), Message("r-1", Assistant, reply, t1)];
    messages := CurrentMessages(page.conversations, page.currentId);
    inMemory := page.conversations;
    var again := new ChatSession(store);
    reloaded := again.conversations;
  }

  /** The prompt box hands the text on untrimmed, and the conversation records it as typed. */
  method TypeAndSubmit(text: string, t0: int)
    returns (boxAfter: string, messages: seq<Message>)
    requires !IsBlank(text)
    ensures boxAfter == ""
    ensures messages == [Message("c-1", User, text, t0)]
  {
    var store := new Store(map[], true, false);
    var page := new ChatSession(store);
    var box := new PromptBox();
    box.Edit(text, page.isGenerating);
    var submitted := box.HandleSubmit(page.isGenerating);
    var accepted := page.BeginSend(submitted.value, t0, "c-1");
    boxAfter := box.prompt;
    messages := CurrentMessages(page.conversations, page.currentId);
  }

  /**
   * Creating an account signs in; after logging out, the same email and
   * password sign in again from the login form.
   */
  method CreateLogoutLogin(name: string, email: string, password: string)
    returns (created: bool, afterLogout: Route, signedIn: bool, route: Route)
    requires email != "" && password != ""
    ensures created && afterLogout == RedirectToLogin && signedIn && route == Children
  {
    var store := new Store(map[], true, false);
    var form := new LoginPage(store);
    var alerted;
    created, alerted := form.HandleCreateAccount(name, email, password);
    ghost var saved := ReadAccounts(store.View());
    afterLogout := Logout(store);
    assert ReadAccounts(store.View()) == saved;
    afterLogout := ProtectedRoute(store.View());
    var login := new LoginPage(store);
    login.EnterCredentials(email, password);
    signedIn := login.HandleLogin();
    route := ProtectedRoute(store.View());
  }

  /** Wrong credentials on an empty store: the error is shown and the route stays closed. */
  method WrongCredentials(email: string, password: string)
    returns (signedIn: bool, error: Option<string>, route: Route)
    requires !IsDefault(email, password)
    ensures !signedIn && error == Some(InvalidCredentials) && route == RedirectToLogin
  {
    var store := new Store(map[], true, false);
    var login := new LoginPage(store);
    login.EnterCredentials(email, password);
    signedIn := login.HandleLogin();
    error := login.error;
    route := ProtectedRoute(store.View());
  }

  /** The demo button's credentials always sign in. */
  method DemoCredentials() returns (signedIn: bool, route: Route)
    ensures signedIn && route == Children
  {
    var store := new Store(map[], true, false);
    var login := new LoginPage(store);
    login.Prefill();
    signedIn := login.HandleLogin();
    route := ProtectedRoute(store.View());
  }
}
