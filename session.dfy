/**
 * The chat page: its conversations, the current conversation id, the
 * generating flag, the mock reply counter and the persisted sidebar and
 * profile settings, with the handlers that change them and the effects
 * that write them back to the store.
 *
 * Sending a message suspends once, while the reply is generated; the send
 * is therefore two steps, `BeginSend` (everything before the suspension)
 * and `CompleteSend` (everything after it), and what the second step uses
 * from the first is kept in `pending`.
 */
module Session {
  import opened Wrappers
  import opened Lists
  import opened Text
  import opened Conversations
  import opened Storage

  const ConversationsKey: string := "conversations"
  const CurrentConversationKey: string := "currentConversation"
  const SidebarStateKey: string := "sidebarState"
  const UserSettingsKey: string := "userSettings"

  /** The profiles the profile selector offers. */
  datatype UserProfile = Researcher | Marketer | Student | Designer | Dev

  function ProfileName(p: UserProfile): string {
    match p
    case Researcher => "researcher"
    case Marketer => "marketer"
    case Student => "student"
    case Designer => "designer"
    case Dev => "dev"
  }

  /** The conversations a fresh page loads: `loadFromStorage("conversations", [])`. */
  function StoredConversations(view: Option<Items>): (l: seq<Conversation>)
    ensures (view.Some? && ConversationsKey in view.value && view.value[ConversationsKey].Json?
             && view.value[ConversationsKey].value.ConversationList?) ==>
      l == view.value[ConversationsKey].value.conversations
    ensures view.None? || ConversationsKey !in view.value || view.value[ConversationsKey].Text? ==> l == []
  {
    match LoadFromStorage(view, ConversationsKey, ConversationList([]))
    case ConversationList(l) => l
    case _ => []
  }

  /** The current id a fresh page loads: `loadFromStorage("currentConversation", null)`. */
  function StoredCurrentId(view: Option<Items>): (id: Option<string>)
    ensures (view.Some? && CurrentConversationKey in view.value && view.value[CurrentConversationKey].Json?
             && view.value[CurrentConversationKey].value.IdOrNull?) ==>
      id == view.value[CurrentConversationKey].value.id
    ensures view.None? || CurrentConversationKey !in view.value || view.value[CurrentConversationKey].Text? ==> id == None
  {
    match LoadFromStorage(view, CurrentConversationKey, IdOrNull(None))
    case IdOrNull(id) => id
    case _ => None
  }

  /** The sidebar state a fresh page loads: `loadFromStorage("sidebarState", false)`. */
  function StoredSidebarOpen(view: Option<Items>): (open: bool)
    ensures (view.Some? && SidebarStateKey in view.value && view.value[SidebarStateKey].Json?
             && view.value[SidebarStateKey].value.Flag?) ==>
      open == view.value[SidebarStateKey].value.b
    ensures view.None? || SidebarStateKey !in view.value || view.value[SidebarStateKey].Text? ==> !open
  {
    match LoadFromStorage(view, SidebarStateKey, Flag(false))
    case Flag(b) => b
    case _ => false
  }

  /** The settings object under `userSettings`, or `default`. */
  function StoredSettings(view: Option<Items>, default: map<string, string>): (f: map<string, string>)
    ensures (view.Some? && UserSettingsKey in view.value && view.value[UserSettingsKey].Json?
             && view.value[UserSettingsKey].value.Settings?) ==>
      f == view.value[UserSettingsKey].value.fields
    ensures view.None? || UserSettingsKey !in view.value || view.value[UserSettingsKey].Text? ==> f == default
  {
    match LoadFromStorage(view, UserSettingsKey, Settings(default))
    case Settings(f) => f
    case _ => default
  }

  /**
   * `loadFromStorage("userSettings", { profile: "researcher" }).profile`;
   * the empty string stands for a settings object without a profile.
   */
  function StoredProfile(view: Option<Items>): (p: string)
    ensures view.None? || UserSettingsKey !in view.value || view.value[UserSettingsKey].Text? ==> p == "researcher"
    ensures (view.Some? && UserSettingsKey in view.value && view.value[UserSettingsKey].Json?
             && view.value[UserSettingsKey].value.Settings?) ==>
      p == if "profile" in view.value[UserSettingsKey].value.fields
           then view.value[UserSettingsKey].value.fields["profile"] else ""
  {
    var f := StoredSettings(view, map["profile" := "researcher"]);
    if "profile" in f then f["profile"] else ""
  }

  /**
   * The conversations effect: it writes the list only when it is not
   * empty. A fresh page then loads the list, and the other keys load as
   * before.
   */
  function SaveConversationsEffect(items: Items, convs: seq<Conversation>): (r: Items)
    ensures StoredConversations(Some(r)) == if |convs| > 0 then convs else StoredConversations(Some(items))
    ensures StoredCurrentId(Some(r)) == StoredCurrentId(Some(items))
    ensures StoredSidebarOpen(Some(r)) == StoredSidebarOpen(Some(items))
  {
    if |convs| > 0 then
      var e := Json(ConversationList(convs));
      StoredAfterSave(items, convs, None, false);
      StoredAfterWrite(items, ConversationsKey, e);
      items[ConversationsKey := e]
    else items
  }

  /** The current-conversation effect: it writes the id (or null) whenever the id changed. */
  function SaveCurrentEffect(items: Items, before: Option<string>, after: Option<string>): (r: Items)
    ensures StoredCurrentId(Some(r)) == if before != after then after else StoredCurrentId(Some(items))
    ensures StoredConversations(Some(r)) == StoredConversations(Some(items))
    ensures StoredSidebarOpen(Some(r)) == StoredSidebarOpen(Some(items))
  {
    if before != after then
      var e := Json(IdOrNull(after));
      StoredAfterSave(items, [], after, false);
      StoredAfterWrite(items, CurrentConversationKey, e);
      items[CurrentConversationKey := e]
    else items
  }

  /** The sidebar effect: it writes the flag whenever it changed. */
  function SaveSidebarEffect(items: Items, before: bool, after: bool): (r: Items)
    ensures StoredSidebarOpen(Some(r)) == if before != after then after else StoredSidebarOpen(Some(items))
    ensures StoredConversations(Some(r)) == StoredConversations(Some(items))
    ensures StoredCurrentId(Some(r)) == StoredCurrentId(Some(items))
  {
    if before != after then
      var e := Json(Flag(after));
      StoredAfterSave(items, [], None, after);
      StoredAfterWrite(items, SidebarStateKey, e);
      items[SidebarStateKey := e]
    else items
  }

  /** A write to one key leaves what a fresh page loads from the other keys alone. */
  lemma StoredAfterWrite(items: Items, key: string, e: Entry)
    ensures key != ConversationsKey ==>
      StoredConversations(Some(items[key := e])) == StoredConversations(Some(items))
    ensures key != CurrentConversationKey ==>
      StoredCurrentId(Some(items[key := e])) == StoredCurrentId(Some(items))
    ensures key != SidebarStateKey ==>
      StoredSidebarOpen(Some(items[key := e])) == StoredSidebarOpen(Some(items))
  {
    if key != ConversationsKey {
      LoadOtherKey(items, key, e, ConversationsKey, ConversationList([]));
    }
    if key != CurrentConversationKey {
      LoadOtherKey(items, key, e, CurrentConversationKey, IdOrNull(None));
    }
    if key != SidebarStateKey {
      LoadOtherKey(items, key, e, SidebarStateKey, Flag(false));
    }
  }

  /** Each effect's write is what a fresh page loads back. */
  lemma StoredAfterSave(items: Items, convs: seq<Conversation>, id: Option<string>, open: bool)
    ensures StoredConversations(Some(items[ConversationsKey := Json(ConversationList(convs))])) == convs
    ensures StoredCurrentId(Some(items[CurrentConversationKey := Json(IdOrNull(id))])) == id
    ensures StoredSidebarOpen(Some(items[SidebarStateKey := Json(Flag(open))])) == open
  {
    LoadAfterSave(items, ConversationsKey, ConversationList(convs), ConversationList([]));
    LoadAfterSave(items, CurrentConversationKey, IdOrNull(id), IdOrNull(None));
    LoadAfterSave(items, SidebarStateKey, Flag(open), Flag(false));
  }

  /** After the two history keys are removed, a fresh page loads no conversations and no id, and the same sidebar state. */
  lemma StoredAfterClear(items: Items)
    ensures StoredConversations(Some(items - {ConversationsKey, CurrentConversationKey})) == []
    ensures StoredCurrentId(Some(items - {ConversationsKey, CurrentConversationKey})) == None
    ensures StoredSidebarOpen(Some(items - {ConversationsKey, CurrentConversationKey})) == StoredSidebarOpen(Some(items))
  {
    var keys := {ConversationsKey, CurrentConversationKey};
    LoadAfterRemove(items, keys, ConversationsKey, ConversationList([]));
    LoadAfterRemove(items, keys, CurrentConversationKey, IdOrNull(None));
    assert SidebarStateKey !in keys;
  }

  /**
   * The three effects together bring the store in line with memory: a key
   * an effect does not write must already hold the value in memory.
   */
  lemma EffectsRestore(items: Items, convs: seq<Conversation>, conversationsSet: bool,
                       previousId: Option<string>, id: Option<string>, previousSidebar: bool, open: bool)
    requires !(conversationsSet && |convs| > 0) ==> StoredConversations(Some(items)) == convs
    requires previousId == id ==> StoredCurrentId(Some(items)) == id
    requires previousSidebar == open ==> StoredSidebarOpen(Some(items)) == open
    ensures var out := SaveSidebarEffect(SaveCurrentEffect(
                         if conversationsSet then SaveConversationsEffect(items, convs) else items,
                         previousId, id), previousSidebar, open);
            StoredConversations(Some(out)) == convs && StoredCurrentId(Some(out)) == id
            && StoredSidebarOpen(Some(out)) == open
  {
    var a := if conversationsSet then SaveConversationsEffect(items, convs) else items;
    if conversationsSet && |convs| > 0 {
      StoredAfterSave(items, convs, id, open);
      StoredAfterWrite(items, ConversationsKey, Json(ConversationList(convs)));
    }
    var b := SaveCurrentEffect(a, previousId, id);
    if previousId != id {
      StoredAfterSave(a, convs, id, open);
      StoredAfterWrite(a, CurrentConversationKey, Json(IdOrNull(id)));
    }
    if previousSidebar != open {
      StoredAfterSave(b, convs, id, open);
      StoredAfterWrite(b, SidebarStateKey, Json(Flag(open)));
    }
  }

  /** Writing back the entry a key already holds changes nothing. */
  lemma RewriteSame(items: Items, key: string, e: Entry)
    requires key in items && items[key] == e
    ensures items[key := e] == items
  {
  }

  /** What a send that is waiting for its reply captured: target id, prompt and profile. */
  datatype PendingReply = PendingReply(conversationId: string, prompt: string, profile: string)

  /** `!conversationId`: no current id, or the empty one. */
  predicate NeedsNewConversation(current: Option<string>) {
    current == None || current == Some("")
  }

  class ChatSession {
    const store: Store
    var conversations: seq<Conversation>
    var currentId: Option<string>
    var isGenerating: bool
    /** `mockTemplateIndexRef.current`. */
    var templateIndex: nat
    var sidebarOpen: bool
    var profile: string
    var pending: Option<PendingReply>

    /**
     * The page's invariant: generating exactly while a reply is pending,
     * and, while the store accepts writes, a fresh page would load back
     * exactly the conversations, current id and sidebar state held in
     * memory. A full store keeps what it held before its writes failed.
     */
    ghost predicate Valid()
      reads this, store
    {
      (isGenerating <==> pending.Some?)
      && (store.Writable() ==>
            StoredConversations(store.View()) == conversations
            && StoredCurrentId(store.View()) == currentId
            && StoredSidebarOpen(store.View()) == sidebarOpen)
    }

    /** Mounting the page: initial state from the store, then the three effects run once. */
    constructor (store: Store)
      modifies store
      ensures Valid() && this.store == store
      ensures conversations == StoredConversations(old(store.View()))
      ensures currentId == StoredCurrentId(old(store.View()))
      ensures sidebarOpen == StoredSidebarOpen(old(store.View()))
      ensures profile == StoredProfile(old(store.View()))
      ensures !isGenerating && pending == None && templateIndex == 0
      ensures store.items == if store.Writable() then
          SaveConversationsEffect(old(store.items), conversations)
            [CurrentConversationKey := Json(IdOrNull(currentId))]
            [SidebarStateKey := Json(Flag(sidebarOpen))]
        else old(store.items)
    {
      this.store := store;
      var view := store.View();
      conversations := StoredConversations(view);
      currentId := StoredCurrentId(view);
      sidebarOpen := StoredSidebarOpen(view);
      profile := StoredProfile(view);
      isGenerating := false;
      templateIndex := 0;
      pending := None;
      new;
      var ok;
      ghost var items := store.items;
      if |conversations| > 0 {
        ok := store.SetItem(ConversationsKey, Json(ConversationList(conversations)));
        StoredAfterSave(items, conversations, currentId, sidebarOpen);
        StoredAfterWrite(items, ConversationsKey, Json(ConversationList(conversations)));
      }
      items := store.items;
      ok := store.SetItem(CurrentConversationKey, Json(IdOrNull(currentId)));
      StoredAfterSave(items, conversations, currentId, sidebarOpen);
      StoredAfterWrite(items, CurrentConversationKey, Json(IdOrNull(currentId)));
      items := store.items;
      ok := store.SetItem(SidebarStateKey, Json(Flag(sidebarOpen)));
      StoredAfterSave(items, conversations, currentId, sidebarOpen);
      StoredAfterWrite(items, SidebarStateKey, Json(Flag(sidebarOpen)));
    }

    /**
     * The effects after a handler: the conversations effect when the list
     * was set, and the id and sidebar effects when their value changed.
     */
    method RunEffects(conversationsSet: bool, previousId: Option<string>, previousSidebar: bool)
      requires isGenerating <==> pending.Some?
      requires store.Writable() && !(conversationsSet && |conversations| > 0) ==>
        StoredConversations(store.View()) == conversations
      requires store.Writable() && previousId == currentId ==> StoredCurrentId(store.View()) == currentId
      requires store.Writable() && previousSidebar == sidebarOpen ==> StoredSidebarOpen(store.View()) == sidebarOpen
      modifies store
      ensures Valid()
      ensures store.items == if store.Writable() then
          SaveSidebarEffect(
            SaveCurrentEffect(
              if conversationsSet then SaveConversationsEffect(old(store.items), conversations) else old(store.items),
              previousId, currentId),
            previousSidebar, sidebarOpen)
        else old(store.items)
    {
      var ok;
      if conversationsSet && |conversations| > 0 {
        ok := store.SetItem(ConversationsKey, Json(ConversationList(conversations)));
      }
      if previousId != currentId {
        ok := store.SetItem(CurrentConversationKey, Json(IdOrNull(currentId)));
      }
      if previousSidebar != sidebarOpen {
        ok := store.SetItem(SidebarStateKey, Json(Flag(sidebarOpen)));
      }
      if store.Writable() {
        EffectsRestore(old(store.items), conversations, conversationsSet, previousId, currentId, previousSidebar, sidebarOpen);
      }
    }

    /** `generateMockResponse`: template `counter mod 5`, then the counter moves on by one. */
    method GenerateMockResponse(prompt: string, profile: string) returns (reply: string)
      modifies this`templateIndex
      ensures templateIndex == old(templateIndex) + 1
      ensures reply == MockReply(old(templateIndex), prompt, profile)
      ensures Includes(reply, prompt)
    {
      reply := MockReply(templateIndex, prompt, profile);
      templateIndex := templateIndex + 1;
    }

    /**
     * `handleSendMessage` up to its suspension point. Rejected while a reply
     * is being generated; otherwise creates the conversation when there is
     * no current one, appends the user message to the target conversation
     * and starts generating.
     */
    method BeginSend(prompt: string, now: int, nowId: string) returns (accepted: bool)
      requires Valid()
      modifies this, store
      ensures Valid()
      ensures accepted == !old(isGenerating)
      ensures !accepted ==>
        conversations == old(conversations) && currentId == old(currentId) && pending == old(pending)
        && store.items == old(store.items)
      ensures accepted ==>
        var target := if NeedsNewConversation(old(currentId)) then nowId else old(currentId).value;
        var base := if NeedsNewConversation(old(currentId)) then [Created(nowId, prompt, now)] + old(conversations)
                    else old(conversations);
        && conversations == AppendMessage(base, target, Message(nowId, User, prompt, now), None)
        && currentId == Some(target)
        && pending == Some(PendingReply(target, prompt, old(profile)))
        && store.items == if store.Writable() then
             SaveCurrentEffect(SaveConversationsEffect(old(store.items), conversations), old(currentId), currentId)
           else old(store.items)
      ensures accepted && NeedsNewConversation(old(currentId)) ==>
        |conversations| == |old(conversations)| + 1
        && conversations[0] == Conversation(nowId, Title(prompt), [Message(nowId, User, prompt, now)], now)
      ensures isGenerating
      ensures templateIndex == old(templateIndex) && sidebarOpen == old(sidebarOpen) && profile == old(profile)
    {
      if isGenerating {
        return false;
      }
      accepted := true;
      var previousId := currentId;
      var target: string;
      if NeedsNewConversation(currentId) {
        conversations := [Created(nowId, prompt, now)] + conversations;
        target := nowId;
        currentId := Some(target);
      } else {
        target := currentId.value;
      }
      conversations := AppendMessage(conversations, target, Message(nowId, User, prompt, now), None);
      isGenerating := true;
      pending := Some(PendingReply(target, prompt, profile));
      RunEffects(true, previousId, sidebarOpen);
    }

    /**
     * `handleSendMessage` after the reply resolved: the reply is appended to
     * the conversation captured when the send began, whose timestamp is
     * bumped (nothing changes when it was deleted meanwhile), and generating
     * stops.
     */
    method CompleteSend(now: int, replyId: string) returns (reply: string)
      requires Valid() && pending.Some?
      modifies this, store
      ensures Valid()
      ensures reply == MockReply(old(templateIndex), old(pending).value.prompt, old(pending).value.profile)
      ensures Includes(reply, old(pending).value.prompt)
      ensures conversations == AppendMessage(old(conversations), old(pending).value.conversationId,
                                             Message(replyId, Assistant, reply, now), Some(now))
      ensures !isGenerating && pending == None
      ensures templateIndex == old(templateIndex) + 1
      ensures currentId == old(currentId) && sidebarOpen == old(sidebarOpen) && profile == old(profile)
      ensures store.items == if store.Writable() then SaveConversationsEffect(old(store.items), conversations)
                             else old(store.items)
    {
      var p := pending.value;
      reply := GenerateMockResponse(p.prompt, p.profile);
      conversations := AppendMessage(conversations, p.conversationId, Message(replyId, Assistant, reply, now), Some(now));
      isGenerating := false;
      pending := None;
      RunEffects(true, currentId, sidebarOpen);
    }

    /** `handleNewConversation`: no current conversation; the list is untouched. */
    method NewConversation()
      requires Valid()
      modifies this, store
      ensures Valid()
      ensures currentId == None
      ensures conversations == old(conversations) && isGenerating == old(isGenerating) && pending == old(pending)
      ensures templateIndex == old(templateIndex) && sidebarOpen == old(sidebarOpen) && profile == old(profile)
      ensures store.items == if store.Writable() then SaveCurrentEffect(old(store.items), old(currentId), None)
                             else old(store.items)
    {
      var previousId := currentId;
      currentId := None;
      RunEffects(false, previousId, sidebarOpen);
    }

    /** `handleSelectConversation`: the id becomes current, unchecked, and the sidebar closes. */
    method SelectConversation(id: string)
      requires Valid()
      modifies this, store
      ensures Valid()
      ensures currentId == Some(id) && !sidebarOpen
      ensures conversations == old(conversations) && isGenerating == old(isGenerating) && pending == old(pending)
      ensures templateIndex == old(templateIndex) && profile == old(profile)
      ensures store.items == if store.Writable() then
          SaveSidebarEffect(SaveCurrentEffect(old(store.items), old(currentId), Some(id)), old(sidebarOpen), false)
        else old(store.items)
    {
      var previousId, previousSidebar := currentId, sidebarOpen;
      currentId := Some(id);
      sidebarOpen := false;
      RunEffects(false, previousId, previousSidebar);
    }

    /** Opening or closing the mobile sidebar. */
    method SetSidebarOpen(open: bool)
      requires Valid()
      modifies this, store
      ensures Valid()
      ensures sidebarOpen == open
      ensures conversations == old(conversations) && currentId == old(currentId)
      ensures isGenerating == old(isGenerating) && pending == old(pending)
      ensures templateIndex == old(templateIndex) && profile == old(profile)
      ensures store.items == if store.Writable() then SaveSidebarEffect(old(store.items), old(sidebarOpen), open)
                             else old(store.items)
    {
      var previousSidebar := sidebarOpen;
      sidebarOpen := open;
      RunEffects(false, currentId, previousSidebar);
    }

    /**
     * `handleClearHistory`: no conversations and no current id; both keys
     * are removed, also from a full store, after which the id effect writes
     * null back when the id was set before.
     */
    method ClearHistory()
      requires Valid()
      modifies this, store
      ensures Valid()
      ensures conversations == [] && currentId == None
      ensures isGenerating == old(isGenerating) && pending == old(pending)
      ensures templateIndex == old(templateIndex) && sidebarOpen == old(sidebarOpen) && profile == old(profile)
      ensures store.items == if store.Writable() then
          SaveCurrentEffect(old(store.items) - {ConversationsKey, CurrentConversationKey}, old(currentId), None)
        else if store.enabled then old(store.items) - {ConversationsKey, CurrentConversationKey}
        else old(store.items)
      ensures store.enabled ==> ConversationsKey !in store.items
    {
      var previousId := currentId;
      conversations := [];
      currentId := None;
      var ok := store.RemoveItem(ConversationsKey);
      if ok {
        ok := store.RemoveItem(CurrentConversationKey);
        assert store.items == old(store.items) - {ConversationsKey, CurrentConversationKey};
        StoredAfterClear(old(store.items));
      }
      RunEffects(true, previousId, sidebarOpen);
    }

    /**
     * `handleDeleteConversation`: the conversation with the id goes, the
     * others stay in order; the list is saved at once, even when empty, and
     * the current id is cleared only when it was the deleted one.
     */
    method DeleteConversation(id: string)
      requires Valid()
      modifies this, store
      ensures Valid()
      ensures conversations == Remove(old(conversations), id)
      ensures currentId == if old(currentId) == Some(id) then None else old(currentId)
      ensures isGenerating == old(isGenerating) && pending == old(pending)
      ensures templateIndex == old(templateIndex) && sidebarOpen == old(sidebarOpen) && profile == old(profile)
      ensures store.items == if !store.Writable() then old(store.items)
        else if old(currentId) == Some(id) then
          old(store.items)[ConversationsKey := Json(ConversationList(conversations))]
                          [CurrentConversationKey := Json(IdOrNull(None))]
        else old(store.items)[ConversationsKey := Json(ConversationList(conversations))]
    {
      var previousId := currentId;
      var remaining := Remove(conversations, id);
      var clear := currentId == Some(id);
      SaveAfterDelete(remaining, clear);
      conversations := remaining;
      if clear {
        currentId := None;
      }
      ghost var saved := store.items;
      RunEffects(true, previousId, sidebarOpen);
      if store.Writable() {
        RewriteSame(saved, ConversationsKey, Json(ConversationList(conversations)));
        if clear {
          RewriteSame(saved, CurrentConversationKey, Json(IdOrNull(None)));
        }
      }
    }

    /** The two saves `handleDeleteConversation` makes itself: the remaining list, then the null id when it is cleared. */
    method SaveAfterDelete(remaining: seq<Conversation>, clear: bool)
      modifies store
      ensures store.items == if !store.Writable() then old(store.items)
        else if clear then
          old(store.items)[ConversationsKey := Json(ConversationList(remaining))][CurrentConversationKey := Json(IdOrNull(None))]
        else old(store.items)[ConversationsKey := Json(ConversationList(remaining))]
      ensures store.Writable() ==> StoredConversations(store.View()) == remaining
      ensures store.Writable() ==> StoredCurrentId(store.View()) == if clear then None else StoredCurrentId(old(store.View()))
      ensures store.Writable() ==> StoredSidebarOpen(store.View()) == StoredSidebarOpen(old(store.View()))
    {
      ghost var items := store.items;
      var ok := store.SetItem(ConversationsKey, Json(ConversationList(remaining)));
      StoredAfterSave(items, remaining, None, false);
      StoredAfterWrite(items, ConversationsKey, Json(ConversationList(remaining)));
      if clear {
        items := store.items;
        ok := store.SetItem(CurrentConversationKey, Json(IdOrNull(None)));
        StoredAfterSave(items, remaining, None, false);
        StoredAfterWrite(items, CurrentConversationKey, Json(IdOrNull(None)));
      }
    }

    /**
     * `handleProfileChange`: the profile is selected, and saved into the
     * settings object, keeping its other fields.
     */
    method ProfileChange(p: UserProfile)
      requires Valid()
      modifies this, store
      ensures Valid()
      ensures profile == ProfileName(p)
      ensures conversations == old(conversations) && currentId == old(currentId)
      ensures isGenerating == old(isGenerating) && pending == old(pending)
      ensures templateIndex == old(templateIndex) && sidebarOpen == old(sidebarOpen)
      ensures store.items == if store.Writable() then
          old(store.items)[UserSettingsKey := Json(Settings(StoredSettings(old(store.View()), map[])["profile" := ProfileName(p)]))]
        else old(store.items)
      ensures store.Writable() ==> StoredProfile(store.View()) == profile
    {
      profile := ProfileName(p);
      var current := StoredSettings(store.View(), map[]);
      ghost var items := store.items;
      var ok := store.SetItem(UserSettingsKey, Json(Settings(current["profile" := ProfileName(p)])));
      StoredAfterWrite(items, UserSettingsKey, Json(Settings(current["profile" := ProfileName(p)])));
    }
  }
}
