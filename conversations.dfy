/**
 * Conversations and messages of the chat page, and the pure list updates
 * the page applies to them: title derivation, appending a message to the
 * conversation with a given id, deleting by id, the summary projection
 * shown in the sidebar, the lookup of the current conversation, and the
 * rotating mock reply templates.
 */
module Conversations {
  import opened Wrappers
  import opened Lists
  import opened Text

  datatype Role = User | Assistant

  /** Timestamps are milliseconds since the epoch. */
  datatype Message = Message(id: string, role: Role, content: string, timestamp: int)

  datatype Conversation = Conversation(id: string, title: string, messages: seq<Message>, timestamp: int)

  /** What the history sidebar receives for each conversation. */
  datatype ConversationItem = ConversationItem(id: string, title: string, timestamp: int, messageCount: nat)

  const TitleLimit: nat := 50
  const Ellipsis: string := "..."

  /** The title of a conversation created by `prompt`: `prompt.substring(0, 50)`, plus "..." when cut. */
  function Title(prompt: string): (t: string)
    ensures |prompt| <= TitleLimit ==> t == prompt
    ensures |prompt| > TitleLimit ==>
      |t| == TitleLimit + |Ellipsis| && t[..TitleLimit] == prompt[..TitleLimit] && t[TitleLimit..] == Ellipsis
  {
    var head := if |prompt| <= TitleLimit then prompt else prompt[..TitleLimit];
    head + (if |prompt| > TitleLimit then Ellipsis else "")
  }

  /** The conversation a first message creates: titled from it, with no messages yet. */
  function Created(id: string, prompt: string, now: int): Conversation {
    Conversation(id, Title(prompt), [], now)
  }

  /**
   * `{ ...conv, messages: [...conv.messages, m] }`, and for the assistant's
   * reply also `timestamp: new Date()` (`bump`).
   */
  function WithMessage(c: Conversation, m: Message, bump: Option<int>): Conversation {
    c.(messages := c.messages + [m], timestamp := bump.GetOr(c.timestamp))
  }

  /** `prev.map(conv => conv.id === id ? WithMessage(conv) : conv)`. */
  function AppendMessage(convs: seq<Conversation>, id: string, m: Message, bump: Option<int>): (r: seq<Conversation>)
    ensures |r| == |convs|
    ensures forall i :: 0 <= i < |convs| ==>
      r[i] == if convs[i].id == id then WithMessage(convs[i], m, bump) else convs[i]
  {
    Map(convs, (c: Conversation) => if c.id == id then WithMessage(c, m, bump) else c)
  }

  predicate HasId(convs: seq<Conversation>, id: string) {
    exists i :: 0 <= i < |convs| && convs[i].id == id
  }

  function Ids(convs: seq<Conversation>): seq<string> {
    Map(convs, (c: Conversation) => c.id)
  }

  /** Appending to an id no conversation has changes nothing. */
  lemma AppendMessageAbsent(convs: seq<Conversation>, id: string, m: Message, bump: Option<int>)
    requires !HasId(convs, id)
    ensures AppendMessage(convs, id, m, bump) == convs
  {
  }

  /** Appending a message keeps every conversation's id in place. */
  lemma AppendMessageKeepsIds(convs: seq<Conversation>, id: string, m: Message, bump: Option<int>)
    ensures Ids(AppendMessage(convs, id, m, bump)) == Ids(convs)
  {
  }

  /** Appending a message grows the target's summary count by one and leaves the others alone. */
  lemma AppendMessageCounts(convs: seq<Conversation>, id: string, m: Message, bump: Option<int>, i: nat)
    requires i < |convs|
    ensures Summaries(AppendMessage(convs, id, m, bump))[i].messageCount
      == if convs[i].id == id then Summaries(convs)[i].messageCount + 1 else Summaries(convs)[i].messageCount
  {
  }

  /** `prev.filter(conv => conv.id !== id)`. */
  function Remove(convs: seq<Conversation>, id: string): (r: seq<Conversation>)
    ensures IsSubsequence(r, convs)
    ensures forall c :: c in r <==> c in convs && c.id != id
    ensures forall c :: multiset(r)[c] == if c.id != id then multiset(convs)[c] else 0
  {
    Filter(convs, (c: Conversation) => c.id != id)
  }

  /** Deleting an id no conversation has leaves the list as it was. */
  lemma RemoveAbsent(convs: seq<Conversation>, id: string)
    requires !HasId(convs, id)
    ensures Remove(convs, id) == convs
  {
    FilterAll(convs, (c: Conversation) => c.id != id);
  }

  /** After a delete, no conversation has the deleted id. */
  lemma RemoveDropsId(convs: seq<Conversation>, id: string)
    ensures !HasId(Remove(convs, id), id)
  {
    var r := Remove(convs, id);
    assert forall i :: 0 <= i < |r| ==> r[i] in r;
  }

  /** Deleting twice is deleting once. */
  lemma RemoveIdempotent(convs: seq<Conversation>, id: string)
    ensures Remove(Remove(convs, id), id) == Remove(convs, id)
  {
    RemoveDropsId(convs, id);
    RemoveAbsent(Remove(convs, id), id);
  }

  function Summary(c: Conversation): ConversationItem {
    ConversationItem(c.id, c.title, c.timestamp, |c.messages|)
  }

  /** `conversationItems`: one summary per conversation, in list order, without the message bodies. */
  function Summaries(convs: seq<Conversation>): (r: seq<ConversationItem>)
    ensures |r| == |convs|
    ensures forall i :: 0 <= i < |convs| ==>
      r[i].id == convs[i].id && r[i].title == convs[i].title
      && r[i].timestamp == convs[i].timestamp && r[i].messageCount == |convs[i].messages|
  {
    Map(convs, Summary)
  }

  /** `convs.findIndex(c => c.id === id)`, as an optional index. */
  function FindIndex(convs: seq<Conversation>, id: string): (r: Option<nat>)
    ensures r.Some? ==> r.value < |convs| && convs[r.value].id == id
    ensures r.Some? ==> forall j :: 0 <= j < r.value ==> convs[j].id != id
    ensures r.None? <==> !HasId(convs, id)
  {
    FindFirst(convs, (c: Conversation) => c.id == id)
  }

  /**
   * `currentMessages`: the messages of the first conversation whose id is
   * the current one, or none when there is no current id or it names no
   * conversation.
   */
  function CurrentMessages(convs: seq<Conversation>, current: Option<string>): (ms: seq<Message>)
    ensures current.None? ==> ms == []
    ensures current.Some? && !HasId(convs, current.value) ==> ms == []
    ensures current.Some? && HasId(convs, current.value) ==>
      exists i :: 0 <= i < |convs| && convs[i].id == current.value && ms == convs[i].messages
                  && forall j :: 0 <= j < i ==> convs[j].id != current.value
  {
    if current.None? then []
    else
      match FindIndex(convs, current.value)
      case None => []
      case Some(i) => convs[i].messages
  }

  const TemplateCount: nat := 5

  /** The profile as the third template names it: `profile || "assistant"`. */
  function StyleName(profile: string): string {
    if profile == "" then "assistant" else profile
  }

  // The five mock reply templates, each quoting the prompt between an opening and a closing text.
  const Open0: string := "Voici une synthèse initiale pour : \""
  const Close0: string := "\".\n\nPoints clés :\n• Contexte et enjeux\n• Méthodologie possible\n• Questions ouvertes à approfondir.\n\nSouhaitez-vous que je développe un plan détaillé ?"
  const Open1: string := "Merci pour votre question : \""
  const Close1: string := "\".\n\nRéponse rapide :\n- Hypothèse plausible\n- Approche expérimentale suggérée\n- Résumé des bénéfices attendus\n\nJe peux aussi fournir des références fictives si nécessaire."
  const Close2: string := "\" et je propose :\n1) Objectifs clairs\n2) Méthodes adaptées\n3) Limites et alternatives\n\nDites-moi si vous voulez un exemple concret."
  const Open3: string := "Extrait généré pour \""
  const Close3: string := "\":\n- Résumé en 3 lignes\n- Liste d'actions prioritaires\n- Suggestions de suivi\n\nSouhaitez un format différent (bullet points, abstract, ou paragraphe) ?"
  const Open4: string := "Brève réponse : Pour \""
  const Close4: string := "\", je recommanderais de commencer par un état de l'art succinct, puis d'expérimenter une approche pilote et d'évaluer les métriques clés. Voulez-vous un exemple de protocole ?"

  /** The third template opens by naming the profile's style. */
  function Open2(profile: string): string {
    "Réponse (style " + StyleName(profile) + "):\nJ'ai analysé votre demande \""
  }

  /** The mock reply templates, selected by `index mod 5`; whatever the template, the reply quotes the prompt. */
  function MockReply(index: nat, p: string, profile: string): (r: string)
    ensures Includes(r, p)
  {
    match index % TemplateCount
    case 0 => IncludesMiddle(Open0, p, Close0); Open0 + p + Close0
    case 1 => IncludesMiddle(Open1, p, Close1); Open1 + p + Close1
    case 2 => IncludesMiddle(Open2(profile), p, Close2); Open2(profile) + p + Close2
    case 3 => IncludesMiddle(Open3, p, Close3); Open3 + p + Close3
    case _ => IncludesMiddle(Open4, p, Close4); Open4 + p + Close4
  }

  /** The rotation repeats after five successive counter values. */
  lemma MockReplyRotation(index: nat, p: string, profile: string)
    ensures MockReply(index + TemplateCount, p, profile) == MockReply(index, p, profile)
  {
    assert (index + TemplateCount) % TemplateCount == index % TemplateCount;
  }
}
