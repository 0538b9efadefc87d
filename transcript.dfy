/**
 * The chat area: the two transcript exports of the current conversation
 * (clipboard copy and text download) and what the area displays.
 */
module Transcript {
  import opened Lists
  import opened Text
  import opened Conversations

  const CopySeparator: string := "\n\n"
  const DownloadSeparator: string := "\n\n---\n\n"

  /** The speaker label: "Vous" for the user, "Assistant" for the reply. */
  function Label(r: Role): string {
    match r
    case User => "Vous"
    case Assistant => "Assistant"
  }

  /** One message of the copied text: `label: content`. */
  function CopyBlock(m: Message): (b: string)
    ensures Label(m.role) + ": " <= b
    ensures b[|Label(m.role)| + 2..] == m.content
  {
    Label(m.role) + ": " + m.content
  }

  /** The join starts with its first part. */
  lemma JoinStartsWithFirst(parts: seq<string>, sep: string)
    requires parts != []
    ensures parts[0] <= Join(parts, sep)
  {
    if |parts| > 1 {
      assert Join(parts, sep) == parts[0] + (sep + Join(parts[1..], sep));
    }
  }

  /**
   * `handleCopyConversation`'s text: the blocks joined by a blank line. It
   * is empty exactly for an empty conversation, starts with the first
   * message's block, and is that block alone for a single message.
   */
  function CopyText(ms: seq<Message>): (t: string)
    ensures t == "" <==> ms == []
    ensures ms != [] ==> CopyBlock(ms[0]) <= t
    ensures |ms| == 1 ==> t == CopyBlock(ms[0])
  {
    var parts := Map(ms, CopyBlock);
    if ms == [] then Join(parts, CopySeparator)
    else
      JoinStartsWithFirst(parts, CopySeparator);
      Join(parts, CopySeparator)
  }

  /**
   * One message of the downloaded file: label, the timestamp as the
   * French locale prints it (`dateText`), a colon and a newline, then
   * the content.
   */
  function DownloadBlock(m: Message, dateText: int -> string): (b: string)
    ensures Label(m.role) + " (" + dateText(m.timestamp) + "):\n" <= b
    ensures b[|Label(m.role)| + |dateText(m.timestamp)| + 5..] == m.content
  {
    Label(m.role) + " (" + dateText(m.timestamp) + "):\n" + m.content
  }

  /**
   * `handleDownloadConversation`'s file text: the blocks joined by a rule,
   * empty exactly for an empty conversation, starting with the first
   * message's block, and that block alone for a single message.
   */
  function DownloadText(ms: seq<Message>, dateText: int -> string): (t: string)
    ensures t == "" <==> ms == []
    ensures ms != [] ==> DownloadBlock(ms[0], dateText) <= t
    ensures |ms| == 1 ==> t == DownloadBlock(ms[0], dateText)
  {
    var parts := Map(ms, m => DownloadBlock(m, dateText));
    if ms == [] then Join(parts, DownloadSeparator)
    else
      JoinStartsWithFirst(parts, DownloadSeparator);
      Join(parts, DownloadSeparator)
  }

  /** The downloaded file's name: the prefix, the clock text, which can be read back, and the extension. */
  function DownloadName(nowText: string): (name: string)
    ensures "conversation-" <= name
    ensures name[|name| - 4..] == ".txt"
    ensures |name| == |nowText| + 17 && name[13..|name| - 4] == nowText
  {
    "conversation-" + nowText + ".txt"
  }

  /** Copying a conversation and its continuation: one blank line between the two texts. */
  lemma CopyTextConcat(a: seq<Message>, b: seq<Message>)
    requires a != [] && b != []
    ensures CopyText(a + b) == CopyText(a) + CopySeparator + CopyText(b)
  {
    MapConcat(a, b, CopyBlock);
    JoinConcat(Map(a, CopyBlock), Map(b, CopyBlock), CopySeparator);
  }

  /** Every message's block appears in the copied text. */
  lemma CopyTextHasEveryMessage(ms: seq<Message>, i: nat)
    requires i < |ms|
    ensures Includes(CopyText(ms), CopyBlock(ms[i]))
  {
    JoinIncludesPart(Map(ms, CopyBlock), CopySeparator, i);
  }

  lemma DownloadTextConcat(a: seq<Message>, b: seq<Message>, dateText: int -> string)
    requires a != [] && b != []
    ensures DownloadText(a + b, dateText) == DownloadText(a, dateText) + DownloadSeparator + DownloadText(b, dateText)
  {
    var f := m => DownloadBlock(m, dateText);
    MapConcat(a, b, f);
    JoinConcat(Map(a, f), Map(b, f), DownloadSeparator);
  }

  /** Every message's block, with its date, appears in the downloaded text. */
  lemma DownloadTextHasEveryMessage(ms: seq<Message>, dateText: int -> string, i: nat)
    requires i < |ms|
    ensures Includes(DownloadText(ms, dateText), DownloadBlock(ms[i], dateText))
  {
    JoinIncludesPart(Map(ms, m => DownloadBlock(m, dateText)), DownloadSeparator, i);
  }

  // ---------------------------------------------------------------- display

  /**
   * What the chat area renders: the welcome screen, or the thread with its
   * Copy and Export buttons (enabled or not) and the "Génération en
   * cours..." bubble (shown or not).
   */
  datatype AreaView = Welcome | Thread(exportsEnabled: bool, indicator: bool)

  /**
   * The area for the current messages and the generating flag: the welcome
   * screen only for an empty conversation outside generation; otherwise
   * the exports work exactly when there are messages, and the bubble shows
   * exactly while generating. A disabled toolbar is therefore only ever
   * seen while a reply is being generated.
   */
  function Area(ms: seq<Message>, isGenerating: bool): (v: AreaView)
    ensures v == Welcome <==> ms == [] && !isGenerating
    ensures v.Thread? ==> (v.exportsEnabled <==> ms != [])
    ensures v.Thread? ==> (v.indicator <==> isGenerating)
    ensures v.Thread? && !v.exportsEnabled ==> isGenerating && v.indicator
  {
    if ms == [] && !isGenerating then Welcome else Thread(ms != [], isGenerating)
  }
}
