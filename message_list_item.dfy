/** How a stored message shows as a list item. */
module MessageItems {
  import opened Records
  import opened List

  /** The item's title: the message text. */
  function Title(m: Message): (title: string)
    ensures title == m.content
  {
    m.content
  }

  /** The text the list's filter matches: the same as the title. */
  function FilterValue(m: Message): (v: string)
    ensures v == Title(m)
  {
    Title(m)
  }

  /** Who wrote the message: only the role "assistant" is the AI; every
      other role, "system" included, shows as the user. */
  function Author(role: string): string
  {
    if role == "assistant" then "AI" else "You"
  }

  /** The line under the title: "<author> at <createdAt>", or nothing for
      a message without a role or without a creation time. */
  function Description(m: Message): (d: string)
  {
    if m.role == "" || m.createdAt == "" then ""
    else Author(m.role) + " at " + m.createdAt
  }

  /** The description is empty exactly when the role or the creation time
      is; otherwise it names the author and ends with the creation time. */
  lemma DescriptionCases(m: Message)
    ensures Description(m) == "" <==> (m.role == "" || m.createdAt == "")
    ensures m.role != "" && m.createdAt != "" ==>
              var d := Description(m);
              var n := |" at " + m.createdAt|;
              |d| >= n && d[|d| - n..] == " at " + m.createdAt
              && (m.role == "assistant" <==> d[..|d| - n] == "AI")
              && (m.role != "assistant" <==> d[..|d| - n] == "You")
  {
    if m.role != "" && m.createdAt != "" {
      var d := Description(m);
      var a := Author(m.role);
      assert d == a + (" at " + m.createdAt);
      assert d[..|a|] == a;
    }
  }

  /** The delegate draws a message in two lines (content and metadata)
      with no spacing between items. */
  function DelegateSpacing(): (s: int)
    ensures s == 0
  {
    0
  }

  function DelegateHeight(): (h: int)
    ensures h == 2 + DelegateSpacing() && h == 2
  {
    2 + DelegateSpacing()
  }

  /** One item per message. */
  function NewMessageListItem(m: Message): (item: Item)
    ensures item.MessageListItem? && item.message == m
  {
    MessageListItem(m)
  }

  /** One item per message, in the same order, each wrapping its message. */
  function NewMessageListItems(messages: seq<Message>): (items: seq<Item>)
    ensures |items| == |messages|
    ensures forall i :: 0 <= i < |messages| ==> items[i] == NewMessageListItem(messages[i])
  {
    seq(|messages|, i requires 0 <= i < |messages| => NewMessageListItem(messages[i]))
  }
}
