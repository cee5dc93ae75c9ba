/** The list wrapper used for the history panel: a titled list of items
    with a selection index, where -1 means that nothing is selected. */
module List {
  import opened Records
  import opened Tea

  /** An entry of a list: a thread of the history or a stored message. */
  datatype Item = ThreadListItem(thread: Thread) | MessageListItem(message: Message)

  /** The keys bound to moving the cursor up and down. */
  predicate IsCursorUp(k: Key)
  {
    KeyString(k) == "up" || KeyString(k) == "k"
  }

  predicate IsCursorDown(k: Key)
  {
    KeyString(k) == "down" || KeyString(k) == "j"
  }

  /** The list widget's own cursor step over `count` items, with scrolling
      past either end disabled: up stops at the first item, down at the
      last, and from "nothing selected" either key lands on the first item. */
  function MoveCursor(index: int, count: nat, up: bool): (r: int)
    requires index >= -1
    ensures r >= 0
    ensures count > 0 && -1 <= index < count ==> r < count
    ensures up && index > 0 ==> r == index - 1
    ensures !up && 0 <= index && index + 1 < count ==> r == index + 1
    ensures index >= 0 && ((up && index == 0) || (!up && index == count - 1)) ==> r == index
    ensures index == -1 ==> r == 0
  {
    if up then (if index - 1 < 0 then 0 else index - 1)
    else if index + 1 < count then index + 1
    else if count > 0 then count - 1
    else 0
  }

  /** The selection and the command after the list handles `msg` with
      `index` selected among `count` items: the cursor keys move the
      selection first; then escape asks the coordinator to drop focus,
      enter reports the selected index when there is one, and a cursor key
      reports the index it moved to. */
  function Step(index: int, count: nat, msg: Msg): (r: (int, Cmd))
    requires index >= -1
    ensures r.0 >= -1
  {
    var moved := if msg.KeyMsg? && IsCursorUp(msg.key) then MoveCursor(index, count, true)
                 else if msg.KeyMsg? && IsCursorDown(msg.key) then MoveCursor(index, count, false)
                 else index;
    if msg == KeyMsg(KeyEscape) then (moved, Send(EscapeMsg))
    else if msg == KeyMsg(KeyEnter) && moved >= 0 then (moved, Send(ListEnterMsg(moved)))
    else if msg.KeyMsg? && (IsCursorUp(msg.key) || IsCursorDown(msg.key)) then (moved, Send(ListSelectMsg(moved)))
    else (moved, WidgetCmd)
  }

  class ListModel {
    var title: string
    var items: seq<Item>
    /** The index of the selected item; -1 when nothing is selected. */
    var index: int

    /** The selection is an index or -1. */
    ghost predicate Valid()
      reads this
    {
      index >= -1
    }

    /** `NewListModel`: no item is selected to begin with. */
    constructor (title: string, items: seq<Item>)
      ensures Valid() && this.title == title && this.items == items && index == -1
    {
      this.title := title;
      this.items := items;
      index := -1;
    }

    /** Selects the first item. */
    method Focus()
      modifies this
      ensures Valid() && index == 0 && items == old(items) && title == old(title)
    {
      index := 0;
    }

    /** Drops the selection. */
    method Blur()
      modifies this
      ensures Valid() && index == -1 && items == old(items) && title == old(title)
    {
      index := -1;
    }

    method Select(i: int)
      requires i >= -1
      modifies this
      ensures Valid() && index == i && items == old(items) && title == old(title)
    {
      index := i;
    }

    method SetItems(items: seq<Item>)
      requires Valid()
      modifies this
      ensures Valid()
      ensures this.items == items && index == old(index) && title == old(title)
    {
      this.items := items;
    }

    /** Replaces one item; the widget indexes its slice, so `i` must exist. */
    method SetItem(i: nat, item: Item)
      requires Valid() && i < |items|
      modifies this
      ensures Valid()
      ensures items == old(items)[i := item] && index == old(index) && title == old(title)
    {
      items := items[i := item];
    }

    /** The cursor keys first move the selection; then escape asks the
        coordinator to drop focus, enter reports the selected index when
        there is one, and a cursor key reports the index it moved to. */
    method Update(msg: Msg) returns (cmd: Cmd)
      requires Valid()
      modifies this
      ensures Valid()
      ensures items == old(items) && title == old(title)
      ensures (index, cmd) == Step(old(index), |items|, msg)
      ensures msg.KeyMsg? && IsCursorUp(msg.key) ==> index == MoveCursor(old(index), |items|, true)
      ensures msg.KeyMsg? && IsCursorDown(msg.key) ==> index == MoveCursor(old(index), |items|, false)
      ensures !(msg.KeyMsg? && (IsCursorUp(msg.key) || IsCursorDown(msg.key))) ==> index == old(index)
      ensures msg == KeyMsg(KeyEscape) ==> cmd == Send(EscapeMsg)
      ensures msg == KeyMsg(KeyEnter) ==>
                (if old(index) >= 0 then cmd == Send(ListEnterMsg(old(index))) else cmd == WidgetCmd)
      ensures msg.KeyMsg? && (IsCursorUp(msg.key) || IsCursorDown(msg.key)) ==> index >= 0 && cmd == Send(ListSelectMsg(index))
      ensures !msg.KeyMsg? ==> cmd == WidgetCmd
    {
      // the inner widget's update
      if msg.KeyMsg? && IsCursorUp(msg.key) {
        index := MoveCursor(index, |items|, true);
      } else if msg.KeyMsg? && IsCursorDown(msg.key) {
        index := MoveCursor(index, |items|, false);
      }
      cmd := WidgetCmd;
      if msg.KeyMsg? {
        if msg.key == KeyEscape {
          return Send(EscapeMsg);
        } else if msg.key == KeyEnter && index >= 0 {
          return Send(ListEnterMsg(index));
        }
        if IsCursorUp(msg.key) || IsCursorDown(msg.key) {
          cmd := Send(ListSelectMsg(index));
        }
      }
    }
  }
}
