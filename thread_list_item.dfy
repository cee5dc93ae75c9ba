/** How a thread shows in the history list. */
module ThreadItems {
  import opened Records
  import opened List

  /** The item's title: the thread's name. */
  function Title(t: Thread): (title: string)
    ensures title == t.name
  {
    t.name
  }

  /** The line under the title: when the thread was created. */
  function Description(t: Thread): (d: string)
    ensures d == t.createdAt
  {
    t.createdAt
  }

  /** The text the list's filter matches: the same as the title. */
  function FilterValue(t: Thread): (v: string)
    ensures v == Title(t)
  {
    t.name
  }

  /** One line per item. */
  function Height(): (h: int)
    ensures h == 1
  {
    1
  }

  /** One blank line between items. */
  function Spacing(): (s: int)
    ensures s == 1
  {
    1
  }

  /** One item per thread, in the same order, each wrapping its thread. */
  function NewThreadListItems(threads: seq<Thread>): (items: seq<Item>)
    ensures |items| == |threads|
    ensures forall i :: 0 <= i < |threads| ==> items[i] == ThreadListItem(threads[i])
  {
    seq(|threads|, i requires 0 <= i < |threads| => ThreadListItem(threads[i]))
  }

  /** The items show each thread's name and creation time, so the history
      list reads the threads back in order. */
  lemma ItemsShowThreads(threads: seq<Thread>)
    ensures var items := NewThreadListItems(threads);
            forall i :: 0 <= i < |items| ==>
              items[i].ThreadListItem? && Title(items[i].thread) == threads[i].name
              && FilterValue(items[i].thread) == threads[i].name
              && Description(items[i].thread) == threads[i].createdAt
  {
  }

  /** The item list of a list with one thread inserted is the old item list
      with that thread's item inserted at the same place. */
  lemma {:induction false} ItemsOfInsert(threads: seq<Thread>, i: nat, t: Thread)
    requires i <= |threads|
    ensures NewThreadListItems(threads[..i] + [t] + threads[i..])
         == NewThreadListItems(threads)[..i] + [ThreadListItem(t)] + NewThreadListItems(threads)[i..]
  {
    var ts := threads[..i] + [t] + threads[i..];
    var lhs := NewThreadListItems(ts);
    var rhs := NewThreadListItems(threads)[..i] + [ThreadListItem(t)] + NewThreadListItems(threads)[i..];
    assert |lhs| == |rhs|;
    forall k | 0 <= k < |lhs|
      ensures lhs[k] == rhs[k]
    {
      if k < i {
        assert ts[k] == threads[k];
      } else if k == i {
        assert ts[k] == t;
      } else {
        assert ts[k] == threads[k - 1];
      }
    }
  }
}
