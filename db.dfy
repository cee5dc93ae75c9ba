/** The conversation store on SQLite: four tables, the statements the
    store's methods run inside a caller's transaction, and the two list
    queries. */
module Db {
  import opened Common
  import opened Records
  import opened SqlOrder

  // ---------------------------------------------------------------------
  // Tables

  /** A row of the full-text index over thread names. */
  datatype ThreadNameRow = ThreadNameRow(threadId: string, threadName: string)

  /** A row of the full-text index over message text. */
  datatype MessageContentRow = MessageContentRow(messageId: string, threadId: string, messageContent: string)

  /** The four tables, each in row order. */
  datatype Tables = Tables(
    threads: seq<Thread>,
    messages: seq<Message>,
    threadNames: seq<ThreadNameRow>,
    messageContent: seq<MessageContentRow>)

  /** The name-index rows that mirror `threads`, one per thread, in order. */
  function NameRows(threads: seq<Thread>): (rows: seq<ThreadNameRow>)
    ensures |rows| == |threads|
    ensures forall i :: 0 <= i < |threads| ==> rows[i] == ThreadNameRow(threads[i].id, threads[i].name)
  {
    if |threads| == 0 then []
    else NameRows(threads[..|threads| - 1]) + [ThreadNameRow(threads[|threads| - 1].id, threads[|threads| - 1].name)]
  }

  /** The name index holds exactly one row per thread, with its name. */
  predicate NamesMirrored(t: Tables)
  {
    t.threadNames == NameRows(t.threads)
  }

  // ---------------------------------------------------------------------
  // Statements

  /** The SQL statements the store runs, by their effect. */
  datatype Stmt =
    | InsertThread(thread: Thread)                              // INSERT INTO threads
    | InsertThreadName(threadId: string, name: string)          // INSERT INTO virtual_thread_names
    | SetThreadName(threadId: string, name: string)             // UPDATE threads SET t_name
    | SetThreadNameRow(threadId: string, name: string)          // UPDATE virtual_thread_names SET thread_name
    | DeleteThreadRow(threadId: string)                         // DELETE FROM threads WHERE id
    | DeleteThreadNameRow(threadId: string)                     // DELETE FROM virtual_thread_names WHERE thread_id
    | DeleteMessageContentRows(threadId: string)                // DELETE FROM virtual_message_content WHERE thread_id
    | DeleteAllThreadRows                                       // DELETE FROM threads
    | DeleteAllThreadNameRows                                   // DELETE FROM virtual_thread_names
    | DeleteAllMessageContentRows                               // DELETE FROM virtual_message_content
    | InsertMessage(message: Message)                           // INSERT INTO messages
    | TouchThread(threadId: string, now: string)                // UPDATE threads SET updated_at = DATETIME('now')

  function RenameThreads(ts: seq<Thread>, id: string, name: string): (r: seq<Thread>)
    ensures |r| == |ts|
    ensures forall i :: 0 <= i < |ts| ==> r[i] == if ts[i].id == id then ts[i].(name := name) else ts[i]
  {
    if |ts| == 0 then []
    else
      var t := ts[|ts| - 1];
      RenameThreads(ts[..|ts| - 1], id, name) + [if t.id == id then t.(name := name) else t]
  }

  function RenameRows(rows: seq<ThreadNameRow>, id: string, name: string): (r: seq<ThreadNameRow>)
    ensures |r| == |rows|
    ensures forall i :: 0 <= i < |rows| ==> r[i] == if rows[i].threadId == id then rows[i].(threadName := name) else rows[i]
  {
    if |rows| == 0 then []
    else
      var w := rows[|rows| - 1];
      RenameRows(rows[..|rows| - 1], id, name) + [if w.threadId == id then w.(threadName := name) else w]
  }

  function TouchThreads(ts: seq<Thread>, id: string, now: string): (r: seq<Thread>)
    ensures |r| == |ts|
    ensures forall i :: 0 <= i < |ts| ==> r[i] == if ts[i].id == id then ts[i].(updatedAt := now) else ts[i]
  {
    if |ts| == 0 then []
    else
      var t := ts[|ts| - 1];
      TouchThreads(ts[..|ts| - 1], id, now) + [if t.id == id then t.(updatedAt := now) else t]
  }

  /** `DELETE FROM <table> WHERE <key> = id`, for any of the three
      tables: the rows whose key is `id` go, the others stay in order. */
  function Without<T(!new)>(rows: seq<T>, key: T -> string, id: string): (r: seq<T>)
    ensures forall w :: w in r <==> w in rows && key(w) != id
  {
    if |rows| == 0 then []
    else
      var w := rows[|rows| - 1];
      Without(rows[..|rows| - 1], key, id) + (if key(w) == id then [] else [w])
  }

  function ThreadKey(t: Thread): string { t.id }

  function NameRowKey(w: ThreadNameRow): string { w.threadId }

  function ContentRowKey(w: MessageContentRow): string { w.threadId }

  /** The tables after one statement that succeeds. */
  function Apply(t: Tables, s: Stmt): Tables
  {
    match s
    case InsertThread(th) => t.(threads := t.threads + [th])
    case InsertThreadName(id, name) => t.(threadNames := t.threadNames + [ThreadNameRow(id, name)])
    case SetThreadName(id, name) => t.(threads := RenameThreads(t.threads, id, name))
    case SetThreadNameRow(id, name) => t.(threadNames := RenameRows(t.threadNames, id, name))
    case DeleteThreadRow(id) => t.(threads := Without(t.threads, ThreadKey, id))
    case DeleteThreadNameRow(id) => t.(threadNames := Without(t.threadNames, NameRowKey, id))
    case DeleteMessageContentRows(id) => t.(messageContent := Without(t.messageContent, ContentRowKey, id))
    case DeleteAllThreadRows => t.(threads := [])
    case DeleteAllThreadNameRows => t.(threadNames := [])
    case DeleteAllMessageContentRows => t.(messageContent := [])
    case InsertMessage(m) => t.(messages := t.messages + [m])
    case TouchThread(id, now) => t.(threads := TouchThreads(t.threads, id, now))
  }

  // ---------------------------------------------------------------------
  // The name index follows the threads table

  lemma {:induction false} NameRowsRename(ts: seq<Thread>, id: string, name: string)
    ensures NameRows(RenameThreads(ts, id, name)) == RenameRows(NameRows(ts), id, name)
  {
    var l := NameRows(RenameThreads(ts, id, name));
    var r := RenameRows(NameRows(ts), id, name);
    assert |l| == |r|;
    forall i | 0 <= i < |l|
      ensures l[i] == r[i]
    {
    }
  }

  lemma {:induction false} NameRowsTouch(ts: seq<Thread>, id: string, now: string)
    ensures NameRows(TouchThreads(ts, id, now)) == NameRows(ts)
  {
    var l := NameRows(TouchThreads(ts, id, now));
    assert |l| == |NameRows(ts)|;
    forall i | 0 <= i < |l|
      ensures l[i] == NameRows(ts)[i]
    {
    }
  }

  lemma {:induction false} NameRowsRemove(ts: seq<Thread>, id: string)
    ensures NameRows(Without(ts, ThreadKey, id)) == Without(NameRows(ts), NameRowKey, id)
    decreases |ts|
  {
    if |ts| > 0 {
      var init := ts[..|ts| - 1];
      var t := ts[|ts| - 1];
      NameRowsRemove(init, id);
      var kept := if t.id == id then [] else [t];
      assert NameRows(ts) == NameRows(init) + [ThreadNameRow(t.id, t.name)];
      assert NameRows(ts)[..|ts| - 1] == NameRows(init);
      NameRowsAppend(Without(init, ThreadKey, id), kept);
    }
  }

  lemma {:induction false} NameRowsAppend(a: seq<Thread>, b: seq<Thread>)
    ensures NameRows(a + b) == NameRows(a) + NameRows(b)
  {
    var l := NameRows(a + b);
    var r := NameRows(a) + NameRows(b);
    assert |l| == |r|;
    forall i | 0 <= i < |l|
      ensures l[i] == r[i]
    {
      if i < |a| {
        assert (a + b)[i] == a[i];
      } else {
        assert (a + b)[i] == b[i - |a|];
      }
    }
  }

  /** Inserting a thread and then its name row keeps the index mirrored. */
  lemma CreateKeepsMirror(t: Tables, th: Thread)
    requires NamesMirrored(t)
    ensures NamesMirrored(Apply(Apply(t, InsertThread(th)), InsertThreadName(th.id, th.name)))
  {
    NameRowsAppend(t.threads, [th]);
  }

  /** Renaming a thread in both tables keeps the index mirrored. */
  lemma RenameKeepsMirror(t: Tables, id: string, name: string)
    requires NamesMirrored(t)
    ensures NamesMirrored(Apply(Apply(t, SetThreadName(id, name)), SetThreadNameRow(id, name)))
  {
    NameRowsRename(t.threads, id, name);
  }

  /** Deleting a thread's row and its name row keeps the index mirrored. */
  lemma DeleteKeepsMirror(t: Tables, id: string)
    requires NamesMirrored(t)
    ensures NamesMirrored(Apply(Apply(t, DeleteThreadRow(id)), DeleteThreadNameRow(id)))
  {
    ApplyDelete(t, id);
    NameRowsRemove(t.threads, id);
  }

  lemma ApplyDelete(t: Tables, id: string)
    ensures Apply(Apply(t, DeleteThreadRow(id)), DeleteThreadNameRow(id)).threads == Without(t.threads, ThreadKey, id)
    ensures Apply(Apply(t, DeleteThreadRow(id)), DeleteThreadNameRow(id)).threadNames == Without(t.threadNames, NameRowKey, id)
  {
  }

  /** Storing a message touches only the owning thread's `updatedAt`, so the
      index stays mirrored. */
  lemma CreateMessageKeepsMirror(t: Tables, m: Message, now: string)
    requires NamesMirrored(t)
    ensures NamesMirrored(Apply(Apply(t, InsertMessage(m)), TouchThread(m.threadId, now)))
  {
    NameRowsTouch(t.threads, m.threadId, now);
  }

  /** A thread insert whose name-row insert then fails leaves a thread that
      the name index does not know: only the caller's rollback restores the
      mirror. */
  lemma PartialCreateBreaksMirror(t: Tables, th: Thread)
    requires NamesMirrored(t)
    ensures !NamesMirrored(Apply(t, InsertThread(th)))
  {
    assert |NameRows(t.threads + [th])| != |t.threadNames|;
  }

  // ---------------------------------------------------------------------
  // Queries

  function ThreadCreatedAt(t: Thread): string { t.createdAt }

  function MessageCreatedAt(m: Message): string { m.createdAt }

  /** `SELECT * FROM threads ORDER BY created_at DESC LIMIT limit OFFSET offset`. */
  function LatestThreads(t: Tables, offset: int, limit: int): seq<Thread>
  {
    Page(SortDesc(t.threads, ThreadCreatedAt), offset, limit)
  }

  /** The messages of one thread, in table order. */
  function MessagesOf(ms: seq<Message>, threadId: string): (r: seq<Message>)
    ensures forall m :: m in r <==> m in ms && m.threadId == threadId
    ensures multiset(r) <= multiset(ms)
  {
    if |ms| == 0 then []
    else
      var m := ms[|ms| - 1];
      assert ms == ms[..|ms| - 1] + [m];
      MessagesOf(ms[..|ms| - 1], threadId) + (if m.threadId == threadId then [m] else [])
  }

  /** `SELECT * FROM messages WHERE thread_id = threadId ORDER BY created_at
      DESC LIMIT limit OFFSET offset`. */
  function ThreadMessages(t: Tables, threadId: string, offset: int, limit: int): seq<Message>
  {
    Page(SortDesc(MessagesOf(t.messages, threadId), MessageCreatedAt), offset, limit)
  }

  /** The thread page: the rows after the first `offset` of the table put
      newest `createdAt` first, exactly `limit` of them when that many
      remain and all that remain otherwise; so each is a stored thread, and
      the whole table comes back when neither bound cuts. */
  lemma LatestThreadsSpec(t: Tables, offset: int, limit: int)
    ensures var sorted := SortDesc(t.threads, ThreadCreatedAt);
            multiset(sorted) == multiset(t.threads) && SortedDesc(sorted, ThreadCreatedAt)
            && RunAfter(LatestThreads(t, offset, limit), sorted, offset, limit)
    ensures var r := LatestThreads(t, offset, limit);
            (limit >= 0 ==> |r| <= limit)
            && (forall x :: x in r ==> x in t.threads)
            && SortedDesc(r, ThreadCreatedAt)
            && (offset <= 0 && limit < 0 ==> multiset(r) == multiset(t.threads))
  {
    SortedPage(t.threads, ThreadCreatedAt, offset, limit);
    var sorted := SortDesc(t.threads, ThreadCreatedAt);
    PageRows(sorted, offset, limit);
    PageSorted(sorted, offset, limit, ThreadCreatedAt);
    forall x | x in sorted
      ensures x in t.threads
    {
      assert x in multiset(sorted);
    }
    if offset <= 0 && limit < 0 {
      PageAll(sorted, offset, limit);
    }
  }

  /** The message page: the thread's own messages put newest first, the
      ones after the first `offset`, exactly `limit` of them when that many
      remain and all that remain otherwise; so it holds only the thread's
      messages, and all of them when neither bound cuts. */
  lemma ThreadMessagesSpec(t: Tables, threadId: string, offset: int, limit: int)
    ensures var own := MessagesOf(t.messages, threadId);
            var sorted := SortDesc(own, MessageCreatedAt);
            multiset(sorted) == multiset(own) && SortedDesc(sorted, MessageCreatedAt)
            && RunAfter(ThreadMessages(t, threadId, offset, limit), sorted, offset, limit)
    ensures var r := ThreadMessages(t, threadId, offset, limit);
            (limit >= 0 ==> |r| <= limit)
            && (forall m :: m in r ==> m in t.messages && m.threadId == threadId)
            && SortedDesc(r, MessageCreatedAt)
            && (offset <= 0 && limit < 0 ==> multiset(r) == multiset(MessagesOf(t.messages, threadId)))
  {
    ThreadMessagesPage(t, threadId, offset, limit);
    ThreadMessagesRows(t, threadId, offset, limit);
  }

  /** The message page is the run of the newest-first ordering of the
      thread's messages after the first `offset`, of the length the bounds
      leave. */
  lemma ThreadMessagesPage(t: Tables, threadId: string, offset: int, limit: int)
    ensures var own := MessagesOf(t.messages, threadId);
            var sorted := SortDesc(own, MessageCreatedAt);
            multiset(sorted) == multiset(own) && SortedDesc(sorted, MessageCreatedAt)
            && RunAfter(ThreadMessages(t, threadId, offset, limit), sorted, offset, limit)
  {
    SortedPage(MessagesOf(t.messages, threadId), MessageCreatedAt, offset, limit);
  }

  /** The message page holds only the thread's stored messages, newest
      first, and all of them when neither bound cuts. */
  lemma ThreadMessagesRows(t: Tables, threadId: string, offset: int, limit: int)
    ensures var r := ThreadMessages(t, threadId, offset, limit);
            (limit >= 0 ==> |r| <= limit)
            && (forall m :: m in r ==> m in t.messages && m.threadId == threadId)
            && SortedDesc(r, MessageCreatedAt)
            && (offset <= 0 && limit < 0 ==> multiset(r) == multiset(MessagesOf(t.messages, threadId)))
  {
    var own := MessagesOf(t.messages, threadId);
    SortDescCorrect(own, MessageCreatedAt);
    var sorted := SortDesc(own, MessageCreatedAt);
    PageRows(sorted, offset, limit);
    PageSorted(sorted, offset, limit, MessageCreatedAt);
    forall m | m in sorted
      ensures m in own
    {
      assert m in multiset(sorted);
    }
    if offset <= 0 && limit < 0 {
      PageAll(sorted, offset, limit);
    }
  }

  /** The query never checks that the thread exists: an id no message
      carries gives an empty page rather than an error. */
  lemma UnknownThreadIsEmpty(t: Tables, threadId: string, offset: int, limit: int)
    requires forall m :: m in t.messages ==> m.threadId != threadId
    ensures ThreadMessages(t, threadId, offset, limit) == []
  {
    MessagesOfNone(t.messages, threadId);
  }

  lemma {:induction false} MessagesOfNone(ms: seq<Message>, threadId: string)
    requires forall m :: m in ms ==> m.threadId != threadId
    ensures MessagesOf(ms, threadId) == []
    decreases |ms|
  {
    if |ms| > 0 {
      assert forall m :: m in ms[..|ms| - 1] ==> m in ms;
      MessagesOfNone(ms[..|ms| - 1], threadId);
      assert ms[|ms| - 1] in ms;
    }
  }

  // ---------------------------------------------------------------------
  // Transactions and the store

  /** How the caller passes a statement's arguments: as positional values,
      or as one record whose fields fill named parameters. */
  datatype Args = Values | Record

  /** `database/sql` refuses a record as a positional argument. */
  const RecordArgumentError := External("sql: converting argument $1 type: unsupported type db.Thread, a struct")

  /** Which statement of a method the database refuses, if any. */
  datatype Fault = NoFault | FailAt(step: nat, cause: Error)

  function FaultAt(f: Fault, step: nat): Option<Error>
  {
    if f.FailAt? && f.step == step then Some(f.cause) else None
  }

  /** An open transaction and the tables as it sees them. Commit and
      rollback belong to the caller. */
  class Tx {
    var tables: Tables

    constructor (tables: Tables)
      ensures this.tables == tables
    {
      this.tables := tables;
    }

    /** `tx.Exec`: runs the statement unless the database refuses it. A
        record argument never reaches the database. */
    method Exec(s: Stmt, args: Args, fault: Option<Error>) returns (err: Option<Error>)
      modifies this
      ensures args == Record ==> err == Some(RecordArgumentError) && tables == old(tables)
      ensures args == Values ==> err == fault
      ensures args == Values && fault.None? ==> tables == Apply(old(tables), s)
      ensures args == Values && fault.Some? ==> tables == old(tables)
    {
      if args == Record {
        return Some(RecordArgumentError);
      }
      err := fault;
      if fault.None? {
        tables := Apply(tables, s);
      }
    }

    /** `tx.NamedExec`: the record's fields fill the named parameters. */
    method NamedExec(s: Stmt, fault: Option<Error>) returns (err: Option<Error>)
      modifies this
      ensures err == fault
      ensures fault.None? ==> tables == Apply(old(tables), s)
      ensures fault.Some? ==> tables == old(tables)
    {
      err := fault;
      if fault.None? {
        tables := Apply(tables, s);
      }
    }
  }

  class Store {
    var tables: Tables

    constructor (tables: Tables)
      ensures this.tables == tables
    {
      this.tables := tables;
    }

    /** `Begin`: a transaction over the current tables, unless the database
        refuses to open one. */
    method Begin(fault: Option<Error>) returns (tx: Tx?, err: Option<Error>)
      ensures err == fault
      ensures fault.None? ==> tx != null && fresh(tx) && tx.tables == tables
      ensures fault.Some? ==> tx == null
    {
      if fault.Some? {
        return null, fault;
      }
      tx := new Tx(tables);
      err := None;
    }

    /** `ListLatestThreadsPaginated`. */
    method ListLatestThreadsPaginated(offset: int, limit: int, fault: Option<Error>)
      returns (threads: seq<Thread>, err: Option<Error>)
      ensures fault.None? ==> err.None? && threads == LatestThreads(tables, offset, limit)
      ensures fault.Some? ==> err == Some(Wrapped("db.Select: ", fault.value)) && threads == []
    {
      if fault.Some? {
        return [], Some(Wrapped("db.Select: ", fault.value));
      }
      threads := LatestThreads(tables, offset, limit);
      err := None;
    }

    /** `ListMessagesByThreadIDPaginated`. */
    method ListMessagesByThreadIDPaginated(threadId: string, offset: int, limit: int, fault: Option<Error>)
      returns (messages: seq<Message>, err: Option<Error>)
      ensures fault.None? ==> err.None? && messages == ThreadMessages(tables, threadId, offset, limit)
      ensures fault.Some? ==> err == Some(Wrapped("could not select messages, db.Select: ", fault.value)) && messages == []
    {
      if fault.Some? {
        return [], Some(Wrapped("could not select messages, db.Select: ", fault.value));
      }
      messages := ThreadMessages(tables, threadId, offset, limit);
      err := None;
    }

    /** `CreateThreadTx` as written: the thread row's INSERT hands the
        record to `tx.Exec`, whose positional arguments cannot be a record,
        so it fails before anything is written and the name-row statement
        after it is never reached. */
    method CreateThreadTxAsWritten(tx: Tx, thread: Thread, fault: Fault) returns (err: Option<Error>)
      modifies tx
      ensures err == Some(Wrapped("tx.NamedExec: ", RecordArgumentError))
      ensures tx.tables == old(tx.tables)
    {
      var e := tx.Exec(InsertThread(thread), Record, FaultAt(fault, 0));
      err := Some(Wrapped("tx.NamedExec: ", e.value));
    }

    /** `CreateThreadTx` with the thread row bound by name: one thread row,
        then its name row, stopping at the first refused statement. */
    method CreateThreadTx(tx: Tx, thread: Thread, fault: Fault) returns (err: Option<Error>)
      modifies tx
      ensures var t := old(tx.tables);
              match fault
              case FailAt(0, c) => err == Some(Wrapped("tx.NamedExec: ", c)) && tx.tables == t
              case FailAt(1, c) => err == Some(Wrapped("tx.Exec: ", c)) && tx.tables == Apply(t, InsertThread(thread))
              case _ => err == None && tx.tables == Apply(Apply(t, InsertThread(thread)), InsertThreadName(thread.id, thread.name))
    {
      var e := tx.NamedExec(InsertThread(thread), FaultAt(fault, 0));
      if e.Some? {
        return Some(Wrapped("tx.NamedExec: ", e.value));
      }
      e := tx.Exec(InsertThreadName(thread.id, thread.name), Values, FaultAt(fault, 1));
      if e.Some? {
        return Some(Wrapped("tx.Exec: ", e.value));
      }
      err := None;
    }

    /** `UpdateThreadNameTx`: the thread row, then its name row. */
    method UpdateThreadNameTx(tx: Tx, threadId: string, name: string, fault: Fault) returns (err: Option<Error>)
      modifies tx
      ensures var t := old(tx.tables);
              match fault
              case FailAt(0, c) => err == Some(Wrapped("tx.Exec: ", c)) && tx.tables == t
              case FailAt(1, c) => err == Some(Wrapped("tx.Exec: ", c)) && tx.tables == Apply(t, SetThreadName(threadId, name))
              case _ => err == None && tx.tables == Apply(Apply(t, SetThreadName(threadId, name)), SetThreadNameRow(threadId, name))
    {
      var e := tx.Exec(SetThreadName(threadId, name), Values, FaultAt(fault, 0));
      if e.Some? {
        return Some(Wrapped("tx.Exec: ", e.value));
      }
      e := tx.Exec(SetThreadNameRow(threadId, name), Values, FaultAt(fault, 1));
      if e.Some? {
        return Some(Wrapped("tx.Exec: ", e.value));
      }
      err := None;
    }

    /** `DeleteThreadTx`: the thread row, its name row, then the content
        index rows of the thread; the `messages` rows stay. */
    method DeleteThreadTx(tx: Tx, threadId: string, fault: Fault) returns (err: Option<Error>)
      modifies tx
      ensures var t := old(tx.tables);
              var t1 := Apply(t, DeleteThreadRow(threadId));
              var t2 := Apply(t1, DeleteThreadNameRow(threadId));
              match fault
              case FailAt(0, c) => err == Some(Wrapped("tx.Exec: ", c)) && tx.tables == t
              case FailAt(1, c) => err == Some(Wrapped("tx.Exec: ", c)) && tx.tables == t1
              case FailAt(2, c) => err == Some(Wrapped("tx.Exec: ", c)) && tx.tables == t2
              case _ => err == None && tx.tables == Apply(t2, DeleteMessageContentRows(threadId))
    {
      var e := tx.Exec(DeleteThreadRow(threadId), Values, FaultAt(fault, 0));
      if e.Some? {
        return Some(Wrapped("tx.Exec: ", e.value));
      }
      e := tx.Exec(DeleteThreadNameRow(threadId), Values, FaultAt(fault, 1));
      if e.Some? {
        return Some(Wrapped("tx.Exec: ", e.value));
      }
      e := tx.Exec(DeleteMessageContentRows(threadId), Values, FaultAt(fault, 2));
      if e.Some? {
        return Some(Wrapped("tx.Exec: ", e.value));
      }
      err := None;
    }

    /** `DeleteAllThreadsTx`: empties the threads table and both indexes. */
    method DeleteAllThreadsTx(tx: Tx, fault: Fault) returns (err: Option<Error>)
      modifies tx
      ensures var t := old(tx.tables);
              var t1 := Apply(t, DeleteAllThreadRows);
              var t2 := Apply(t1, DeleteAllThreadNameRows);
              match fault
              case FailAt(0, c) => err == Some(Wrapped("tx.Exec: ", c)) && tx.tables == t
              case FailAt(1, c) => err == Some(Wrapped("tx.Exec: ", c)) && tx.tables == t1
              case FailAt(2, c) => err == Some(Wrapped("tx.Exec: ", c)) && tx.tables == t2
              case _ => err == None && tx.tables == Apply(t2, DeleteAllMessageContentRows)
    {
      var e := tx.Exec(DeleteAllThreadRows, Values, FaultAt(fault, 0));
      if e.Some? {
        return Some(Wrapped("tx.Exec: ", e.value));
      }
      e := tx.Exec(DeleteAllThreadNameRows, Values, FaultAt(fault, 1));
      if e.Some? {
        return Some(Wrapped("tx.Exec: ", e.value));
      }
      e := tx.Exec(DeleteAllMessageContentRows, Values, FaultAt(fault, 2));
      if e.Some? {
        return Some(Wrapped("tx.Exec: ", e.value));
      }
      err := None;
    }

    /** `CreateMessageTx`: the message row, then the owning thread's
        `updatedAt` set to the database clock `now`. */
    method CreateMessageTx(tx: Tx, message: Message, now: string, fault: Fault) returns (err: Option<Error>)
      modifies tx
      ensures var t := old(tx.tables);
              var t1 := Apply(t, InsertMessage(message));
              match fault
              case FailAt(0, c) => err == Some(Wrapped("tx.NamedExec: ", c)) && tx.tables == t
              case FailAt(1, c) => err == Some(Wrapped("tx.Exec: ", c)) && tx.tables == t1
              case _ => err == None && tx.tables == Apply(t1, TouchThread(message.threadId, now))
    {
      var e := tx.NamedExec(InsertMessage(message), FaultAt(fault, 0));
      if e.Some? {
        return Some(Wrapped("tx.NamedExec: ", e.value));
      }
      e := tx.Exec(TouchThread(message.threadId, now), Values, FaultAt(fault, 1));
      if e.Some? {
        return Some(Wrapped("tx.Exec: ", e.value));
      }
      err := None;
    }
  }

  // ---------------------------------------------------------------------
  // What each successful method touches

  /** A created thread adds one row to `threads` and one to the name index,
      both at the end, and nothing else. */
  lemma CreateThreadEffect(t: Tables, th: Thread)
    ensures var u := Apply(Apply(t, InsertThread(th)), InsertThreadName(th.id, th.name));
            u.threads == t.threads + [th] && u.threadNames == t.threadNames + [ThreadNameRow(th.id, th.name)]
            && u.messages == t.messages && u.messageContent == t.messageContent
  {
  }

  /** A rename changes the name of the matching rows of `threads` and of
      the name index and nothing else. */
  lemma RenameEffect(t: Tables, id: string, name: string)
    ensures var u := Apply(Apply(t, SetThreadName(id, name)), SetThreadNameRow(id, name));
            |u.threads| == |t.threads| && |u.threadNames| == |t.threadNames|
            && (forall i :: 0 <= i < |t.threads| ==>
                  (t.threads[i].id == id ==> u.threads[i] == t.threads[i].(name := name))
                  && (t.threads[i].id != id ==> u.threads[i] == t.threads[i]))
            && (forall i :: 0 <= i < |t.threadNames| ==>
                  u.threadNames[i].threadId == t.threadNames[i].threadId
                  && (t.threadNames[i].threadId == id ==> u.threadNames[i].threadName == name)
                  && (t.threadNames[i].threadId != id ==> u.threadNames[i] == t.threadNames[i]))
            && u.messages == t.messages && u.messageContent == t.messageContent
  {
  }

  /** A deleted thread leaves no row in `threads` or in either index for
      its id, keeps every other row, and leaves `messages` alone. */
  lemma DeleteThreadEffect(t: Tables, id: string)
    ensures var u := Apply(Apply(Apply(t, DeleteThreadRow(id)), DeleteThreadNameRow(id)), DeleteMessageContentRows(id));
            (forall x :: x in u.threads <==> x in t.threads && x.id != id)
            && (forall w :: w in u.threadNames <==> w in t.threadNames && w.threadId != id)
            && (forall w :: w in u.messageContent <==> w in t.messageContent && w.threadId != id)
            && u.messages == t.messages
  {
  }

  /** Deleting all threads empties `threads` and both indexes. */
  lemma DeleteAllEffect(t: Tables)
    ensures var u := Apply(Apply(Apply(t, DeleteAllThreadRows), DeleteAllThreadNameRows), DeleteAllMessageContentRows);
            u.threads == [] && u.threadNames == [] && u.messageContent == [] && u.messages == t.messages
  {
  }

  /** A stored message is one new row of `messages`; of the threads only the
      owner's `updatedAt` changes; the content index gets no row. */
  lemma CreateMessageEffect(t: Tables, m: Message, now: string)
    ensures var u := Apply(Apply(t, InsertMessage(m)), TouchThread(m.threadId, now));
            u.messages == t.messages + [m] && u.messageContent == t.messageContent
            && u.threadNames == t.threadNames && |u.threads| == |t.threads|
            && (forall i :: 0 <= i < |t.threads| ==>
                  u.threads[i].id == t.threads[i].id && u.threads[i].name == t.threads[i].name
                  && u.threads[i].createdAt == t.threads[i].createdAt
                  && (t.threads[i].id != m.threadId ==> u.threads[i] == t.threads[i])
                  && (t.threads[i].id == m.threadId ==> u.threads[i].updatedAt == now))
  {
  }
}
