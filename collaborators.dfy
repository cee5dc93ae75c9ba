/** The coordinator's collaborators, declared with exactly the operations
    its handlers call: the conversation store, the language model client,
    and the reader of a streamed completion. Their answers are fixed in
    advance (an oracle per operation); every read and request, and every
    write that succeeds, is logged, so that a handler's contract can say
    what it asked for. A refused write leaves the log as it was. */
module Collaborators {
  import opened Common
  import opened Records

  /** A read the coordinator asks of the store. */
  datatype Query =
    | LatestThreadsQuery(offset: int, limit: int)
    | ThreadMessagesQuery(threadId: string, offset: int, limit: int)

  /** The store the coordinator persists to. */
  class ConversationStore {
    /** What the two list queries answer. */
    var threadsAnswer: Result<seq<Thread>>
    var messagesAnswer: Result<seq<Message>>
    /** The error each write reports, if any. */
    var upsertFault: Option<Error>
    var createFault: Option<Error>
    /** The rows written so far, in call order. */
    var upserted: seq<Thread>
    var created: seq<Message>
    /** The reads asked for so far, in call order. */
    var queries: seq<Query>

    constructor (threadsAnswer: Result<seq<Thread>>, messagesAnswer: Result<seq<Message>>,
                 upsertFault: Option<Error>, createFault: Option<Error>)
      ensures this.threadsAnswer == threadsAnswer && this.messagesAnswer == messagesAnswer
      ensures this.upsertFault == upsertFault && this.createFault == createFault
      ensures upserted == [] && created == [] && queries == []
    {
      this.threadsAnswer := threadsAnswer;
      this.messagesAnswer := messagesAnswer;
      this.upsertFault := upsertFault;
      this.createFault := createFault;
      upserted := [];
      created := [];
      queries := [];
    }

    /** Logs the query and answers it. */
    method ListLatestThreadsPaginated(offset: int, limit: int) returns (r: Result<seq<Thread>>)
      modifies this
      ensures r == threadsAnswer
      ensures queries == old(queries) + [LatestThreadsQuery(offset, limit)]
      ensures upserted == old(upserted) && created == old(created)
      ensures upsertFault == old(upsertFault) && createFault == old(createFault)
      ensures threadsAnswer == old(threadsAnswer) && messagesAnswer == old(messagesAnswer)
    {
      queries := queries + [LatestThreadsQuery(offset, limit)];
      r := threadsAnswer;
    }

    /** Logs the query and answers it. */
    method ListMessagesByThreadIDPaginated(threadId: string, offset: int, limit: int) returns (r: Result<seq<Message>>)
      modifies this
      ensures r == messagesAnswer
      ensures queries == old(queries) + [ThreadMessagesQuery(threadId, offset, limit)]
      ensures upserted == old(upserted) && created == old(created)
      ensures upsertFault == old(upsertFault) && createFault == old(createFault)
      ensures threadsAnswer == old(threadsAnswer) && messagesAnswer == old(messagesAnswer)
    {
      queries := queries + [ThreadMessagesQuery(threadId, offset, limit)];
      r := messagesAnswer;
    }

    /** Writes the thread unless the store reports an error. */
    method UpsertThread(thread: Thread) returns (err: Option<Error>)
      modifies this
      ensures err == old(upsertFault)
      ensures upserted == if err.None? then old(upserted) + [thread] else old(upserted)
      ensures created == old(created) && upsertFault == old(upsertFault) && createFault == old(createFault)
      ensures threadsAnswer == old(threadsAnswer) && messagesAnswer == old(messagesAnswer) && queries == old(queries)
    {
      err := upsertFault;
      if err.None? {
        upserted := upserted + [thread];
      }
    }

    /** Writes the message unless the store reports an error. */
    method CreateMessage(message: Message) returns (err: Option<Error>)
      modifies this
      ensures err == old(createFault)
      ensures created == if err.None? then old(created) + [message] else old(created)
      ensures upserted == old(upserted) && upsertFault == old(upsertFault) && createFault == old(createFault)
      ensures threadsAnswer == old(threadsAnswer) && messagesAnswer == old(messagesAnswer) && queries == old(queries)
    {
      err := createFault;
      if err.None? {
        created := created + [message];
      }
    }
  }

  /** One result of reading a streamed completion: the bytes handed out
      and the error reported with them. */
  datatype ReadStep = ReadStep(data: string, err: Option<Error>)

  /** What one `Read` into a buffer of `size` bytes gives when the stream
      holds `steps`: an exhausted stream reports end of stream, otherwise
      the next step's bytes, as many as fit, with its error. */
  function StepOutcome(steps: seq<ReadStep>, size: nat): (r: (string, Option<Error>))
    ensures |r.0| <= size
    ensures steps == [] ==> r == ("", Some(Eof))
    ensures steps != [] ==> r.1 == steps[0].err && |r.0| <= |steps[0].data| && r.0 == steps[0].data[..|r.0|]
    ensures steps != [] && |steps[0].data| > size ==> |r.0| == size
    ensures steps != [] && |steps[0].data| <= size ==> r.0 == steps[0].data
  {
    if steps == [] then ("", Some(Eof))
    else (steps[0].data[..Min(size, |steps[0].data|)], steps[0].err)
  }

  /** The reader of one streamed completion. */
  class ReadCloser {
    var steps: seq<ReadStep>
    var closed: bool

    constructor (steps: seq<ReadStep>)
      ensures this.steps == steps && !closed
    {
      this.steps := steps;
      closed := false;
    }

    /** `Read(p)`: copies the next step's bytes into `p` as far as they fit
        and consumes that step. */
    method Read(p: array<char>) returns (n: nat, err: Option<Error>)
      modifies this, p
      ensures var (data, e) := StepOutcome(old(steps), p.Length);
              n == |data| && p[..n] == data && err == e
      ensures p[n..] == old(p[n..])
      ensures steps == if old(steps) == [] then [] else old(steps)[1..]
      ensures closed == old(closed)
    {
      if steps == [] {
        return 0, Some(Eof);
      }
      var data := steps[0].data;
      n := Min(p.Length, |data|);
      var i := 0;
      while i < n
        modifies p
        invariant 0 <= i <= n
        invariant p[..i] == data[..i]
        invariant p[i..] == old(p[i..])
      {
        p[i] := data[i];
        i := i + 1;
      }
      err := steps[0].err;
      steps := steps[1..];
    }

    method Close()
      modifies this
      ensures closed && steps == old(steps)
    {
      closed := true;
    }
  }

  /** The language model client. */
  class Llm {
    var apiKey: string
    /** What `SetAPIKey` reports. */
    var setKeyFault: Option<Error>
    /** What opening a stream answers: the steps the new reader will give. */
    var streamAnswer: Result<seq<ReadStep>>
    /** The `(model, input)` of every stream opened, in call order. */
    var requests: seq<(string, string)>

    constructor (setKeyFault: Option<Error>, streamAnswer: Result<seq<ReadStep>>)
      ensures apiKey == "" && this.setKeyFault == setKeyFault && this.streamAnswer == streamAnswer
      ensures requests == []
    {
      apiKey := "";
      this.setKeyFault := setKeyFault;
      this.streamAnswer := streamAnswer;
      requests := [];
    }

    /** Stores the key unless the client reports an error. */
    method SetAPIKey(key: string) returns (err: Option<Error>)
      modifies this
      ensures err == old(setKeyFault)
      ensures apiKey == if err.None? then key else old(apiKey)
      ensures setKeyFault == old(setKeyFault) && streamAnswer == old(streamAnswer) && requests == old(requests)
    {
      err := setKeyFault;
      if err.None? {
        apiKey := key;
      }
    }

    /** Opens a stream for `input`, answered by model `model`. */
    method CreateChatCompletionStream(model: string, input: string) returns (reader: ReadCloser?, err: Option<Error>)
      modifies this
      ensures requests == old(requests) + [(model, input)]
      ensures apiKey == old(apiKey) && setKeyFault == old(setKeyFault) && streamAnswer == old(streamAnswer)
      ensures streamAnswer.Err? ==> reader == null && err == Some(streamAnswer.error)
      ensures streamAnswer.Ok? ==> reader != null && fresh(reader) && err == None
                                   && reader.steps == streamAnswer.value && !reader.closed
    {
      requests := requests + [(model, input)];
      if streamAnswer.Err? {
        return null, Some(streamAnswer.error);
      }
      reader := new ReadCloser(streamAnswer.value);
      err := None;
    }
  }
}
