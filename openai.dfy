/** The OpenAI adapter: the client's key guard, the conversion of stored
    messages into request messages, and the stream adapter whose `Read`
    hands one streamed fragment at a time to the caller's buffer. The HTTP
    client itself is outside the model: its answers are parameters. */
module OpenAI {
  import opened Common
  import opened Records

  const DefaultBaseUrl := "https://api.openai.com/v1"

  /** One message of a chat completion request. */
  datatype ClientMessage = ClientMessage(role: string, content: string)

  datatype ChatCompletionRequest = ChatCompletionRequest(model: string, messages: seq<ClientMessage>, stream: bool)

  /** One streamed response: the delta text of each choice. */
  datatype StreamResponse = StreamResponse(choices: seq<string>)

  /** The client's stream of responses. What `Recv` will return is fixed
      in advance by the server's answers; once they are used up it reports
      end of stream. */
  class CompletionStream {
    var responses: seq<Result<StreamResponse>>
    var closed: bool
    /** What closing the connection reports. */
    var closeFault: Option<Error>

    constructor (responses: seq<Result<StreamResponse>>, closeFault: Option<Error>)
      ensures this.responses == responses && !closed && this.closeFault == closeFault
    {
      this.responses := responses;
      closed := false;
      this.closeFault := closeFault;
    }

    method Recv() returns (r: Result<StreamResponse>)
      modifies this
      ensures old(responses) == [] ==> r == Err(Eof) && responses == []
      ensures old(responses) != [] ==> r == old(responses)[0] && responses == old(responses)[1..]
      ensures closed == old(closed) && closeFault == old(closeFault)
    {
      if responses == [] {
        return Err(Eof);
      }
      r := responses[0];
      responses := responses[1..];
    }

    method Close() returns (err: Option<Error>)
      modifies this
      ensures closed && responses == old(responses) && closeFault == old(closeFault)
      ensures err == old(closeFault)
    {
      closed := true;
      err := closeFault;
    }
  }

  /** What one `Read` into a buffer of `size` bytes reports for the next
      response: the byte count and the error. */
  function ReadOutcome(next: Result<StreamResponse>, size: nat): (nat, Option<Error>)
  {
    if next.Err? then (0, Some(next.error))
    else if next.value.choices == [] then (0, Some(NoChoicesReturned))
    else
      var content := next.value.choices[0];
      if |content| > size then (size, Some(BufferTooSmall)) else (|content|, None)
  }

  /** The next response `Recv` gives. */
  function Next(responses: seq<Result<StreamResponse>>): Result<StreamResponse>
  {
    if responses == [] then Err(Eof) else responses[0]
  }

  class OpenAIStream {
    const stream: CompletionStream

    constructor (stream: CompletionStream)
      ensures this.stream == stream
    {
      this.stream := stream;
    }

    /** `Read`: takes the next response and copies the first choice's text
        into `p`, as far as it fits. A `Recv` error (end of stream
        included) and a response without choices copy nothing. A fragment
        longer than `p` fills it and reports `ErrBufferTooSmall`; the rest
        of that fragment is gone, since the response has been consumed. */
    method Read(p: array<char>) returns (n: nat, err: Option<Error>)
      modifies p, stream
      ensures (n, err) == ReadOutcome(Next(old(stream.responses)), p.Length)
      ensures stream.responses == if old(stream.responses) == [] then [] else old(stream.responses)[1..]
      ensures stream.closed == old(stream.closed)
      ensures n <= p.Length
      ensures p[n..] == old(p[n..])
      ensures n > 0 ==> p[..n] == Next(old(stream.responses)).value.choices[0][..n]
    {
      var resp := stream.Recv();
      if resp.Err? {
        return 0, Some(resp.error);
      }
      if resp.value.choices == [] {
        return 0, Some(NoChoicesReturned);
      }
      var content := resp.value.choices[0];
      n := if |content| < p.Length then |content| else p.Length;
      var i := 0;
      while i < n
        modifies p
        invariant 0 <= i <= n
        invariant forall k :: 0 <= k < i ==> p[k] == content[k]
        invariant forall k :: i <= k < p.Length ==> p[k] == old(p[k])
      {
        p[i] := content[i];
        i := i + 1;
      }
      assert p[..n] == content[..n];
      assert p[n..] == old(p[n..]);
      err := if n < |content| then Some(BufferTooSmall) else None;
    }

    /** `Close`: closes the client's stream and passes its error through. */
    method Close() returns (err: Option<Error>)
      modifies stream
      ensures stream.closed && stream.responses == old(stream.responses)
      ensures err == old(stream.closeFault)
    {
      err := stream.Close();
    }
  }

  /** The client adapter. `hasClient` records whether a client was built for
      the current key. */
  class OpenAI {
    var baseUrl: string
    var apiKey: string
    var hasClient: bool

    /** `New`: an empty base URL means the public endpoint; no key yet. */
    constructor (baseUrl: string)
      ensures this.baseUrl == (if baseUrl == "" then DefaultBaseUrl else baseUrl)
      ensures apiKey == "" && !hasClient
    {
      this.baseUrl := if baseUrl == "" then DefaultBaseUrl else baseUrl;
      apiKey := "";
      hasClient := false;
    }

    /** `SetAPIKey`: stores the key and builds a client for it; never fails. */
    method SetAPIKey(apiKey: string) returns (err: Option<Error>)
      modifies this
      ensures this.apiKey == apiKey && hasClient && baseUrl == old(baseUrl) && err == None
    {
      this.apiKey := apiKey;
      hasClient := true;
      err := None;
    }

    /** `dbMessagesToClientMessage`: one request message per stored
        message, in order, with its role and text. */
    method DbMessagesToClientMessage(messages: seq<Message>) returns (r: seq<ClientMessage>)
      ensures |r| == |messages|
      ensures forall i :: 0 <= i < |messages| ==> r[i].role == messages[i].role && r[i].content == messages[i].content
    {
      r := [];
      for i := 0 to |messages|
        invariant |r| == i
        invariant forall k :: 0 <= k < i ==> r[k].role == messages[k].role && r[k].content == messages[k].content
      {
        r := r + [ClientMessage(messages[i].role, messages[i].content)];
      }
    }

    /** `CreateChatCompletion`: refuses without a key before any request;
        otherwise sends the request and returns the first choice's text.
        `reply` is the server's answer: the text of each choice, or the
        client's error, which is passed through. */
    method CreateChatCompletion(model: string, messages: seq<Message>, reply: Result<seq<string>>)
      returns (content: string, err: Option<Error>, sent: Option<ChatCompletionRequest>)
      ensures apiKey == "" ==> content == "" && err == Some(ApiKeyNotSet) && sent == None
      ensures apiKey != "" ==> sent.Some? && sent.value.model == model && !sent.value.stream
                               && |sent.value.messages| == |messages|
                               && forall i :: 0 <= i < |messages| ==>
                                    sent.value.messages[i] == ClientMessage(messages[i].role, messages[i].content)
      ensures apiKey != "" && reply.Err? ==> content == "" && err == Some(reply.error)
      ensures apiKey != "" && reply.Ok? && reply.value == [] ==> content == "" && err == Some(NoChoicesReturned)
      ensures apiKey != "" && reply.Ok? && reply.value != [] ==> content == reply.value[0] && err == None
    {
      if apiKey == "" {
        return "", Some(ApiKeyNotSet), None;
      }
      var clientMessages := DbMessagesToClientMessage(messages);
      sent := Some(ChatCompletionRequest(model, clientMessages, false));
      if reply.Err? {
        return "", Some(reply.error), sent;
      }
      if reply.value == [] {
        return "", Some(NoChoicesReturned), sent;
      }
      content := reply.value[0];
      err := None;
    }

    /** `CreateChatCompletionStream`: refuses without a key before any
        request; otherwise opens a stream. `answer` is what the client's
        stream request gives. */
    method CreateChatCompletionStream(model: string, messages: seq<Message>, answer: Result<CompletionStream>)
      returns (reader: OpenAIStream?, err: Option<Error>, sent: Option<ChatCompletionRequest>)
      ensures apiKey == "" ==> reader == null && err == Some(ApiKeyNotSet) && sent == None
      ensures apiKey != "" ==> sent.Some? && sent.value.model == model && sent.value.stream
                               && |sent.value.messages| == |messages|
                               && forall i :: 0 <= i < |messages| ==>
                                    sent.value.messages[i] == ClientMessage(messages[i].role, messages[i].content)
      ensures apiKey != "" && answer.Err? ==> reader == null && err == Some(answer.error)
      ensures apiKey != "" && answer.Ok? ==> reader != null && fresh(reader) && reader.stream == answer.value && err == None
    {
      if apiKey == "" {
        return null, Some(ApiKeyNotSet), None;
      }
      var clientMessages := DbMessagesToClientMessage(messages);
      sent := Some(ChatCompletionRequest(model, clientMessages, true));
      if answer.Err? {
        return null, Some(answer.error), sent;
      }
      reader := new OpenAIStream(answer.value);
      err := None;
    }
  }

  /** Every read either copies bytes without error, copies a full buffer and
      reports that the fragment did not fit, or copies nothing and reports
      an error: bytes and an error together mean a cut fragment. */
  lemma ReadOutcomes(next: Result<StreamResponse>, size: nat)
    ensures var (n, err) := ReadOutcome(next, size);
            n <= size
            && (err.None? ==> next.Ok? && next.value.choices != [] && n == |next.value.choices[0]|)
            && (n > 0 && err.Some? ==> err == Some(BufferTooSmall) && n == size && |next.value.choices[0]| > size)
            && (next == Err(Eof) ==> n == 0 && err == Some(Eof))
  {
  }
}
