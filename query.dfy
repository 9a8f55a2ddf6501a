/** The question endpoint (`ask_question`): the ownership and "has documents" checks, and the
    assembly of the answer from the language model's line-delimited JSON stream.

    Retrieval, the prompt and the model call are not modelled: the call's status and body are
    parameters. `parse(line)` stands for `json.loads(line)` followed by the `'response' in …`
    test, classified as `StreamLine`. */
module Query {
  import opened Common
  import opened Text
  import opened Models

  /** What one stream line reads as: not JSON (skipped), a JSON value without a `response`
      key (skipped), a response fragment, or a value the loop cannot use (a value `in` does
      not apply to, or a fragment that is not a string), which raises. */
  datatype StreamLine = NotJson | NoResponse | Fragment(text: string) | Unusable

  /** The answer collected from the lines so far: `None` once a line has raised. */
  function Collected(lines: seq<string>, parse: string -> StreamLine): Option<string>
  {
    if |lines| == 0 then Some("")
    else
      match Collected(lines[..|lines| - 1], parse)
      case None => None
      case Some(acc) =>
        var line := lines[|lines| - 1];
        if line == "" then Some(acc)
        else
          match parse(line)
          case NotJson => Some(acc)
          case NoResponse => Some(acc)
          case Fragment(t) => Some(acc + t)
          case Unusable => None
  }

  /** The fragment a single line contributes. */
  function LineFragment(line: string, parse: string -> StreamLine): (r: Option<string>)
    ensures r == Collected([line], parse)
  {
    assert [line][..0] == [];
    if line == "" then Some("")
    else
      match parse(line)
      case Fragment(t) => assert "" + t == t; Some(t)
      case Unusable => None
      case _ => Some("")
  }

  /** Collecting is a homomorphism: the answer of two runs of lines is the first's answer
      followed by the second's, and a raising line anywhere makes the whole fail. */
  lemma {:induction false} CollectedAppend(a: seq<string>, b: seq<string>, parse: string -> StreamLine)
    ensures Collected(a + b, parse) ==
            (if Collected(a, parse).Some? && Collected(b, parse).Some?
             then Some(Collected(a, parse).value + Collected(b, parse).value) else None)
  {
    if |b| == 0 {
      assert a + b == a;
      if Collected(a, parse).Some? {
        assert Collected(a, parse).value + "" == Collected(a, parse).value;
      }
    } else {
      var prefix, line := b[..|b| - 1], b[|b| - 1];
      assert (a + b)[..|a + b| - 1] == a + prefix;
      assert (a + b)[|a + b| - 1] == line;
      CollectedAppend(a, prefix, parse);
      if Collected(a, parse).Some? && Collected(prefix, parse).Some? && line != "" && parse(line).Fragment? {
        var x, y, t := Collected(a, parse).value, Collected(prefix, parse).value, parse(line).text;
        assert (x + y) + t == x + (y + t);
      }
    }
  }

  /** An empty line, a line that is not JSON and a line without a response are skipped:
      removing one changes nothing. */
  lemma SkippedLine(a: seq<string>, line: string, b: seq<string>, parse: string -> StreamLine)
    requires line == "" || parse(line) == NotJson || parse(line) == NoResponse
    ensures Collected(a + [line] + b, parse) == Collected(a + b, parse)
  {
    CollectedAppend(a, [line], parse);
    CollectedAppend(a + [line], b, parse);
    CollectedAppend(a, b, parse);
    assert Collected([line], parse) == Some("") by {
      assert LineFragment(line, parse) == Some("");
    }
  }

  /** The fragments of the lines, in order, when no line raises. */
  lemma {:induction false} CollectedFragments(lines: seq<string>, parse: string -> StreamLine)
    requires forall i :: 0 <= i < |lines| ==> parse(lines[i]).Fragment? && lines[i] != ""
    ensures Collected(lines, parse).Some?
    ensures |lines| > 0 ==>
      Collected(lines, parse).value == Collected(lines[..|lines| - 1], parse).value + parse(lines[|lines| - 1]).text
  {
    if |lines| > 0 {
      CollectedFragments(lines[..|lines| - 1], parse);
    }
  }

  /** The lines of the stripped body. */
  function StreamLines(body: string): (lines: seq<string>)
    ensures |lines| >= 1
  {
    Split(Strip(body, Whitespace), '\n')
  }

  /** The answer as `ask_question` returns it: stripped, or `None` when a line raised. */
  function StreamAnswer(body: string, parse: string -> StreamLine): (r: Option<string>)
    ensures r.Some? <==> Collected(StreamLines(body), parse).Some?
    ensures r.Some? ==> r.value == Strip(Collected(StreamLines(body), parse).value, Whitespace)
    ensures r.Some? && r.value != [] ==> r.value[0] !in Whitespace && r.value[|r.value| - 1] !in Whitespace
  {
    match Collected(StreamLines(body), parse)
    case None => None
    case Some(full) => Some(Strip(full, Whitespace))
  }

  /** The accumulation loop over the stream's lines. */
  method ReadStream(body: string, parse: string -> StreamLine) returns (answer: Option<string>)
    ensures answer == StreamAnswer(body, parse)
  {
    var lines := Split(Strip(body, Whitespace), '\n');
    var fullResponse := "";
    var i := 0;
    while i < |lines|
      invariant 0 <= i <= |lines|
      invariant Collected(lines[..i], parse) == Some(fullResponse)
    {
      var line := lines[i];
      assert lines[..i + 1][..i] == lines[..i];
      if line != "" {
        var json := parse(line);
        match json {
          case NotJson =>
          case NoResponse =>
          case Fragment(t) =>
            fullResponse := fullResponse + t;
          case Unusable =>
            CollectedAppend(lines[..i + 1], lines[i + 1..], parse);
            assert lines[..i + 1] + lines[i + 1..] == lines;
            return None;
        }
      }
      i := i + 1;
    }
    assert lines[..i] == lines;
    answer := Some(Strip(fullResponse, Whitespace));
  }

  /** The body of POST /query. */
  datatype QueryRequest = QueryRequest(query: string, sessionId: Option<string>, userId: string)

  /** `{answer, session_id}` (200), "Not authorized to query this user's documents" (403),
      "No documents uploaded for this user" (400), "LLM failed to generate response" (500),
      or an exception while reading the stream (500). */
  datatype QueryOutcome = Answered(answer: string, sessionId: string) | NotAuthorized | NoDocuments
                        | ModelFailed | StreamFailed

  /** The endpoint's decisions: `currentUserId` is the authenticated user, `llmStatus` and
      `llmBody` what the model call returned, `freshSession` the uuid used when the request
      carries no session id. */
  function AskResult(currentUserId: string, request: QueryRequest, embeddings: seq<Embedding>,
                     llmStatus: int, llmBody: string, parse: string -> StreamLine, freshSession: string)
    : QueryOutcome
  {
    if currentUserId != request.userId then NotAuthorized
    else if forall i :: 0 <= i < |embeddings| ==> embeddings[i].userId != request.userId then NoDocuments
    else if llmStatus != 200 then ModelFailed
    else
      match StreamAnswer(llmBody, parse)
      case None => StreamFailed
      case Some(a) => Answered(a, if Truthy(request.sessionId) then request.sessionId.value else freshSession)
  }

  /** `ask_question`. */
  method AskQuestion(currentUserId: string, request: QueryRequest, embeddings: seq<Embedding>,
                     llmStatus: int, llmBody: string, parse: string -> StreamLine, freshSession: string)
    returns (o: QueryOutcome)
    ensures o == AskResult(currentUserId, request, embeddings, llmStatus, llmBody, parse, freshSession)
  {
    if currentUserId != request.userId {
      return NotAuthorized;
    }
    var i := 0;
    while i < |embeddings| && embeddings[i].userId != request.userId
      invariant 0 <= i <= |embeddings|
      invariant forall j :: 0 <= j < i ==> embeddings[j].userId != request.userId
    {
      i := i + 1;
    }
    if i == |embeddings| {
      return NoDocuments;
    }
    if llmStatus != 200 {
      return ModelFailed;
    }
    var answer := ReadStream(llmBody, parse);
    if answer.None? {
      return StreamFailed;
    }
    var sessionId := if Truthy(request.sessionId) then request.sessionId.value else freshSession;
    o := Answered(answer.value, sessionId);
  }

  /** The checks come in a fixed order: someone else's id is refused first, then a user
      without documents, then a failed model call; and an answer echoes a non-empty session
      id, or else carries the fresh one. */
  lemma AskChecks(currentUserId: string, request: QueryRequest, embeddings: seq<Embedding>,
                  llmStatus: int, llmBody: string, parse: string -> StreamLine, freshSession: string)
    ensures var o := AskResult(currentUserId, request, embeddings, llmStatus, llmBody, parse, freshSession);
      && (o == NotAuthorized <==> currentUserId != request.userId)
      && (o == NoDocuments <==>
            currentUserId == request.userId && forall i :: 0 <= i < |embeddings| ==> embeddings[i].userId != request.userId)
      && (o.Answered? ==> llmStatus == 200 && StreamAnswer(llmBody, parse) == Some(o.answer)
                          && o.sessionId == (if Truthy(request.sessionId) then request.sessionId.value else freshSession))
  {
  }

  /** A stream of response fragments, one per line, is answered with their concatenation,
      stripped. */
  lemma FragmentsConcatenate(t1: string, t2: string, l1: string, l2: string, parse: string -> StreamLine)
    requires '\n' !in l1 && '\n' !in l2 && l1 != "" && l2 != ""
    requires l1[0] !in Whitespace && l2[|l2| - 1] !in Whitespace
    requires parse(l1) == Fragment(t1) && parse(l2) == Fragment(t2)
    ensures StreamAnswer(l1 + "\n" + l2, parse) == Some(Strip(t1 + t2, Whitespace))
  {
    var body := l1 + "\n" + l2;
    StripUnchanged(body);
    SplitTwo(l1, l2);
    assert StreamLines(body) == [l1, l2];
    assert [l1, l2] == [l1] + [l2];
    CollectedAppend([l1], [l2], parse);
    assert LineFragment(l1, parse) == Some(t1);
    assert LineFragment(l2, parse) == Some(t2);
  }

  /** Stripping a string that neither starts nor ends with whitespace changes nothing. */
  lemma StripUnchanged(s: string)
    requires s != [] && s[0] !in Whitespace && s[|s| - 1] !in Whitespace
    ensures Strip(s, Whitespace) == s
  {
  }

  /** Two pieces without the separator, joined by it, split back into the two. */
  lemma {:induction false} SplitTwo(a: string, b: string)
    requires '\n' !in a && '\n' !in b
    ensures Split(a + "\n" + b, '\n') == [a, b]
  {
    if |a| == 0 {
      assert a + "\n" + b == ['\n'] + b;
      assert (['\n'] + b)[1..] == b;
      SplitNone(b);
    } else {
      assert (a + "\n" + b)[1..] == a[1..] + "\n" + b;
      SplitTwo(a[1..], b);
      assert [a[0]] + a[1..] == a;
    }
  }

  /** A string without the separator splits into itself. */
  lemma {:induction false} SplitNone(s: string)
    requires '\n' !in s
    ensures Split(s, '\n') == [s]
  {
    if |s| > 0 {
      SplitNone(s[1..]);
      assert [s[0]] + s[1..] == s;
    }
  }
}
