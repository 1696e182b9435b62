/**
 * The chat widget's `handleSubmit`: the user's message is appended, the transcript is
 * posted, and the streamed reply is decoded line by line into one assistant message that
 * is replaced (never appended again) on every update.
 */
module ChatWidget {
  import opened Common
  import opened Text
  import opened Json

  datatype Role = User | Assistant

  datatype Message = Message(id: string, role: Role, content: string)

  /** What is posted for each message: role and content only. */
  datatype Turn = Turn(role: Role, content: string)

  const SEND_FAILED := "Failed to send message. Please try again."

  /** The request body's `messages`: each message reduced to its role and content, in order. */
  function Transcript(msgs: seq<Message>): (r: seq<Turn>)
    ensures |r| == |msgs|
    ensures forall i :: 0 <= i < |msgs| ==> r[i] == Turn(msgs[i].role, msgs[i].content)
  {
    seq(|msgs|, i requires 0 <= i < |msgs| => Turn(msgs[i].role, msgs[i].content))
  }

  /** `prev.filter(m => m.id !== id)`. */
  function Without(msgs: seq<Message>, id: string): (r: seq<Message>)
    ensures |r| <= |msgs|
  {
    if msgs == [] then []
    else (if msgs[0].id != id then [msgs[0]] else []) + Without(msgs[1..], id)
  }

  /** The filter keeps exactly the messages whose id differs. */
  lemma {:induction false} WithoutMembers(msgs: seq<Message>, id: string, m: Message)
    ensures m in Without(msgs, id) <==> m in msgs && m.id != id
  {
    if msgs != [] {
      WithoutMembers(msgs[1..], id, m);
      assert msgs == [msgs[0]] + msgs[1..];
    }
  }

  /** The replace-by-id update: every message with `id` is dropped and the assistant message goes last. */
  function Upsert(msgs: seq<Message>, id: string, content: string): seq<Message> {
    Without(msgs, id) + [Message(id, Assistant, content)]
  }

  /** How many messages carry `id`. */
  function CountId(msgs: seq<Message>, id: string): nat {
    if msgs == [] then 0 else (if msgs[0].id == id then 1 else 0) + CountId(msgs[1..], id)
  }

  lemma {:induction false} WithoutAppend(a: seq<Message>, b: seq<Message>, id: string)
    ensures Without(a + b, id) == Without(a, id) + Without(b, id)
  {
    if a != [] {
      assert (a + b)[1..] == a[1..] + b;
      WithoutAppend(a[1..], b, id);
    } else {
      assert a + b == b;
    }
  }

  lemma {:induction false} WithoutIdempotent(msgs: seq<Message>, id: string)
    ensures Without(Without(msgs, id), id) == Without(msgs, id)
  {
    if msgs != [] {
      WithoutIdempotent(msgs[1..], id);
      WithoutAppend(if msgs[0].id != id then [msgs[0]] else [], Without(msgs[1..], id), id);
    }
  }

  lemma {:induction false} CountWithout(msgs: seq<Message>, id: string)
    ensures CountId(Without(msgs, id), id) == 0
  {
    if msgs != [] {
      CountWithout(msgs[1..], id);
      CountAppend(if msgs[0].id != id then [msgs[0]] else [], Without(msgs[1..], id), id);
    }
  }

  lemma {:induction false} CountAppend(a: seq<Message>, b: seq<Message>, id: string)
    ensures CountId(a + b, id) == CountId(a, id) + CountId(b, id)
  {
    if a != [] {
      assert (a + b)[1..] == a[1..] + b;
      CountAppend(a[1..], b, id);
    } else {
      assert a + b == b;
    }
  }

  /**
   * After the replace-by-id update the transcript holds exactly one message with `id`: the
   * assistant message, last, with the given content; the others keep their relative order.
   */
  lemma UpsertExactlyOnce(msgs: seq<Message>, id: string, content: string)
    ensures var r := Upsert(msgs, id, content);
      && |r| >= 1 && r[|r| - 1] == Message(id, Assistant, content)
      && r[..|r| - 1] == Without(msgs, id)
      && CountId(r, id) == 1
  {
    CountWithout(msgs, id);
    CountAppend(Without(msgs, id), [Message(id, Assistant, content)], id);
  }

  /** Updating twice by the same id is updating once with the later content. */
  lemma UpsertTwice(msgs: seq<Message>, id: string, c1: string, c2: string)
    ensures Upsert(Upsert(msgs, id, c1), id, c2) == Upsert(msgs, id, c2)
  {
    WithoutAppend(Without(msgs, id), [Message(id, Assistant, c1)], id);
    WithoutIdempotent(msgs, id);
  }

  /** The running state of the stream reader: the accumulated `assistantMessage` and the transcript. */
  datatype Progress = Progress(buffer: string, messages: seq<Message>)

  /**
   * What a non-blank line adds to the assistant text: for a `0:` line the JSON string it
   * encodes (nothing when it encodes another value, the whole chunk when it does not
   * parse); any other line verbatim.
   */
  function Added(codec: Codec, chunk: string, line: string): string {
    if StartsWith(line, "0:") then
      match codec.parse(line[2..])
      case None => chunk
      case Some(JStr(s)) => s
      case Some(_) => ""
    else line
  }

  /**
   * One line of a chunk. Blank lines are skipped; any other line extends the assistant text
   * and replaces the assistant message by id.
   */
  function StepLine(codec: Codec, id: string, chunk: string, p: Progress, line: string): Progress {
    if Trim(line) == "" then p
    else
      var buffer := p.buffer + Added(codec, chunk, line);
      Progress(buffer, Upsert(p.messages, id, buffer))
  }

  /** The lines of one chunk, in order. */
  function StepLines(codec: Codec, id: string, chunk: string, p: Progress, lines: seq<string>): Progress {
    if lines == [] then p
    else StepLine(codec, id, chunk, StepLines(codec, id, chunk, p, lines[..|lines| - 1]), lines[|lines| - 1])
  }

  /** One decoded chunk: `chunk.split("\n")`, line by line. */
  function StepChunk(codec: Codec, id: string, p: Progress, chunk: string): Progress {
    StepLines(codec, id, chunk, p, Split(chunk, '\n'))
  }

  /** The chunks read so far, in order. */
  function StepChunks(codec: Codec, id: string, p: Progress, chunks: seq<string>): Progress {
    if chunks == [] then p
    else StepChunk(codec, id, StepChunks(codec, id, p, chunks[..|chunks| - 1]), chunks[|chunks| - 1])
  }

  lemma StepLinesSnoc(codec: Codec, id: string, chunk: string, p: Progress, lines: seq<string>, line: string)
    ensures StepLines(codec, id, chunk, p, lines + [line]) == StepLine(codec, id, chunk, StepLines(codec, id, chunk, p, lines), line)
  {
    assert (lines + [line])[..|lines|] == lines;
  }

  lemma StepChunksSnoc(codec: Codec, id: string, p: Progress, chunks: seq<string>, chunk: string)
    ensures StepChunks(codec, id, p, chunks + [chunk]) == StepChunk(codec, id, StepChunks(codec, id, p, chunks), chunk)
  {
    assert (chunks + [chunk])[..|chunks|] == chunks;
  }

  /** After the stream ends: the assistant message is put in place once more if the buffer is not blank. */
  function Finish(id: string, p: Progress): seq<Message> {
    if Trim(p.buffer) != "" then Upsert(p.messages, id, p.buffer) else p.messages
  }

  /**
   * The reader's invariant relative to the transcript `base` it started from: either no
   * line has been taken yet and the buffer is empty, or the transcript is `base` without
   * `id` followed by the one assistant message showing the buffer.
   */
  predicate Shows(base: seq<Message>, id: string, p: Progress) {
    || (p.messages == base && p.buffer == "")
    || p.messages == Upsert(base, id, p.buffer)
  }

  lemma StepLineShows(codec: Codec, id: string, chunk: string, base: seq<Message>, p: Progress, line: string)
    requires Shows(base, id, p)
    ensures Shows(base, id, StepLine(codec, id, chunk, p, line))
  {
    var q := StepLine(codec, id, chunk, p, line);
    if Trim(line) != "" && p.messages != base {
      UpsertTwice(base, id, p.buffer, q.buffer);
    }
  }

  lemma {:induction false} StepLinesShows(codec: Codec, id: string, chunk: string, base: seq<Message>, p: Progress, lines: seq<string>)
    requires Shows(base, id, p)
    ensures Shows(base, id, StepLines(codec, id, chunk, p, lines))
  {
    if lines != [] {
      StepLinesShows(codec, id, chunk, base, p, lines[..|lines| - 1]);
      StepLineShows(codec, id, chunk, base, StepLines(codec, id, chunk, p, lines[..|lines| - 1]), lines[|lines| - 1]);
    }
  }

  /** The reader's invariant holds after any sequence of chunks, starting from an empty buffer. */
  lemma {:induction false} StepChunksShows(codec: Codec, id: string, base: seq<Message>, chunks: seq<string>)
    ensures Shows(base, id, StepChunks(codec, id, Progress("", base), chunks))
  {
    if chunks != [] {
      StepChunksShows(codec, id, base, chunks[..|chunks| - 1]);
      StepLinesShows(codec, id, chunks[|chunks| - 1], base,
        StepChunks(codec, id, Progress("", base), chunks[..|chunks| - 1]), Split(chunks[|chunks| - 1], '\n'));
    }
  }

  /**
   * Whatever the stream holds, the final transcript is either the transcript before the
   * reply (no line was taken) or that transcript without `id` followed by exactly one
   * assistant message, last, whose content is the decoded buffer.
   */
  lemma StreamTranscript(codec: Codec, id: string, base: seq<Message>, chunks: seq<string>)
    ensures var p := StepChunks(codec, id, Progress("", base), chunks);
      var r := Finish(id, p);
      || (r == base && p.buffer == "")
      || (&& r == Without(base, id) + [Message(id, Assistant, p.buffer)]
          && CountId(r, id) == 1)
  {
    var p := StepChunks(codec, id, Progress("", base), chunks);
    StepChunksShows(codec, id, base, chunks);
    if p.messages == Upsert(base, id, p.buffer) {
      if Trim(p.buffer) != "" {
        UpsertTwice(base, id, p.buffer, p.buffer);
      }
      UpsertExactlyOnce(base, id, p.buffer);
    } else {
      assert Trim("") == "";
    }
  }

  lemma {:induction false} StepLinesGrows(codec: Codec, id: string, chunk: string, p: Progress, lines: seq<string>)
    ensures p.buffer <= StepLines(codec, id, chunk, p, lines).buffer
  {
    if lines != [] {
      StepLinesGrows(codec, id, chunk, p, lines[..|lines| - 1]);
      var mid := StepLines(codec, id, chunk, p, lines[..|lines| - 1]);
      var q := StepLine(codec, id, chunk, mid, lines[|lines| - 1]);
      assert mid.buffer <= q.buffer;
      PrefixTrans(p.buffer, mid.buffer, q.buffer);
    }
  }

  lemma PrefixTrans(a: string, b: string, c: string)
    requires a <= b && b <= c
    ensures a <= c
  {
    assert c[..|a|] == c[..|b|][..|a|];
  }

  /** The assistant text only grows: what was shown is always a prefix of what is shown next. */
  lemma {:induction false} StepChunksGrows(codec: Codec, id: string, p: Progress, chunks: seq<string>)
    ensures p.buffer <= StepChunks(codec, id, p, chunks).buffer
  {
    if chunks != [] {
      StepChunksGrows(codec, id, p, chunks[..|chunks| - 1]);
      var mid := StepChunks(codec, id, p, chunks[..|chunks| - 1]);
      StepLinesGrows(codec, id, chunks[|chunks| - 1], mid, Split(chunks[|chunks| - 1], '\n'));
      PrefixTrans(p.buffer, mid.buffer, StepChunks(codec, id, p, chunks).buffer);
    }
  }

  lemma NotBlankLine(line: string)
    requires |line| >= 1 && !IsSpace(line[0])
    ensures Trim(line) != ""
  {
    TrimEmptyIffBlank(line);
  }

  /** A chunk that is a single `0:` line encoding the JSON string `text` adds `text`. */
  lemma StringChunk(codec: Codec, id: string, p: Progress, chunk: string, text: string)
    requires '\n' !in chunk && StartsWith(chunk, "0:")
    requires codec.parse(chunk[2..]) == Some(JStr(text))
    ensures StepChunk(codec, id, p, chunk) == Progress(p.buffer + text, Upsert(p.messages, id, p.buffer + text))
  {
    var lines := Split(chunk, '\n');
    assert lines == [chunk];
    assert lines[..0] == [];
    assert chunk[0] == '0';
    NotBlankLine(chunk);
    assert Added(codec, chunk, chunk) == text;
    var q := StepLine(codec, id, chunk, p, chunk);
    assert q == Progress(p.buffer + text, Upsert(p.messages, id, p.buffer + text));
    assert StepLines(codec, id, chunk, p, lines[..0]) == p;
    assert StepLines(codec, id, chunk, p, lines) == q;
  }

  /**
   * Two chunks that are `0:` lines encoding the strings `t1` and `t2` leave a single
   * assistant message reading `t1 + t2`.
   */
  lemma TwoStringChunks(codec: Codec, id: string, base: seq<Message>, c1: string, t1: string, c2: string, t2: string)
    requires '\n' !in c1 && StartsWith(c1, "0:") && codec.parse(c1[2..]) == Some(JStr(t1))
    requires '\n' !in c2 && StartsWith(c2, "0:") && codec.parse(c2[2..]) == Some(JStr(t2))
    ensures Finish(id, StepChunks(codec, id, Progress("", base), [c1, c2])) == Upsert(base, id, t1 + t2)
  {
    var p0 := Progress("", base);
    StringChunk(codec, id, p0, c1, t1);
    assert "" + t1 == t1;
    var p1 := Progress(t1, Upsert(base, id, t1));
    assert StepChunk(codec, id, p0, c1) == p1;
    StringChunk(codec, id, p1, c2, t2);
    UpsertTwice(base, id, t1, t1 + t2);
    var p2 := Progress(t1 + t2, Upsert(base, id, t1 + t2));
    assert StepChunk(codec, id, p1, c2) == p2;
    TwoChunks(codec, id, p0, c1, c2);
    assert StepChunks(codec, id, p0, [c1, c2]) == p2;
    UpsertTwice(base, id, t1 + t2, t1 + t2);
    assert Finish(id, p2) == Upsert(base, id, t1 + t2);
  }

  lemma OneChunk(codec: Codec, id: string, p: Progress, c1: string)
    ensures StepChunks(codec, id, p, [c1]) == StepChunk(codec, id, p, c1)
  {
    assert [c1][..0] == [];
  }

  lemma TwoChunks(codec: Codec, id: string, p: Progress, c1: string, c2: string)
    ensures StepChunks(codec, id, p, [c1, c2]) == StepChunk(codec, id, StepChunk(codec, id, p, c1), c2)
  {
    var cs := [c1, c2];
    assert cs[..1] == [c1];
    OneChunk(codec, id, p, c1);
    assert StepChunks(codec, id, p, cs) == StepChunk(codec, id, StepChunks(codec, id, p, cs[..1]), cs[1]);
  }

  /** Replacing by an id no earlier message carries appends. */
  lemma UpsertFresh(user: Message, id: string, content: string)
    requires user.id != id
    ensures Upsert([user], id, content) == [user, Message(id, Assistant, content)]
  {
    assert Without([user], id) == [user];
  }

  lemma HelloWorldLines(c1: string, c2: string)
    requires c1 == "0:\"Hello\"" && c2 == "0:\" world\""
    ensures '\n' !in c1 && StartsWith(c1, "0:") && c1[2..] == "\"Hello\""
    ensures '\n' !in c2 && StartsWith(c2, "0:") && c2[2..] == "\" world\""
    ensures !IsSpace("Hello"[0]) && "Hello" + " world" == "Hello world"
  {
  }

  /**
   * The stream of the two chunks `0:"Hello"` and `0:" world"` leaves one assistant message
   * reading "Hello world" after the user's message.
   */
  lemma HelloWorld(codec: Codec, id: string, user: Message, c1: string, c2: string)
    requires c1 == "0:\"Hello\"" && c2 == "0:\" world\""
    requires codec.parse("\"Hello\"") == Some(JStr("Hello"))
    requires codec.parse("\" world\"") == Some(JStr(" world"))
    requires user.id != id
    ensures Finish(id, StepChunks(codec, id, Progress("", [user]), [c1, c2]))
         == [user, Message(id, Assistant, "Hello world")]
  {
    HelloWorldLines(c1, c2);
    TwoStringChunks(codec, id, [user], c1, "Hello", c2, " world");
    UpsertFresh(user, id, "Hello world");
  }

  /**
   * One pass of the `for` loop over a chunk's lines: the statements of the loop body, which
   * `ReadLines` runs; its result is the line step `StepLine` the stream lemmas are about.
   */
  method ReadLine(codec: Codec, id: string, chunk: string, p: Progress, line: string) returns (q: Progress)
    ensures q == StepLine(codec, id, chunk, p, line)
  {
    if Trim(line) == "" {
      return p;
    }
    var assistantMessage := p.buffer;
    if StartsWith(line, "0:") {
      var parsed := codec.parse(line[2..]);
      match parsed {
        case None =>
          assistantMessage := assistantMessage + chunk;
          assert Added(codec, chunk, line) == chunk;
        case Some(JStr(s)) =>
          assistantMessage := assistantMessage + s;
          assert Added(codec, chunk, line) == s;
        case Some(_) =>
          assert Added(codec, chunk, line) == "";
      }
    } else {
      assistantMessage := assistantMessage + line;
    }
    assert assistantMessage == p.buffer + Added(codec, chunk, line);
    q := Progress(assistantMessage, Without(p.messages, id) + [Message(id, Assistant, assistantMessage)]);
  }

  method ReadLines(codec: Codec, id: string, p: Progress, chunk: string, lines: seq<string>) returns (q: Progress)
    ensures q == StepLines(codec, id, chunk, p, lines)
  {
    q := p;
    for j := 0 to |lines|
      invariant q == StepLines(codec, id, chunk, p, lines[..j])
    {
      assert lines[..j + 1] == lines[..j] + [lines[j]];
      StepLinesSnoc(codec, id, chunk, p, lines[..j], lines[j]);
      q := ReadLine(codec, id, chunk, q, lines[j]);
    }
    assert lines[..|lines|] == lines;
  }

  /** The reader loop: every chunk of the stream, in order, starting from an empty buffer. */
  method ReadStream(codec: Codec, id: string, base: seq<Message>, chunks: seq<string>) returns (q: Progress)
    ensures q == StepChunks(codec, id, Progress("", base), chunks)
  {
    q := Progress("", base);
    var i := 0;
    while i < |chunks|
      invariant 0 <= i <= |chunks|
      invariant q == StepChunks(codec, id, Progress("", base), chunks[..i])
    {
      q := ReadLines(codec, id, q, chunks[i], Split(chunks[i], '\n'));
      StepChunksSnoc(codec, id, Progress("", base), chunks[..i], chunks[i]);
      assert chunks[..i + 1] == chunks[..i] + [chunks[i]];
      i := i + 1;
    }
    assert chunks[..|chunks|] == chunks;
  }

  /** How the POST to the chat endpoint went. */
  datatype Response =
    | NetworkError                                  // fetch rejected
    | NotOk                                         // a non-2xx status
    | NoBody                                        // `response.body` is null: no reader
    | Stream(chunks: seq<string>, interrupted: bool) // the decoded chunks; `interrupted`: a later read rejected

  class Widget {
    var messages: seq<Message>
    var input: string
    var isLoading: bool
    var error: Option<string>

    constructor ()
      ensures messages == [] && input == "" && !isLoading && error == None
    {
      messages := [];
      input := "";
      isLoading := false;
      error := None;
    }

    /**
     * `handleSubmit`. Ignored when the trimmed input is empty or a request is in flight.
     * Otherwise the user message (id `sentAt`) is appended and the transcript returned as the
     * request; a failed request sets the error and adds no assistant message; a stream is
     * decoded into the assistant message with id `repliedAt + 1`. `isLoading` ends false.
     */
    method HandleSubmit(codec: Codec, sentAt: nat, repliedAt: nat, response: Response) returns (request: Option<seq<Turn>>)
      modifies this
      ensures Trim(old(input)) == "" || old(isLoading) ==> request == None && unchanged(this)
      ensures Trim(old(input)) != "" && !old(isLoading) ==>
        var user := Message(NatToString(sentAt), User, Trim(old(input)));
        var base := old(messages) + [user];
        var id := NatToString(repliedAt + 1);
        && request == Some(Transcript(base))
        && input == "" && !isLoading
        && (response.NetworkError? || response.NotOk? ==> messages == base && error == Some(SEND_FAILED))
        && (response.NoBody? ==> messages == base && error == None)
        && (response.Stream? && response.interrupted ==>
              messages == StepChunks(codec, id, Progress("", base), response.chunks).messages && error == Some(SEND_FAILED))
        && (response.Stream? && !response.interrupted ==>
              messages == Finish(id, StepChunks(codec, id, Progress("", base), response.chunks)) && error == None)
    {
      if Trim(input) == "" || isLoading {
        return None;
      }
      var user := Message(NatToString(sentAt), User, Trim(input));
      request := Some(Transcript(messages + [user]));
      messages := messages + [user];
      input := "";
      isLoading := true;
      error := None;

      match response {
        case NetworkError =>
          error := Some(SEND_FAILED);
        case NotOk =>
          error := Some(SEND_FAILED);
        case NoBody =>
        case Stream(chunks, interrupted) =>
          var assistantId := NatToString(repliedAt + 1);
          var read := ReadStream(codec, assistantId, messages, chunks);
          messages := read.messages;
          if interrupted {
            error := Some(SEND_FAILED);
          } else if Trim(read.buffer) != "" {
            messages := Without(messages, assistantId) + [Message(assistantId, Assistant, read.buffer)];
          }
      }
      isLoading := false;
    }
  }
}
