/**
 * The streaming chat client (backend/app/detection/openai_chat_service.py): it
 * posts a payload, then reads the response line by line as a simplified
 * `text/event-stream` (section 9.2 "Server-sent events" of the WHATWG HTML Living
 * Standard), keeping only `data: ` lines, stopping at `[DONE]`, skipping payloads
 * that are not JSON and yielding each non-empty `delta.content` in order.
 */
module OpenAIChat {
  import opened Wrappers
  import opened Strings

  /** `OpenAIConfig`; the request headers it builds are not modelled. */
  datatype OpenAIConfig = OpenAIConfig(
    apiKey: string, organization: string, project: string,
    baseUrl: string := "https://api.openai.com/v1")

  /** The fields of the streamed request body that the model keeps. */
  datatype ChatPayload = ChatPayload(prompt: string, model: string, maxCompletionTokens: nat, stream: bool)

  datatype ChatRequest = ChatRequest(url: string, payload: ChatPayload)

  /** The HTTP response: its status code and its body split into lines. */
  datatype HttpResponse = HttpResponse(status: int, lines: seq<string>)

  /** The `requests` session's `post`, as seen by the client. */
  type Session = ChatRequest -> HttpResponse

  /** One element of a decoded payload's `choices`: its `delta.content` when present. */
  datatype Choice = Choice(content: Option<string>)

  /**
   * `json.loads` followed by `.get('choices', [])`: `None` when the payload is not
   * JSON; an absent `choices` list reads as no choices.
   */
  type JsonDecoder = string -> Option<seq<Choice>>

  const DataPrefix: string := "data: "
  const DoneSentinel: string := "[DONE]"

  /** `raise_for_status` raises for the 4xx and 5xx status codes. */
  predicate IsHttpError(status: int)
    ensures IsHttpError(status) <==> status / 100 == 4 || status / 100 == 5
  {
    400 <= status < 600
  }

  /** The streaming endpoint: the configured base URL followed by `/chat/completions`. */
  function CompletionsUrl(config: OpenAIConfig): (url: string)
    ensures |url| == |config.baseUrl| + |"/chat/completions"|
    ensures StartsWith(url, config.baseUrl) && EndsWith(url, "/chat/completions")
  {
    var url := config.baseUrl + "/chat/completions";
    assert url[..|config.baseUrl|] == config.baseUrl;
    assert url[|url| - |"/chat/completions"|..] == "/chat/completions";
    url
  }

  /**
   * A non-empty line that starts with `data: `; every other line is ignored. The
   * emptiness test adds nothing to the prefix test.
   */
  predicate IsDataLine(line: string)
    ensures IsDataLine(line) <==> StartsWith(line, DataPrefix)
  {
    line != "" && StartsWith(line, DataPrefix)
  }

  /** The stripped text after `data: `: a slice of the line's rest with no surrounding white space. */
  function Payload(line: string): (p: string)
    requires IsDataLine(line)
    ensures p == Strip(line[|DataPrefix|..])
    ensures |p| <= |line| - |DataPrefix|
    ensures p != [] ==> !IsSpace(p[0]) && !IsSpace(p[|p| - 1])
  {
    Strip(line[|DataPrefix|..])
  }

  /** The end-of-stream line: `data: [DONE]`, give or take surrounding white space. */
  predicate IsDone(line: string)
    ensures IsDone(line) ==> IsDataLine(line) && |line| >= |DataPrefix| + |DoneSentinel|
  {
    IsDataLine(line) && Payload(line) == DoneSentinel
  }

  /**
   * The present, non-empty contents of a line's choices, in choice order: every
   * such content is yielded, and nothing else is.
   */
  function ChoiceContents(choices: seq<Choice>): (r: seq<string>)
    ensures |r| <= |choices|
    ensures forall i :: 0 <= i < |r| ==> r[i] != ""
    ensures forall i :: 0 <= i < |choices| && choices[i].content.Some? && choices[i].content.value != ""
                        ==> choices[i].content.value in r
  {
    if choices == [] then []
    else
      var c := choices[0].content;
      var rest := ChoiceContents(choices[1..]);
      assert forall i :: 1 <= i < |choices| ==> choices[i] == choices[1..][i - 1];
      if c.Some? && c.value != "" then [c.value] + rest else rest
  }

  /** Nothing is yielded that is not some choice's content. */
  lemma {:induction false} ContentsComeFromChoices(choices: seq<Choice>, s: string)
    requires s in ChoiceContents(choices)
    ensures exists i :: 0 <= i < |choices| && choices[i].content == Some(s)
  {
    var c := choices[0].content;
    if c == Some(s) {
      assert choices[0].content == Some(s);
    } else {
      assert s in ChoiceContents(choices[1..]);
      ContentsComeFromChoices(choices[1..], s);
      var i :| 0 <= i < |choices[1..]| && choices[1..][i].content == Some(s);
      assert choices[i + 1].content == Some(s);
    }
  }

  /** What one line that is not the sentinel contributes. */
  function LineFragments(line: string, decode: JsonDecoder): (r: seq<string>)
    ensures forall i :: 0 <= i < |r| ==> r[i] != ""
  {
    if !IsDataLine(line) then []
    else match decode(Payload(line))
      case None => []
      case Some(choices) => ChoiceContents(choices)
  }

  /** The fragments a stream of lines yields: line by line, up to the first `[DONE]`. */
  function Fragments(lines: seq<string>, decode: JsonDecoder): (r: seq<string>)
    ensures forall i :: 0 <= i < |r| ==> r[i] != ""
  {
    if lines == [] || IsDone(lines[0]) then []
    else LineFragments(lines[0], decode) + Fragments(lines[1..], decode)
  }

  /**
   * `stream_chat_completion_content`: posts the payload, raises on an HTTP error
   * status, then yields the fragments of the response's lines.
   */
  method StreamChatCompletionContent(config: OpenAIConfig, payload: ChatPayload,
                                     session: Session, decode: JsonDecoder)
    returns (r: Result<seq<string>>)
    ensures var response := session(ChatRequest(CompletionsUrl(config), payload));
      if IsHttpError(response.status) then r.Failure?
      else r == Success(Fragments(response.lines, decode))
  {
    var response := session(ChatRequest(CompletionsUrl(config), payload));
    if IsHttpError(response.status) {
      return Failure("HTTPError " + NatToDecimal(response.status));
    }
    var fragments := ReadEvents(response.lines, decode);
    r := Success(fragments);
  }

  /**
   * The loop over the response lines (`iter_lines`): skips empty lines and lines
   * without `data: `, stops at `[DONE]`, skips payloads that do not decode, and
   * collects the choices' contents in order.
   */
  method ReadEvents(lines: seq<string>, decode: JsonDecoder) returns (fragments: seq<string>)
    ensures fragments == Fragments(lines, decode)
  {
    fragments := [];
    var i := 0;
    while i < |lines|
      invariant 0 <= i <= |lines|
      invariant fragments + Fragments(lines[i..], decode) == Fragments(lines, decode)
    {
      var done, emitted := ReadLine(lines[i], decode);
      if done {
        StopAtDone(lines, i, decode, fragments);
        break;
      }
      PastLine(lines, i, decode, fragments, emitted);
      fragments := fragments + emitted;
      i := i + 1;
    }
    if i == |lines| {
      assert lines[i..] == [];
    }
  }

  /**
   * The body of the loop for one line: an empty line or one without `data: ` yields
   * nothing, `[DONE]` ends the stream, a payload that does not decode yields
   * nothing, and a decoded payload yields its choices' contents.
   */
  method ReadLine(line: string, decode: JsonDecoder) returns (done: bool, emitted: seq<string>)
    ensures done == IsDone(line)
    ensures !done ==> emitted == LineFragments(line, decode)
  {
    done := false;
    emitted := [];
    if line != "" {
      if StartsWith(line, DataPrefix) {
        var dataStr := Strip(line[|DataPrefix|..]);
        if dataStr == DoneSentinel {
          done := true;
          return;
        }
        var decoded := decode(dataStr);
        if decoded.Some? {
          emitted := ChoiceFragments(decoded.value);
        }
      }
    }
  }

  /** One line that is not the sentinel: its fragments join the output, in order. */
  lemma PastLine(lines: seq<string>, i: nat, decode: JsonDecoder, before: seq<string>, emitted: seq<string>)
    requires i < |lines| && !IsDone(lines[i]) && emitted == LineFragments(lines[i], decode)
    requires before + Fragments(lines[i..], decode) == Fragments(lines, decode)
    ensures (before + emitted) + Fragments(lines[i + 1..], decode) == Fragments(lines, decode)
  {
    var tail := lines[i..];
    SuffixStep(lines, i);
    FirstLine(tail, decode);
    AppendAssociative(before, emitted, Fragments(lines[i + 1..], decode));
  }

  lemma SuffixStep<T>(s: seq<T>, i: nat)
    requires i < |s|
    ensures s[i..][0] == s[i] && s[i..][1..] == s[i + 1..]
  {
  }

  lemma AppendAssociative<T>(a: seq<T>, b: seq<T>, c: seq<T>)
    ensures a + (b + c) == (a + b) + c
  {
  }

  /** A stream that does not open with the sentinel yields its first line's fragments, then the rest's. */
  lemma FirstLine(lines: seq<string>, decode: JsonDecoder)
    requires lines != [] && !IsDone(lines[0])
    ensures Fragments(lines, decode) == LineFragments(lines[0], decode) + Fragments(lines[1..], decode)
  {
  }

  /** At the sentinel, what was yielded so far is the whole output. */
  lemma StopAtDone(lines: seq<string>, i: nat, decode: JsonDecoder, before: seq<string>)
    requires i < |lines| && IsDone(lines[i])
    requires before + Fragments(lines[i..], decode) == Fragments(lines, decode)
    ensures before == Fragments(lines, decode)
  {
    assert lines[i..][0] == lines[i];
    assert Fragments(lines[i..], decode) == [];
    assert before + [] == before;
  }

  /** The inner loop over one payload's choices: yields each non-empty `delta.content`. */
  method ChoiceFragments(choices: seq<Choice>) returns (emitted: seq<string>)
    ensures emitted == ChoiceContents(choices)
  {
    emitted := [];
    var j := 0;
    while j < |choices|
      invariant 0 <= j <= |choices|
      invariant emitted + ChoiceContents(choices[j..]) == ChoiceContents(choices)
    {
      assert choices[j..][1..] == choices[j + 1..];
      var content := choices[j].content;
      if content.Some? && content.value != "" {
        emitted := emitted + [content.value];
      }
      j := j + 1;
    }
    assert choices[j..] == [];
  }

  /** Nothing after the first `[DONE]` line is ever yielded. */
  lemma {:induction false} DoneEndsStream(before: seq<string>, done: string, after: seq<string>,
                                          decode: JsonDecoder)
    requires IsDone(done)
    ensures Fragments(before + [done] + after, decode) == Fragments(before, decode)
  {
    var lines := before + [done] + after;
    if before != [] {
      assert lines[0] == before[0];
      assert lines[1..] == before[1..] + [done] + after;
      if !IsDone(before[0]) {
        DoneEndsStream(before[1..], done, after, decode);
      }
    }
  }

  /**
   * A line that is not the sentinel and yields nothing (an empty line, a line
   * without `data: `, a payload that is not JSON) can be dropped without changing
   * the output.
   */
  lemma {:induction false} SilentLineSkipped(before: seq<string>, line: string, after: seq<string>,
                                             decode: JsonDecoder)
    requires !IsDone(line) && LineFragments(line, decode) == []
    ensures Fragments(before + [line] + after, decode) == Fragments(before + after, decode)
  {
    if before == [] {
      assert before + [line] + after == [line] + after;
      assert ([line] + after)[1..] == after;
      assert before + after == after;
    } else {
      assert (before + [line] + after)[1..] == before[1..] + [line] + after;
      assert (before + after)[1..] == before[1..] + after;
      SilentLineSkipped(before[1..], line, after, decode);
    }
  }

  lemma NonDataLineIgnored(before: seq<string>, line: string, after: seq<string>, decode: JsonDecoder)
    requires !IsDataLine(line)
    ensures Fragments(before + [line] + after, decode) == Fragments(before + after, decode)
  {
    SilentLineSkipped(before, line, after, decode);
  }

  lemma UndecodablePayloadSkipped(before: seq<string>, line: string, after: seq<string>,
                                  decode: JsonDecoder)
    requires IsDataLine(line) && !IsDone(line) && decode(Payload(line)).None?
    ensures Fragments(before + [line] + after, decode) == Fragments(before + after, decode)
  {
    SilentLineSkipped(before, line, after, decode);
  }

  /**
   * Fragments keep line order: when the first part of the stream holds no
   * `[DONE]`, the output is the first part's fragments followed by the rest's.
   */
  lemma {:induction false} FragmentsInLineOrder(first: seq<string>, rest: seq<string>, decode: JsonDecoder)
    requires forall i :: 0 <= i < |first| ==> !IsDone(first[i])
    ensures Fragments(first + rest, decode) == Fragments(first, decode) + Fragments(rest, decode)
  {
    if first == [] {
      assert first + rest == rest;
    } else {
      assert (first + rest)[1..] == first[1..] + rest;
      FragmentsInLineOrder(first[1..], rest, decode);
    }
  }

  /** A single data line yields its choices' non-empty contents in choice order. */
  lemma {:induction false} ChoiceOrder(a: seq<Choice>, b: seq<Choice>)
    ensures ChoiceContents(a + b) == ChoiceContents(a) + ChoiceContents(b)
  {
    if a == [] {
      assert a + b == b;
    } else {
      assert (a + b)[0] == a[0];
      assert (a + b)[1..] == a[1..] + b;
      ChoiceOrder(a[1..], b);
    }
  }
}
