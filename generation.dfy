/**
 * The chat side of the client: the sampling parameters read from the form
 * (app.js:480-496), the plain-text prompt built from the displayed thread
 * (app.js:309-320), and the generation session of `generateAssistantReply` and
 * `stopGeneration` (app.js:474-531), whose per-token callback cancels cooperatively by
 * throwing a sentinel error once the stop flag is up.
 */
module Generation {
  import opened Wrappers
  import opened Text

  // ---------------------------------------------------------------------------
  // Sampling parameters
  // ---------------------------------------------------------------------------

  /** The four numeric form fields after `Number(...)`; `None` stands for NaN. */
  datatype ParamInputs = ParamInputs(maxNewTokens: Option<real>, temperature: Option<real>,
                                     topK: Option<real>, topP: Option<real>)

  /** The options object handed to the generator (its callback aside). */
  datatype GenerationOptions = GenerationOptions(
    maxNewTokens: real, temperature: real, topK: real, topP: real,
    doSample: bool, repetitionPenalty: real, returnFullText: bool)

  /** `Number(v) || d`: NaN and 0 are both falsy, so both give the default. */
  function OrDefault(x: Option<real>, d: real): (r: real)
    ensures r == d || (x.Some? && r == x.value && r != 0.0)
  {
    if x.None? || x.value == 0.0 then d else x.value
  }

  function Max(a: real, b: real): (r: real)
    ensures r >= a && r >= b && (r == a || r == b)
  {
    if a >= b then a else b
  }

  function Min(a: real, b: real): (r: real)
    ensures r <= a && r <= b && (r == a || r == b)
  {
    if a <= b then a else b
  }

  const RepetitionPenalty: real := 1.1

  /** The clamped options: `max_new_tokens` at least 1, temperature and `top_k` at
      least 0, `top_p` within [0, 1]; sampling exactly when the temperature is positive. */
  function Options(p: ParamInputs): (o: GenerationOptions)
    ensures o.maxNewTokens >= 1.0 && o.temperature >= 0.0 && o.topK >= 0.0
    ensures 0.0 <= o.topP <= 1.0
    ensures o.doSample <==> o.temperature > 0.0
    ensures o.repetitionPenalty == RepetitionPenalty && !o.returnFullText
  {
    var temperature := Max(0.0, OrDefault(p.temperature, 0.7));
    GenerationOptions(
      Max(1.0, OrDefault(p.maxNewTokens, 64.0)),
      temperature,
      Max(0.0, OrDefault(p.topK, 50.0)),
      Max(0.0, Min(1.0, OrDefault(p.topP, 0.95))),
      temperature > 0.0,
      RepetitionPenalty,
      false)
  }

  /** A field holding 0 or NaN gets its default: 64 tokens, temperature 0.7, `top_k` 50
      and `top_p` 0.95. */
  lemma MissingFieldsGetDefaults(p: ParamInputs)
    ensures p.maxNewTokens in {None, Some(0.0)} ==> Options(p).maxNewTokens == 64.0
    ensures p.temperature in {None, Some(0.0)} ==> Options(p).temperature == 0.7
    ensures p.topK in {None, Some(0.0)} ==> Options(p).topK == 50.0
    ensures p.topP in {None, Some(0.0)} ==> Options(p).topP == 0.95
  {
  }

  /** A value already within its range is used as given. */
  lemma InRangeValuesKept(p: ParamInputs)
    ensures p.maxNewTokens.Some? && p.maxNewTokens.value >= 1.0 ==> Options(p).maxNewTokens == p.maxNewTokens.value
    ensures p.temperature.Some? && p.temperature.value > 0.0 ==> Options(p).temperature == p.temperature.value
    ensures p.topK.Some? && p.topK.value > 0.0 ==> Options(p).topK == p.topK.value
    ensures p.topP.Some? && 0.0 < p.topP.value <= 1.0 ==> Options(p).topP == p.topP.value
  {
  }

  /** A value outside its range is clamped to the nearest bound. */
  lemma OutOfRangeValuesClamped(p: ParamInputs)
    ensures p.maxNewTokens.Some? && p.maxNewTokens.value != 0.0 && p.maxNewTokens.value < 1.0 ==>
      Options(p).maxNewTokens == 1.0
    ensures p.temperature.Some? && p.temperature.value < 0.0 ==> Options(p).temperature == 0.0
    ensures p.topK.Some? && p.topK.value < 0.0 ==> Options(p).topK == 0.0
    ensures p.topP.Some? && p.topP.value < 0.0 ==> Options(p).topP == 0.0
    ensures p.topP.Some? && p.topP.value > 1.0 ==> Options(p).topP == 1.0
  {
  }

  /** A temperature of 0 does not mean greedy decoding: only a negative temperature
      turns sampling off. */
  lemma GreedyOnlyForNegativeTemperature(p: ParamInputs)
    ensures !Options(p).doSample <==> p.temperature.Some? && p.temperature.value < 0.0
  {
  }

  // ---------------------------------------------------------------------------
  // The prompt
  // ---------------------------------------------------------------------------

  /** A bubble of the thread: one with the `user` class, or any other (the assistant's). */
  datatype Role = User | Assistant

  datatype Message = Message(role: Role, text: string)

  function Label(role: Role): string {
    match role
    case User => "User"
    case Assistant => "Assistant"
  }

  /** The cue the prompt always ends with. */
  const Cue := "Assistant:"

  /** `` `${label}: ${content}`.trim() ``. */
  function PromptLine(m: Message): string {
    Trim(Label(m.role) + ": " + m.text)
  }

  /** One prompt line per message, in thread order. */
  function PromptLines(thread: seq<Message>): (lines: seq<string>)
    ensures |lines| == |thread|
    ensures forall i :: 0 <= i < |thread| ==> lines[i] == PromptLine(thread[i])
  {
    seq(|thread|, i requires 0 <= i < |thread| => PromptLine(thread[i]))
  }

  function BuildPrompt(thread: seq<Message>): string {
    Join(PromptLines(thread) + [Cue], "\n")
  }

  /** Every character of a trimmed string comes from the string. */
  lemma TrimKeepsCharacters(s: string, c: char)
    requires c in Trim(s)
    ensures c in s
  {
    var t := TrimStart(s, Whitespace);
    assert t == s[|s| - |t|..];
    assert Trim(s) == t[..|Trim(s)|];
    var i :| 0 <= i < |Trim(s)| && Trim(s)[i] == c;
    assert t[i] == c;
    assert s[|s| - |t| + i] == c;
  }

  /** Trimming a non-blank head, a space and a text keeps the head and trims the text's
      end; the space goes with a text that is all whitespace. */
  lemma TrimAfterHead(head: string, text: string)
    requires head != [] && !IsSpace(head[0]) && !IsSpace(head[|head| - 1])
    ensures Trim(head + [' '] + text) ==
      head + (if TrimEnd(text, Whitespace) == [] then "" else [' '] + TrimEnd(text, Whitespace))
  {
    var s := head + ([' '] + text);
    assert head + [' '] + text == s;
    assert s[0] == head[0];
    TrimStartNoop(s, Whitespace);
    TrimEndAppend(head, [' '] + text, Whitespace);
    TrimEndCons(' ', text, Whitespace);
  }

  /** A prompt line is the label, a colon and, when the message holds more than
      whitespace, a space and the message with its trailing whitespace removed. Leading
      whitespace of the message is kept. */
  lemma PromptLineShape(m: Message)
    ensures PromptLine(m) == Label(m.role) + ":" +
      (if TrimEnd(m.text, Whitespace) == [] then "" else " " + TrimEnd(m.text, Whitespace))
  {
    var head := Label(m.role) + ":";
    assert Label(m.role) + ": " + m.text == head + [' '] + m.text;
    assert head[0] == if m.role.User? then 'U' else 'A';
    assert head[|head| - 1] == ':';
    TrimAfterHead(head, m.text);
  }

  /** An empty message gives the bare `Assistant:` / `User:` line. */
  lemma EmptyMessageLine(role: Role)
    ensures PromptLine(Message(role, "")) == Label(role) + ":"
  {
    PromptLineShape(Message(role, ""));
    assert TrimEnd("", Whitespace) == [];
  }

  /** The prompt is the thread's lines joined by newlines, followed by the cue on a line
      of its own; an empty thread gives the cue alone. */
  lemma PromptEndsWithCue(thread: seq<Message>)
    ensures thread == [] ==> BuildPrompt(thread) == Cue
    ensures thread != [] ==> BuildPrompt(thread) == Join(PromptLines(thread), "\n") + "\n" + Cue
    ensures EndsWith(BuildPrompt(thread), Cue)
  {
    JoinSnoc(PromptLines(thread), Cue, "\n");
    if thread != [] {
      assert BuildPrompt(thread) == (Join(PromptLines(thread), "\n") + "\n") + Cue;
    }
  }

  /** The session appends the empty assistant bubble before it builds the prompt, so the
      prompt of a started reply ends with an empty `Assistant:` line and then the cue. */
  lemma StartedPromptRepeatsCue(thread: seq<Message>)
    ensures EndsWith(BuildPrompt(thread + [Message(Assistant, "")]), Cue + "\n" + Cue)
  {
    StartedLines(thread);
    var before := if thread == [] then "" else Join(PromptLines(thread), "\n") + "\n";
    JoinTwoCues(PromptLines(thread), before);
    EndsWithAppend(before, Cue + "\n" + Cue);
  }

  /** The empty reply bubble's line is the cue itself. */
  lemma EmptyReplyLineIsCue()
    ensures PromptLine(Message(Assistant, "")) == Cue
  {
    EmptyMessageLine(Assistant);
    assert Label(Assistant) + ":" == Cue;
  }

  /** A message appended to the thread appends its own line and changes no other. */
  lemma LinesSnoc(thread: seq<Message>, m: Message)
    ensures PromptLines(thread + [m]) == PromptLines(thread) + [PromptLine(m)]
  {
    var full := thread + [m];
    var lines := PromptLines(full);
    var expected := PromptLines(thread) + [PromptLine(m)];
    forall i | 0 <= i < |lines|
      ensures lines[i] == expected[i]
    {
      if i < |thread| {
        assert full[i] == thread[i];
      } else {
        assert full[i] == m;
      }
    }
    assert lines == expected;
  }

  /** The empty reply bubble contributes a line equal to the cue. */
  lemma StartedLines(thread: seq<Message>)
    ensures PromptLines(thread + [Message(Assistant, "")]) == PromptLines(thread) + [Cue]
  {
    LinesSnoc(thread, Message(Assistant, ""));
    EmptyReplyLineIsCue();
  }

  lemma JoinTwoCues(lines: seq<string>, before: string)
    requires before == if lines == [] then "" else Join(lines, "\n") + "\n"
    ensures Join(lines + [Cue] + [Cue], "\n") == before + (Cue + "\n" + Cue)
  {
    JoinSnoc(lines, Cue, "\n");
    JoinSnoc(lines + [Cue], Cue, "\n");
  }

  /** No prompt line holds a newline when its message does not. */
  lemma PromptLineHasNoNewline(m: Message)
    requires '\n' !in m.text
    ensures '\n' !in PromptLine(m)
  {
    var head := Label(m.role) + ": ";
    assert '\n' !in head by {
      if m.role.User? {
        assert head == ['U', 's', 'e', 'r', ':', ' '];
      } else {
        assert head == ['A', 's', 's', 'i', 's', 't', 'a', 'n', 't', ':', ' '];
      }
    }
    assert '\n' !in head + m.text;
    if '\n' in PromptLine(m) {
      TrimKeepsCharacters(head + m.text, '\n');
    }
  }

  /** When no message holds a newline, the prompt has exactly one line per message plus
      the cue line. */
  lemma PromptLineCount(thread: seq<Message>)
    requires forall i :: 0 <= i < |thread| ==> '\n' !in thread[i].text
    ensures Count(BuildPrompt(thread), '\n') == |thread|
  {
    var parts := PromptLines(thread) + [Cue];
    forall i | 0 <= i < |parts|
      ensures '\n' !in parts[i]
    {
      if i < |thread| {
        PromptLineHasNoNewline(thread[i]);
      }
    }
    CountJoin(parts, '\n');
  }

  // ---------------------------------------------------------------------------
  // The streamed reply
  // ---------------------------------------------------------------------------

  /** What reaches the reply while it streams: a token from the generator's callback, or
      a press of the stop button. */
  datatype Event = Token(token: string) | StopPressed

  /** The reply bubble's text and the stop flag. */
  datatype Stream = Stream(output: string, stopping: bool)

  /** One event: the callback appends its token unless the flag is up, in which case it
      throws before appending; the stop button raises the flag. */
  function StepStream(s: Stream, e: Event): (r: Stream)
    ensures StartsWith(r.output, s.output)
    ensures s.stopping ==> r.output == s.output && r.stopping
  {
    match e
    case Token(t) => if s.stopping then s else s.(output := s.output + t)
    case StopPressed => s.(stopping := true)
  }

  function Replay(s: Stream, events: seq<Event>): Stream
    decreases |events|
  {
    if events == [] then s else Replay(StepStream(s, events[0]), events[1..])
  }

  /** The tokens that arrive before the first press of the stop button, concatenated. */
  function TokensBeforeStop(events: seq<Event>): string
    decreases |events|
  {
    if events == [] || events[0].StopPressed? then "" else events[0].token + TokensBeforeStop(events[1..])
  }

  /** Once the flag is up the reply no longer changes. */
  lemma {:induction false} StoppedReplyFrozen(s: Stream, events: seq<Event>)
    requires s.stopping
    ensures Replay(s, events) == s
    decreases |events|
  {
    if events != [] {
      assert StepStream(s, events[0]) == s;
      StoppedReplyFrozen(s, events[1..]);
    }
  }

  /** A running reply is its text so far followed by exactly the tokens that arrive
      before the first stop: the reply is append-only and ends at the stop. */
  lemma {:induction false} ReplyIsTokensBeforeStop(output: string, events: seq<Event>)
    ensures Replay(Stream(output, false), events).output == output + TokensBeforeStop(events)
    decreases |events|
  {
    if events == [] {
      assert output + "" == output;
    } else if events[0].StopPressed? {
      StoppedReplyFrozen(Stream(output, true), events[1..]);
      assert output + "" == output;
    } else {
      var t := events[0].token;
      ReplyIsTokensBeforeStop(output + t, events[1..]);
      assert output + t + TokensBeforeStop(events[1..]) == output + (t + TokensBeforeStop(events[1..]));
    }
  }

  // ---------------------------------------------------------------------------
  // The outcome of a generation
  // ---------------------------------------------------------------------------

  /** How `await generator(prompt, options)` settles: with its result (the first
      element's `generated_text` when it is a non-empty string, else `None`), or by
      throwing an error with the given message. */
  datatype Ending = Returned(generatedText: Option<string>) | Threw(message: string)

  /** The sentinel the callback throws to cancel. */
  const StopSentinel := "GenerationStopped"

  const FailureAlertPrefix := "Error durante la generación: "

  datatype Verdict = Completed | Cancelled | Failed(alert: string)

  /** An error is a cancellation when its message merely contains the sentinel. */
  function Classify(ending: Ending): (v: Verdict)
    ensures v.Completed? <==> ending.Returned?
    ensures v.Cancelled? <==> ending.Threw? && Contains(ending.message, StopSentinel)
    ensures v.Failed? ==> v.alert == FailureAlertPrefix + ending.message
  {
    match ending
    case Returned(_) => Completed
    case Threw(message) =>
      if Contains(message, StopSentinel) then Cancelled else Failed(FailureAlertPrefix + message)
  }

  /** Any error whose message embeds the sentinel, not only the sentinel itself, counts
      as a cancellation. */
  lemma WrappedSentinelCancels(before: string, after: string)
    ensures Classify(Threw(before + StopSentinel + after)) == Cancelled
  {
    ContainsMiddle(before, StopSentinel, after);
  }

  /** The reply's text once the generator has settled: a non-empty returned text replaces
      it exactly when nothing was streamed. */
  function FinalText(streamed: string, ending: Ending): (r: string)
    ensures streamed != [] ==> r == streamed
    ensures r != streamed ==> ending.Returned? && ending.generatedText.Some? && r == ending.generatedText.value
    ensures streamed == [] && ending.Returned? && ending.generatedText.Some? && ending.generatedText.value != [] ==>
      r == ending.generatedText.value
  {
    if ending.Returned? && ending.generatedText.Some? && ending.generatedText.value != "" && streamed == ""
    then ending.generatedText.value
    else streamed
  }

  /** The thread with the last message's text replaced. */
  function WithLastText(thread: seq<Message>, text: string): (r: seq<Message>)
    requires thread != []
    ensures |r| == |thread| && r[..|r| - 1] == thread[..|thread| - 1]
    ensures r[|r| - 1] == Message(thread[|thread| - 1].role, text)
  {
    thread[..|thread| - 1] + [thread[|thread| - 1].(text := text)]
  }

  function LastText(thread: seq<Message>): string
    requires thread != []
  {
    thread[|thread| - 1].text
  }

  /** The request a started generation hands to the generator. */
  datatype Request = Request(prompt: string, options: GenerationOptions)

  /**
   * The state `generateAssistantReply` and `stopGeneration` share: the two flags and the
   * thread as displayed. Whether a generator is loaded is the loader's state, passed in.
   */
  class Session {
    var isGenerating: bool
    var shouldStop: bool
    var thread: seq<Message>

    /** While generating, the thread ends with the reply bubble being filled. */
    predicate Valid()
      reads this
    {
      isGenerating ==> thread != [] && thread[|thread| - 1].role == Assistant
    }

    /** The reply stream as the callback sees it. */
    function Reply(): Stream
      reads this
      requires Valid() && isGenerating
    {
      Stream(LastText(thread), shouldStop)
    }

    constructor(shown: seq<Message>)
      ensures Valid()
      ensures !isGenerating && !shouldStop && thread == shown
    {
      isGenerating := false;
      shouldStop := false;
      thread := shown;
    }

    /** The start of `generateAssistantReply`: nothing without a generator or while a
        generation runs; otherwise the flags are set, an empty assistant bubble is
        appended, and the prompt is built from the thread including that bubble. */
    method Start(generatorLoaded: bool, inputs: ParamInputs) returns (request: Option<Request>)
      requires Valid()
      modifies this
      ensures Valid()
      ensures request.Some? <==> generatorLoaded && !old(isGenerating)
      ensures request.None? ==>
        isGenerating == old(isGenerating) && shouldStop == old(shouldStop) && thread == old(thread)
      ensures request.Some? ==>
        && isGenerating && !shouldStop
        && thread == old(thread) + [Message(Assistant, "")]
        && request.value == Request(BuildPrompt(thread), Options(inputs))
        && Reply() == Stream("", false)
    {
      if !generatorLoaded || isGenerating {
        return None;
      }
      isGenerating := true;
      shouldStop := false;
      var options := Options(inputs);
      thread := thread + [Message(Assistant, "")];
      var prompt := BuildPrompt(thread);
      request := Some(Request(prompt, options));
    }

    /** The per-token callback: when the stop flag is up it refuses (the caller throws the
        sentinel) and changes nothing; otherwise it appends the token to the reply. */
    method OnToken(token: string) returns (accepted: bool)
      requires Valid() && isGenerating
      modifies this
      ensures Valid() && isGenerating && shouldStop == old(shouldStop)
      ensures accepted == !old(shouldStop)
      ensures Reply() == StepStream(old(Reply()), Token(token))
      ensures thread == WithLastText(old(thread), Reply().output)
    {
      if shouldStop {
        accepted := false;
        thread := WithLastText(thread, LastText(thread));
        return;
      }
      accepted := true;
      thread := WithLastText(thread, LastText(thread) + token);
    }

    /** `stopGeneration`: raises the flag, but only while a generation runs. */
    method Stop()
      requires Valid()
      modifies this
      ensures Valid()
      ensures shouldStop == (old(shouldStop) || old(isGenerating))
      ensures isGenerating == old(isGenerating) && thread == old(thread)
      ensures isGenerating ==> Reply() == StepStream(old(Reply()), StopPressed)
    {
      if !isGenerating {
        return;
      }
      shouldStop := true;
    }

    /** The end of `generateAssistantReply` once the generator settles: the returned text
        fills a reply that received no token, the ending is classified, and the session
        is idle again. The stop flag is left as it was. */
    method Finish(ending: Ending) returns (verdict: Verdict)
      requires Valid() && isGenerating
      modifies this
      ensures Valid() && !isGenerating && shouldStop == old(shouldStop)
      ensures verdict == Classify(ending)
      ensures thread == WithLastText(old(thread), FinalText(LastText(old(thread)), ending))
    {
      var text := FinalText(LastText(thread), ending);
      thread := WithLastText(thread, text);
      verdict := Classify(ending);
      isGenerating := false;
    }
  }
}
