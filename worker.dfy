/** The C++ `Backend` and its worker thread, run one step at a time: the
    single-slot frame and result buffers, the interactive request slot, the
    dispatch selection of the main loop (C++/backend.cpp:376-408) and the
    life cycle of the monitor generator (C++/backend.cpp:413-637). Threads,
    locks and waits are not modelled; each operation is one atomic step on
    the state, the clock is an integer of milliseconds, and the Hailo engine
    is an oracle. */
module Worker {
  import opened Wrappers
  import opened Text
  import opened Config
  import opened Classifier
  import opened Messages
  import opened Tokens

  // ------------------------------------------------------------------ data

  /** A camera frame; `Blank` is the empty `cv::Mat`. Pixels are not modelled. */
  datatype Image = Blank | Pixels(data: seq<int>)

  /** `InferenceResult` without its timing text. */
  datatype InferenceResult = InferenceResult(answer: string)

  datatype MonitoringResult = MonitoringResult(frame: Image, result: InferenceResult)

  /** `VLMReq`: the caller's question, a ticket standing for its promise,
      and the state of its shared `cancelled` flag. */
  datatype Request = Request(image: Image, prompt: string, ticket: nat, cancelled: bool)

  /** The constructor's arguments (temperature and the model path are left
      out), and the system prompt of interactive questions, which the
      constructor always sets to `HelpfulSystem`. */
  datatype Settings = Settings(
    prompts: Prompts, trigger: string, maxTokens: nat, seed: nat, cooldownMs: int, maxRetries: int,
    assistantPrompt: string)

  const DefaultMaxTokens := 40
  const DefaultSeed := 42
  const DefaultCooldownMs := 1000
  const DefaultMaxRetries := 5
  const DefaultFrameSide := 336

  /** The budget and the system prompt of an interactive question. */
  const InteractiveMaxTokens := 200
  const HelpfulSystem := "You are a helpful assistant that analyzes images and answers questions about them."

  /** The fields of `Backend` shared with the callers. Each slot pairs the
      buffer with its flag: `pending` is `m_pending_frame` when
      `m_has_pending`, `result` is `m_result_buf` when `m_has_result`. */
  datatype State = State(
    running: bool, deviceReady: bool, abortRequested: bool, workerDone: bool, paused: bool,
    pending: Option<Image>, result: Option<MonitoringResult>, vlmReq: Option<Request>,
    frameH: int, frameW: int)

  /** The locals of the worker loop that live across iterations: `last_infer`,
      whether `monitor_gen` holds a generator, the cached monitor messages. */
  datatype Loop = Loop(lastInfer: int, hasGenerator: bool, monitorMessages: seq<string>)

  /** What the engine does during one step: the generation's token stream
      or the exception text, whether an abort was raised, whether the caller
      gave up meanwhile (the worker then loses the race for the `cancelled`
      flag), and whether creating a generator succeeds (the first creation,
      then the recreation after a monitor error). */
  datatype Generation = Stream(events: seq<Event>) | Failure(what: string)
  datatype Engine = Engine(
    generation: Generation, abortRaised: bool, cancelledMeanwhile: bool, createOk: bool, recreateOk: bool)

  /** The engine calls that concern the one-generator rule. */
  datatype Call = DestroyGenerator | CreateGenerator(ok: bool) | GenerateDirect(messages: seq<string>)
                | GenerateMonitor(messages: seq<string>)

  /** What a step did; `delivered` says whether the promise got the answer. */
  datatype Outcome =
    | Exited
    | Waited
    | SkippedCancelled(ticket: nat)
    | Answered(ticket: nat, answer: string, delivered: bool)
    | SkippedNoGenerator
    | Published(answer: string)

  datatype StepResult = StepResult(state: State, loop: Loop, outcome: Outcome, calls: seq<Call>)

  // ------------------------------------------------------ the spec of a step

  /** The state of a freshly constructed `Backend`. */
  function Initial(): State
  {
    State(true, false, false, false, false, None, None, None, DefaultFrameSide, DefaultFrameSide)
  }

  /** What the loop takes after waking. */
  datatype Choice = Quit | TakeRequest(req: Request) | TakeFrame(frame: Image) | Idle

  function Select(s: State, loop: Loop, cooldownMs: int, now: int): (c: Choice)
    ensures c == Quit <==> !s.running
    ensures c.TakeRequest? <==> s.running && s.vlmReq.Some?
    ensures c.TakeRequest? ==> c.req == s.vlmReq.value
    ensures c.TakeFrame? <==>
              s.running && s.vlmReq.None? && s.pending.Some? && !s.paused && now - loop.lastInfer >= cooldownMs
    ensures c.TakeFrame? ==> c.frame == s.pending.value
  {
    if !s.running then Quit
    else if s.vlmReq.Some? then TakeRequest(s.vlmReq.value)
    else if s.pending.Some? && !s.paused && now - loop.lastInfer >= cooldownMs then TakeFrame(s.pending.value)
    else Idle
  }

  /** The cleaned text of a generation. */
  function ReadAnswer(events: seq<Event>, maxTokens: nat): string
  {
    CppClean(Concat(Read(events, maxTokens).0))
  }

  /** The answer to an interactive question: the generated text, or
      "Aborted" / "No response" when it is empty, or the exception text; it
      is never empty. */
  function InteractiveAnswer(eng: Engine): (r: string)
    ensures r != []
    ensures eng.generation.Stream? && ReadAnswer(eng.generation.events, InteractiveMaxTokens) != [] ==>
              r == ReadAnswer(eng.generation.events, InteractiveMaxTokens)
    ensures eng.generation.Stream? && ReadAnswer(eng.generation.events, InteractiveMaxTokens) == [] ==>
              r == if eng.abortRaised then "Aborted" else "No response"
    ensures eng.generation.Failure? ==> r == "Error: " + eng.generation.what
  {
    match eng.generation
    case Stream(events) =>
      var a := ReadAnswer(events, InteractiveMaxTokens);
      if a == [] then (if eng.abortRaised then "Aborted" else "No response") else a
    case Failure(w) => assert ("Error: " + w)[0] == 'E'; "Error: " + w
  }

  /** The messages of an interactive question: the "custom" trigger (so the
      prompt is never substituted) and the helpful-assistant prompt. */
  function DirectMessages(cfg: Settings, prompt: string): seq<string>
  {
    BuildMessages(Custom, cfg.assistantPrompt, prompt, cfg.prompts.useCases)
  }

  /** The published text of a monitor inference: the label plus the preview
      of the cleaned generation, or the exception text. */
  function MonitorText(cfg: Settings, eng: Engine): string
  {
    match eng.generation
    case Stream(events) =>
      MonitorAnswer(ReadAnswer(events, cfg.maxTokens), Lookup(cfg.prompts.useCases, cfg.trigger))
    case Failure(w) => "Error: " + w
  }

  /** The texts a step computes: the messages of the question in the slot,
      the reply to it, and the monitor text. The control of a step does not
      depend on them, so `Dispatch` takes them as a parameter. */
  datatype Texts = Texts(direct: seq<string>, reply: string, published: string)

  function TextsFor(cfg: Settings, s: State, eng: Engine): Texts
  {
    Texts(if s.vlmReq.Some? then DirectMessages(cfg, s.vlmReq.value.prompt) else [],
          InteractiveAnswer(eng), MonitorText(cfg, eng))
  }

  /** The engine calls of a question: the monitor generator is destroyed, the
      direct API generates, and the monitor generator is recreated. */
  function DirectCalls(has: bool, msgs: seq<string>, ok: bool): seq<Call>
  {
    (if has then [DestroyGenerator] else []) + [GenerateDirect(msgs), CreateGenerator(ok)]
  }

  /** The interactive branch, on the state after the slot was emptied. The
      abort flag is cleared when the request is taken and is set again when
      an abort arrives during the generation. */
  function Interactive(s: State, loop: Loop, req: Request, done: int, eng: Engine, t: Texts): StepResult
  {
    if req.cancelled then StepResult(s.(abortRequested := false), loop, SkippedCancelled(req.ticket), [])
    else
      StepResult(
        s.(abortRequested := eng.abortRaised),
        loop.(hasGenerator := eng.createOk, lastInfer := done),
        Answered(req.ticket, t.reply, !eng.cancelledMeanwhile),
        DirectCalls(loop.hasGenerator, t.direct, eng.createOk))
  }

  /** The engine calls of a monitor inference: the lazy creation when no
      generator exists, the generation, and after an exception the generator
      is destroyed and recreated. */
  function MonitorCalls(has: bool, msgs: seq<string>, eng: Engine): seq<Call>
  {
    (if has then [] else [CreateGenerator(true)])
    + [GenerateMonitor(msgs)]
    + (if eng.generation.Failure? then [DestroyGenerator, CreateGenerator(eng.recreateOk)] else [])
  }

  /** The monitor branch, on the state after the frame was taken. */
  function Monitor(s: State, loop: Loop, frame: Image, done: int, eng: Engine, t: Texts): StepResult
  {
    if !loop.hasGenerator && !eng.createOk then
      StepResult(s.(abortRequested := false), loop, SkippedNoGenerator, [CreateGenerator(false)])
    else
      StepResult(
        s.(abortRequested := eng.abortRaised, result := Some(MonitoringResult(frame, InferenceResult(t.published)))),
        loop.(hasGenerator := eng.generation.Stream? || eng.recreateOk, lastInfer := done),
        Published(t.published),
        MonitorCalls(loop.hasGenerator, loop.monitorMessages, eng))
  }

  /** The control of one iteration of the main loop at time `now`, the
      dispatch ending at time `done`. */
  function Dispatch(cfg: Settings, s: State, loop: Loop, now: int, done: int, eng: Engine, t: Texts): StepResult
  {
    match Select(s, loop, cfg.cooldownMs, now)
    case Quit => StepResult(s.(deviceReady := false, workerDone := true), loop, Exited, [])
    case Idle => StepResult(s, loop, Waited, [])
    case TakeRequest(req) => Interactive(s.(vlmReq := None), loop, req, done, eng, t)
    case TakeFrame(f) => Monitor(s.(pending := None), loop, f, done, eng, t)
  }

  /** One iteration of the main loop. */
  function Next(cfg: Settings, s: State, loop: Loop, now: int, done: int, eng: Engine): StepResult
  {
    Dispatch(cfg, s, loop, now, done, eng, TextsFor(cfg, s, eng))
  }

  /** The caller-side operations, on the state. */
  function UpdateFrame(s: State, f: Image): State
  {
    s.(pending := Some(f))
  }

  function Poll(s: State): (State, Option<MonitoringResult>)
  {
    (s.(result := None), s.result)
  }

  function Ask(s: State, image: Image, prompt: string, ticket: nat): (State, Option<InferenceResult>)
  {
    if !s.deviceReady then (s, Some(InferenceResult("Device not ready")))
    else (s.(vlmReq := Some(Request(image, prompt, ticket, false))), None)
  }

  /** The 60-second timeout of `vlm_custom_inference`: the request's cancel
      flag and the abort flag are raised. */
  function TimeOut(s: State, ticket: nat): State
  {
    var req := match s.vlmReq
      case Some(r) => if r.ticket == ticket then Some(r.(cancelled := true)) else s.vlmReq
      case None => None;
    s.(vlmReq := req, abortRequested := true)
  }

  /** The body of `close()` that is not about joining the thread. */
  function Shutdown(s: State): State
  {
    if !s.running then s else s.(running := false, abortRequested := true)
  }

  // --------------------------------------------------------- the one-generator rule

  /** Replays the calls from `has` (a monitor generator exists): a generator
      is only created when none exists, the direct API only runs when none
      exists, the monitor generator only runs when it exists; `after` is
      whether one exists at the end. */
  predicate OneGenerator(has: bool, calls: seq<Call>, after: bool)
    decreases |calls|
  {
    if calls == [] then after == has
    else match calls[0]
      case DestroyGenerator => OneGenerator(false, calls[1..], after)
      case CreateGenerator(ok) => !has && OneGenerator(ok, calls[1..], after)
      case GenerateDirect(_) => !has && OneGenerator(has, calls[1..], after)
      case GenerateMonitor(_) => has && OneGenerator(has, calls[1..], after)
  }

  /** A monitor inference keeps the rule. */
  lemma MonitorCallsKeepRule(has: bool, msgs: seq<string>, eng: Engine)
    ensures OneGenerator(has, MonitorCalls(has, msgs, eng), eng.generation.Stream? || eng.recreateOk)
  {
    var post := if eng.generation.Failure? then [DestroyGenerator, CreateGenerator(eng.recreateOk)] else [];
    var tail := [GenerateMonitor(msgs)] + post;
    assert tail[1..] == post;
    if eng.generation.Failure? {
      assert post[1..] == [CreateGenerator(eng.recreateOk)];
      assert post[1..][1..] == [];
      assert OneGenerator(false, post[1..], eng.recreateOk);
    }
    assert OneGenerator(true, tail, eng.generation.Stream? || eng.recreateOk);
    if !has {
      var calls := MonitorCalls(has, msgs, eng);
      assert calls == [CreateGenerator(true)] + tail;
      assert calls[1..] == tail;
    } else {
      assert MonitorCalls(has, msgs, eng) == tail;
    }
  }

  /** An interactive question keeps the rule. */
  lemma DirectCallsKeepRule(has: bool, msgs: seq<string>, ok: bool)
    ensures OneGenerator(has, DirectCalls(has, msgs, ok), ok)
  {
    var tail := [GenerateDirect(msgs), CreateGenerator(ok)];
    assert tail[1..] == [CreateGenerator(ok)];
    assert tail[1..][1..] == [];
    assert OneGenerator(false, tail, ok);
    if has {
      assert ([DestroyGenerator] + tail)[1..] == tail;
    } else {
      assert [] + tail == tail;
    }
  }

  /** Every step keeps the rule, and the loop's `hasGenerator` is where the
      replay ends. */
  lemma StepKeepsOneGenerator(cfg: Settings, s: State, loop: Loop, now: int, done: int, eng: Engine, t: Texts)
    ensures var r := Dispatch(cfg, s, loop, now, done, eng, t);
            OneGenerator(loop.hasGenerator, r.calls, r.loop.hasGenerator)
  {
    match Select(s, loop, cfg.cooldownMs, now)
    case Quit =>
    case Idle =>
    case TakeRequest(req) =>
      if !req.cancelled {
        DirectCallsKeepRule(loop.hasGenerator, t.direct, eng.createOk);
      }
    case TakeFrame(f) =>
      if loop.hasGenerator || eng.createOk {
        MonitorCallsKeepRule(loop.hasGenerator, loop.monitorMessages, eng);
      }
  }

  // ------------------------------------------------------------ step lemmas

  /** A pending question is always taken before a monitor frame: the frame
      and the result slot are left as they were, the request slot is emptied,
      and the request is answered with the reply text, through the direct
      API, unless it was cancelled before it was taken; the reply reaches the
      caller unless the caller gave up meanwhile. */
  lemma InteractiveFirst(cfg: Settings, s: State, loop: Loop, now: int, done: int, eng: Engine, t: Texts)
    requires s.running && s.vlmReq.Some?
    ensures var r := Dispatch(cfg, s, loop, now, done, eng, t);
            var req := s.vlmReq.value;
            && r.state == s.(vlmReq := None, abortRequested := !req.cancelled && eng.abortRaised)
            && (if req.cancelled then r.outcome == SkippedCancelled(req.ticket) && r.loop == loop
                else
                  && r.outcome == Answered(req.ticket, t.reply, !eng.cancelledMeanwhile)
                  && GenerateDirect(t.direct) in r.calls)
  {
  }

  /** A monitor frame is taken exactly when the worker runs, no question is
      waiting, a frame is pending, monitoring is not paused and the cooldown
      has elapsed; taking it empties the frame slot. */
  lemma MonitorOnlyWhenDue(cfg: Settings, s: State, loop: Loop, now: int, done: int, eng: Engine, t: Texts)
    ensures var r := Dispatch(cfg, s, loop, now, done, eng, t);
            && ((r.outcome.Published? || r.outcome.SkippedNoGenerator?) <==>
                  s.running && s.vlmReq.None? && s.pending.Some? && !s.paused && now - loop.lastInfer >= cfg.cooldownMs)
            && ((r.outcome.Published? || r.outcome.SkippedNoGenerator?) ==> r.state.pending.None?)
  {
    match Select(s, loop, cfg.cooldownMs, now)
    case Quit =>
    case Idle =>
    case TakeRequest(req) =>
    case TakeFrame(f) =>
  }

  /** `last_infer` moves to the end of the step after every completed
      question or monitor inference, and only then. */
  lemma LastInferOnCompletion(cfg: Settings, s: State, loop: Loop, now: int, done: int, eng: Engine, t: Texts)
    ensures var r := Dispatch(cfg, s, loop, now, done, eng, t);
            r.loop.lastInfer == if r.outcome.Answered? || r.outcome.Published? then done else loop.lastInfer
  {
    match Select(s, loop, cfg.cooldownMs, now)
    case Quit =>
    case Idle =>
    case TakeRequest(req) =>
    case TakeFrame(f) =>
  }

  /** A monitor inference publishes the monitor text into the single result
      slot, replacing whatever was there, with the frame it took. */
  lemma MonitorPublishes(cfg: Settings, s: State, loop: Loop, now: int, done: int, eng: Engine, t: Texts)
    requires Dispatch(cfg, s, loop, now, done, eng, t).outcome.Published?
    ensures var r := Dispatch(cfg, s, loop, now, done, eng, t);
            && s.pending.Some?
            && r.outcome.answer == t.published
            && r.state.result == Some(MonitoringResult(s.pending.value, InferenceResult(t.published)))
            && r.state.vlmReq == s.vlmReq
  {
    match Select(s, loop, cfg.cooldownMs, now)
    case Quit =>
    case Idle =>
    case TakeRequest(req) =>
    case TakeFrame(f) =>
  }

  /** Without a generator that cannot be recreated, the frame is consumed and
      nothing else happens: no result, no `last_infer` update. */
  lemma MissingGeneratorSkips(cfg: Settings, s: State, loop: Loop, now: int, done: int, eng: Engine, t: Texts)
    requires Dispatch(cfg, s, loop, now, done, eng, t).outcome == SkippedNoGenerator
    ensures var r := Dispatch(cfg, s, loop, now, done, eng, t);
            && !loop.hasGenerator && !eng.createOk
            && r.state == s.(pending := None, abortRequested := false)
            && r.loop == loop
  {
    match Select(s, loop, cfg.cooldownMs, now)
    case Quit =>
    case Idle =>
    case TakeRequest(req) =>
    case TakeFrame(f) =>
  }

  /** After a question the generator exists exactly when its recreation
      succeeded; after a monitor inference it exists unless the generation
      failed and the recreation failed too; otherwise nothing changes. */
  lemma GeneratorAfterStep(cfg: Settings, s: State, loop: Loop, now: int, done: int, eng: Engine, t: Texts)
    ensures var r := Dispatch(cfg, s, loop, now, done, eng, t);
            && (r.outcome.Answered? ==> r.loop.hasGenerator == eng.createOk)
            && (r.outcome.Published? ==> r.loop.hasGenerator == (eng.generation.Stream? || eng.recreateOk))
            && (r.outcome.Exited? || r.outcome.Waited? || r.outcome.SkippedCancelled? || r.outcome.SkippedNoGenerator? ==>
                  r.loop == loop)
  {
    match Select(s, loop, cfg.cooldownMs, now)
    case Quit =>
    case Idle =>
    case TakeRequest(req) =>
    case TakeFrame(f) =>
  }

  /** A question is answered only from the slot, so a question overwritten
      in the slot before the worker took it is never answered. */
  lemma AnsweredFromSlot(cfg: Settings, s: State, loop: Loop, now: int, done: int, eng: Engine, t: Texts)
    requires Dispatch(cfg, s, loop, now, done, eng, t).outcome.Answered?
    ensures s.vlmReq.Some? && !s.vlmReq.value.cancelled
    ensures Dispatch(cfg, s, loop, now, done, eng, t).outcome.ticket == s.vlmReq.value.ticket
  {
    match Select(s, loop, cfg.cooldownMs, now)
    case Quit =>
    case Idle =>
    case TakeRequest(req) =>
    case TakeFrame(f) =>
  }

  /** A question that timed out before the worker took it is dropped
      without an answer. */
  lemma TimedOutNotAnswered(cfg: Settings, s: State, loop: Loop, now: int, done: int, eng: Engine, t: Texts)
    requires s.running && s.vlmReq.Some?
    ensures Dispatch(cfg, TimeOut(s, s.vlmReq.value.ticket), loop, now, done, eng, t).outcome
            == SkippedCancelled(s.vlmReq.value.ticket)
  {
  }

  /** A question asked of a ready backend is the next thing the worker
      does: it is answered with the reply text, through the direct API. */
  lemma AskThenStep(cfg: Settings, s: State, image: Image, prompt: string, ticket: nat,
                    loop: Loop, now: int, done: int, eng: Engine, t: Texts)
    requires s.running && s.deviceReady
    ensures var (s', immediate) := Ask(s, image, prompt, ticket);
            var r := Dispatch(cfg, s', loop, now, done, eng, t);
            && immediate.None?
            && r.outcome == Answered(ticket, t.reply, !eng.cancelledMeanwhile)
            && GenerateDirect(t.direct) in r.calls
            && r.state.vlmReq.None? && r.state.pending == s.pending && r.state.result == s.result
  {
    var s' := Ask(s, image, prompt, ticket).0;
    InteractiveFirst(cfg, s', loop, now, done, eng, t);
  }

  /** A frame handed to an idle worker whose cooldown has elapsed comes
      back from the next poll, with the monitor text, unless no generator
      can be made. */
  lemma FrameThenPoll(cfg: Settings, s: State, f: Image, loop: Loop, now: int, done: int, eng: Engine, t: Texts)
    requires s.running && s.vlmReq.None? && !s.paused && now - loop.lastInfer >= cfg.cooldownMs
    requires loop.hasGenerator || eng.createOk
    ensures var r := Dispatch(cfg, UpdateFrame(s, f), loop, now, done, eng, t);
            && r.outcome == Published(t.published)
            && r.state.pending.None?
            && Poll(r.state).1 == Some(MonitoringResult(f, InferenceResult(t.published)))
  {
  }

  /** `close()` acts once, and the next step ends the worker. */
  lemma CloseStopsWorker(cfg: Settings, s: State, loop: Loop, now: int, done: int, eng: Engine, t: Texts)
    ensures Shutdown(Shutdown(s)) == Shutdown(s)
    ensures s.running ==> Shutdown(s).abortRequested
    ensures var r := Dispatch(cfg, Shutdown(s), loop, now, done, eng, t);
            r.outcome == Exited && !r.state.deviceReady && r.state.workerDone
  {
  }

  /** The worker stops only when told to: a step exits exactly when
      `running` is false, and then marks the device not ready and the worker
      done. */
  lemma ExitOnlyWhenStopped(cfg: Settings, s: State, loop: Loop, now: int, done: int, eng: Engine, t: Texts)
    ensures var r := Dispatch(cfg, s, loop, now, done, eng, t);
            && (r.outcome == Exited <==> !s.running)
            && (r.outcome == Exited ==> r.state == s.(deviceReady := false, workerDone := true))
  {
    match Select(s, loop, cfg.cooldownMs, now)
    case Quit =>
    case Idle =>
    case TakeRequest(req) =>
    case TakeFrame(f) =>
  }

  /** What only the callers change is kept from `s` to `r`: `running`,
      `paused` and the frame geometry; a device that is not ready stays so;
      and a slot the callers fill is never filled. */
  predicate CallerFieldsKept(s: State, r: State)
  {
    && r.running == s.running && r.paused == s.paused && r.frameH == s.frameH && r.frameW == s.frameW
    && (r.deviceReady ==> s.deviceReady)
    && (r.pending.Some? ==> r.pending == s.pending)
    && (r.vlmReq.Some? ==> r.vlmReq == s.vlmReq)
  }

  /** No step changes what only the callers change. */
  lemma StepKeepsCallerFields(cfg: Settings, s: State, loop: Loop, now: int, done: int, eng: Engine, t: Texts)
    ensures CallerFieldsKept(s, Dispatch(cfg, s, loop, now, done, eng, t).state)
  {
    match Select(s, loop, cfg.cooldownMs, now)
    case Quit =>
    case Idle =>
    case TakeRequest(req) =>
      assert CallerFieldsKept(s, Interactive(s.(vlmReq := None), loop, req, done, eng, t).state);
    case TakeFrame(f) =>
      assert CallerFieldsKept(s, Monitor(s.(pending := None), loop, f, done, eng, t).state);
  }

  // ------------------------------------------------------------ text lemmas

  /** A question is sent with the configured system prompt (the constructor
      sets it to `HelpfulSystem`) and its own text, never substituted. */
  lemma DirectMessagesVerbatim(cfg: Settings, prompt: string)
    requires cfg.assistantPrompt != ""
    ensures var m := DirectMessages(cfg, prompt);
            && |m| == 2
            && TextOf(SystemOpen, m[0]) == Some(cfg.assistantPrompt)
            && TextOf(UserOpen, m[1]) == Some(prompt)
  {
    CppNoSubstitution(Custom, prompt, cfg.prompts.useCases);
    BuildMessagesTexts(Custom, cfg.assistantPrompt, prompt, cfg.prompts.useCases);
  }

  /** The monitor text of a generation is a label of the trigger's use case
      (or the sentinel) followed by the preview of the cleaned response, and
      the preview is empty exactly when the response is. */
  lemma MonitorTextLabelled(cfg: Settings, eng: Engine)
    requires eng.generation.Stream?
    ensures var a := ReadAnswer(eng.generation.events, cfg.maxTokens);
            var uc := Lookup(cfg.prompts.useCases, cfg.trigger);
            && (exists lab :: (lab == NoEvent || (uc.Some? && lab in uc.value.options))
                               && MonitorText(cfg, eng) == lab + Preview(a))
            && (Preview(a) == [] <==> a == [])
  {
    var a := ReadAnswer(eng.generation.events, cfg.maxTokens);
    var uc := Lookup(cfg.prompts.useCases, cfg.trigger);
    var lab := Classify(Cpp, a, uc);
    assert MonitorText(cfg, eng) == lab + Preview(a);
    if a != [] {
      assert Preview(a)[0] == ' ';
    }
  }

  /** A result is handed out once: polling again finds nothing. */
  lemma PollOnce(s: State)
    ensures Poll(s).1 == s.result
    ensures Poll(Poll(s).0).1 == None
    ensures Poll(s).0 == s.(result := None)
  {
  }

  /** The slots hold one item: a second write wins. */
  lemma SlotsHoldOne(s: State, f1: Image, f2: Image, i1: Image, i2: Image, p1: string, p2: string, t1: nat, t2: nat)
    ensures UpdateFrame(UpdateFrame(s, f1), f2) == UpdateFrame(s, f2)
    ensures s.deviceReady ==> Ask(Ask(s, i1, p1, t1).0, i2, p2, t2) == Ask(s, i2, p2, t2)
  {
  }

  // ------------------------------------------------------------- start-up

  /** Whether attempt `k` (from 0) to create the virtual device succeeds;
      attempts beyond the oracle's list fail. */
  predicate AttemptOk(attempts: seq<bool>, k: nat)
  {
    k < |attempts| && attempts[k]
  }

  /** Whether one of the first `maxRetries` attempts succeeds. */
  predicate Connects(maxRetries: int, attempts: seq<bool>)
  {
    exists k: nat | k < |attempts| :: k < maxRetries && attempts[k]
  }

  /** The seconds waited before the first `tries` attempts: 3 before the
      first, 5 before each later one. */
  function WaitedBefore(tries: nat): nat
  {
    if tries == 0 then 0 else 3 + 5 * (tries - 1)
  }

  /** Phase 2 of `worker_func`: up to `max_retries` attempts, each after a
      wait, stopping at the first success. */
  method ConnectVDevice(maxRetries: int, attempts: seq<bool>) returns (ok: bool, tries: nat, waited: nat)
    ensures ok <==> Connects(maxRetries, attempts)
    ensures ok ==> 0 < tries <= maxRetries && AttemptOk(attempts, tries - 1)
    ensures forall k: nat :: k < tries - 1 ==> !AttemptOk(attempts, k)
    ensures !ok ==> tries == if maxRetries < 0 then 0 else maxRetries
    ensures waited == WaitedBefore(tries)
  {
    ok := false;
    tries := 0;
    waited := 0;
    var i := 1;
    while i <= maxRetries
      invariant !ok && 1 <= i && tries == i - 1 && i <= if maxRetries < 0 then 1 else maxRetries + 1
      invariant forall k: nat :: k < tries ==> !AttemptOk(attempts, k)
      invariant waited == WaitedBefore(tries)
      decreases maxRetries - i
    {
      waited := waited + if i == 1 then 3 else 5;
      tries := i;
      if AttemptOk(attempts, i - 1) {
        ok := true;
        assert i - 1 < |attempts| && i - 1 < maxRetries && attempts[i - 1];
        return;
      }
      i := i + 1;
    }
    assert !Connects(maxRetries, attempts) by {
      forall k: nat | k < |attempts| && k < maxRetries
        ensures !attempts[k]
      {
        assert !AttemptOk(attempts, k);
      }
    }
  }

  /** How start-up ended. */
  datatype StartOutcome = NoDevice | NoVDevice | NoModel | GeneratorFailed | Ready

  /** Phases 1 to 4 of `worker_func` and the start of phase 5: the device
      scan (`None` when the scan itself fails, which is not fatal), the
      virtual device, the model with its frame geometry (`None` when it
      cannot be created), the first monitor generator (whose failure ends the
      worker through the outer `catch`), the cached monitor messages, and
      `last_infer = now - cooldown`. The loop exists only when ready. */
  function StartSpec(cfg: Settings, s: State, now: int, scan: Option<nat>, attempts: seq<bool>,
                     model: Option<(int, int)>, genOk: bool): (State, Option<Loop>, StartOutcome)
  {
    if scan == Some(0) then (s.(workerDone := true), None, NoDevice)
    else if !Connects(cfg.maxRetries, attempts) then (s.(workerDone := true), None, NoVDevice)
    else LoadSpec(cfg, s, now, model, genOk)
  }

  /** Phases 3 and 4 of start-up, once the virtual device exists. */
  function LoadSpec(cfg: Settings, s: State, now: int, model: Option<(int, int)>, genOk: bool)
    : (State, Option<Loop>, StartOutcome)
  {
    if model.None? then (s.(workerDone := true), None, NoModel)
    else
      var (h, w) := model.value;
      if !genOk then (s.(frameH := h, frameW := w, deviceReady := false, workerDone := true), None, GeneratorFailed)
      else
        var msgs := BuildMessages(cfg.trigger, cfg.prompts.systemPrompt, cfg.prompts.userPrompt, cfg.prompts.useCases);
        (s.(frameH := h, frameW := w, deviceReady := true), Some(Loop(now - cfg.cooldownMs, true, msgs)), Ready)
  }

  /** Start-up either makes the device ready, with a generator, the cached
      monitor messages and the cooldown already elapsed for the first frame,
      or ends the worker with the device not ready; a device scan that fails
      is not fatal. */
  lemma StartEitherReadyOrDone(cfg: Settings, now: int, scan: Option<nat>, attempts: seq<bool>,
                               model: Option<(int, int)>, genOk: bool)
    ensures var (s, loop, o) := StartSpec(cfg, Initial(), now, scan, attempts, model, genOk);
            && (o == Ready <==> scan != Some(0) && Connects(cfg.maxRetries, attempts) && model.Some? && genOk)
            && (o == Ready ==> s.deviceReady && !s.workerDone && loop.Some? && loop.value.hasGenerator
                               && now - loop.value.lastInfer >= cfg.cooldownMs
                               && |loop.value.monitorMessages| == (if cfg.prompts.systemPrompt == "" then 1 else 2))
            && (o != Ready ==> !s.deviceReady && s.workerDone && loop.None?)
  {
    if scan != Some(0) && Connects(cfg.maxRetries, attempts) && model.Some? {
      var (h, w) := model.value;
      assert StartSpec(cfg, Initial(), now, scan, attempts, model, genOk).2 == if genOk then Ready else GeneratorFailed;
    }
  }

  // ---------------------------------------------------------------- the class

  class Backend {
    const cfg: Settings

    var running: bool
    var deviceReady: bool
    var abortRequested: bool
    var workerDone: bool
    var paused: bool
    var pending: Option<Image>
    var result: Option<MonitoringResult>
    var vlmReq: Option<Request>
    var frameH: int
    var frameW: int

    /** The abstract value of the object. */
    function Snapshot(): State
      reads this
    {
      State(running, deviceReady, abortRequested, workerDone, paused, pending, result, vlmReq, frameH, frameW)
    }

    /** `Backend(prompts, ...)` with the C++ trigger (the first key of
        `use_cases` in the JSON library's order, or "" without use cases)
        given as a parameter. Starting the worker thread is `Start`. */
    constructor (prompts: Prompts, trigger: string, maxTokens: nat := DefaultMaxTokens, seed: nat := DefaultSeed,
                 cooldownMs: int := DefaultCooldownMs, maxRetries: int := DefaultMaxRetries)
      ensures cfg == Settings(prompts, trigger, maxTokens, seed, cooldownMs, maxRetries, HelpfulSystem)
      ensures Snapshot() == Initial()
    {
      cfg := Settings(prompts, trigger, maxTokens, seed, cooldownMs, maxRetries, HelpfulSystem);
      running, deviceReady, abortRequested, workerDone, paused := true, false, false, false, false;
      pending, result, vlmReq := None, None, None;
      frameH, frameW := DefaultFrameSide, DefaultFrameSide;
    }

    /** Start-up, run by the worker thread before its loop. */
    method Start(now: int, scan: Option<nat>, attempts: seq<bool>, model: Option<(int, int)>, genOk: bool)
      returns (loop: Option<Loop>, outcome: StartOutcome)
      modifies this
      ensures (Snapshot(), loop, outcome) == StartSpec(cfg, old(Snapshot()), now, scan, attempts, model, genOk)
    {
      if scan == Some(0) {
        workerDone := true;
        return None, NoDevice;
      }
      var ok, tries, waited := ConnectVDevice(cfg.maxRetries, attempts);
      if !ok {
        workerDone := true;
        return None, NoVDevice;
      }
      loop, outcome := LoadModel(now, model, genOk);
    }

    /** Phases 3 and 4 of start-up. */
    method LoadModel(now: int, model: Option<(int, int)>, genOk: bool) returns (loop: Option<Loop>, outcome: StartOutcome)
      modifies this
      ensures (Snapshot(), loop, outcome) == LoadSpec(cfg, old(Snapshot()), now, model, genOk)
    {
      if model.None? {
        workerDone := true;
        return None, NoModel;
      }
      frameH, frameW := model.value.0, model.value.1;
      if !genOk {
        deviceReady, workerDone := false, true;
        return None, GeneratorFailed;
      }
      var msgs := BuildMessages(cfg.trigger, cfg.prompts.systemPrompt, cfg.prompts.userPrompt, cfg.prompts.useCases);
      deviceReady := true;
      loop, outcome := Some(Loop(now - cfg.cooldownMs, true, msgs)), Ready;
    }

    /** `update_frame`: the new frame replaces any pending one. */
    method UpdateFrameNow(f: Image)
      modifies this
      ensures Snapshot() == UpdateFrame(old(Snapshot()), f)
    {
      pending := Some(f);
    }

    /** `poll_result`: hands out the result once. */
    method PollResult() returns (r: Option<MonitoringResult>)
      modifies this
      ensures (Snapshot(), r) == Poll(old(Snapshot()))
    {
      r := result;
      result := None;
    }

    method PauseMonitoring()
      modifies this
      ensures Snapshot() == old(Snapshot()).(paused := true)
    {
      paused := true;
    }

    method ResumeMonitoring()
      modifies this
      ensures Snapshot() == old(Snapshot()).(paused := false)
    {
      paused := false;
    }

    method AbortCurrent()
      modifies this
      ensures Snapshot() == old(Snapshot()).(abortRequested := true)
    {
      abortRequested := true;
    }

    function IsReady(): (b: bool)
      reads this
      ensures b == Snapshot().deviceReady
    {
      deviceReady
    }

    /** The first half of `vlm_custom_inference`: an immediate answer when the
        device is not ready, else the question is put in the slot. */
    method AskQuestion(image: Image, prompt: string, ticket: nat) returns (r: Option<InferenceResult>)
      modifies this
      ensures (Snapshot(), r) == Ask(old(Snapshot()), image, prompt, ticket)
    {
      if !deviceReady {
        return Some(InferenceResult("Device not ready"));
      }
      vlmReq := Some(Request(image, prompt, ticket, false));
      r := None;
    }

    /** The timeout branch of `vlm_custom_inference`. */
    method QuestionTimedOut(ticket: nat) returns (r: InferenceResult)
      modifies this
      ensures Snapshot() == TimeOut(old(Snapshot()), ticket)
      ensures r == InferenceResult("VLM timeout")
    {
      if vlmReq.Some? && vlmReq.value.ticket == ticket {
        vlmReq := Some(vlmReq.value.(cancelled := true));
      }
      abortRequested := true;
      r := InferenceResult("VLM timeout");
    }

    /** `close()` without the join: the first call stops the loop and raises
        the abort flag, later calls do nothing. */
    method CloseNow()
      modifies this
      ensures Snapshot() == Shutdown(old(Snapshot()))
    {
      if !running {
        return;
      }
      running, abortRequested := false, true;
    }

    /** The reply to a question, computed as `worker_func` does. */
    method ReplyText(eng: Engine) returns (answer: string)
      ensures answer == InteractiveAnswer(eng)
    {
      match eng.generation {
        case Stream(events) =>
          var text, n, stop := ReadAllTokens(events, InteractiveMaxTokens);
          answer := if text == [] then (if eng.abortRaised then "Aborted" else "No response") else text;
        case Failure(w) =>
          answer := "Error: " + w;
      }
    }

    /** The monitor text, computed as `worker_func` does. */
    method MonitorTextNow(eng: Engine) returns (answer: string)
      ensures answer == MonitorText(cfg, eng)
    {
      match eng.generation {
        case Stream(events) =>
          var text, n, stop := ReadAllTokens(events, cfg.maxTokens);
          answer := MonitorAnswer(text, Lookup(cfg.prompts.useCases, cfg.trigger));
        case Failure(w) =>
          answer := "Error: " + w;
      }
    }

    /** The interactive branch of `worker_func`, once the request has left
        the slot. */
    method AnswerRequest(loop: Loop, req: Request, done: int, eng: Engine, ghost t: Texts)
      returns (loop': Loop, outcome: Outcome, calls: seq<Call>)
      requires t.direct == DirectMessages(cfg, req.prompt) && t.reply == InteractiveAnswer(eng)
      modifies this
      ensures StepResult(Snapshot(), loop', outcome, calls) == Interactive(old(Snapshot()), loop, req, done, eng, t)
    {
      if req.cancelled {
        abortRequested := false;
        return loop, SkippedCancelled(req.ticket), [];
      }
      var msgs := DirectMessages(cfg, req.prompt);
      var answer := ReplyText(eng);
      abortRequested := eng.abortRaised;
      loop' := loop.(hasGenerator := eng.createOk, lastInfer := done);
      outcome := Answered(req.ticket, answer, !eng.cancelledMeanwhile);
      calls := DirectCalls(loop.hasGenerator, msgs, eng.createOk);
    }

    /** The monitor branch of `worker_func`, once the frame has left the
        slot. */
    method InferFrame(loop: Loop, frame: Image, done: int, eng: Engine, ghost t: Texts)
      returns (loop': Loop, outcome: Outcome, calls: seq<Call>)
      requires t.published == MonitorText(cfg, eng)
      modifies this
      ensures StepResult(Snapshot(), loop', outcome, calls) == Monitor(old(Snapshot()), loop, frame, done, eng, t)
    {
      if !loop.hasGenerator && !eng.createOk {
        abortRequested := false;
        return loop, SkippedNoGenerator, [CreateGenerator(false)];
      }
      var answer := MonitorTextNow(eng);
      abortRequested, result := eng.abortRaised, Some(MonitoringResult(frame, InferenceResult(answer)));
      loop' := loop.(hasGenerator := eng.generation.Stream? || eng.recreateOk, lastInfer := done);
      outcome := Published(answer);
      calls := MonitorCalls(loop.hasGenerator, loop.monitorMessages, eng);
    }

    /** One iteration of the main loop. */
    method Step(loop: Loop, now: int, done: int, eng: Engine) returns (loop': Loop, outcome: Outcome, calls: seq<Call>)
      modifies this
      ensures StepResult(Snapshot(), loop', outcome, calls) == Next(cfg, old(Snapshot()), loop, now, done, eng)
    {
      ghost var s0 := Snapshot();
      ghost var t := TextsFor(cfg, s0, eng);
      assert Next(cfg, s0, loop, now, done, eng) == Dispatch(cfg, s0, loop, now, done, eng, t);
      if !running {
        deviceReady, workerDone := false, true;
        return loop, Exited, [];
      }
      if vlmReq.Some? {
        var req := vlmReq.value;
        vlmReq := None;
        assert Snapshot() == s0.(vlmReq := None);
        loop', outcome, calls := AnswerRequest(loop, req, done, eng, t);
        return;
      }
      if pending.Some? && !paused && now - loop.lastInfer >= cfg.cooldownMs {
        var frame := pending.value;
        pending := None;
        assert Snapshot() == s0.(pending := None);
        loop', outcome, calls := InferFrame(loop, frame, done, eng, t);
        return;
      }
      return loop, Waited, [];
    }
  }

  /** `Backend(prompts)` with every later argument left at its default
      (C++/backend.h:64-70): 40 tokens, seed 42, a 1000 ms cooldown and 5
      retries. */
  method NewWithDefaults(prompts: Prompts, trigger: string) returns (b: Backend)
    ensures fresh(b)
    ensures b.cfg == Settings(prompts, trigger, 40, 42, 1000, 5, HelpfulSystem)
    ensures b.Snapshot() == Initial()
  {
    b := new Backend(prompts, trigger);
  }
}
