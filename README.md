# VLM backend core, modelled in Dafny

This project models the sequential core of the VLM backend of the
VLM-Windows-Demo application. It covers the C++ `Backend` (C++/backend.cpp,
C++/backend.h) and the inference function of its Python twin
(Python/backend.py). A camera loop hands the backend frames. A worker thread
runs a vision-language model on the Hailo accelerator. It classifies each
answer into one of the active use case's option labels and publishes the
label in a one-item result slot. Interactive questions take priority over
monitoring.

The model has four parts:

- **Classifier** (`classifier.dfy`, with concrete cases in
  `scenarios.dfy`). The label for a free-form response comes from keyword
  mode or direct mode. Direct mode cuts the response at delimiters, trims
  it, matches on prefixes and, for short responses only, falls back to
  containment. `Dialect` selects between the C++ and the Python behaviour
  wherever they differ.
- **Tokens** (`tokens.dfy`). `read_all_tokens` is an imperative loop over
  an oracle stream of events. Its post-processing erases every
  `<|im_end|>` and trims. The Python chunk loop and its answer shaping
  are modelled beside it.
- **Messages** (`escape.dfy`, `messages.dfy`, `config.dfy`). This part
  covers `escape_json` and a decoder that undoes it (it reads back what
  `escape_json` writes, not JSON in general), `build_messages`,
  and both ways of filling in `{details}`. The prompt configuration is a
  record; no JSON is parsed.
- **Worker** (`worker.dfy`). The class `Backend` holds the fields the
  callers share with the worker: the flags, the frame slot, the result
  slot, the request slot and the frame geometry. Each `has_*` flag and its
  buffer together form one `Option`. `Step` is one iteration of the main
  loop of `worker_func`. The loop's own locals are a `Loop` value that
  `Step` takes and returns: `last_infer`, whether `monitor_gen` holds a
  generator, and the cached monitor messages. In the source they are
  locals of the thread function, not fields of the class. Each `Step`
  equals a specification function `Next`, and the lemmas are stated over
  `Next`.

Time is an integer number of milliseconds, given as parameters: `now`
when the loop wakes and `done` after the dispatch. The Hailo engine is an
oracle. `Engine` is one step's behaviour of it: the token stream or an
exception text, whether an abort arrived, whether the caller gave up
meanwhile, and whether creating a generator succeeds. Start-up takes the
device scan, the virtual-device attempts, the model geometry and the
first generator's creation as parameters. `Dispatch` takes the texts a
step computes as a parameter `Texts`, because its control flow does not
depend on them. `Next` supplies them through `TextsFor`.

Two details of the code that the model keeps:

- An interactive question answered while monitoring is paused still sets
  `last_infer` (C++/backend.cpp:478), so pausing does not stop the
  cooldown from moving.
- The Python chunk loop breaks only once `num_tokens > max_tokens`
  (Python/backend.py:139-146), so it keeps `max_tokens + 1` chunks of a
  longer stream, one more than C++.

## Model

| member | source | states |
|---|---|---|
| Text.Lower | C++/backend.cpp:520-522 | `::tolower` in the C locale: same length, every character mapped by ASCII lower-casing |
| Text.TrimIsSlice | C++/backend.cpp:255-258 | the trimmed text is a slice of the input, neither end is in the trim set, and it is empty exactly when every character is in the set |
| Text.EraseAll | C++/backend.cpp:251-254 | erasing the first occurrence until none is left: no occurrence remains, the text never grows, and a text without the pattern is unchanged |
| Text.ReplaceAllAtFirst | Python/backend.py:116 | `str.replace` replaces the first occurrence that `find` reports and goes on after it |
| Text.ReplaceFirstIsReplaceAll | C++/backend.cpp:196-197 | with at most one occurrence, replacing the first (C++) and replacing all (Python) give the same text |
| Config.Lookup | C++/backend.cpp:525-528 | `use_cases[key]` is absent exactly when no entry has that key, and otherwise is an entry with that key |
| Config.PyActiveTrigger | Python/backend.py:178 | the active trigger is `None` exactly without prompts, and the first key of `use_cases` in file order exactly when there is one |
| JsonEscape.Escape | C++/backend.cpp:31-44 | the output grows by exactly one character per escaped character, is the input when nothing needs escaping, and holds no raw newline, carriage return or tab |
| JsonEscape.EscapeLength | C++/backend.cpp:31-44 | the output is never shorter than the input, has equal length exactly when none of the five characters occurs, and then is the input |
| JsonEscape.UnescapeEscape | C++/backend.cpp:31-44 | escaping loses nothing: a decoder of the escapes it writes gives back the input |
| JsonEscape.ControlCharStaysRaw | C++/backend.cpp:36-41 | a control character other than newline, carriage return and tab is copied raw into the output |
| JsonEscape.EscapeAppend | C++/backend.cpp:33-42 | escaping works character by character, so it distributes over concatenation |
| Messages.CppUserPrompt | C++/backend.cpp:189-198 | the prompt is used as given for "custom", for an unknown trigger, for a use case without `details`, and whenever it holds no `{details}` |
| Messages.PyUserPrompt | Python/backend.py:100-116 | the Python user prompt fails exactly for a trigger other than "custom" that is not a use case, and is the prompt itself for "custom" |
| Messages.PyNoPlaceholderUnchanged | Python/backend.py:115-116 | a prompt without `{details}` comes back unchanged whenever it can be built |
| Messages.BuildMessages | C++/backend.cpp:177-206 | one message without a system prompt, two with one |
| Messages.BuildMessagesTexts | C++/backend.cpp:183-204 | the system message carries `sys` and the last message carries the user prompt, each read back intact through the decoder of `escape_json` |
| Messages.TextOfWrap | C++/backend.cpp:185-202 | a message's text is recovered from its wrapping by the decoder of `escape_json` |
| Messages.CppSubstitutesFirstOnly | C++/backend.cpp:190-198 | for a non-"custom" trigger with `details`, only the first `{details}` is replaced; the text before and after it is kept |
| Messages.CppNoSubstitution | C++/backend.cpp:190-198 | for "custom", an unknown trigger or a use case without `details`, the prompt is used unchanged |
| Messages.PyStructuredPrompt | Python/backend.py:100-129 | the Python prompt is always the system message and then the user message with the image and the substituted text; it fails exactly when the user prompt cannot be built, that is for a trigger other than "custom" that is not a use case |
| Messages.PromptsAgreeOnSinglePlaceholder | Python/backend.py:115-116 | with details present and at most one placeholder, C++ and Python build the same user prompt |
| Messages.PySubstitutesEvery | Python/backend.py:115-116 | Python replaces the first placeholder and goes on replacing in the rest |
| Messages.MissingDetailsDiffer | Python/backend.py:115 | without `details`, C++ keeps the placeholder and Python removes it |
| Classifier.FirstWhere | C++/backend.cpp:535-547 | the first index in declared order whose option satisfies the test, all earlier ones failing it, or none at all |
| Classifier.KeywordMode | Python/backend.py:63 | keyword mode needs a `keywords` object; Python takes it exactly when the object is non-empty, and C++ exactly when there is an object, empty or not (C++/backend.cpp:533) |
| Classifier.KeywordLabel | C++/backend.cpp:533-553 | the keyword-mode label is an option or the sentinel |
| Classifier.CutAll | C++/backend.cpp:557-562 | the cut text is a prefix of the response |
| Classifier.ContainLabel | C++/backend.cpp:586-595 | the containment label is an option or the given fallback |
| Classifier.DirectLabel | C++/backend.cpp:555-597 | the direct-mode label is an option or the sentinel |
| Classifier.Classify | C++/backend.cpp:524-598 | the final label is always an option of the use case or "No Event Detected" |
| Classifier.Preview | C++/backend.cpp:602-606 | nothing for an empty response; otherwise " [raw: ", the response's first `min(len, 80)` characters, "..." exactly when it is longer than 80, and "]" |
| Classifier.MonitorAnswer | C++/backend.cpp:599-606 | the monitor answer is a label (an option or "No Event Detected") followed by the preview, and is the bare label for an empty response |
| Classifier.KeywordFirstMatchWins | C++/backend.cpp:535-547 | the first option, in declared order, that has a keyword contained in the lower-cased response is the label |
| Classifier.KeywordDefault | C++/backend.cpp:548-553 | without any keyword hit the label is `options[0]`, or the sentinel when there are no options |
| Classifier.KeywordResultExplained | Python/backend.py:63-73 | a keyword-mode label other than the fallback is an option with a hit, and no earlier option has one |
| Classifier.CutAtRemovesDelimiter | C++/backend.cpp:558-561 | a cut keeps the text before the first occurrence, and the delimiter then no longer occurs |
| Classifier.DirectPrefixWins | C++/backend.cpp:571-581 | the first option whose lower-cased text equals or starts the first part is the label, in its original case (C++: unless it is the sentinel text on a short response) |
| Classifier.DirectLongResponseNoFallback | C++/backend.cpp:583-584 | a response of 30 characters or more without a prefix hit is labelled "No Event Detected" |
| Classifier.DirectLabelWithoutPrefix | C++/backend.cpp:583-596 | without a prefix hit, a short response is labelled by containment |
| Classifier.DirectShortResponseContainment | Python/backend.py:89-95 | a short response without a prefix hit gets the first option contained in it, else the sentinel |
| Classifier.CppSentinelOptionFallsBack | C++/backend.cpp:583-585 | an option literally named "No Event Detected" picked by the prefix pass is taken by C++ for "nothing matched" |
| Classifier.UnknownTriggerIsNoEvent | C++/backend.cpp:524-526 | when the trigger is not a use case, every response is "No Event Detected" |
| Classifier.KeywordDialectsAgree | Python/backend.py:63 | with a non-empty `keywords` object, C++ and Python give the same label |
| Classifier.TrimsAgree | Python/backend.py:82 | the two trims agree on text without quotes and without whitespace beyond space, tab, newline and carriage return |
| Classifier.DirectDialectsAgree | Python/backend.py:76-95 | in direct mode the two give the same label when the first parts trim alike and no option is the sentinel text |
| Classifier.DirectLabelsAgree | C++/backend.cpp:583 | the direct labels of the two agree under the same conditions |
| ClassifierScenarios.ShelfEmptyWhen | C++/backend.cpp:535-545 | any lower-case response containing "no person" is labelled "empty" |
| ClassifierScenarios.ShelfPickupWhen | C++/backend.cpp:535-545 | a lower-case response with "examining" and without the keywords of "empty" is "pickup" |
| ClassifierScenarios.ShelfDefaultWhen | C++/backend.cpp:548-552 | a lower-case response without any of the seven keywords is "empty", the first option |
| ClassifierScenarios.KeywordExampleEmpty | C++/backend.cpp:530-545 | "no person visible, empty aisle" is "empty" in both workers |
| ClassifierScenarios.KeywordExamplePickup | C++/backend.cpp:530-545 | "examining product closely" is "pickup" in both workers |
| ClassifierScenarios.KeywordExampleDefault | C++/backend.cpp:548-552 | "a red shelf" is "empty" in both workers |
| ClassifierScenarios.DirectExample | C++/backend.cpp:516-581 | a response that restates the instructions, "pickup if person reaching, browsing if walking", is cut to "pickup" and labelled so in both workers |
| ClassifierScenarios.EmptyKeywordsDiverge | C++/backend.cpp:533 | an empty `keywords` object keeps C++ in keyword mode (first option) while Python matches directly |
| ClassifierScenarios.QuotePaddingDiverges | C++/backend.cpp:563-569 | a quote before a tab is trimmed by C++ but stops Python's strip, so the labels differ |
| ClassifierScenarios.SentinelOptionDiverges | C++/backend.cpp:583-596 | with an option named "No Event Detected", C++ falls back to containment and Python returns that option |
| Tokens.TokenLoop | C++/backend.cpp:218-248 | the loop's text, token count and stop reason are those of `Read` on the event stream |
| Tokens.EraseEos | C++/backend.cpp:251-254 | the erase loop computes `EraseAll` of the marker |
| Tokens.ReadAllTokens | C++/backend.cpp:211-261 | the answer is the post-processed concatenation of the tokens read, with their count and the stop reason |
| Tokens.DrainExplained | C++/backend.cpp:221-248 | from any turn on: the tokens are the stream's own, in order, at most `max_tokens` of them (one at 0), all of them exactly on a budget stop, and otherwise the next event is the reason |
| Tokens.ReadBound | C++/backend.cpp:221-248 | at most `max_tokens` tokens are read (one when it is 0), and the loop stops on end, abort or cancel, a failed read, or the budget |
| Tokens.ReadStopsOnBudget | C++/backend.cpp:244-247 | a stream of at least `max_tokens` tokens stops on the budget after exactly that many |
| Tokens.CppCleanProperties | C++/backend.cpp:250-258 | after post-processing no `<|im_end|>` is left, neither end is " \t\n\r", and the text is empty exactly when the erased text is all such whitespace |
| Tokens.CppCleanWhitespace | C++/backend.cpp:255-258 | a response of whitespace only comes out empty |
| Tokens.PyReadChunks | Python/backend.py:138-146 | the loop keeps every chunk of a short stream and `max_tokens + 1` chunks of a longer one, in order |
| Tokens.BudgetsDiffer | C++/backend.cpp:244 | on the same long stream C++ keeps exactly the first `max_tokens` tokens |
| Tokens.PyInferenceInner | Python/backend.py:98-162 | `raw` is the stripped, marker-free concatenation of the chunks kept; the answer is `raw` for "custom" and its classification otherwise; an unknown trigger fails |
| Tokens.PyCleanEnds | Python/backend.py:151 | after Python's post-processing neither end is whitespace |
| Tokens.PyCleanWithoutEos | Python/backend.py:151 | a response without a marker is only stripped |
| Tokens.NestedEosDiverges | C++/backend.cpp:253-254 | a marker around a marker is erased entirely by C++, while Python's single pass leaves one marker in the answer |
| Worker.ConnectVDevice | C++/backend.cpp:291-315 | the attempts succeed exactly when one of the first `max_retries` does; it stops at the first success, and the waits are 3 s and then 5 s per attempt |
| Worker.StartEitherReadyOrDone | C++/backend.cpp:266-377 | start-up is ready exactly when a device exists, a virtual device and the model can be made and the first generator is created; then a generator exists, the monitor messages (two, or one without a system prompt) are cached and the cooldown has already elapsed; otherwise the worker is done and the device is not ready |
| Worker.Select | C++/backend.cpp:387-407 | the loop quits exactly when not running, takes the waiting question exactly when there is one, takes the pending frame exactly when nothing else waits, monitoring is not paused and the cooldown has elapsed, and otherwise waits |
| Worker.InteractiveAnswer | C++/backend.cpp:444-455 | the interactive reply is never empty: the cleaned 200-token text, "Aborted" or "No response" when that is empty, or "Error: " and the exception text |
| Worker.NewWithDefaults | C++/backend.h:64-70 | a backend built from the prompts alone gets 40 tokens, seed 42, a 1000 ms cooldown and 5 retries |
| Worker.Backend.constructor | C++/backend.h:107-131 | running, nothing else set, all slots empty, geometry 336x336, the settings given and the helpful-assistant prompt |
| Worker.Backend.Start | C++/backend.cpp:266-315 | the scan and virtual-device phases, and their end states, as `StartSpec` |
| Worker.Backend.LoadModel | C++/backend.cpp:317-371 | the model and generator phases, the geometry taken from the model, and the cached messages, as `LoadSpec` |
| Worker.Backend.UpdateFrameNow | C++/backend.cpp:117-124 | the frame slot holds the new frame, whatever it held |
| Worker.Backend.PollResult | C++/backend.cpp:126-133 | the result is handed out and the slot emptied |
| Worker.Backend.PauseMonitoring | C++/backend.cpp:135 | only `paused` is set |
| Worker.Backend.ResumeMonitoring | C++/backend.cpp:136 | only `paused` is cleared |
| Worker.Backend.AbortCurrent | C++/backend.cpp:137 | only the abort flag is set |
| Worker.Backend.IsReady | C++/backend.h:86 | `is_ready()` is the device-ready flag |
| Worker.Backend.AskQuestion | C++/backend.cpp:140-152 | "Device not ready" when the device is not ready, else the question is in the slot, not cancelled |
| Worker.Backend.QuestionTimedOut | C++/backend.cpp:154-158 | after the timeout the request's cancel flag and the abort flag are set and the answer is "VLM timeout" |
| Worker.Backend.CloseNow | C++/backend.cpp:93-96 | the first call stops the loop and raises the abort flag; later calls change nothing |
| Worker.Backend.ReplyText | C++/backend.cpp:444-453 | the reply is the cleaned text of a 200-token generation, "Aborted" or "No response" when empty, or "Error: " and the exception text |
| Worker.Backend.MonitorTextNow | C++/backend.cpp:509-609 | the monitor text is the label plus the preview of the cleaned generation, or "Error: " and the exception text |
| Worker.Backend.AnswerRequest | C++/backend.cpp:413-479 | the interactive branch: a cancelled request is dropped; otherwise the generator is destroyed, the direct API runs, the generator is recreated, the reply is delivered unless the caller gave up, and `last_infer` moves |
| Worker.Backend.InferFrame | C++/backend.cpp:485-637 | the monitor branch: skipped when no generator can be made; otherwise the text is published with its frame, the generator is recreated after an error, and `last_infer` moves |
| Worker.Backend.Step | C++/backend.cpp:380-645 | one iteration of the main loop equals `Next` on the state and the loop locals |
| Worker.MonitorCallsKeepRule | C++/backend.cpp:489-621 | a monitor dispatch creates a generator only when none exists and generates only with one |
| Worker.DirectCallsKeepRule | C++/backend.cpp:418-463 | an interactive dispatch runs the direct API only with no generator alive, and then recreates it |
| Worker.StepKeepsOneGenerator | C++/backend.cpp:418-420 | every step keeps "at most one generator", and the loop's generator flag is where it ends |
| Worker.InteractiveFirst | C++/backend.cpp:396-416 | a waiting question is taken before any frame, the frame and result slots are kept, and it is answered through the direct API unless it was cancelled |
| Worker.MonitorOnlyWhenDue | C++/backend.cpp:387-407 | a frame is taken exactly when running, with no question waiting, a frame pending, not paused and the cooldown elapsed; taking it empties the slot |
| Worker.LastInferOnCompletion | C++/backend.cpp:478-636 | `last_infer` becomes the step's end time after every completed question or monitor inference, and only then |
| Worker.MonitorPublishes | C++/backend.cpp:630-636 | a monitor inference replaces the result slot with the frame it took and the monitor text |
| Worker.MissingGeneratorSkips | C++/backend.cpp:486-497 | when no generator exists and none can be made, the frame is consumed with no result and no `last_infer` update |
| Worker.GeneratorAfterStep | C++/backend.cpp:457-621 | after a question a generator exists exactly when recreation succeeded; after a monitor inference, unless it failed and recreation failed too |
| Worker.AnsweredFromSlot | C++/backend.cpp:398-416 | only the question in the slot, not cancelled, is answered |
| Worker.TimedOutNotAnswered | C++/backend.cpp:413-416 | a question that timed out before the worker took it is dropped without an answer |
| Worker.AskThenStep | C++/backend.cpp:140-152 | a question asked of a ready backend is answered at the next step |
| Worker.FrameThenPoll | C++/backend.cpp:117-133 | a frame given to an idle worker whose cooldown has elapsed comes back, with its monitor text, from the next poll |
| Worker.CloseStopsWorker | C++/backend.cpp:93-96 | `close()` acts once, and the next step ends the worker |
| Worker.ExitOnlyWhenStopped | C++/backend.cpp:644-645 | a step exits exactly when `running` is false, and then the device is not ready and the worker done |
| Worker.StepKeepsCallerFields | C++/backend.cpp:380-637 | no step changes `running`, `paused` or the geometry, makes the device ready, or fills a slot the callers fill |
| Worker.DirectMessagesVerbatim | C++/backend.cpp:429-432 | a question goes out with the configured system prompt and its own text, never substituted |
| Worker.MonitorTextLabelled | C++/backend.cpp:599-606 | the monitor text is an option or the sentinel followed by the preview, which is empty exactly when the response is |
| Worker.PollOnce | C++/backend.cpp:126-133 | a result is handed out once |
| Worker.SlotsHoldOne | C++/backend.h:115-128 | the frame slot and the request slot each hold one item: a second write wins |

## Left out

- Threads, the mutex and the condition variable, including the 200 ms
  `wait_for` and the notifications. Every operation is one atomic step on
  the state.
- The promise and the future. A ticket stands for the promise, and the
  `delivered` flag of `Answered` stands for the `compare_exchange` race.
  The result of a caller's 60-second wait is modelled only through
  `QuestionTimedOut`. The "VLM error" answer of a broken promise is not
  modelled.
- `close()`'s timed join and detach (C++/backend.cpp:98-113).
- Worker.ConnectVDevice: `m_running` is not checked, so a `close()`
  during start-up is not modelled. The sleeps are counted in seconds, not
  performed.
- `preprocess_image` and `convert_resize_image`. Images are opaque values.
- Timing strings (`time_str`, `time`). `InferenceResult` has only the
  answer.
- The temperature and the model path. The seed is carried but has no
  effect.
- The HailoRT calls (`Device::scan`, `VDevice::create_shared`,
  `VLM::create`, `generate`, `read`, `clear_context`). They are oracle
  parameters.
- Worker.DirectCalls: an exception raised before generation (while
  preprocessing) still records the direct-API call.
- Worker.MonitorCalls: the same holds for the generation call.
- Streaming tokens to the console.
- `diagnose_device`, C++/main.cpp and Python/app.py.
- The Python `Backend` class: the worker process and its queues,
  `hailo_inference`, `vlm_custom_inference`, `_clear_queues` and `close`.
- Tokens.PyInferenceInner: the engine exception path (`'Error: ...'`) is
  not modelled, and neither is a prompt file without
  `hailo_system_prompt` or `hailo_user_prompt`.
- Classifier.Classify: one C++ `char` is taken as one character. A
  `std::string` counts UTF-8 bytes, so the C++ model is exact only for
  ASCII responses, options and keywords. For other text, the 30-character
  containment limit (C++/backend.cpp:584) counts bytes in C++, and
  `::tolower` on a negative `char` (C++/backend.cpp:520-522) is undefined
  behaviour.
- Classifier.Preview: the C++ 80-character cut (C++/backend.cpp:603-604)
  counts bytes and can split a multi-byte character. The model counts
  characters, so it is exact only for ASCII responses.
- Classifier.KeywordDialectsAgree, Classifier.DirectDialectsAgree and
  Tokens.BudgetsDiffer read one string as C++ bytes and as Python code
  points at once, so these comparisons hold only for ASCII text.
- Config.Lookup: the keys of `use_cases` are assumed unique. The model
  takes the first entry of a repeated key, while both JSON readers keep
  the last.
- JsonEscape.Escape: only the five characters `"`, `\`, newline,
  carriage return and tab are escaped (C++/backend.cpp:36-41). Other
  characters below U+0020 are copied raw, although section 7 of RFC 8259
  forbids them unescaped. For a prompt or question holding one, the
  message text is not valid JSON. The model's decoder accepts them, so
  JsonEscape.UnescapeEscape and Messages.BuildMessagesTexts say that
  escaping loses nothing, not that the message is valid JSON.
- JSON parsing. A use case is a record, and a missing `options` is the
  empty sequence.
- The C++ active trigger from `begin().key()` (C++/backend.cpp:79-80). It
  is a constructor parameter, because it depends on the JSON library's key
  order.
- Text.Lower: Python's `str.lower()` is modelled as ASCII lower-casing,
  like `::tolower`. Unicode case mapping is left out.
- Integer widths. `max_tokens` and the token count are `uint32_t`. The
  counter cannot wrap, because the loop stops once it reaches
  `max_tokens`. The millisecond clock is unbounded.
