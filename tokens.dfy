/** Reading the answer from the engine: `read_all_tokens` in C++
    (C++/backend.cpp:211-261) and the chunk loop of `_hailo_inference_inner`
    in Python (Python/backend.py:131-160). The engine is an oracle: the
    sequence of what the loop observes on each turn. */
module Tokens {
  import opened Wrappers
  import opened Text
  import opened Config
  import opened Classifier
  import opened Messages

  /** The end-of-turn marker the model emits. */
  const Eos := "<|im_end|>"

  /** The characters C++ trims from the answer, `" \t\n\r"`. */
  predicate CppSpace(c: char)
  {
    c == ' ' || c == '\t' || c == '\n' || c == '\r'
  }

  /** What one turn of the C++ loop observes: the completion no longer
      generating, the abort or cancel flag raised before the read, a failed
      read, or a token. A stream that runs out stands for the end of
      generation. */
  datatype Event = Ended | Interrupted | ReadFailed | Token(text: string)

  /** Why the loop stopped. For every reason but `Finished` the loop calls
      `completion.abort()`. */
  datatype Stop = Finished | Aborted | ReadError | Budget

  /** The tokens the loop appends, in order, and why it stops, from turn `i`
      on with `toks` read so far: after each token the count is compared with
      the budget (`n >= max_tokens`). */
  function Drain(events: seq<Event>, maxTokens: nat, i: nat, toks: seq<string>): (seq<string>, Stop)
    decreases |events| - i
  {
    if i >= |events| then (toks, Finished)
    else match events[i]
      case Ended => (toks, Finished)
      case Interrupted => (toks, Aborted)
      case ReadFailed => (toks, ReadError)
      case Token(t) =>
        if |toks| + 1 >= maxTokens then (toks + [t], Budget)
        else Drain(events, maxTokens, i + 1, toks + [t])
  }

  /** The whole loop on a stream. */
  function Read(events: seq<Event>, maxTokens: nat): (seq<string>, Stop)
  {
    Drain(events, maxTokens, 0, [])
  }

  /** The C++ post-processing: erase `<|im_end|>` until none is left, then
      trim `" \t\n\r"` from both ends. */
  function CppClean(s: string): string
  {
    Trim(EraseAll(s, Eos), CppSpace)
  }

  /** The Python post-processing: `replace('<|im_end|>', '')`, then `strip()`. */
  function PyClean(s: string): string
  {
    Trim(ReplaceAll(s, Eos, ""), PySpace)
  }

  // --------------------------------------------------------- the C++ loop

  /** The erase loop of `read_all_tokens`. */
  method EraseEos(s: string) returns (r: string)
    ensures r == EraseAll(s, Eos)
  {
    r := s;
    var pos := Find(r, Eos);
    while pos.Some?
      invariant pos == Find(r, Eos)
      invariant EraseAll(r, Eos) == EraseAll(s, Eos)
      decreases |r|
    {
      r := r[..pos.value] + r[pos.value + |Eos|..];
      pos := Find(r, Eos);
    }
  }

  /** The token loop of `read_all_tokens`: reads until the stream ends, an
      abort or cancel is seen, a read fails or the budget is used up. `n` is
      the number of tokens read. */
  method TokenLoop(events: seq<Event>, maxTokens: nat) returns (text: string, n: nat, stop: Stop)
    ensures n == |Read(events, maxTokens).0| && stop == Read(events, maxTokens).1
    ensures text == Concat(Read(events, maxTokens).0)
  {
    text := "";
    n := 0;
    stop := Finished;
    var i := 0;
    ghost var toks: seq<string> := [];
    while i < |events|
      invariant i <= |events|
      invariant n == |toks| && text == Concat(toks)
      invariant Drain(events, maxTokens, i, toks) == Read(events, maxTokens)
      invariant stop == Finished
    {
      match events[i]
      case Ended =>
        break;
      case Interrupted =>
        stop := Aborted;
        break;
      case ReadFailed =>
        stop := ReadError;
        break;
      case Token(t) =>
        assert (toks + [t])[..|toks|] == toks;
        text := text + t;
        toks := toks + [t];
        n := n + 1;
        if n >= maxTokens {
          stop := Budget;
          break;
        }
        i := i + 1;
    }
  }

  /** `read_all_tokens`: the token loop, then the post-processing. */
  method ReadAllTokens(events: seq<Event>, maxTokens: nat) returns (response: string, n: nat, stop: Stop)
    ensures n == |Read(events, maxTokens).0| && stop == Read(events, maxTokens).1
    ensures response == CppClean(Concat(Read(events, maxTokens).0))
  {
    var text;
    text, n, stop := TokenLoop(events, maxTokens);
    response := EraseEos(text);
    response := Trim(response, CppSpace);
  }

  // ------------------------------------------------ what the loop promises

  /** The tokens are the stream's own token texts, in order, from its start;
      at most `max_tokens` of them (one when the budget is 0), all of them
      exactly when the budget stopped the loop; otherwise the turn after the
      last token is the stop reason (or the stream has run out). */
  lemma {:induction false} DrainExplained(events: seq<Event>, maxTokens: nat, i: nat, toks: seq<string>)
    requires i <= |events| && |toks| == i && (i == 0 || i < maxTokens)
    requires forall k :: 0 <= k < i ==> events[k] == Token(toks[k])
    ensures var (ts, stop) := Drain(events, maxTokens, i, toks);
            && i <= |ts| <= |events|
            && ts[..i] == toks
            && (forall k :: 0 <= k < |ts| ==> events[k] == Token(ts[k]))
            && |ts| <= (if maxTokens == 0 then 1 else maxTokens)
            && (stop == Budget ==> |ts| == (if maxTokens == 0 then 1 else maxTokens))
            && (stop != Budget ==> |ts| < (if maxTokens == 0 then 1 else maxTokens))
            && (stop == Finished ==> |ts| == |events| || events[|ts|] == Ended)
            && (stop == Aborted ==> |ts| < |events| && events[|ts|] == Interrupted)
            && (stop == ReadError ==> |ts| < |events| && events[|ts|] == ReadFailed)
    decreases |events| - i
  {
    if i < |events| && events[i].Token? {
      var t := events[i].text;
      if |toks| + 1 < maxTokens {
        DrainExplained(events, maxTokens, i + 1, toks + [t]);
        var ts := Drain(events, maxTokens, i + 1, toks + [t]).0;
        assert ts[..i] == (toks + [t])[..i] == toks by {
          assert ts[..i + 1][..i] == ts[..i];
        }
      }
    }
  }

  /** The loop reads at most `max_tokens` tokens (one when it is 0), and the
      texts it appends are the stream's tokens from the first turn on. */
  lemma ReadBound(events: seq<Event>, maxTokens: nat)
    ensures var (ts, stop) := Read(events, maxTokens);
            && |ts| <= |events| && |ts| <= (if maxTokens == 0 then 1 else maxTokens)
            && (forall k :: 0 <= k < |ts| ==> events[k] == Token(ts[k]))
            && (stop == Budget ==> |ts| == (if maxTokens == 0 then 1 else maxTokens))
            && (stop != Budget ==> |ts| < (if maxTokens == 0 then 1 else maxTokens))
            && (stop == Finished ==> |ts| == |events| || events[|ts|] == Ended)
            && (stop == Aborted ==> |ts| < |events| && events[|ts|] == Interrupted)
            && (stop == ReadError ==> |ts| < |events| && events[|ts|] == ReadFailed)
  {
    DrainExplained(events, maxTokens, 0, []);
  }

  /** A stream of at least `max_tokens` tokens (`max_tokens` > 0) stops on
      the budget after exactly `max_tokens` of them. */
  lemma ReadStopsOnBudget(events: seq<Event>, maxTokens: nat)
    requires 0 < maxTokens <= |events|
    requires forall k :: 0 <= k < maxTokens ==> events[k].Token?
    ensures |Read(events, maxTokens).0| == maxTokens && Read(events, maxTokens).1 == Budget
  {
    ReadBound(events, maxTokens);
  }

  /** A slice of a text without `pat` holds no `pat` either. */
  lemma SliceKeepsAbsence(r: string, s: string, a: nat, pat: string)
    requires SliceAt(r, s, a) && Find(s, pat).None?
    ensures Find(r, pat).None?
  {
    forall j: nat ensures !OccursAt(r, pat, j) {
      if OccursAt(r, pat, j) {
        var u, v := s[a + j..a + j + |pat|], r[j..j + |pat|];
        forall k | 0 <= k < |pat| ensures u[k] == v[k] {
          assert r[j + k] == s[a..a + |r|][j + k];
        }
        assert u == v;
        assert OccursAt(s, pat, a + j);
      }
    }
  }

  /** After the C++ post-processing: no `<|im_end|>` is left, the text
      neither starts nor ends with `" \t\n\r"`, and it is empty exactly when
      the erased text is all such whitespace. */
  lemma CppCleanProperties(s: string)
    ensures Find(CppClean(s), Eos).None?
    ensures CppClean(s) == [] || (!CppSpace(CppClean(s)[0]) && !CppSpace(CppClean(s)[|CppClean(s)| - 1]))
    ensures CppClean(s) == [] <==> forall k :: 0 <= k < |EraseAll(s, Eos)| ==> CppSpace(EraseAll(s, Eos)[k])
  {
    var e := EraseAll(s, Eos);
    TrimIsSlice(e, CppSpace);
    TrimKeepsAbsence(e, CppSpace, Eos);
  }

  lemma TrimKeepsAbsence(t: string, ws: char -> bool, pat: string)
    requires Find(t, pat).None?
    ensures Find(Trim(t, ws), pat).None?
  {
    TrimIsSlice(t, ws);
    var a: nat :| SliceAt(Trim(t, ws), t, a);
    SliceKeepsAbsence(Trim(t, ws), t, a, pat);
  }

  /** A response of whitespace only comes out empty. */
  lemma CppCleanWhitespace(s: string)
    requires forall k :: 0 <= k < |s| ==> CppSpace(s[k])
    ensures CppClean(s) == []
  {
    forall k | 0 <= k < |s| ensures s[k] != '<' {
      assert CppSpace(s[k]);
    }
    FindMissingChar(s, Eos, '<', 0);
    CppCleanProperties(s);
  }

  // ------------------------------------------------------ the Python loop

  /** `for chunk in generation: response += chunk; num_tokens += 1;
      if num_tokens > max_tokens: break`. */
  method PyReadChunks(chunks: seq<string>, maxTokens: nat) returns (response: string, n: nat)
    ensures n == if |chunks| <= maxTokens then |chunks| else maxTokens + 1
    ensures response == Concat(chunks[..n])
  {
    response := "";
    n := 0;
    while n < |chunks|
      invariant n <= |chunks| && n <= maxTokens
      invariant response == Concat(chunks[..n])
    {
      assert chunks[..n + 1][..n] == chunks[..n];
      response := response + chunks[n];
      n := n + 1;
      if n > maxTokens {
        break;
      }
    }
  }

  /** A stream of tokens only, as the C++ loop sees it. */
  function AsEvents(chunks: seq<string>): (es: seq<Event>)
    ensures |es| == |chunks| && forall k :: 0 <= k < |es| ==> es[k] == Token(chunks[k])
  {
    seq(|chunks|, k requires 0 <= k < |chunks| => Token(chunks[k]))
  }

  /** The two budgets on one stream of more than `max_tokens` tokens: C++
      keeps the first `max_tokens`, and the `max_tokens + 1` chunks that
      `PyReadChunks` keeps are those and one more. */
  lemma BudgetsDiffer(chunks: seq<string>, maxTokens: nat)
    requires 0 < maxTokens < |chunks|
    ensures |Read(AsEvents(chunks), maxTokens).0| == maxTokens
    ensures Read(AsEvents(chunks), maxTokens).0 == chunks[..maxTokens]
    ensures chunks[..maxTokens + 1] == Read(AsEvents(chunks), maxTokens).0 + [chunks[maxTokens]]
  {
    var es := AsEvents(chunks);
    ReadStopsOnBudget(es, maxTokens);
    ReadBound(es, maxTokens);
    var ts := Read(es, maxTokens).0;
    forall k | 0 <= k < maxTokens ensures ts[k] == chunks[k] {
      assert es[k] == Token(ts[k]);
    }
  }

  /** What `_hailo_inference_inner` returns on success. */
  datatype PyResult = PyResult(answer: string, raw: string)

  /** `_hailo_inference_inner` with the engine's chunks as a parameter.
      `None` is the KeyError raised, outside the `try`, for a trigger other
      than "custom" that is not a use case. */
  method PyInferenceInner(trigger: string, prompts: Prompts, chunks: seq<string>, maxTokens: nat)
    returns (r: Option<PyResult>)
    ensures r.None? <==> PyStructuredPrompt(trigger, prompts).None?
    ensures r.Some? ==> r.value.raw == PyClean(Concat(chunks[..if |chunks| <= maxTokens then |chunks| else maxTokens + 1]))
    ensures r.Some? ==>
              r.value.answer == if trigger == Custom then r.value.raw
                                else Classify(Python, r.value.raw, Lookup(prompts.useCases, trigger))
  {
    var prompt := PyStructuredPrompt(trigger, prompts);
    if prompt.None? {
      return None;
    }
    var response, n := PyReadChunks(chunks, maxTokens);
    var raw := PyClean(response);
    var answer := if trigger == Custom then raw else Classify(Python, raw, Lookup(prompts.useCases, trigger));
    r := Some(PyResult(answer, raw));
  }

  /** After the Python post-processing no leading or trailing whitespace is
      left, and a response without any `<|im_end|>` is just stripped. */
  lemma PyCleanEnds(s: string)
    ensures var c := PyClean(s);
            c == [] || (!PySpace(c[0]) && !PySpace(c[|c| - 1]))
  {
    var t := ReplaceAll(s, Eos, "");
    TrimEnds(t, PySpace);
  }

  lemma TrimEnds(t: string, ws: char -> bool)
    ensures var c := Trim(t, ws);
            c == [] || (!ws(c[0]) && !ws(c[|c| - 1]))
  {
    TrimIsSlice(t, ws);
  }

  lemma PyCleanWithoutEos(s: string)
    requires Find(s, Eos).None?
    ensures PyClean(s) == Trim(s, PySpace)
  {
    ReplaceAllIdentity(s, Eos, "");
  }

  // ------------------------------------- erasing until absent vs. replace

  lemma NestedEosFound(a: string, b: string, s: string)
    requires a == "<|im_" && b == "end|>" && s == a + Eos + b
    ensures Find(s, Eos) == Some(5)
  {
    assert s[5] == '<' && Eos[5] == 'e';
    FindStep(s, Eos, 0, 5);
    assert s[1..5] == "|im_";
    FindSkipTo(s, Eos, 1, 5);
    assert s[5..15] == Eos;
    FindHere(s, Eos, 5);
  }

  lemma NestedEosErased(a: string, b: string, s: string)
    requires a == "<|im_" && b == "end|>" && s == a + Eos + b
    ensures EraseAll(s, Eos) == []
  {
    NestedEosFound(a, b, s);
    assert s[..5] + s[15..] == Eos;
    FindHere(Eos, Eos, 0);
    assert Eos[..0] + Eos[10..] == [];
  }

  lemma NestedEosReplaced(a: string, b: string, s: string)
    requires a == "<|im_" && b == "end|>" && s == a + Eos + b
    ensures ReplaceAll(s, Eos, "") == Eos
  {
    NestedEosFound(a, b, s);
    ReplaceAllAtFirst(s, Eos, "");
    assert s[15..] == b;
    assert ReplaceAll(b, Eos, "") == b;
    assert s[..5] + "" + b == Eos;
  }

  /** A marker split around another one: C++ erases the inner marker, which
      joins the outer one, and erases that too; Python's single `replace`
      pass leaves the outer marker in the answer. */
  lemma NestedEosDiverges(s: string)
    requires s == "<|im_" + Eos + "end|>"
    ensures CppClean(s) == [] && PyClean(s) == Eos
  {
    NestedEosErased("<|im_", "end|>", s);
    NestedEosReplaced("<|im_", "end|>", s);
    CppCleanOfNothing(s);
    PyCleanOfMarker(s);
  }

  lemma CppCleanOfNothing(s: string)
    requires EraseAll(s, Eos) == []
    ensures CppClean(s) == []
  {
    assert Trim([], CppSpace) == [];
  }

  lemma PyCleanOfMarker(s: string)
    requires ReplaceAll(s, Eos, "") == Eos
    ensures PyClean(s) == Eos
  {
    TrimUnchanged(Eos, PySpace);
  }
}
