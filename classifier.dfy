/** The response classifier: maps the model's free-form answer to one of the
    active use case's option labels. The C++ worker inlines it
    (C++/backend.cpp:520-606), the Python worker has `_classify_response`
    (Python/backend.py:50-95); `Dialect` selects where the two differ. */
module Classifier {
  import opened Wrappers
  import opened Text
  import opened Config

  /** The label when nothing matches and there is no option to fall back to. */
  const NoEvent := "No Event Detected"

  /** Cut points for a model that restates its instructions, in this order. */
  const Delimiters: seq<string> := ["\n", ".", ",", " if ", " or "]

  /** Containment on the whole response is tried only below this length. */
  const ShortResponse := 30

  /** The debug preview keeps this many characters of the response. */
  const PreviewLimit := 80
  const RawOpen := " [raw: "

  /** The C++ trim set `" \t\n\r'\""`. */
  predicate CppTrimmed(c: char)
  {
    c == ' ' || c == '\t' || c == '\n' || c == '\r' || c == '\'' || c == '"'
  }

  /** The characters Python's `str.strip()` removes, those for which
      `str.isspace()` holds. */
  predicate PySpace(c: char)
  {
    || '\t' <= c <= '\r'
    || '\U{001C}' <= c <= ' '
    || c == '\U{0085}' || c == '\U{00A0}' || c == '\U{1680}'
    || '\U{2000}' <= c <= '\U{200A}'
    || c == '\U{2028}' || c == '\U{2029}' || c == '\U{202F}' || c == '\U{205F}' || c == '\U{3000}'
  }

  /** Python's second strip, `strip("'\"")`. */
  predicate Quote(c: char)
  {
    c == '\'' || c == '"'
  }

  datatype Dialect = Cpp | Python

  /** The first index at or after `from` whose element satisfies `p`: the
      shape of every "first option in declared order" loop of the classifier. */
  function FirstWhere(xs: seq<string>, p: string -> bool, from: nat): (r: Option<nat>)
    decreases |xs| - from
    ensures r.Some? ==> from <= r.value < |xs| && p(xs[r.value])
    ensures r.Some? ==> forall j :: from <= j < r.value ==> !p(xs[j])
    ensures r.None? ==> forall j :: from <= j < |xs| ==> !p(xs[j])
  {
    if from >= |xs| then None
    else if p(xs[from]) then Some(from)
    else FirstWhere(xs, p, from + 1)
  }

  // ---------------------------------------------------------------- keywords

  /** Keyword mode is chosen by C++ whenever `keywords` is an object, by
      Python only when it is a non-empty one (`if keywords:`). */
  predicate KeywordMode(d: Dialect, uc: UseCase)
    ensures KeywordMode(d, uc) ==> uc.keywords.Some?
    ensures uc.keywords.Some? && |uc.keywords.value| > 0 ==> KeywordMode(d, uc)
    ensures d == Cpp ==> (KeywordMode(d, uc) <==> uc.keywords.Some?)
    ensures d == Python ==> (KeywordMode(d, uc) <==> uc.keywords.Some? && |uc.keywords.value| > 0)
  {
    match d
    case Cpp => uc.keywords.Some?
    case Python => uc.keywords.Some? && |uc.keywords.value| > 0
  }

  /** Option `o` has a keyword entry and one of its keywords, lower-cased, is
      a substring of the lower-cased response. */
  predicate KeywordHit(lower: string, kw: map<string, seq<string>>, o: string)
  {
    o in kw && exists k :: 0 <= k < |kw[o]| && Contains(lower, Lower(kw[o][k]))
  }

  /** Keyword mode: the first option in declared order that has a hit;
      otherwise `options[0]`, or the sentinel when there are no options. */
  function KeywordLabel(lower: string, options: seq<string>, kw: map<string, seq<string>>): (r: string)
    ensures r == NoEvent || r in options
  {
    match FirstWhere(options, o => KeywordHit(lower, kw, o), 0)
    case Some(i) => options[i]
    case None => if |options| > 0 then options[0] else NoEvent
  }

  // ------------------------------------------------------------------ direct

  /** One cut: keep the text before the first occurrence of `delim`, but only
      when that occurrence is not at position 0. */
  function CutAt(s: string, delim: string): string
  {
    match Find(s, delim)
    case Some(p) => if p > 0 then s[..p] else s
    case None => s
  }

  /** The cuts for every delimiter, in order, each on the previous result. */
  function CutAll(s: string, delims: seq<string>): (r: string)
    decreases |delims|
    ensures StartsWith(s, r)
  {
    if delims == [] then s else
      var t := CutAt(s, delims[0]);
      var r := CutAll(t, delims[1..]);
      assert s[..|r|] == t[..|r|];
      r
  }

  /** C++ trims `" \t\n\r'\""` from both ends at once; Python strips
      whitespace first and then quotes. */
  function TrimFor(d: Dialect, s: string): string
  {
    match d
    case Cpp => Trim(s, CppTrimmed)
    case Python => Trim(Trim(s, PySpace), Quote)
  }

  /** The text direct mode matches options against. */
  function FirstPart(d: Dialect, lower: string): string
  {
    TrimFor(d, CutAll(lower, Delimiters))
  }

  /** Option `o`, lower-cased, equals the cut text or is a prefix of it. */
  predicate PrefixHit(cut: string, o: string)
  {
    cut == Lower(o) || StartsWith(cut, Lower(o))
  }

  /** Option `o`, lower-cased, is a substring of the whole lower-cased response. */
  predicate ContainHit(lower: string, o: string)
  {
    Contains(lower, Lower(o))
  }

  function ContainLabel(lower: string, options: seq<string>, otherwise: string): (r: string)
    ensures r == otherwise || r in options
  {
    match FirstWhere(options, o => ContainHit(lower, o), 0)
    case Some(i) => options[i]
    case None => otherwise
  }

  /** Direct mode. C++ runs the containment fallback whenever the label is
      still the sentinel text after the prefix pass (so also when an option is
      literally "No Event Detected"); Python returns the prefix match at once. */
  function DirectLabel(d: Dialect, lower: string, options: seq<string>): (r: string)
    ensures r == NoEvent || r in options
  {
    var cut := FirstPart(d, lower);
    var prefix := FirstWhere(options, o => PrefixHit(cut, o), 0);
    match d
    case Cpp =>
      var res := if prefix.Some? then options[prefix.value] else NoEvent;
      if res == NoEvent && |lower| < ShortResponse then ContainLabel(lower, options, res) else res
    case Python =>
      if prefix.Some? then options[prefix.value]
      else if |lower| < ShortResponse then ContainLabel(lower, options, NoEvent)
      else NoEvent
  }

  // ---------------------------------------------------------------- together

  /** The label for a response under the active use case (`None` when the
      trigger is not among the use cases). It is always one of the options or
      the sentinel. */
  function Classify(d: Dialect, response: string, uc: Option<UseCase>): (res: string)
    ensures res == NoEvent || (uc.Some? && res in uc.value.options)
  {
    var lower := Lower(response);
    match uc
    case None => NoEvent
    case Some(u) =>
      if KeywordMode(d, u) then KeywordLabel(lower, u.options, u.keywords.value)
      else DirectLabel(d, lower, u.options)
  }

  /** The debug tail C++ appends to a non-empty response (C++/backend.cpp:602-606):
      the first 80 characters between " [raw: " and "]", with "..." after
      them exactly when the response is longer. */
  function Preview(response: string): (p: string)
    ensures p == [] <==> response == []
    ensures response != [] ==>
              var k := if |response| < PreviewLimit then |response| else PreviewLimit;
              && |p| == |RawOpen| + k + (if |response| > PreviewLimit then 4 else 1)
              && p[..|RawOpen|] == RawOpen
              && p[|RawOpen|..|RawOpen| + k] == response[..k]
              && p[|RawOpen| + k..] == (if |response| > PreviewLimit then "...]" else "]")
  {
    if response == [] then []
    else RawOpen + response[..if |response| < PreviewLimit then |response| else PreviewLimit]
         + (if |response| > PreviewLimit then "..." else "") + "]"
  }

  /** The monitor answer of the C++ worker: label, then the preview. */
  function MonitorAnswer(response: string, uc: Option<UseCase>): (r: string)
    ensures exists lab :: (lab == NoEvent || (uc.Some? && lab in uc.value.options)) && r == lab + Preview(response)
    ensures response == [] ==> r == Classify(Cpp, response, uc)
  {
    Classify(Cpp, response, uc) + Preview(response)
  }

  // ------------------------------------------------------------------ lemmas

  /** Keyword mode, first match wins: when option `i` is the first in declared
      order with a keyword hit, it is the result, in both dialects. */
  lemma KeywordFirstMatchWins(d: Dialect, response: string, u: UseCase, i: nat)
    requires KeywordMode(d, u) && i < |u.options|
    requires KeywordHit(Lower(response), u.keywords.value, u.options[i])
    requires forall j :: 0 <= j < i ==> !KeywordHit(Lower(response), u.keywords.value, u.options[j])
    ensures Classify(d, response, Some(u)) == u.options[i]
  {
    var p := o => KeywordHit(Lower(response), u.keywords.value, o);
    var r := FirstWhere(u.options, p, 0);
    assert p(u.options[i]);
    assert r.Some? && r.value <= i;
  }

  /** Keyword mode without any hit falls back to the first option, or to the
      sentinel when there are no options; an option without a keyword entry
      never has a hit. */
  lemma KeywordDefault(d: Dialect, response: string, u: UseCase)
    requires KeywordMode(d, u)
    requires forall j :: 0 <= j < |u.options| ==> !KeywordHit(Lower(response), u.keywords.value, u.options[j])
    ensures Classify(d, response, Some(u)) == if |u.options| > 0 then u.options[0] else NoEvent
  {
    var p := o => KeywordHit(Lower(response), u.keywords.value, o);
    var r := FirstWhere(u.options, p, 0);
  }

  /** Conversely, a keyword-mode result that is not the fallback is an option
      with a hit, and every option before it has none. */
  lemma KeywordResultExplained(d: Dialect, response: string, u: UseCase)
    requires KeywordMode(d, u)
    requires Classify(d, response, Some(u)) != (if |u.options| > 0 then u.options[0] else NoEvent)
    ensures exists i :: 0 <= i < |u.options| && u.options[i] == Classify(d, response, Some(u))
              && KeywordHit(Lower(response), u.keywords.value, u.options[i])
              && forall j :: 0 <= j < i ==> !KeywordHit(Lower(response), u.keywords.value, u.options[j])
  {
    var p := o => KeywordHit(Lower(response), u.keywords.value, o);
    var r := FirstWhere(u.options, p, 0);
    assert r.Some?;
    var i := r.value;
    assert p(u.options[i]);
    forall j | 0 <= j < i ensures !KeywordHit(Lower(response), u.keywords.value, u.options[j]) {
      assert !p(u.options[j]);
    }
  }

  /** One cut keeps a prefix, and when it cuts (first occurrence after
      position 0) the delimiter no longer occurs at all. */
  lemma CutAtRemovesDelimiter(s: string, delim: string)
    requires Find(s, delim).Some? && Find(s, delim).value > 0
    ensures CutAt(s, delim) == s[..Find(s, delim).value]
    ensures Find(CutAt(s, delim), delim).None?
  {
    var p := Find(s, delim).value;
    var t := s[..p];
    forall j: nat ensures !OccursAt(t, delim, j) {
      if OccursAt(t, delim, j) {
        assert t[j..j + |delim|] == s[j..j + |delim|];
        assert OccursAt(s, delim, j);
      }
    }
  }

  /** Direct mode, prefix pass: when option `i` is the first whose lower-cased
      text equals or starts the first part, Python returns it, and so does C++
      unless that option is literally the sentinel text on a short response. */
  lemma DirectPrefixWins(d: Dialect, response: string, u: UseCase, cut: string, i: nat)
    requires !KeywordMode(d, u) && i < |u.options|
    requires cut == FirstPart(d, Lower(response))
    requires PrefixHit(cut, u.options[i])
    requires forall j :: 0 <= j < i ==> !PrefixHit(cut, u.options[j])
    requires d == Cpp ==> u.options[i] != NoEvent || |response| >= ShortResponse
    ensures Classify(d, response, Some(u)) == u.options[i]
  {
    var p := o => PrefixHit(cut, o);
    var r := FirstWhere(u.options, p, 0);
    assert p(u.options[i]);
    assert r.Some? && r.value <= i;
  }

  /** Direct mode on a response of 30 characters or more: no containment
      fallback, so without a prefix match the result is the sentinel. */
  lemma DirectLongResponseNoFallback(d: Dialect, response: string, u: UseCase, cut: string)
    requires !KeywordMode(d, u) && |response| >= ShortResponse
    requires cut == FirstPart(d, Lower(response))
    requires forall j :: 0 <= j < |u.options| ==> !PrefixHit(cut, u.options[j])
    ensures Classify(d, response, Some(u)) == NoEvent
  {
    var r := FirstWhere(u.options, o => PrefixHit(cut, o), 0);
  }

  /** Without a prefix match, a short response is labelled by containment. */
  lemma DirectLabelWithoutPrefix(d: Dialect, lower: string, options: seq<string>)
    requires |lower| < ShortResponse
    requires forall j :: 0 <= j < |options| ==> !PrefixHit(FirstPart(d, lower), options[j])
    ensures DirectLabel(d, lower, options) == ContainLabel(lower, options, NoEvent)
  {
    var cut := FirstPart(d, lower);
    var prefix := FirstWhere(options, o => PrefixHit(cut, o), 0);
    assert prefix == None;
  }

  /** Direct mode on a short response without a prefix match: the first
      option contained in the whole response, else the sentinel. */
  lemma DirectShortResponseContainment(d: Dialect, response: string, u: UseCase, cut: string)
    requires !KeywordMode(d, u) && |response| < ShortResponse
    requires cut == FirstPart(d, Lower(response))
    requires forall j :: 0 <= j < |u.options| ==> !PrefixHit(cut, u.options[j])
    ensures Classify(d, response, Some(u)) == ContainLabel(Lower(response), u.options, NoEvent)
    ensures Classify(d, response, Some(u)) != NoEvent ==>
              exists i :: 0 <= i < |u.options| && Classify(d, response, Some(u)) == u.options[i]
                && ContainHit(Lower(response), u.options[i])
  {
    var lower := Lower(response);
    DirectLabelWithoutPrefix(d, lower, u.options);
    assert Classify(d, response, Some(u)) == DirectLabel(d, lower, u.options);
    var c := FirstWhere(u.options, o => ContainHit(lower, o), 0);
    if c.Some? {
      assert ContainHit(lower, u.options[c.value]);
    }
  }

  /** C++ on a short response whose prefix pass picks an option literally
      named "No Event Detected": the label is taken for "nothing matched" and
      the containment pass decides. */
  lemma CppSentinelOptionFallsBack(response: string, u: UseCase, cut: string, i: nat)
    requires !KeywordMode(Cpp, u) && |response| < ShortResponse
    requires cut == FirstPart(Cpp, Lower(response))
    requires i < |u.options| && u.options[i] == NoEvent && PrefixHit(cut, u.options[i])
    requires forall j :: 0 <= j < i ==> !PrefixHit(cut, u.options[j])
    ensures Classify(Cpp, response, Some(u)) == ContainLabel(Lower(response), u.options, NoEvent)
  {
    var p := o => PrefixHit(cut, o);
    var r := FirstWhere(u.options, p, 0);
    assert p(u.options[i]);
    assert r.Some? && r.value <= i;
    assert r == Some(i);
    var lower := Lower(response);
    assert |lower| < ShortResponse;
    assert DirectLabel(Cpp, lower, u.options) == ContainLabel(lower, u.options, NoEvent);
  }

  /** An unknown trigger classifies every response as the sentinel. */
  lemma UnknownTriggerIsNoEvent(d: Dialect, response: string)
    ensures Classify(d, response, None) == NoEvent
  {
  }

  // ------------------------------------------------- C++ against Python

  /** With a non-empty `keywords` object both workers give the same label. */
  lemma KeywordDialectsAgree(response: string, u: UseCase)
    requires u.keywords.Some? && |u.keywords.value| > 0
    ensures Classify(Cpp, response, Some(u)) == Classify(Python, response, Some(u))
  {
  }

  /** The two trims agree on text that holds no quote and no whitespace other
      than space, tab, newline and carriage return. */
  lemma TrimsAgree(s: string)
    requires forall k :: 0 <= k < |s| ==> !Quote(s[k])
    requires forall k :: 0 <= k < |s| ==> PySpace(s[k]) ==> CppTrimmed(s[k])
    ensures TrimFor(Cpp, s) == TrimFor(Python, s)
  {
    forall k | 0 <= k < |s| ensures CppTrimmed(s[k]) <==> PySpace(s[k]) {
      TrimCharsAgree(s[k]);
    }
    TrimThenQuotes(s, CppTrimmed, PySpace, Quote);
  }

  lemma TrimThenQuotes(s: string, x: char -> bool, y: char -> bool, q: char -> bool)
    requires forall k :: 0 <= k < |s| ==> !q(s[k]) && (x(s[k]) <==> y(s[k]))
    ensures Trim(s, x) == Trim(Trim(s, y), q)
  {
    TrimAgree(s, x, y);
    var t := Trim(s, y);
    TrimIsSlice(s, y);
    var a: nat :| SliceAt(t, s, a);
    forall k | 0 <= k < |t| ensures !q(t[k]) {
      assert t[k] == s[a + k];
    }
    TrimNoneIn(t, q);
  }

  lemma TrimCharsAgree(c: char)
    requires !Quote(c) && (PySpace(c) ==> CppTrimmed(c))
    ensures CppTrimmed(c) <==> PySpace(c)
  {
  }

  /** Direct mode gives the same label in both workers when the first part
      trims alike and no option is literally the sentinel text. */
  lemma DirectDialectsAgree(response: string, u: UseCase)
    requires u.keywords.None?
    requires FirstPart(Cpp, Lower(response)) == FirstPart(Python, Lower(response))
    requires NoEvent !in u.options
    ensures Classify(Cpp, response, Some(u)) == Classify(Python, response, Some(u))
  {
    DirectLabelsAgree(Lower(response), u.options);
  }

  lemma DirectLabelsAgree(lower: string, options: seq<string>)
    requires FirstPart(Cpp, lower) == FirstPart(Python, lower)
    requires NoEvent !in options
    ensures DirectLabel(Cpp, lower, options) == DirectLabel(Python, lower, options)
  {
  }

  // -------------------------------------------- facts for concrete inputs

  lemma LowerIdentity(s: string)
    requires forall c :: c in s ==> !('A' <= c <= 'Z')
    ensures Lower(s) == s
  {
    assert forall i :: 0 <= i < |s| ==> s[i] in s;
  }

  lemma TrimNoneIn(s: string, ws: char -> bool)
    requires forall k :: 0 <= k < |s| ==> !ws(s[k])
    ensures Trim(s, ws) == s
  {
    if s != [] {
      assert !ws(s[0]) && !ws(s[|s| - 1]);
      assert TrimLeft(s, ws) == s;
      assert TrimRight(s, ws) == s;
    }
  }

  lemma TrimUnchanged(s: string, ws: char -> bool)
    requires s != [] && !ws(s[0]) && !ws(s[|s| - 1])
    ensures Trim(s, ws) == s
  {
  }
}
