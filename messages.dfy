/** Building the chat messages handed to the engine: `build_messages` in C++
    (JSON text per message) and the structured prompt of the Python worker,
    with their two ways of filling in `{details}`. */
module Messages {
  import opened Wrappers
  import opened Text
  import opened JsonEscape
  import opened Config

  const Placeholder := "{details}"

  /** The JSON text around the escaped message text. */
  const SystemOpen := "{\"role\":\"system\",\"content\":[{\"type\":\"text\",\"text\":\""
  const UserOpen := "{\"role\":\"user\",\"content\":[{\"type\":\"image\"},{\"type\":\"text\",\"text\":\""
  const Close := "\"}]}"

  /** The trigger name reserved for interactive questions. */
  const Custom := "custom"

  function Wrap(open: string, text: string): string
  {
    open + Escape(text) + Close
  }

  /** Reads the text back out of a message with the given opening. */
  function TextOf(open: string, msg: string): Option<string>
  {
    if |msg| >= |open| + |Close| && msg[..|open|] == open && msg[|msg| - |Close|..] == Close
    then Unescape(msg[|open|..|msg| - |Close|])
    else None
  }

  lemma TextOfWrap(open: string, text: string)
    ensures TextOf(open, Wrap(open, text)) == Some(text)
  {
    var m := Wrap(open, text);
    assert m[..|open|] == open;
    assert m[|m| - |Close|..] == Close;
    assert m[|open|..|m| - |Close|] == Escape(text);
    UnescapeEscape(text);
  }

  /** The C++ user prompt (C++/backend.cpp:189-198): for a trigger other than
      "custom" whose use case has `details`, the first `{details}` is
      replaced; otherwise the prompt is used as given. */
  function CppUserPrompt(trigger: string, usr: string, useCases: seq<(string, UseCase)>): (r: string)
    ensures (trigger == Custom || Lookup(useCases, trigger).None? || Lookup(useCases, trigger).value.details.None?)
              ==> r == usr
    ensures Find(usr, Placeholder).None? ==> r == usr
  {
    match Lookup(useCases, trigger)
    case Some(uc) =>
      if trigger != Custom && uc.details.Some? then ReplaceFirst(usr, Placeholder, uc.details.value)
      else usr
    case None => usr
  }

  /** `build_messages`: a system message only when `sys` is non-empty, then
      the user message (image first, then text). `BuildMessagesTexts` shows
      that each text reads back as exactly the text that was put in. */
  function BuildMessages(trigger: string, sys: string, usr: string, useCases: seq<(string, UseCase)>)
    : (msgs: seq<string>)
    ensures |msgs| == if sys == "" then 1 else 2
  {
    var user := Wrap(UserOpen, CppUserPrompt(trigger, usr, useCases));
    if sys == "" then [user] else [Wrap(SystemOpen, sys), user]
  }

  /** The messages carry the system prompt (when there is one) and the user
      prompt, each recovered intact by reading the message back. */
  lemma BuildMessagesTexts(trigger: string, sys: string, usr: string, useCases: seq<(string, UseCase)>)
    ensures var msgs := BuildMessages(trigger, sys, usr, useCases);
            && (sys != "" ==> TextOf(SystemOpen, msgs[0]) == Some(sys))
            && TextOf(UserOpen, msgs[|msgs| - 1]) == Some(CppUserPrompt(trigger, usr, useCases))
  {
    TextOfWrap(UserOpen, CppUserPrompt(trigger, usr, useCases));
    TextOfWrap(SystemOpen, sys);
  }

  /** Only the first `{details}` is replaced by C++: the text before it is
      kept, the text after it (further placeholders included) is kept, and a
      prompt without any placeholder is unchanged. */
  lemma CppSubstitutesFirstOnly(trigger: string, usr: string, useCases: seq<(string, UseCase)>, d: string)
    requires trigger != Custom
    requires Lookup(useCases, trigger).Some? && Lookup(useCases, trigger).value.details == Some(d)
    ensures Find(usr, Placeholder).None? ==> CppUserPrompt(trigger, usr, useCases) == usr
    ensures Find(usr, Placeholder).Some? ==>
              var p := Find(usr, Placeholder).value;
              && CppUserPrompt(trigger, usr, useCases) == usr[..p] + d + usr[p + |Placeholder|..]
              && forall j: nat :: j < p ==> !OccursAt(usr, Placeholder, j)
  {
  }

  /** The prompt is passed through unchanged for "custom", for an unknown
      trigger, and for a use case without `details`. */
  lemma CppNoSubstitution(trigger: string, usr: string, useCases: seq<(string, UseCase)>)
    requires trigger == Custom || Lookup(useCases, trigger).None? || Lookup(useCases, trigger).value.details.None?
    ensures CppUserPrompt(trigger, usr, useCases) == usr
  {
  }

  /** A message of the Python structured prompt. */
  datatype ChatMessage = ChatMessage(role: string, withImage: bool, text: string)

  /** The Python user prompt (Python/backend.py:100-116): the prompt itself for
      "custom"; otherwise every `{details}` replaced by the use case's details,
      or by "" when it has none. `None` stands for the KeyError raised when the
      trigger is not a use case. */
  function PyUserPrompt(trigger: string, usr: string, useCases: seq<(string, UseCase)>): (r: Option<string>)
    ensures r.None? <==> trigger != Custom && Lookup(useCases, trigger).None?
    ensures trigger == Custom ==> r == Some(usr)
  {
    if trigger == Custom then Some(usr)
    else match Lookup(useCases, trigger)
         case None => None
         case Some(uc) => Some(ReplaceAll(usr, Placeholder, match uc.details case Some(d) => d case None => ""))
  }

  /** A prompt without `{details}` reaches the Python model unchanged. */
  lemma PyNoPlaceholderUnchanged(trigger: string, usr: string, useCases: seq<(string, UseCase)>)
    requires Find(usr, Placeholder).None?
    ensures PyUserPrompt(trigger, usr, useCases).Some? ==> PyUserPrompt(trigger, usr, useCases).value == usr
  {
    if trigger != Custom && Lookup(useCases, trigger).Some? {
      var uc := Lookup(useCases, trigger).value;
      ReplaceAllIdentity(usr, Placeholder, match uc.details case Some(d) => d case None => "");
    }
  }

  /** The Python structured prompt always has the system message and then the
      user message carrying the image and the prompt text. */
  function PyStructuredPrompt(trigger: string, prompts: Prompts): (r: Option<seq<ChatMessage>>)
    ensures r.Some? <==> PyUserPrompt(trigger, prompts.userPrompt, prompts.useCases).Some?
    ensures r.Some? ==> |r.value| == 2
    ensures r.Some? ==> r.value[0] == ChatMessage("system", false, prompts.systemPrompt)
    ensures r.Some? ==> r.value[1] == ChatMessage("user", true, PyUserPrompt(trigger, prompts.userPrompt, prompts.useCases).value)
  {
    match PyUserPrompt(trigger, prompts.userPrompt, prompts.useCases)
    case None => None
    case Some(u) => Some([ChatMessage("system", false, prompts.systemPrompt), ChatMessage("user", true, u)])
  }

  /** Where the prompt holds at most one `{details}` and the use case has
      details, the C++ and the Python substitution give the same text. */
  lemma PromptsAgreeOnSinglePlaceholder(trigger: string, usr: string, useCases: seq<(string, UseCase)>)
    requires trigger != Custom
    requires Lookup(useCases, trigger).Some? && Lookup(useCases, trigger).value.details.Some?
    requires AtMostOnce(usr, Placeholder)
    ensures PyUserPrompt(trigger, usr, useCases) == Some(CppUserPrompt(trigger, usr, useCases))
  {
    ReplaceFirstIsReplaceAll(usr, Placeholder, Lookup(useCases, trigger).value.details.value);
  }

  /** Python replaces the text that follows the first placeholder as well. */
  lemma PySubstitutesEvery(trigger: string, usr: string, useCases: seq<(string, UseCase)>)
    requires trigger != Custom && Lookup(useCases, trigger).Some?
    requires Find(usr, Placeholder).Some?
    ensures var d := match Lookup(useCases, trigger).value.details case Some(d) => d case None => "";
            var p := Find(usr, Placeholder).value;
            PyUserPrompt(trigger, usr, useCases)
              == Some(usr[..p] + d + ReplaceAll(usr[p + |Placeholder|..], Placeholder, d))
  {
    var d := match Lookup(useCases, trigger).value.details case Some(d) => d case None => "";
    ReplaceAllAtFirst(usr, Placeholder, d);
  }

  /** Without `details` the two differ: C++ leaves the placeholder in place,
      Python removes it. */
  lemma MissingDetailsDiffer()
    ensures var ucs := [("shop", UseCase(["a"], None, None))];
            && CppUserPrompt("shop", "{details}", ucs) == "{details}"
            && PyUserPrompt("shop", "{details}", ucs) == Some("")
  {
    var ucs := [("shop", UseCase(["a"], None, None))];
    assert Lookup(ucs, "shop") == Some(UseCase(["a"], None, None));
    var s: string := "{details}";
    assert s[..|Placeholder|] == Placeholder;
    assert s[|Placeholder|..] == [];
    assert ReplaceAll([], Placeholder, "") == [];
    assert ReplaceAll(s, Placeholder, "") == "" + ReplaceAll(s[|Placeholder|..], Placeholder, "");
  }
}
