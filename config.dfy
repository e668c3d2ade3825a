/** The prompt configuration the backend is given, as records. JSON parsing
    is not modelled: a use case is already a record. */
module Config {
  import opened Wrappers

  /** One entry of `use_cases`: the ordered option labels (order is match
      priority and fallback order), the optional `keywords` object (present
      and an object, or absent), and the optional `details` text. */
  datatype UseCase = UseCase(
    options: seq<string>,
    keywords: Option<map<string, seq<string>>>,
    details: Option<string>)

  /** The prompt file: `hailo_system_prompt`, `hailo_user_prompt` (C++ reads a
      missing one as ""), and the `use_cases` object in file order. */
  datatype Prompts = Prompts(
    systemPrompt: string,
    userPrompt: string,
    useCases: seq<(string, UseCase)>)

  /** `use_cases[key]`, or `None` when the key is absent. The keys of the
      sequence are assumed unique, as in a JSON object read without
      duplicate keys. */
  function Lookup(useCases: seq<(string, UseCase)>, key: string): (r: Option<UseCase>)
    ensures r.None? <==> forall i :: 0 <= i < |useCases| ==> useCases[i].0 != key
    ensures r.Some? ==> exists i :: 0 <= i < |useCases| && useCases[i] == (key, r.value)
  {
    if useCases == [] then None
    else if useCases[0].0 == key then Some(useCases[0].1)
    else
      var r := Lookup(useCases[1..], key);
      assert forall i :: 1 <= i < |useCases| ==> useCases[i] == useCases[1..][i - 1];
      r
  }

  /** Which use case the Python backend makes active. */
  datatype ActiveTrigger = NoPrompts | FirstKey(name: string) | NoUseCase

  /** `list(prompts['use_cases'].keys())[0] if prompts else None`: the first
      key in file order, `None` without prompts, and an IndexError (here
      `NoUseCase`) when `use_cases` is empty. */
  function PyActiveTrigger(prompts: Option<Prompts>): (t: ActiveTrigger)
    ensures t == NoPrompts <==> prompts.None?
    ensures t.FirstKey? <==> prompts.Some? && |prompts.value.useCases| > 0
    ensures t.FirstKey? ==> t.name == prompts.value.useCases[0].0
    ensures t.FirstKey? ==> Lookup(prompts.value.useCases, t.name) == Some(prompts.value.useCases[0].1)
  {
    match prompts
    case None => NoPrompts
    case Some(p) => if |p.useCases| == 0 then NoUseCase else FirstKey(p.useCases[0].0)
  }
}
