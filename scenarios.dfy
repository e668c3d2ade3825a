/** The classifier on concrete responses: the documented keyword-mode and
    direct-mode examples, and inputs on which the C++ and the Python worker
    give different labels. Each fact about a literal string is its own small
    lemma over a parameter equal to that string. */
module ClassifierScenarios {
  import opened Wrappers
  import opened Text
  import opened Config
  import opened Classifier

  /** The shelf-monitoring use case with keywords. */
  const ShelfKeywords: map<string, seq<string>> := map[
    "empty" := ["no person", "nobody"],
    "pickup" := ["grabbing", "picking", "examining"],
    "browsing" := ["walking", "cart"]]

  const Shelf := UseCase(["empty", "pickup", "browsing"], Some(ShelfKeywords), None)

  /** The same kind of options without keywords, so that direct mode applies. */
  const ShelfDirect := UseCase(["pickup", "browsing"], None, None)

  lemma ShelfKeywordsAre()
    ensures ShelfKeywords["empty"] == ["no person", "nobody"]
    ensures ShelfKeywords["pickup"] == ["grabbing", "picking", "examining"]
    ensures ShelfKeywords["browsing"] == ["walking", "cart"]
    ensures |ShelfKeywords| > 0
  {
    assert "empty" in ShelfKeywords;
  }

  lemma ShelfKeywordsLower()
    ensures Lower("no person") == "no person" && Lower("nobody") == "nobody"
    ensures Lower("grabbing") == "grabbing" && Lower("picking") == "picking"
    ensures Lower("examining") == "examining"
    ensures Lower("walking") == "walking" && Lower("cart") == "cart"
  {
    LowerIdentity("no person");
    LowerIdentity("nobody");
    LowerIdentity("grabbing");
    LowerIdentity("picking");
    LowerIdentity("examining");
    LowerIdentity("walking");
    LowerIdentity("cart");
  }

  // ------------------------------------------------------ keyword mode

  /** Any response with "no person" in it is classified "empty". */
  lemma ShelfEmptyWhen(d: Dialect, s: string)
    requires Lower(s) == s && Find(s, "no person").Some?
    ensures Classify(d, s, Some(Shelf)) == "empty"
  {
    ShelfKeywordsAre();
    ShelfKeywordsLower();
    assert Contains(s, Lower(ShelfKeywords["empty"][0]));
    KeywordFirstMatchWins(d, s, Shelf, 0);
  }

  /** Any response without "no person" and "nobody" but with "examining"
      in it is classified "pickup". */
  lemma ShelfPickupWhen(d: Dialect, s: string)
    requires Lower(s) == s
    requires Find(s, "no person").None? && Find(s, "nobody").None?
    requires Find(s, "examining").Some?
    ensures Classify(d, s, Some(Shelf)) == "pickup"
  {
    ShelfKeywordsAre();
    ShelfKeywordsLower();
    var e := ShelfKeywords["empty"];
    assert !Contains(s, Lower(e[0])) && !Contains(s, Lower(e[1]));
    assert !KeywordHit(s, ShelfKeywords, "empty");
    assert Contains(s, Lower(ShelfKeywords["pickup"][2]));
    KeywordFirstMatchWins(d, s, Shelf, 1);
  }

  /** Any response that holds none of the seven keywords is classified
      "empty", the first option. */
  lemma ShelfDefaultWhen(d: Dialect, s: string)
    requires Lower(s) == s
    requires Find(s, "no person").None? && Find(s, "nobody").None?
    requires Find(s, "grabbing").None? && Find(s, "picking").None? && Find(s, "examining").None?
    requires Find(s, "walking").None? && Find(s, "cart").None?
    ensures Classify(d, s, Some(Shelf)) == "empty"
  {
    ShelfKeywordsAre();
    ShelfKeywordsLower();
    var e, p, b := ShelfKeywords["empty"], ShelfKeywords["pickup"], ShelfKeywords["browsing"];
    assert !Contains(s, Lower(e[0])) && !Contains(s, Lower(e[1]));
    assert !Contains(s, Lower(p[0])) && !Contains(s, Lower(p[1])) && !Contains(s, Lower(p[2]));
    assert !Contains(s, Lower(b[0])) && !Contains(s, Lower(b[1]));
    assert !KeywordHit(s, ShelfKeywords, "empty");
    assert !KeywordHit(s, ShelfKeywords, "pickup");
    assert !KeywordHit(s, ShelfKeywords, "browsing");
    KeywordDefault(d, s, Shelf);
  }

  lemma NoPersonVisibleFacts(s: string)
    requires s == "no person visible, empty aisle"
    ensures Lower(s) == s && Find(s, "no person").Some?
  {
    LowerIdentity(s);
    FindHere(s, "no person", 0);
  }

  /** "no person visible, empty aisle": the first option's keyword
      "no person" occurs, so the label is "empty", in both workers. */
  lemma KeywordExampleEmpty(d: Dialect, s: string)
    requires s == "no person visible, empty aisle"
    ensures Classify(d, s, Some(Shelf)) == "empty"
  {
    NoPersonVisibleFacts(s);
    ShelfEmptyWhen(d, s);
  }

  // "no person" in "examining product closely": its 'n' occurs at 5 and 7
  // only, followed by 'i' and 'g'.
  lemma ExaminingChars(s: string)
    requires s == "examining product closely"
    ensures s[5] == 'n' && s[6] == 'i' && s[7] == 'n' && s[8] == 'g'
  {
  }

  lemma ExaminingAbsent(s: string)
    requires s == "examining product closely"
    ensures 'n' !in s[..5] && 'n' !in s[6..7] && 'n' !in s[8..] && 'b' !in s
  {
    assert s[8..] == "g product closely";
  }

  lemma ExaminingSearch1(s: string)
    requires s == "examining product closely"
    ensures FindFrom(s, "no person", 0) == FindFrom(s, "no person", 5)
  {
    ExaminingAbsent(s);
    FindSkipTo(s, "no person", 0, 5);
  }

  lemma ExaminingSearch2(s: string)
    requires s == "examining product closely"
    ensures FindFrom(s, "no person", 5) == FindFrom(s, "no person", 7)
  {
    ExaminingChars(s);
    ExaminingAbsent(s);
    FindStep(s, "no person", 5, 1);
    FindSkipTo(s, "no person", 6, 7);
  }

  lemma ExaminingSearch3(s: string)
    requires s == "examining product closely"
    ensures FindFrom(s, "no person", 7) == None
  {
    ExaminingChars(s);
    ExaminingAbsent(s);
    FindStep(s, "no person", 7, 1);
    FindNoneAfter(s, "no person", 8);
  }

  lemma ExaminingFacts(s: string)
    requires s == "examining product closely"
    ensures Lower(s) == s
    ensures Find(s, "no person") == None && Find(s, "nobody") == None
    ensures Find(s, "examining") == Some(0)
  {
    LowerIdentity(s);
    ExaminingSearch1(s);
    ExaminingSearch2(s);
    ExaminingSearch3(s);
    ExaminingAbsent(s);
    FindMissingChar(s, "nobody", 'b', 0);
    FindHere(s, "examining", 0);
  }

  /** "examining product closely": no keyword of "empty" occurs, the third
      keyword of "pickup" does, so the label is "pickup". */
  lemma KeywordExamplePickup(d: Dialect, s: string)
    requires s == "examining product closely"
    ensures Classify(d, s, Some(Shelf)) == "pickup"
  {
    ExaminingFacts(s);
    ShelfPickupWhen(d, s);
  }

  lemma RedShelfLacks(s: string)
    requires s == "a red shelf"
    ensures 'n' !in s && 'g' !in s && 'p' !in s && 'x' !in s && 'w' !in s && 'c' !in s
  {
  }

  lemma RedShelfFacts(s: string)
    requires s == "a red shelf"
    ensures Lower(s) == s
    ensures Find(s, "no person") == None && Find(s, "nobody") == None
    ensures Find(s, "grabbing") == None && Find(s, "picking") == None
    ensures Find(s, "examining") == None
    ensures Find(s, "walking") == None && Find(s, "cart") == None
  {
    LowerIdentity(s);
    RedShelfLacks(s);
    FindMissingChar(s, "no person", 'n', 0);
    FindMissingChar(s, "nobody", 'n', 0);
    FindMissingChar(s, "grabbing", 'g', 0);
    FindMissingChar(s, "picking", 'p', 0);
    FindMissingChar(s, "examining", 'x', 0);
    FindMissingChar(s, "walking", 'w', 0);
    FindMissingChar(s, "cart", 'c', 0);
  }

  /** "a red shelf": no keyword occurs, so the label is the first option. */
  lemma KeywordExampleDefault(d: Dialect, s: string)
    requires s == "a red shelf"
    ensures Classify(d, s, Some(Shelf)) == "empty"
  {
    RedShelfFacts(s);
    ShelfDefaultWhen(d, s);
  }

  // ------------------------------------------------------- direct mode

  lemma DelimitersAre()
    ensures Delimiters[0] == "\n" && Delimiters[1] == "." && Delimiters[2] == ","
    ensures Delimiters[3] == " if " && Delimiters[4] == " or " && |Delimiters| == 5
  {
  }

  /** The five cuts, one after the other. */
  lemma CutAllSteps(s: string)
    ensures CutAll(s, Delimiters) ==
            CutAt(CutAt(CutAt(CutAt(CutAt(s, "\n"), "."), ","), " if "), " or ")
  {
    DelimitersAre();
    var t1 := CutAt(s, "\n");
    var t2 := CutAt(t1, ".");
    var t3 := CutAt(t2, ",");
    var t4 := CutAt(t3, " if ");
    var t5 := CutAt(t4, " or ");
    assert Delimiters[1..][1..][1..][1..][1..] == [];
    assert CutAll(t5, []) == t5;
  }

  /** No cut where the delimiter's first character does not occur. */
  lemma CutAtNone(s: string, delim: string)
    requires |delim| > 0 && delim[0] !in s
    ensures CutAt(s, delim) == s
  {
    FindMissingChar(s, delim, delim[0], 0);
  }

  /** A cut right before `b`, which starts with the delimiter. */
  lemma CutBefore(a: string, b: string, delim: string)
    requires |delim| > 0 && a != [] && delim[0] !in a && StartsWith(b, delim)
    ensures CutAt(a + b, delim) == a
  {
    var s := a + b;
    assert s[..|a|] == a;
    assert s[|a|..|a| + |delim|] == b[..|delim|];
    FindSkipTo(s, delim, 0, |a|);
    FindHere(s, delim, |a|);
  }

  /** A cut text that no trim set touches is the first part in both workers. */
  lemma PlainFirstPart(d: Dialect, lower: string, cut: string)
    requires CutAll(lower, Delimiters) == cut && cut != []
    requires !CppTrimmed(cut[0]) && !CppTrimmed(cut[|cut| - 1])
    requires !PySpace(cut[0]) && !PySpace(cut[|cut| - 1])
    requires !Quote(cut[0]) && !Quote(cut[|cut| - 1])
    ensures FirstPart(d, lower) == cut
  {
    TrimUnchanged(cut, CppTrimmed);
    TrimUnchanged(cut, PySpace);
    TrimUnchanged(cut, Quote);
  }

  /** Lower-casing a response given in two pieces. */
  lemma LowerPieces(a: string, b: string)
    requires forall c :: c in a ==> !('A' <= c <= 'Z')
    requires forall c :: c in b ==> !('A' <= c <= 'Z')
    ensures Lower(a + b) == a + b
  {
    LowerIdentity(a);
    LowerIdentity(b);
    LowerAppend(a, b);
  }

  lemma PickupPlain(t: string)
    requires t == "pickup"
    ensures t != [] && !CppTrimmed(t[0]) && !CppTrimmed(t[|t| - 1])
    ensures !PySpace(t[0]) && !PySpace(t[|t| - 1])
    ensures !Quote(t[0]) && !Quote(t[|t| - 1])
    ensures Lower(t) == t
    ensures ' ' !in t && '\n' !in t && '.' !in t && ',' !in t
  {
    LowerIdentity(t);
  }

  /** "pickup" as a first part: the prefix hits of both direct use cases. */
  lemma PickupHits(c: string)
    requires c == "pickup"
    ensures PrefixHit(c, ShelfDirect.options[0])
    ensures PrefixHit(c, EmptyKeywords.options[1])
    ensures forall j :: 0 <= j < 1 ==> !PrefixHit(c, EmptyKeywords.options[j])
  {
    PickupPlain(c);
    LowerIdentity("empty");
    NotPrefix(c, "empty");
  }

  /** Any response whose first part is "pickup" is classified "pickup". */
  lemma FirstPartPickup(d: Dialect, s: string)
    requires FirstPart(d, Lower(s)) == "pickup"
    ensures Classify(d, s, Some(ShelfDirect)) == "pickup"
  {
    PickupHits("pickup");
    DirectPrefixWins(d, s, ShelfDirect, "pickup", 0);
  }

  lemma ReachingHeadLacks(a: string)
    requires a == "pickup if person reaching"
    ensures '\n' !in a && '.' !in a && ',' !in a
  {
  }

  lemma ReachingHeadSplits(a: string)
    requires a == "pickup if person reaching"
    ensures a == "pickup" + " if person reaching"
    ensures StartsWith(" if person reaching", " if ")
  {
  }

  lemma ReachingTailChars(b: string)
    requires b == ", browsing if walking"
    ensures '\n' !in b && '.' !in b && StartsWith(b, ",")
  {
  }

  lemma ReachingCuts(a: string, b: string)
    requires a == "pickup if person reaching" && b == ", browsing if walking"
    ensures CutAll(a + b, Delimiters) == "pickup"
  {
    ReachingHeadLacks(a);
    ReachingHeadSplits(a);
    ReachingTailChars(b);
    PickupPlain("pickup");
    CutAtNone(a + b, "\n");
    CutAtNone(a + b, ".");
    CutBefore(a, b, ",");
    CutBefore("pickup", " if person reaching", " if ");
    CutAtNone("pickup", " or ");
    CutAllSteps(a + b);
  }

  lemma ReachingFacts(d: Dialect, s: string)
    requires s == "pickup if person reaching" + ", browsing if walking"
    ensures FirstPart(d, Lower(s)) == "pickup"
  {
    LowerPieces("pickup if person reaching", ", browsing if walking");
    ReachingCuts("pickup if person reaching", ", browsing if walking");
    PickupPlain("pickup");
    PlainFirstPart(d, s, "pickup");
  }

  /** "pickup if person reaching, browsing if walking": the cut at "," and
      then at " if " leaves "pickup", which is the label in both workers. */
  lemma DirectExample(d: Dialect, s: string)
    requires s == "pickup if person reaching" + ", browsing if walking"
    ensures Classify(d, s, Some(ShelfDirect)) == "pickup"
  {
    ReachingFacts(d, s);
    FirstPartPickup(d, s);
  }

  // ------------------------------------------------- C++ against Python

  lemma NotPrefix(cut: string, o: string)
    requires Lower(o) == o && cut != [] && o != [] && cut[0] != o[0]
    ensures !PrefixHit(cut, o)
  {
    assert |o| <= |cut| ==> cut[..|o|][0] == cut[0];
  }

  const EmptyKeywords := UseCase(["empty", "pickup"], Some(map[]), None)

  lemma EmptyKeywordsCpp(s: string)
    ensures Classify(Cpp, s, Some(EmptyKeywords)) == "empty"
  {
    KeywordDefault(Cpp, s, EmptyKeywords);
  }

  lemma PickupFirstPart(d: Dialect, s: string)
    requires s == "pickup"
    ensures FirstPart(d, Lower(s)) == s
  {
    PickupPlain(s);
    CutAtNone(s, "\n");
    CutAtNone(s, ".");
    CutAtNone(s, ",");
    CutAtNone(s, " if ");
    CutAtNone(s, " or ");
    CutAllSteps(s);
    PlainFirstPart(d, s, s);
  }

  lemma EmptyKeywordsPython(s: string)
    requires FirstPart(Python, Lower(s)) == "pickup"
    ensures Classify(Python, s, Some(EmptyKeywords)) == "pickup"
  {
    PickupHits("pickup");
    DirectPrefixWins(Python, s, EmptyKeywords, "pickup", 1);
  }

  /** `keywords` present but empty: C++ stays in keyword mode and falls back
      to the first option, Python switches to direct mode and matches the
      response itself. */
  lemma EmptyKeywordsDiverge(s: string)
    requires s == "pickup"
    ensures Classify(Cpp, s, Some(EmptyKeywords)) == "empty"
    ensures Classify(Python, s, Some(EmptyKeywords)) == "pickup"
  {
    EmptyKeywordsCpp(s);
    PickupFirstPart(Python, s);
    EmptyKeywordsPython(s);
  }

  lemma PaddedChars(a: string, b: string)
    requires a == "'\tpickup'" && b == ", the person is reaching"
    ensures '\n' !in a && '\n' !in b && '.' !in a && '.' !in b && ',' !in a && ' ' !in a
    ensures StartsWith(b, ",") && a != [] && |a + b| == 33
  {
  }

  lemma PaddedCuts(a: string, b: string)
    requires a == "'\tpickup'" && b == ", the person is reaching"
    ensures CutAll(a + b, Delimiters) == a
  {
    PaddedChars(a, b);
    CutAtNone(a + b, "\n");
    CutAtNone(a + b, ".");
    CutBefore(a, b, ",");
    CutAtNone(a, " if ");
    CutAtNone(a, " or ");
    CutAllSteps(a + b);
  }

  lemma PaddedTrimCpp(c: string)
    requires c == "'\tpickup'"
    ensures Trim(c, CppTrimmed) == "pickup"
  {
    TrimAt(c, CppTrimmed, 2, 8);
    assert c[2..8] == "pickup";
  }

  lemma PaddedTrimPython(c: string)
    requires c == "'\tpickup'"
    ensures Trim(Trim(c, PySpace), Quote) == "\tpickup"
  {
    TrimUnchanged(c, PySpace);
    TrimAt(c, Quote, 1, 8);
    assert c[1..8] == "\tpickup";
  }

  lemma PaddedFacts(s: string)
    requires s == "'\tpickup'" + ", the person is reaching"
    ensures FirstPart(Cpp, Lower(s)) == "pickup"
    ensures FirstPart(Python, Lower(s)) == "\tpickup"
    ensures |s| >= ShortResponse
  {
    LowerPieces("'\tpickup'", ", the person is reaching");
    PaddedChars("'\tpickup'", ", the person is reaching");
    PaddedCuts("'\tpickup'", ", the person is reaching");
    PaddedTrimCpp("'\tpickup'");
    PaddedTrimPython("'\tpickup'");
  }

  /** "\tpickup" as a first part starts with no option. */
  lemma TabPickupMisses(c: string)
    requires c == "\tpickup"
    ensures forall j :: 0 <= j < |ShelfDirect.options| ==> !PrefixHit(c, ShelfDirect.options[j])
  {
    LowerIdentity("pickup");
    LowerIdentity("browsing");
    NotPrefix(c, "pickup");
    NotPrefix(c, "browsing");
  }

  /** Python on a long response whose first part is "\tpickup". */
  lemma TabPickupPython(s: string)
    requires FirstPart(Python, Lower(s)) == "\tpickup" && |s| >= ShortResponse
    ensures Classify(Python, s, Some(ShelfDirect)) == NoEvent
  {
    TabPickupMisses("\tpickup");
    DirectLongResponseNoFallback(Python, s, ShelfDirect, "\tpickup");
  }

  /** A quote before the padding: C++ trims quotes and whitespace together
      and finds "pickup"; Python strips whitespace first, then quotes, keeps
      the tab and, the response being long, finds nothing. */
  lemma QuotePaddingDiverges(s: string)
    requires s == "'\tpickup'" + ", the person is reaching"
    ensures Classify(Cpp, s, Some(ShelfDirect)) == "pickup"
    ensures Classify(Python, s, Some(ShelfDirect)) == NoEvent
  {
    PaddedFacts(s);
    FirstPartPickup(Cpp, s);
    TabPickupPython(s);
  }

  lemma SentinelChars(c: string)
    requires c == "no event detected"
    ensures c[2] == ' ' && c[3] == 'e' && c[8] == ' ' && c[9] == 'd'
  {
  }

  lemma SentinelAbsent(c: string)
    requires c == "no event detected"
    ensures ' ' !in c[..2] && ' ' !in c[3..8] && ' ' !in c[9..]
  {
    assert c[..2] == "no";
    assert c[3..8] == "event";
    assert c[9..] == "detected";
  }

  lemma SentinelSearch(c: string, delim: string)
    requires c == "no event detected"
    requires |delim| == 4 && delim[0] == ' ' && delim[1] != 'e' && delim[1] != 'd'
    ensures CutAt(c, delim) == c
  {
    SentinelChars(c);
    SentinelAbsent(c);
    assert c[..2] == c[0..2];
    FindSkipTo(c, delim, 0, 2);
    FindStep(c, delim, 2, 1);
    FindSkipTo(c, delim, 3, 8);
    FindStep(c, delim, 8, 1);
    FindNoneAfter(c, delim, 9);
  }

  lemma SentinelPieces(a: string, b: string)
    requires a == "no event detected" && b == ", person"
    ensures '\n' !in a && '\n' !in b && '.' !in a && '.' !in b && ',' !in a
    ensures StartsWith(b, ",") && a != []
    ensures !CppTrimmed(a[0]) && !CppTrimmed(a[|a| - 1])
    ensures !PySpace(a[0]) && !PySpace(a[|a| - 1])
    ensures !Quote(a[0]) && !Quote(a[|a| - 1])
  {
  }

  lemma SentinelCuts(a: string, b: string)
    requires a == "no event detected" && b == ", person"
    ensures CutAll(a + b, Delimiters) == a
  {
    SentinelPieces(a, b);
    CutAtNone(a + b, "\n");
    CutAtNone(a + b, ".");
    CutBefore(a, b, ",");
    SentinelSearch(a, " if ");
    SentinelSearch(a, " or ");
    CutAllSteps(a + b);
  }

  lemma SentinelWhole(s: string)
    requires s == "no event detected" + ", person"
    ensures Lower(s) == s && ContainHit(s, "person") && |s| < ShortResponse
  {
    LowerPieces("no event detected", ", person");
    LowerIdentity("person");
    assert s[19..25] == "person";
    assert OccursAt(s, "person", 19);
  }

  lemma SentinelFirstPart(d: Dialect, s: string)
    requires s == "no event detected" + ", person"
    ensures FirstPart(d, s) == "no event detected"
  {
    SentinelCuts("no event detected", ", person");
    SentinelPieces("no event detected", ", person");
    PlainFirstPart(d, s, "no event detected");
  }

  const SentinelUseCase := UseCase(["person", "No Event Detected"], None, None)

  /** "no event detected" as a first part: the prefix pass picks the second
      option, which is literally the sentinel text. */
  lemma SentinelHits(c: string)
    requires c == "no event detected"
    ensures PrefixHit(c, SentinelUseCase.options[1]) && SentinelUseCase.options[1] == NoEvent
    ensures forall j :: 0 <= j < 1 ==> !PrefixHit(c, SentinelUseCase.options[j])
  {
    LowerIdentity("person");
    NotPrefix(c, "person");
  }

  /** Python on a response whose first part is "no event detected". */
  lemma SentinelPython(s: string)
    requires FirstPart(Python, Lower(s)) == "no event detected"
    ensures Classify(Python, s, Some(SentinelUseCase)) == "No Event Detected"
  {
    SentinelHits("no event detected");
    DirectPrefixWins(Python, s, SentinelUseCase, "no event detected", 1);
  }

  /** The containment pass on a response that contains "person". */
  lemma PersonContained(s: string)
    requires ContainHit(s, "person")
    ensures ContainLabel(s, SentinelUseCase.options, NoEvent) == "person"
  {
    assert ContainHit(s, SentinelUseCase.options[0]);
  }

  /** C++ on a short response whose first part is "no event detected" and
      that contains "person". */
  lemma SentinelCpp(s: string)
    requires Lower(s) == s && FirstPart(Cpp, s) == "no event detected"
    requires ContainHit(s, "person") && |s| < ShortResponse
    ensures Classify(Cpp, s, Some(SentinelUseCase)) == "person"
  {
    SentinelHits("no event detected");
    CppSentinelOptionFallsBack(s, SentinelUseCase, "no event detected", 1);
    PersonContained(s);
  }

  /** An option literally named "No Event Detected": Python returns it from
      the prefix pass; C++ takes it for "nothing matched" and, the response
      being short, falls back to the option the response contains. */
  lemma SentinelOptionDiverges(s: string)
    requires s == "no event detected" + ", person"
    ensures Classify(Cpp, s, Some(SentinelUseCase)) == "person"
    ensures Classify(Python, s, Some(SentinelUseCase)) == "No Event Detected"
  {
    SentinelWhole(s);
    SentinelFirstPart(Cpp, s);
    SentinelFirstPart(Python, s);
    SentinelPython(s);
    SentinelCpp(s);
  }
}
