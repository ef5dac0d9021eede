/**
 * The assistant of server/services/aiAssistant.js: intent detection (a language-model
 * label when one is configured and valid, else keyword rules), a fixed dispatch from the
 * intent to one handler node, and the handlers, which fill in the filters and the reply.
 * The graph's state object is the class AssistantState; its nodes are its methods.
 */
module AiAssistant {
  import opened Wrappers
  import opened Strings
  import opened LlmConfig
  import opened FilterValues

  const FilterUpdate := "filter_update"
  const ClearIntent := "clear_filters"
  const HelpIntent := "help"
  const JobSearchIntent := "job_search"
  const ErrorIntent := "error"

  predicate IsIntent(s: string) {
    s == FilterUpdate || s == ClearIntent || s == HelpIntent || s == JobSearchIntent
  }

  /** The alternatives of the filter-update regular expression. */
  const FilterKeywords := ["remote", "hybrid", "onsite", "location", "filter", "show", "find", "search", "only", "with", "score"]

  predicate ContainsAny(s: string, words: seq<string>) {
    exists k :: 0 <= k < |words| && Contains(s, words[k])
  }

  /** The rule-based classification of a lower-cased message; the first matching rule wins. */
  function RuleIntent(m: string): (r: string)
    ensures IsIntent(r)
    ensures Contains(m, "clear") || Contains(m, "reset") ==> r == ClearIntent
    ensures r == ClearIntent ==> Contains(m, "clear") || Contains(m, "reset")
    ensures r == FilterUpdate <==> !Contains(m, "clear") && !Contains(m, "reset") && ContainsAny(m, FilterKeywords)
    ensures r == HelpIntent <==>
      !Contains(m, "clear") && !Contains(m, "reset") && !ContainsAny(m, FilterKeywords)
      && (Contains(m, "help") || Contains(m, "how"))
  {
    if Contains(m, "clear") || Contains(m, "reset") then ClearIntent
    else if ContainsAny(m, FilterKeywords) then FilterUpdate
    else if Contains(m, "help") || Contains(m, "how") then HelpIntent
    else JobSearchIntent
  }

  /** The model's answer as detectIntent compares it: trimmed and lower-cased. */
  function LlmLabel(answer: string): string {
    Lower(Trim(answer))
  }

  /**
   * The intent detectIntent stores. `llmAnswer` is the model's raw answer, None when the
   * request failed; it is consulted only with a usable key, and a label outside the four
   * intents is ignored.
   */
  function DetectedIntent(message: string, key: Option<string>, llmAnswer: Option<string>): (r: string)
    ensures IsIntent(r)
    ensures !UsableKey(key) || llmAnswer.None? ==> r == RuleIntent(Lower(message))
    ensures UsableKey(key) && llmAnswer.Some? ==>
      r == if IsIntent(LlmLabel(llmAnswer.value)) then LlmLabel(llmAnswer.value) else RuleIntent(Lower(message))
  {
    if UsableKey(key) && llmAnswer.Some? && IsIntent(LlmLabel(llmAnswer.value)) then LlmLabel(llmAnswer.value)
    else RuleIntent(Lower(message))
  }

  /** The nodes of the graph reachable from intent detection. */
  datatype Node = UpdateFiltersNode | ClearFiltersNode | HelpNode | JobSearchNode

  /** routeIntent: total; anything that is not one of the other three labels goes to job search. */
  function RouteIntent(intent: string): (n: Node)
    ensures n == UpdateFiltersNode <==> intent == FilterUpdate
    ensures n == ClearFiltersNode <==> intent == ClearIntent
    ensures n == HelpNode <==> intent == HelpIntent
    ensures n == JobSearchNode <==> intent != FilterUpdate && intent != ClearIntent && intent != HelpIntent
  {
    if intent == FilterUpdate then UpdateFiltersNode
    else if intent == ClearIntent then ClearFiltersNode
    else if intent == HelpIntent then HelpNode
    else JobSearchNode
  }

  /** An entry of the model's JSON object is kept when its value is truthy and not the string "null". */
  predicate Usable(v: FilterValue) {
    Truthy(v) && v != Str("null")
  }

  /** The entries kept from the model's parsed JSON object. */
  function UsableEntries(parsed: Filters): (r: Filters)
    ensures forall k :: k in r <==> k in parsed && Usable(parsed[k])
    ensures forall k :: k in r ==> r[k] == parsed[k]
  {
    map k | k in parsed && Usable(parsed[k]) :: parsed[k]
  }

  /** What the model path contributes: nothing without a usable key or a parsed answer. */
  function LlmFilters(key: Option<string>, parsed: Option<Filters>): (r: Filters)
    ensures !UsableKey(key) || parsed.None? ==> r == map[]
    ensures forall k :: k in r ==> Usable(r[k])
    ensures UsableKey(key) && parsed.Some? ==>
      forall k :: (k in r <==> k in parsed.value && Usable(parsed.value[k])) && (k in r ==> r[k] == parsed.value[k])
  {
    if UsableKey(key) && parsed.Some? then UsableEntries(parsed.value) else map[]
  }

  const Cities := ["bangalore", "mumbai", "delhi", "hyderabad", "pune"]

  /** `s.charAt(0).toUpperCase() + s.slice(1)`. */
  function Capitalize(s: string): string {
    if s == "" then "" else [UpperChar(s[0])] + s[1..]
  }

  /** The capitalised last city of the list that the message mentions. */
  function LastCity(m: string, cities: seq<string>): (r: Option<string>)
    decreases |cities|
  {
    if cities == [] then None
    else if Contains(m, cities[|cities| - 1]) then Some(Capitalize(cities[|cities| - 1]))
    else LastCity(m, cities[..|cities| - 1])
  }

  /** LastCity picks the mentioned city with the highest index. */
  lemma {:induction false} LastCityIsLast(m: string, cities: seq<string>, k: nat)
    requires k < |cities| && Contains(m, cities[k])
    requires forall j :: k < j < |cities| ==> !Contains(m, cities[j])
    ensures LastCity(m, cities) == Some(Capitalize(cities[k]))
    decreases |cities|
  {
    var n := |cities| - 1;
    if k < n {
      assert !Contains(m, cities[n]);
      var init := cities[..n];
      assert init[k] == cities[k];
      assert forall j :: k < j < |init| ==> init[j] == cities[j];
      LastCityIsLast(m, init, k);
    }
  }

  /** LastCity finds nothing exactly when no city of the list is mentioned. */
  lemma {:induction false} LastCityNone(m: string, cities: seq<string>)
    ensures LastCity(m, cities).None? <==> forall k :: 0 <= k < |cities| ==> !Contains(m, cities[k])
    decreases |cities|
  {
    if cities != [] {
      var n := |cities| - 1;
      var init := cities[..n];
      LastCityNone(m, init);
      assert forall k :: 0 <= k < n ==> init[k] == cities[k];
    }
  }

  /** Work mode by priority: on-site over hybrid over remote (the later assignment wins). */
  function WorkModeOf(m: string): Option<string> {
    if Contains(m, "onsite") || Contains(m, "on-site") then Some("on-site")
    else if Contains(m, "hybrid") then Some("hybrid")
    else if Contains(m, "remote") then Some("remote")
    else None
  }

  /** Job type by priority: contract over part-time over full-time. */
  function JobTypeOf(m: string): Option<string> {
    if Contains(m, "contract") then Some("contract")
    else if Contains(m, "part-time") || Contains(m, "part time") then Some("part-time")
    else if Contains(m, "full-time") || Contains(m, "full time") then Some("full-time")
    else None
  }

  function MatchScoreOf(m: string): Option<string> {
    if Contains(m, "high match") then Some("high") else None
  }

  /** Sets `key` when there is a value. */
  function Put(f: Filters, key: string, v: Option<string>): Filters {
    if v.Some? then f[key := Str(v.value)] else f
  }

  /** The keyword fallback, stated by priority rather than by overwriting. */
  function KeywordFilters(m: string): Filters {
    Put(Put(Put(Put(map[], "workMode", WorkModeOf(m)), "jobType", JobTypeOf(m)),
            "matchScore", MatchScoreOf(m)), "location", LastCity(m, Cities))
  }

  /** The filters updateFilters settles on: the model's entries, or the keyword fallback when none survive. */
  function ExtractedFilters(message: string, key: Option<string>, parsed: Option<Filters>): Filters {
    var fromLlm := LlmFilters(key, parsed);
    if |fromLlm| > 0 then fromLlm else KeywordFilters(Lower(message))
  }

  /** The reply line for one filter, if it is set. */
  function Describe(f: Filters, key: string, caption: string): (r: seq<string>)
    ensures |r| <= 1
    ensures |r| == 1 <==> Present(f, key)
    ensures |r| == 1 ==> r[0] == caption + Text(f[key])
  {
    if Present(f, key) then [caption + Text(f[key])] else []
  }

  /** The reply lines, in the fixed order work mode, job type, location, role/skill, match score. */
  function Descriptions(f: Filters): seq<string> {
    Describe(f, "workMode", "work mode: ") + Describe(f, "jobType", "job type: ") + Describe(f, "location", "location: ")
    + Describe(f, "search", "role/skill: ") + Describe(f, "matchScore", "match score: ")
  }

  /** The keys the reply reports. */
  const DescribedKeys := ["workMode", "jobType", "location", "search", "matchScore"]

  const ClarifyText := "I understood your request, but couldn't find specific filters. Try saying 'show remote jobs' or 'React roles in Bangalore'."

  function FilterResponse(f: Filters): string {
    var lines := Descriptions(f);
    if |lines| > 0 then "I've updated the filters: " + Join(lines, ", ") + ". The job list will refresh automatically."
    else ClarifyText
  }

  const ClearedText := "I've cleared all filters. You'll now see all available jobs."

  const SearchText := "I can help you search for jobs! Try saying things like:\n- \"Show me remote frontend jobs\"\n- \"Find Python roles in Bangalore\"\n- \"Only high match score jobs\"\n- \"Clear all filters\""

  const HelpText := "I'm your AI job search assistant! I can help you:\n\n\U{1F50D} Search jobs: \"Find React developer roles\"\n\U{1F3AF} Filter by location: \"Show jobs in Bangalore\"\n\U{1F4BC} Filter by work mode: \"Only remote positions\"\n\U{2B50} Filter by match: \"High match score only\"\n\U{1F9F9} Reset: \"Clear all filters\"\n\nJust tell me what you're looking for!"

  const ErrorText := "I'm having trouble processing that. Try asking about job filters or type 'help'."

  const ClearFlag: Filters := map["clear" := Bool(true)]

  /** The object processAssistantMessage returns. */
  datatype AssistantReply = AssistantReply(response: string, filters: Filters, intent: string)

  /**
   * What one message produces: `failed` stands for an exception escaping the graph, the
   * language-model answers are inputs, and the conversation history plays no part.
   */
  function ReplyFor(message: string, key: Option<string>, llmIntent: Option<string>,
                    llmFilters: Option<Filters>, failed: bool): AssistantReply
  {
    if failed then AssistantReply(ErrorText, map[], ErrorIntent)
    else
      var intent := DetectedIntent(message, key, llmIntent);
      match RouteIntent(intent)
      case UpdateFiltersNode =>
        var f := ExtractedFilters(message, key, llmFilters);
        AssistantReply(FilterResponse(f), f, intent)
      case ClearFiltersNode => AssistantReply(ClearedText, ClearFlag, intent)
      case HelpNode => AssistantReply(HelpText, map[], intent)
      case JobSearchNode => AssistantReply(SearchText, map[], intent)
  }

  /** The loop of updateFilters that copies the model's usable entries. */
  method CopyUsable(entries: Filters) returns (f: Filters)
    ensures f == UsableEntries(entries)
  {
    f := map[];
    var pending := entries.Keys;
    while pending != {}
      invariant pending <= entries.Keys
      invariant forall k :: k in f <==> k in entries && k !in pending && Usable(entries[k])
      invariant forall k :: k in f ==> f[k] == entries[k]
      decreases pending
    {
      var k :| k in pending;
      if Usable(entries[k]) {
        f := f[k := entries[k]];
      }
      pending := pending - {k};
    }
  }

  /** The keyword fallback of updateFilters: assignments in source order, later ones overwriting. */
  method KeywordAssignments(msgLow: string) returns (f: Filters)
    ensures f == KeywordFilters(msgLow)
  {
    f := map[];
    if Contains(msgLow, "remote") { f := f["workMode" := Str("remote")]; }
    if Contains(msgLow, "hybrid") { f := f["workMode" := Str("hybrid")]; }
    if Contains(msgLow, "onsite") || Contains(msgLow, "on-site") { f := f["workMode" := Str("on-site")]; }
    assert f == Put(map[], "workMode", WorkModeOf(msgLow));
    ghost var f1 := f;
    if Contains(msgLow, "full-time") || Contains(msgLow, "full time") { f := f["jobType" := Str("full-time")]; }
    if Contains(msgLow, "part-time") || Contains(msgLow, "part time") { f := f["jobType" := Str("part-time")]; }
    if Contains(msgLow, "contract") { f := f["jobType" := Str("contract")]; }
    assert f == Put(f1, "jobType", JobTypeOf(msgLow));
    if Contains(msgLow, "high match") { f := f["matchScore" := Str("high")]; }
    f := AssignCity(f, msgLow);
  }

  /** The city loop of updateFilters: each mentioned city overwrites the location. */
  method AssignCity(base: Filters, msgLow: string) returns (f: Filters)
    ensures f == Put(base, "location", LastCity(msgLow, Cities))
  {
    f := base;
    var i := 0;
    while i < |Cities|
      invariant 0 <= i <= |Cities|
      invariant f == Put(base, "location", LastCity(msgLow, Cities[..i]))
    {
      assert Cities[..i + 1][..i] == Cities[..i];
      var city := Cities[i];
      if Contains(msgLow, city) {
        f := f["location" := Str(Capitalize(city))];
      }
      i := i + 1;
    }
    assert Cities[..|Cities|] == Cities;
  }

  /** `if (filters.key) descriptions.push(caption + value)`. */
  method PushDescription(lines: seq<string>, f: Filters, key: string, caption: string) returns (r: seq<string>)
    ensures r == lines + Describe(f, key, caption)
  {
    r := lines;
    if Present(f, key) {
      r := r + [caption + Text(f[key])];
    }
  }

  /** The reply updateFilters composes from the filters it settled on. */
  method ComposeFilterReply(f: Filters) returns (text: string)
    ensures text == FilterResponse(f)
  {
    var descriptions := [];
    descriptions := PushDescription(descriptions, f, "workMode", "work mode: ");
    descriptions := PushDescription(descriptions, f, "jobType", "job type: ");
    descriptions := PushDescription(descriptions, f, "location", "location: ");
    descriptions := PushDescription(descriptions, f, "search", "role/skill: ");
    descriptions := PushDescription(descriptions, f, "matchScore", "match score: ");
    assert descriptions == Descriptions(f);
    if |descriptions| > 0 {
      text := "I've updated the filters: " + Join(descriptions, ", ") + ". The job list will refresh automatically.";
    } else {
      text := ClarifyText;
    }
  }

  /** The filter extraction of updateFilters: usable model entries, else the keyword assignments. */
  method ExtractFilters(userMessage: string, key: Option<string>, parsed: Option<Filters>) returns (f: Filters)
    ensures f == ExtractedFilters(userMessage, key, parsed)
  {
    f := map[];
    if UsableKey(key) && parsed.Some? {
      f := CopyUsable(parsed.value);
    }
    assert f == LlmFilters(key, parsed);
    if |f| == 0 {
      f := KeywordAssignments(Lower(userMessage));
    }
  }

  /** The graph state that the nodes update in place. */
  class AssistantState {
    var messages: seq<string>
    var intent: Option<string>
    var filters: Filters
    var response: string

    constructor (messages: seq<string>)
      ensures this.messages == messages && intent == None && filters == map[] && response == ""
    {
      this.messages := messages;
      intent := None;
      filters := map[];
      response := "";
    }

    function LastMessage(): string
      reads this
      requires |messages| > 0
    {
      messages[|messages| - 1]
    }

    /** detectIntent: classifies the newest message. */
    method DetectIntent(key: Option<string>, llmAnswer: Option<string>)
      requires |messages| > 0
      modifies this
      ensures messages == old(messages) && filters == old(filters) && response == old(response)
      ensures intent == Some(DetectedIntent(LastMessage(), key, llmAnswer))
    {
      var userMessage := messages[|messages| - 1];
      if UsableKey(key) && llmAnswer.Some? {
        var answer := LlmLabel(llmAnswer.value);
        if IsIntent(answer) {
          intent := Some(answer);
          return;
        }
      }
      var messageLower := Lower(userMessage);
      if Contains(messageLower, "clear") || Contains(messageLower, "reset") {
        intent := Some(ClearIntent);
      } else if ContainsAny(messageLower, FilterKeywords) {
        intent := Some(FilterUpdate);
      } else if Contains(messageLower, "help") || Contains(messageLower, "how") {
        intent := Some(HelpIntent);
      } else {
        intent := Some(JobSearchIntent);
      }
    }

    /** updateFilters: model entries, else keyword assignments in source order, then the reply. */
    method UpdateFilters(key: Option<string>, parsed: Option<Filters>)
      requires |messages| > 0
      modifies this
      ensures messages == old(messages) && intent == old(intent)
      ensures filters == ExtractedFilters(LastMessage(), key, parsed)
      ensures response == FilterResponse(filters)
    {
      var f := ExtractFilters(messages[|messages| - 1], key, parsed);
      filters := f;
      response := ComposeFilterReply(f);
    }

    /** clearFilters. */
    method ClearFilters()
      modifies this
      ensures filters == ClearFlag && response == ClearedText
      ensures messages == old(messages) && intent == old(intent)
    {
      filters := ClearFlag;
      response := ClearedText;
    }

    /** searchJobs. */
    method SearchJobs()
      modifies this
      ensures response == SearchText
      ensures messages == old(messages) && intent == old(intent) && filters == old(filters)
    {
      response := SearchText;
    }

    /** provideHelp. */
    method ProvideHelp()
      modifies this
      ensures response == HelpText
      ensures messages == old(messages) && intent == old(intent) && filters == old(filters)
    {
      response := HelpText;
    }
  }

  /**
   * processAssistantMessage: the history followed by the new message is the initial state;
   * detection, one routed node, then the reply; an escaping exception gives the error reply.
   */
  method ProcessAssistantMessage(message: string, history: seq<string>, key: Option<string>,
                                 llmIntent: Option<string>, llmFilters: Option<Filters>, failed: bool)
    returns (r: AssistantReply)
    ensures r == ReplyFor(message, key, llmIntent, llmFilters, failed)
  {
    if failed {
      return AssistantReply(ErrorText, map[], ErrorIntent);
    }
    var state := new AssistantState(history + [message]);
    state.DetectIntent(key, llmIntent);
    match RouteIntent(state.intent.value) {
      case UpdateFiltersNode => state.UpdateFilters(key, llmFilters);
      case ClearFiltersNode => state.ClearFilters();
      case HelpNode => state.ProvideHelp();
      case JobSearchNode => state.SearchJobs();
    }
    r := AssistantReply(state.response, state.filters, state.intent.value);
  }

  /** The reply's intent is "error" exactly when the graph failed, and one of the four labels otherwise. */
  lemma ReplyIntent(message: string, key: Option<string>, llmIntent: Option<string>,
                    llmFilters: Option<Filters>, failed: bool)
    ensures var r := ReplyFor(message, key, llmIntent, llmFilters, failed);
      (r.intent == ErrorIntent <==> failed) && (!failed ==> IsIntent(r.intent))
  {
  }

  /** Which filters each kind of reply carries. */
  lemma ReplyFilters(message: string, key: Option<string>, llmIntent: Option<string>,
                     llmFilters: Option<Filters>, failed: bool)
    ensures var r := ReplyFor(message, key, llmIntent, llmFilters, failed);
      && (r.intent == ClearIntent ==> r.filters == ClearFlag && r.response == ClearedText)
      && (r.intent == HelpIntent || r.intent == JobSearchIntent || r.intent == ErrorIntent ==> r.filters == map[])
      && (r.intent == FilterUpdate ==> r.filters == ExtractedFilters(message, key, llmFilters)
                                       && r.response == FilterResponse(r.filters))
  {
    if !failed {
      var intent := DetectedIntent(message, key, llmIntent);
      assert IsIntent(intent);
    }
  }

  /** The keyword fallback only sets keys from its own vocabulary, with values from fixed lists. */
  lemma KeywordVocabulary(m: string)
    ensures var f := KeywordFilters(m);
      && (forall k :: k in f ==> k in {"workMode", "jobType", "matchScore", "location"})
      && ("workMode" in f ==> f["workMode"] in {Str("on-site"), Str("hybrid"), Str("remote")})
      && ("jobType" in f ==> f["jobType"] in {Str("contract"), Str("part-time"), Str("full-time")})
      && ("matchScore" in f ==> f["matchScore"] == Str("high"))
      && ("location" in f ==> exists c :: 0 <= c < |Cities| && f["location"] == Str(Capitalize(Cities[c])))
  {
    CityFromList(m);
  }

  /** A city found in the message is one of the list's, capitalised. */
  lemma CityFromList(m: string)
    ensures LastCity(m, Cities).Some? ==>
      exists c :: 0 <= c < |Cities| && LastCity(m, Cities).value == Capitalize(Cities[c])
  {
    if LastCity(m, Cities).Some? {
      var c :| 0 <= c < |Cities| && Contains(m, Cities[c]) && forall j :: c < j < |Cities| ==> !Contains(m, Cities[j]) by {
        LastCityNone(m, Cities);
        LastCityExists(m, Cities);
      }
      LastCityIsLast(m, Cities, c);
    }
  }

  /** When some city is mentioned, there is a last one. */
  lemma {:induction false} LastCityExists(m: string, cities: seq<string>)
    requires exists k :: 0 <= k < |cities| && Contains(m, cities[k])
    ensures exists c :: 0 <= c < |cities| && Contains(m, cities[c]) && forall j :: c < j < |cities| ==> !Contains(m, cities[j])
    decreases |cities|
  {
    var n := |cities| - 1;
    if Contains(m, cities[n]) {
      assert 0 <= n < |cities| && Contains(m, cities[n]);
    } else {
      var init := cities[..n];
      var k :| 0 <= k < |cities| && Contains(m, cities[k]);
      assert init[k] == cities[k];
      LastCityExists(m, init);
      var c :| 0 <= c < |init| && Contains(m, init[c]) && forall j :: c < j < |init| ==> !Contains(m, init[j]);
      assert cities[c] == init[c];
      forall j | c < j < |cities|
        ensures !Contains(m, cities[j])
      {
        if j < n {
          assert cities[j] == init[j];
        }
      }
    }
  }

  /** The keyword fallback runs only when no usable model entry survived. */
  lemma FallbackOnlyWhenEmpty(message: string, key: Option<string>, parsed: Option<Filters>)
    ensures |LlmFilters(key, parsed)| > 0 ==> ExtractedFilters(message, key, parsed) == LlmFilters(key, parsed)
    ensures UsableKey(key) && parsed.Some? && (exists k :: k in parsed.value && Usable(parsed.value[k])) ==>
      ExtractedFilters(message, key, parsed) == UsableEntries(parsed.value)
  {
    if UsableKey(key) && parsed.Some? && (exists k :: k in parsed.value && Usable(parsed.value[k])) {
      var k :| k in parsed.value && Usable(parsed.value[k]);
      assert k in LlmFilters(key, parsed);
    }
  }

  /** The reply lists no filter exactly when none of the described keys is set. */
  lemma DescriptionsEmpty(f: Filters)
    ensures |Descriptions(f)| == 0 <==> forall k :: 0 <= k < |DescribedKeys| ==> !Present(f, DescribedKeys[k])
  {
    assert DescribedKeys[0] == "workMode" && DescribedKeys[1] == "jobType" && DescribedKeys[2] == "location"
      && DescribedKeys[3] == "search" && DescribedKeys[4] == "matchScore";
  }
}
