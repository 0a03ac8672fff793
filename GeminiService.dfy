/**
 * services/geminiService.ts: how the request prompt embeds the user's query and dietary tags,
 * and how the model's reply is turned into a recommendation or into the one failure message.
 * The remote call is the `Reply` value; `JSON.parse` is the `parse` parameter.
 */
module GeminiService {
  import opened Wrappers
  import opened Types
  import opened JsString
  import opened Constants

  /** The profile text used when the user has chosen no dietary tags. */
  const NoProfile: string := "None specified"

  /** The only error `analyzeShelfImage` ever reports. */
  const FailureMessage: string := "Failed to analyze the shelf. Please try again."

  /** The opening of the prompt, up to the user's query. */
  const PromptLead: string := "\n    I am at a grocery store and I have a request: \""

  /** The text between the query and the dietary profile. */
  const ProfileLead: string := "\". \n    My Dietary Profile / Global Preferences: "

  /** The dietary profile as the prompt states it: the tags joined with ", ", or "None specified" when there are none. */
  function ProfileText(tags: seq<string>): (r: string)
    ensures |tags| == 0 ==> r == NoProfile
    ensures |tags| == 1 ==> r == tags[0]
  {
    if |tags| > 0 then Join(tags, ListSeparator) else NoProfile
  }

  /** A non-empty profile of comma-free tags splits back into exactly those tags, in order. */
  lemma ProfileTextSplits(tags: seq<string>)
    requires |tags| > 0 && CommaFree(tags)
    ensures Split(ProfileText(tags)) == tags
  {
    SplitJoin(tags);
  }

  /** A profile made of tags from the settings catalogue lists exactly those tags, in order. */
  lemma CatalogueProfileSplits(tags: seq<string>)
    requires |tags| > 0
    requires forall k :: 0 <= k < |tags| ==> CatalogueTag(tags[k])
    ensures Split(ProfileText(tags)) == tags
  {
    forall k, i | 0 <= k < |tags| && 0 <= i < |tags[k]|
      ensures tags[k][i] != ','
    {
      CatalogueTagsHaveNoComma(tags[k]);
    }
    ProfileTextSplits(tags);
  }

  /**
   * The prompt sent with the image. `instructions` is the fixed remainder of the prompt (the
   * interpretation policy and the embedded schema), which has no interpolation of its own.
   * The query stands verbatim right after the lead, and the profile right after the query.
   */
  function Prompt(query: string, tags: seq<string>, instructions: string): (p: string)
    ensures |p| >= |PromptLead| + |query| + |ProfileLead| + |ProfileText(tags)|
    ensures p[..|PromptLead|] == PromptLead
    ensures p[|PromptLead|..][..|query|] == query
    ensures p[|PromptLead| + |query| + |ProfileLead|..][..|ProfileText(tags)|] == ProfileText(tags)
  {
    var profile := ProfileText(tags);
    var afterProfile := ".\n\n" + instructions;
    var afterQuery := ProfileLead + (profile + afterProfile);
    var afterLead := query + afterQuery;
    Concat(PromptLead, afterLead);
    Concat(query, afterQuery);
    Concat(ProfileLead, profile + afterProfile);
    Concat(profile, afterProfile);
    var p := PromptLead + afterLead;
    assert p[|PromptLead| + |query| + |ProfileLead|..] == profile + afterProfile;
    p
  }

  /** One grounding chunk of the reply's metadata; `web` may be absent. */
  datatype GroundingChunk = GroundingChunk(web: Option<Source>)

  /**
   * What the remote call produced: it threw, or it returned a reply with an optional text and
   * an optional list of grounding chunks (absent when any link of
   * `candidates[0].groundingMetadata.groundingChunks` is missing).
   */
  datatype Reply =
    | TransportFailure
    | Reply(text: Option<string>, groundingChunks: Option<seq<GroundingChunk>>)

  /** The clean-up applied to the reply text before parsing: drop every "```json", then every "```", then trim. */
  function CleanText(text: string): string
  {
    Trim(RemoveAll(RemoveAll(text, "```json"), Fence))
  }

  /** The clean-up only deletes characters: the result is no longer than the text and adds no character to it. */
  lemma CleanTextDeletesOnly(text: string)
    ensures |CleanText(text)| <= |text| && multiset(CleanText(text)) <= multiset(text)
  {
    var once := RemoveAll(text, "```json");
    var twice := RemoveAll(once, Fence);
    RemoveAllDeletes(text, "```json");
    RemoveAllDeletes(once, Fence);
    TrimDeletes(twice);
  }

  /** The cleaned text holds no three consecutive backticks and neither starts nor ends with whitespace. */
  lemma CleanTextShape(text: string)
    ensures Absent(CleanText(text), Fence)
    ensures CleanText(text) != [] ==> !IsSpace(CleanText(text)[0]) && !IsSpace(CleanText(text)[|CleanText(text)| - 1])
  {
    var stripped := RemoveAll(RemoveAll(text, "```json"), Fence);
    RemoveFenceAbsent(RemoveAll(text, "```json"));
    TrimIsSlice(stripped);
    var a, b :| 0 <= a <= b <= |stripped| && Trim(stripped) == stripped[a..b];
    AbsentSlice(stripped, Fence, a, b);
  }

  /** Cleaning twice is cleaning once. */
  lemma CleanTextIdempotent(text: string)
    ensures CleanText(CleanText(text)) == CleanText(text)
  {
    var once := CleanText(text);
    CleanTextShape(text);
    AbsentPrefix(once, Fence, "```json");
    RemoveAbsent(once, "```json");
    RemoveAbsent(once, Fence);
    TrimTrimmed(once);
  }

  /** Text without backticks is only trimmed: no surrounding prose is cut away. */
  lemma CleanTextWithoutTicks(text: string)
    requires '`' !in text
    ensures CleanText(text) == Trim(text)
  {
    NoTicksAbsent(text, "```json");
    RemoveAbsent(text, "```json");
    NoTicksAbsent(text, Fence);
    RemoveAbsent(text, Fence);
  }

  /** Text without backticks and without surrounding whitespace passes the clean-up unchanged. */
  lemma CleanTextPlainUnchanged(text: string)
    requires '`' !in text
    requires text != [] ==> !IsSpace(text[0]) && !IsSpace(text[|text| - 1])
    ensures CleanText(text) == text
  {
    CleanTextWithoutTicks(text);
    TrimTrimmed(text);
  }

  /** Prose around the JSON object survives the clean-up; nothing slices from the first brace to the last. */
  lemma CleanTextKeepsProse()
    ensures CleanText("Here:\n{\"matchType\":\"SUBSTITUTE\"}\nEnjoy!")
         == "Here:\n{\"matchType\":\"SUBSTITUTE\"}\nEnjoy!"
  {
    var text := "Here:\n{\"matchType\":\"SUBSTITUTE\"}\nEnjoy!";
    assert '`' !in text;
    assert !IsSpace(text[0]) && !IsSpace(text[|text| - 1]);
    CleanTextPlainUnchanged(text);
  }

  /** The `web` entries of the chunks that have one, in chunk order (`map(chunk => chunk.web)` then the null filter). */
  function VerifiedSources(chunks: seq<GroundingChunk>): (r: seq<Source>)
    ensures |r| <= |chunks|
    ensures forall s :: s in r <==> exists i :: 0 <= i < |chunks| && chunks[i].web == Some(s)
  {
    if chunks == [] then []
    else
      var rest := VerifiedSources(chunks[1..]);
      assert forall i :: 1 <= i < |chunks| ==> chunks[i] == chunks[1..][i - 1];
      match chunks[0].web
      case Some(s) => [s] + rest
      case None => rest
  }

  /** The filter works chunk by chunk, so it keeps the chunks' order. */
  lemma {:induction false} VerifiedSourcesAppend(a: seq<GroundingChunk>, b: seq<GroundingChunk>)
    ensures VerifiedSources(a + b) == VerifiedSources(a) + VerifiedSources(b)
    decreases |a|
  {
    if a == [] {
      assert a + b == b;
    } else {
      assert (a + b)[1..] == a[1..] + b;
      VerifiedSourcesAppend(a[1..], b);
    }
  }

  /** When every chunk has a `web` entry, the sources are exactly those entries, one per chunk. */
  lemma {:induction false} VerifiedSourcesAllWeb(chunks: seq<GroundingChunk>)
    requires forall i :: 0 <= i < |chunks| ==> chunks[i].web.Some?
    ensures |VerifiedSources(chunks)| == |chunks|
    ensures forall i :: 0 <= i < |chunks| ==> VerifiedSources(chunks)[i] == chunks[i].web.value
    decreases |chunks|
  {
    if chunks != [] {
      VerifiedSourcesAllWeb(chunks[1..]);
    }
  }

  /**
   * `analyzeShelfImage` after the request: reject a missing or empty text without parsing,
   * clean and parse it, then replace `verifiedSources` by the grounding sources when the reply
   * has grounding chunks (an empty chunk list included). Every failure is the one message.
   */
  method AnalyzeShelfImage(reply: Reply, parse: string -> Option<Recommendation>) returns (r: Result<Recommendation>)
    ensures r.Failure? ==> r.error == FailureMessage
    ensures reply.TransportFailure? ==> r.Failure?
    ensures reply.Reply? && !(reply.text.Some? && reply.text.value != "") ==> r.Failure?
    ensures r.Success? <==>
      reply.Reply? && reply.text.Some? && reply.text.value != "" && parse(CleanText(reply.text.value)).Some?
    ensures r.Success? ==>
      var data := parse(CleanText(reply.text.value)).value;
      match reply.groundingChunks
      case Some(chunks) => r.value == data.(verifiedSources := Some(VerifiedSources(chunks)))
      case None => r.value == data
  {
    if reply.TransportFailure? {
      return Failure(FailureMessage);
    }
    var textResponse := reply.text;
    if textResponse.None? || textResponse.value == "" {
      return Failure(FailureMessage);
    }
    var cleaned := CleanText(textResponse.value);
    var parsed := parse(cleaned);
    if parsed.None? {
      return Failure(FailureMessage);
    }
    var data := parsed.value;
    if reply.groundingChunks.Some? {
      data := data.(verifiedSources := Some(VerifiedSources(reply.groundingChunks.value)));
    }
    return Success(data);
  }
}
