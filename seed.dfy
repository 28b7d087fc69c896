/** The opening of a session: fetching the map text and seeding the
    transcript with the fixed system/user/assistant triple
    (app.py, `get_initial_message`). */
module Seed {
  import opened Wrappers
  import opened Text
  import opened Transcript

  /** What the document service's HTTP call yields: a response with its
      status code and the JSON `"text"` field if present, or a
      `requests` exception. */
  datatype FetchOutcome =
    | Response(status: int, text: Option<string>)
    | RequestException

  /** Why no map text was obtained; each one is reported as a warning. */
  datatype FetchError = BadStatus(status: int) | MissingTextKey | RequestFailed

  /** The map text of a fetch, or the reason it is missing. */
  function FetchMapText(f: FetchOutcome): Result<string, FetchError> {
    match f
    case RequestException => Err(RequestFailed)
    case Response(status, text) =>
      if status != 200 then Err(BadStatus(status))
      else if text.None? then Err(MissingTextKey)
      else Ok(text.value)
  }

  /** The warning a fetch leaves: none on success, otherwise the reason the
      map text is missing (one `st.warning` per failure kind). */
  function FetchWarning(f: FetchOutcome): (w: Option<FetchError>)
    ensures w.None? <==> (f.Response? && f.status == 200 && f.text.Some?)
    ensures w == Some(RequestFailed) <==> f.RequestException?
    ensures w == Some(MissingTextKey) <==> (f.Response? && f.status == 200 && f.text.None?)
    ensures (w.Some? && w.value.BadStatus?) <==> (f.Response? && f.status != 200)
    ensures w.Some? && w.value.BadStatus? ==> w.value.status == f.status
  {
    match FetchMapText(f)
    case Ok(_) => None
    case Err(e) => Some(e)
  }

  /** The fixed texts of the seed triple: the system instructions before and
      after the interpolated map text, the user message and the assistant
      message. */
  datatype SeedTemplate = SeedTemplate(
    systemPrefix: string,
    systemSuffix: string,
    userSeed: string,
    assistantSeed: string)

  /** The script's seed texts (app.py:56-90). The user message keeps its
      unfilled `{question}` placeholder. */
  const WardleyTemplate: SeedTemplate :=
    SeedTemplate(
      "\n"
      + "             As a chatbot, analyze the provided Wardley Map and offer insights and recommendations based on its components.\n"
      + "\n"
      + "             Suggestions:\n"
      + "             Request the Wardley Map for analysis\n"
      + "             Explain the analysis process for a Wardley Map\n"
      + "             Discuss the key insights derived from the map\n"
      + "             Provide recommendations based on the analysis\n"
      + "             Offer guidance for potential improvements or adjustments to the map\n"
      + "             WARDLEY MAP: ",
      "\n"
      + "             ",
      "{question} Output as markdown",
      "\n"
      + "            Here is a list of general questions that you could consider asking while examining any Wardley Map:\n"
      + "            1. What is the focus of this map - a specific industry, business process, or company's value chain?\n"
      + "            2. What are the main user needs the map is addressing, and have all relevant user needs been identified?\n"
      + "            3. Are the components correctly placed within the map based on their evolutions (Genesis, Custom Built, Product/Rental, Commodity)?\n"
      + "            4. What linkages exist between the components and how do they interact within the value chain?\n"
      + "             5. Can you identify any market trends or competitor activities that could impact the positioning of the components?\n"
      + "             6. Are there any potential inefficiencies or improvements that could be made in the value chain depicted in the map?\n"
      + "             7. How does your organization take advantage of upcoming opportunities or mitigate risks, considering the layout and components' evolutions on the map?\n"
      + "             8. Are there any areas where innovation or disruption could significantly alter the landscape represented in the map?\n"
      + "             It is essential to provide the actual Wardley Map in question to provide a more accurate, in-depth analysis of specific components or insights tailored to your map.\n"
      + "            ")

  /** The system instructions with the map text interpolated. */
  function SystemPrompt(tpl: SeedTemplate, mapText: string): string {
    tpl.systemPrefix + mapText + tpl.systemSuffix
  }

  /** The three roles of a freshly seeded transcript, in order. */
  predicate IsSeedTriple(ms: seq<Message>) {
    |ms| == 3 && ms[0].role == System && ms[1].role == User && ms[2].role == Assistant
  }

  /** The seeded transcript: the fixed triple around the fetched map text,
      or no messages at all when the fetch failed for any reason. */
  function GetInitialMessage(f: FetchOutcome, tpl: SeedTemplate): (r: seq<Message>)
    ensures r != [] <==> (f.Response? && f.status == 200 && f.text.Some?)
    ensures r != [] ==> IsSeedTriple(r)
    ensures r != [] ==> OccursAt(r[0].content, f.text.value, |tpl.systemPrefix|)
    ensures r != [] ==> r[1] == Message(User, tpl.userSeed) && r[2] == Message(Assistant, tpl.assistantSeed)
  {
    match FetchMapText(f)
    case Err(_) => []
    case Ok(mapText) =>
      var content := SystemPrompt(tpl, mapText);
      assert content[|tpl.systemPrefix|..|tpl.systemPrefix| + |mapText|] == mapText;
      [Message(System, content), Message(User, tpl.userSeed), Message(Assistant, tpl.assistantSeed)]
  }

  /** The map text a seeded system message carries, read back from it. */
  function SeededMapText(tpl: SeedTemplate, content: string): Option<string> {
    var p, q := tpl.systemPrefix, tpl.systemSuffix;
    if |p| + |q| <= |content| && content[..|p|] == p && content[|content| - |q|..] == q
    then Some(content[|p|..|content| - |q|])
    else None
  }

  /** The map text embedded in a seeded transcript is exactly the text the
      fetch returned: seeding loses nothing of it. */
  lemma SeedRoundTrip(f: FetchOutcome, tpl: SeedTemplate)
    requires FetchMapText(f).Ok?
    ensures SeededMapText(tpl, GetInitialMessage(f, tpl)[0].content) == Some(FetchMapText(f).value)
  {
    var t := FetchMapText(f).value;
    var c := SystemPrompt(tpl, t);
    var p, q := tpl.systemPrefix, tpl.systemSuffix;
    assert c[..|p|] == p;
    assert c[|c| - |q|..] == q;
    assert c[|p|..|c| - |q|] == t;
  }
}
