/**
 * Story packaging: pick the POIs, ask the language model for a story
 * about them, and when that fails answer with a templated story about
 * the first three POIs instead.
 */
module Story {
  import opened Types
  import opened JsText
  import opened Prompts
  import opened Selection

  /** What the story request to the language model yields: its text, or a failure. */
  datatype StoryReply = StoryFailed | StoryText(text: string)

  /** The language model as the story service sees it: a prompt in, a reply out. */
  type StoryService = string -> StoryReply

  /**
   * The apostrophe of the templated story as the source file spells it:
   * the UTF-8 bytes of U+2019 read back as Windows-1252 characters.
   */
  const Apostrophe: string := "\U{00E2}\U{20AC}\U{2122}"

  /** `selectedPOIs[0]`, which is `undefined` for an empty list. */
  function FirstOf(selected: seq<Poi>): (r: Option<Poi>)
    ensures r.Some? <==> selected != []
    ensures r.Some? ==> r.value == selected[0]
  {
    if selected == [] then None else Some(selected[0])
  }

  /** The templated story up to the list of POI summaries. */
  function TemplateOpening(): string {
    "\n" + Apostrophe + "k Heb wa schone plekjes " + "ontdekt ier in de buurt! " + "Zal ik u ne keer nen avontuur aanraden?\n"
    + "Nie ver van ier, vindt ge "
  }

  /** The templated story between the POI summaries and the recommended POI's name. */
  function TemplateRecommend(): string {
    ".\nIk zou aanraden om eerst naar "
  }

  /** The templated story after the recommended POI's name. */
  function TemplateClosing(next: Poi): string {
    " te gaan, da" + Apostrophe + "s maar " + DistanceText(next.distance) + " meter van ier. "
    + Apostrophe + "t Schijnt nen interessante " + next.poiType
    + " te zijn. Laat maar weten as ge der zijt, " + "dan vertel ik u nog wa meer!\n"
    + "Wa denkt ge? Goesting om ernaartoe te gaan?"
  }

  /** The first-interaction story of `generateSimulatedStoryResponse`. */
  function SimulatedStoryText(selected: seq<Poi>, next: Poi): string {
    TemplateOpening() + SummaryList(selected) + TemplateRecommend() + next.name + TemplateClosing(next)
  }

  /** Where the recommended POI's name starts in the templated story. */
  function NameOffset(selected: seq<Poi>): nat {
    |TemplateOpening() + SummaryList(selected) + TemplateRecommend()|
  }

  /**
   * `generateSimulatedStoryResponse(pois, previousMessages)`. Without
   * history and without POIs the template reads a field of `undefined`
   * and throws.
   */
  function SimulatedStoryResponse(pois: seq<Poi>, history: seq<Message>): (r: Result<StoryResponse>)
    ensures r.Ok? <==> pois != [] || history != []
    ensures r.Ok? ==> r.value.selectedPois == Take(pois, SelectionSize)
    ensures r.Ok? ==> r.value.nextDestination == FirstOf(r.value.selectedPois)
    ensures r.Ok? ==> (|r.value.story| == 0 <==> history != [])
  {
    var selected := Take(pois, SelectionSize);
    var next := FirstOf(selected);
    if history != [] then Ok(StoryResponse(selected, "", next))
    else if next.None? then Err("Cannot read properties of undefined (reading 'name')")
    else Ok(StoryResponse(selected, SimulatedStoryText(selected, next.value), next))
  }

  /**
   * On a first interaction the templated story recommends the first POI
   * by name, right after "Ik zou aanraden om eerst naar ", with the
   * summaries of the first three POIs before that.
   */
  lemma SimulatedStoryNamesFirstPoi(pois: seq<Poi>)
    requires pois != []
    ensures var r := SimulatedStoryResponse(pois, []);
      var k := NameOffset(Take(pois, SelectionSize));
      && r.Ok?
      && k + |pois[0].name| <= |r.value.story|
      && r.value.story[k..k + |pois[0].name|] == pois[0].name
      && r.value.story[..k] == TemplateOpening() + SummaryList(Take(pois, SelectionSize)) + TemplateRecommend()
  {
    var selected := Take(pois, SelectionSize);
    Cut(TemplateOpening() + SummaryList(selected) + TemplateRecommend(), pois[0].name, TemplateClosing(pois[0]));
  }

  /**
   * `generateStory(pois, previousMessages)`: select, build the story
   * prompt, ask the model; any failure on the way falls back to the
   * templated response for the whole input.
   */
  method GenerateStory(pois: seq<Poi>, history: seq<Message>, selector: SelectionService, narrator: StoryService)
    returns (r: Result<StoryResponse>)
    ensures var selected := Select(pois, selector);
      match narrator(StoryPrompt(selected, history))
      case StoryText(text) => r == Ok(StoryResponse(selected, text, FirstOf(selected)))
      case StoryFailed => r == SimulatedStoryResponse(pois, history)
    ensures pois != [] ==> r.Ok?
    ensures r.Ok? ==> r.value.nextDestination == FirstOf(r.value.selectedPois)
    ensures r.Ok? && |pois| > SelectionSize ==> |r.value.selectedPois| == SelectionSize
    ensures r.Ok? ==> forall p :: p in r.value.selectedPois ==> p in pois
  {
    var selected, _ := SelectInterestingPois(pois, selector);
    var next := FirstOf(selected);
    var prompt := StoryPrompt(selected, history);
    var reply := narrator(prompt);
    if reply.StoryText? {
      r := Ok(StoryResponse(selected, reply.text, next));
    } else {
      r := SimulatedStoryResponse(pois, history);
    }
  }
}
