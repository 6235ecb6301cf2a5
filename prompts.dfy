/**
 * The prompt texts the story service sends to the language model, and
 * the POI descriptions they embed. All of them are plain string building.
 */
module Prompts {
  import opened Types
  import opened JsText

  /** `${poi.distance}`: the optional distance prints as "undefined" when absent. */
  function DistanceText(d: Option<int>): (r: string)
    ensures '\n' !in r
  {
    match d
    case None => "undefined"
    case Some(v) => NoNewlineInNumber(v); IntToString(v)
  }

  lemma NoNewlineInNumber(v: int)
    ensures '\n' !in IntToString(v)
  {
    var digits := NatToString(if v < 0 then -v else v);
    assert forall i :: 0 <= i < |digits| ==> IsAsciiDigit(digits[i]);
    if v < 0 {
      assert IntToString(v) == "-" + digits;
    }
  }

  /** `${poi.name} (${poi.type}, ${poi.distance}m away)` */
  function PoiSummary(p: Poi): string {
    p.name + " (" + p.poiType + ", " + DistanceText(p.distance) + "m away)"
  }

  /** A POI whose name and type are single-line strings. */
  predicate SingleLine(p: Poi) {
    '\n' !in p.name && '\n' !in p.poiType
  }

  lemma SummaryIsSingleLine(p: Poi)
    requires SingleLine(p)
    ensures '\n' !in PoiSummary(p)
  {
    var d := DistanceText(p.distance);
    assert PoiSummary(p) == p.name + " (" + p.poiType + ", " + d + "m away)";
    forall i | 0 <= i < |PoiSummary(p)| ensures PoiSummary(p)[i] != '\n' {
      var a := |p.name| + 2;
      var b := a + |p.poiType| + 2;
      var c := b + |d|;
      if i < |p.name| {
        assert PoiSummary(p)[i] == p.name[i];
      } else if a <= i < a + |p.poiType| {
        assert PoiSummary(p)[i] == p.poiType[i - a];
      } else if b <= i < c {
        assert PoiSummary(p)[i] == d[i - b];
      }
    }
  }

  // ----- the selection prompt -----

  /** `pois.map((poi, index) => `${index + 1}. ${...}`)`: the list numbers POIs 1..n in input order. */
  function SelectionLines(pois: seq<Poi>): (r: seq<string>)
    ensures |r| == |pois|
  {
    seq(|pois|, i requires 0 <= i < |pois| => IntToString(i + 1) + ". " + PoiSummary(pois[i]))
  }

  // The fixed texts below are written as short literal pieces joined by `+`:
  // the verifier handles one long literal far less efficiently.

  /** The selection prompt before the numbered list. */
  const SelectionIntro: string :=
    "\n"
    + "You are an AI travel guide tasked with " + "selecting the most interesting locations " + "from a list.\n"
    + "Your goal is to choose exactly 3 diverse " + "and engaging points of interest that would " + "make for an interesting adventure.\n"
    + "\n"
    + "Here are the points of interest, with their " + "name, type, and distance from the user:\n"

  /** The selection prompt after the numbered list. */
  const SelectionOutro: string :=
    "\n"
    + "\n"
    + "Select the 3 most interesting, diverse, and " + "unique locations from this list.\n"
    + "Format your response as a JSON array with " + "just the indices (1-based) of your " + "selections.\n"
    + "Example: [4, 7, 12]\n"

  /** `selectInterestingPOIs`' prompt (see `SelectionPromptParts`). */
  function SelectionPrompt(pois: seq<Poi>): string {
    SelectionIntro + Join(SelectionLines(pois), "\n") + SelectionOutro
  }

  /**
   * The selection prompt is the introduction, then the numbered list of the
   * POIs (one line each, see `SelectionListNumbersPois`), then the answer format.
   */
  lemma SelectionPromptParts(pois: seq<Poi>)
    ensures |SelectionIntro| + |Join(SelectionLines(pois), "\n")| <= |SelectionPrompt(pois)|
    ensures SelectionPrompt(pois)[..|SelectionIntro|] == SelectionIntro
    ensures SelectionPrompt(pois)[|SelectionIntro|..|SelectionIntro| + |Join(SelectionLines(pois), "\n")|]
         == Join(SelectionLines(pois), "\n")
    ensures SelectionPrompt(pois)[|SelectionIntro| + |Join(SelectionLines(pois), "\n")|..] == SelectionOutro
  {
    Cut(SelectionIntro, Join(SelectionLines(pois), "\n"), SelectionOutro);
  }

  /**
   * Read back line by line, the numbered list of the selection prompt has
   * one line per POI, in input order, the i-th reading "i. name (type, Nm away)".
   */
  lemma SelectionListNumbersPois(pois: seq<Poi>)
    requires pois != []
    requires forall i :: 0 <= i < |pois| ==> SingleLine(pois[i])
    ensures var lines := Split(Join(SelectionLines(pois), "\n"), '\n');
      && |lines| == |pois|
      && forall i :: 0 <= i < |pois| ==> lines[i] == IntToString(i + 1) + ". " + PoiSummary(pois[i])
  {
    var lines := SelectionLines(pois);
    forall i | 0 <= i < |lines| ensures '\n' !in lines[i] {
      SummaryIsSingleLine(pois[i]);
      NoNewlineInNumber(i + 1);
      var number := IntToString(i + 1);
      assert lines[i] == number + ". " + PoiSummary(pois[i]);
      forall k | 0 <= k < |lines[i]| ensures lines[i][k] != '\n' {
        if k < |number| {
          assert lines[i][k] == number[k];
        } else if k >= |number| + 2 {
          assert lines[i][k] == PoiSummary(pois[i])[k - |number| - 2];
        }
      }
    }
    SplitJoin(lines, '\n');
  }

  // ----- the story prompt -----

  /** `- ${poi.name} (${poi.type}, ${poi.distance}m away)` */
  function StoryPoiLine(p: Poi): string {
    "- " + PoiSummary(p)
  }

  function StoryPoiLines(selected: seq<Poi>): (r: seq<string>)
    ensures |r| == |selected|
  {
    seq(|selected|, i requires 0 <= i < |selected| => StoryPoiLine(selected[i]))
  }

  function RoleText(role: Role): string {
    match role
    case User => "user"
    case Assistant => "assistant"
  }

  /** `${msg.role}: ${msg.content}` */
  function MessageLine(m: Message): string {
    RoleText(m.role) + ": " + m.content
  }

  /** One `role: content` entry per message, in order. */
  function MessageLines(history: seq<Message>): (r: seq<string>)
    ensures |r| == |history|
  {
    seq(|history|, i requires 0 <= i < |history| => MessageLine(history[i]))
  }

  function ConversationContext(history: seq<Message>): string {
    Join(MessageLines(history), "\n")
  }

  const ContextHeader: string := "Previous conversation context:\n"

  /** The conditional block of the story prompt. */
  function ContextBlock(history: seq<Message>): (r: string)
    ensures r == "" <==> history == []
    ensures history != [] ==> |ContextHeader| <= |r| && r[..|ContextHeader|] == ContextHeader
    ensures history != [] ==> r[|ContextHeader|..] == ConversationContext(history)
  {
    if |history| > 0 then ContextHeader + ConversationContext(history) else ""
  }

  /** The story prompt before the POI list. */
  const StoryIntro: string :=
    "You are a local guide and storyteller named " + "Wanderlust Assistant.\n"
    + "The user is currently at a location near " + "these points of interest:\n"

  /** The story prompt after the context block. */
  const StoryInstructions: string :=
    "Create an engaging narrative that connects " + "these 3 locations. Make the story feel like " + "an adventure or a discovery.\n"
    + "Recommend the first location in the list as " + "the next destination for the user to visit.\n"
    + "Your response should be friendly and " + "conversational, as if you're a " + "knowledgeable local friend showing them " + "around.\n"
    + "Include some brief historical or " + "interesting facts about these places.\n"
    + "End with a question that encourages the " + "user to visit the recommended destination.\n"
    + "\n"
    + "Answer in Flemish, more specifically in the " + "dialect of Antwerp, Belgium. Your name is " + "TomTom Waes. \n"
    + "Use a lot of mannerisms and local " + "expressions and slang, like \"manneke toch\", " + "\"verdoemme toch\", \"fok he\", \"wa denkt ge " + "daarvan?\", \"ge zij van 't stad\", \"'t stad " + "en de rest is parking\" ."

  /** `createStoryPrompt(selectedPOIs, previousMessages)` (see `StoryPromptParts`). */
  function StoryPrompt(selected: seq<Poi>, history: seq<Message>): string {
    StoryHead(selected) + ContextBlock(history) + StoryTail()
  }

  /** The story prompt up to the place of the context block. */
  function StoryHead(selected: seq<Poi>): string {
    StoryIntro + Join(StoryPoiLines(selected), "\n") + "\n\n"
  }

  /** The story prompt after the place of the context block. */
  function StoryTail(): string {
    "\n\n" + StoryInstructions
  }

  /**
   * The story prompt is the introduction and the POI list, then the
   * context block, which is there only when there is history, then the
   * instructions.
   */
  lemma StoryPromptParts(selected: seq<Poi>, history: seq<Message>)
    ensures |StoryHead(selected)| + |ContextBlock(history)| <= |StoryPrompt(selected, history)|
    ensures StoryPrompt(selected, history)[..|StoryHead(selected)|] == StoryHead(selected)
    ensures StoryPrompt(selected, history)[|StoryHead(selected)|..|StoryHead(selected)| + |ContextBlock(history)|]
         == ContextBlock(history)
    ensures StoryPrompt(selected, history)[|StoryHead(selected)| + |ContextBlock(history)|..] == StoryTail()
  {
    Cut(StoryHead(selected), ContextBlock(history), StoryTail());
  }

  /** Without history the POI list and the instructions meet directly: there is no context block. */
  lemma PromptWithoutHistory(selected: seq<Poi>)
    ensures StoryPrompt(selected, []) == StoryHead(selected) + StoryTail()
  {
    AppendEmpty(StoryHead(selected), StoryTail());
  }

  /** Appending the empty string in the middle changes nothing; stated on variables, so the long prompt texts stay out of the proof. */
  lemma AppendEmpty(a: string, b: string)
    ensures a + "" + b == a + b
  {
  }

  /**
   * Read back line by line, the POI list of the story prompt has one
   * "- name (type, Nm away)" line per selected POI, in order.
   */
  lemma StoryListOneLinePerPoi(selected: seq<Poi>)
    requires selected != []
    requires forall i :: 0 <= i < |selected| ==> SingleLine(selected[i])
    ensures var lines := Split(Join(StoryPoiLines(selected), "\n"), '\n');
      && |lines| == |selected|
      && forall i :: 0 <= i < |selected| ==> lines[i] == "- " + PoiSummary(selected[i])
  {
    var lines := StoryPoiLines(selected);
    forall i | 0 <= i < |lines| ensures '\n' !in lines[i] {
      SummaryIsSingleLine(selected[i]);
      assert lines[i] == "- " + PoiSummary(selected[i]);
      forall k | 2 <= k < |lines[i]| ensures lines[i][k] != '\n' {
        assert lines[i][k] == PoiSummary(selected[i])[k - 2];
      }
    }
    SplitJoin(lines, '\n');
  }

  /**
   * A message spans the lines of its content, the first of them prefixed
   * with the role: a multi-line story gives several lines.
   */
  lemma MessageLineSplit(m: Message)
    ensures var parts := Split(m.content, '\n');
      Split(MessageLine(m), '\n') == [RoleText(m.role) + ": " + parts[0]] + parts[1..]
  {
    var prefix := RoleText(m.role) + ": ";
    assert '\n' !in prefix;
    assert MessageLine(m) == prefix + m.content;
    SplitAfterPrefix(prefix, m.content, '\n');
  }

  /**
   * Read back line by line, the context is the lines of each message in
   * turn, in message order, whatever the messages hold; see `MessageLineSplit`
   * for the lines of one message.
   */
  lemma ContextLinesPerMessage(history: seq<Message>)
    requires history != []
    ensures Split(ConversationContext(history), '\n') == SplitEach(MessageLines(history), '\n')
  {
    SplitJoinEach(MessageLines(history), '\n');
  }

  /**
   * When no message holds a line break, the context reads back as one
   * "role: content" line per message, in order.
   */
  lemma ContextOneLinePerMessage(history: seq<Message>)
    requires history != []
    requires forall i :: 0 <= i < |history| ==> '\n' !in history[i].content
    ensures var lines := Split(ConversationContext(history), '\n');
      && |lines| == |history|
      && forall i :: 0 <= i < |history| ==> lines[i] == RoleText(history[i].role) + ": " + history[i].content
  {
    var lines := MessageLines(history);
    forall i | 0 <= i < |lines| ensures '\n' !in lines[i] {
      var role := RoleText(history[i].role);
      assert lines[i] == role + ": " + history[i].content;
      forall k | |role| + 2 <= k < |lines[i]| ensures lines[i][k] != '\n' {
        assert lines[i][k] == history[i].content[k - |role| - 2];
      }
    }
    SplitJoin(lines, '\n');
  }

  /** The simulated story's `poiDescriptions`: summaries joined by ", ". */
  function SummaryList(selected: seq<Poi>): string {
    Join(seq(|selected|, i requires 0 <= i < |selected| => PoiSummary(selected[i])), ", ")
  }
}
