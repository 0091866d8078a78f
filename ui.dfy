/**
 * The sheet renderer and settings state of scripts/ui.js.
 *
 * `state` is a JavaScript object whose fields hold whatever the inputs or
 * the stored record put there, so it is a map from field names to
 * JavaScript values. The rendered sheet is kept as a value (`Layer`s)
 * rather than as DOM nodes.
 */
module UI {
  import opened Wrappers
  import AI

  /** A JavaScript value as it can appear in `state`. */
  datatype Value =
    | Undefined
    | Null
    | Bool(b: bool)
    | Num(n: real)
    | Str(s: string)
    | Composite   // any object or array

  /** JavaScript truthiness (NaN is not modelled). */
  predicate Truthy(v: Value)
  {
    match v
    case Undefined => false
    case Null => false
    case Bool(b) => b
    case Num(n) => n != 0.0
    case Str(s) => s != ""
    case Composite => true
  }

  type State = map<string, Value>

  /** `state.key`: undefined when the field is absent. */
  function Get(s: State, key: string): Value
  {
    if key in s then s[key] else Undefined
  }

  /** `DEFAULT_STATE`. */
  const DefaultState: State := map[
    "paperSize" := Str("A4"),
    "orientation" := Str("portrait"),
    "guideSize" := Num(14.0),
    "fontFamily" := Str("Raleway Dots"),
    "fontColor" := Str("#000000"),
    "guideColor" := Str("#9ca3af"),
    "text" := Str("The quick brown fox jumps over the lazy dog."),
    "mode" := Str("custom"),
    "showGuides" := Bool(true),
    "textScale" := Num(0.8),
    "baselineOffset" := Num(2.0)
  ]

  /** What the 'inkflow_state' storage key yields when the page loads. */
  datatype Stored =
    | Absent              // no item, or an empty string
    | Malformed           // JSON.parse throws
    | Record(fields: State)  // the own fields of what JSON.parse returned

  /**
   * `loadState`'s merge `{ ...DEFAULT_STATE, ...parsed }`: every default
   * field is present, a stored field wins over its default, and without a
   * parsed record the current state stays as it is.
   */
  function Loaded(current: State, stored: Stored): (s: State)
    ensures stored.Record? ==>
      && s.Keys == DefaultState.Keys + stored.fields.Keys
      && (forall k :: k in stored.fields ==> s[k] == stored.fields[k])
      && (forall k :: k in DefaultState && k !in stored.fields ==> s[k] == DefaultState[k])
    ensures !stored.Record? ==> s == current
  {
    match stored
    case Record(fields) => DefaultState + fields
    case _ => current
  }

  /** A saved state (which holds every default field) loads back unchanged. */
  lemma ReloadRoundTrip(current: State, saved: State)
    requires DefaultState.Keys <= saved.Keys
    ensures Loaded(current, Record(saved)) == saved
  {
    var s := Loaded(current, Record(saved));
    assert s.Keys == saved.Keys;
  }

  /** A malformed or missing record leaves the initial state equal to the defaults. */
  lemma UnreadableRecordKeepsDefaults(stored: Stored)
    requires !stored.Record?
    ensures Loaded(DefaultState, stored) == DefaultState
  {
  }

  /** The text the alphabet mode writes. */
  const AlphabetText: string :=
    "A B C D E F G H I J K L M N O P Q R S T U V W X Y Z\na b c d e f g h i j k l m n o p q r s t u v w x y z"

  /** The state after a mode button is clicked. */
  function WithMode(s: State, mode: string): (r: State)
    ensures r.Keys == s.Keys + {"mode"} + (if mode == "alphabet" then {"text"} else {})
    ensures r["mode"] == Str(mode)
    ensures mode == "alphabet" ==> r["text"] == Str(AlphabetText)
    ensures mode != "alphabet" ==> Get(r, "text") == Get(s, "text")
    ensures forall k :: k in s && k != "mode" && k != "text" ==> r[k] == s[k]
  {
    var r := s["mode" := Str(mode)];
    if mode == "alphabet" then r["text" := Str(AlphabetText)] else r
  }

  // ----- Render plan -----

  /** The page height every sheet is laid out for, in mm. */
  const PageHeight: int := 297

  /** Where a guide rule sits in its row. */
  datatype Position = Top | Middle | Bottom

  datatype Stroke = Solid | Dashed

  /** One horizontal guide rule. */
  datatype Rule = Rule(position: Position, stroke: Stroke, color: Value)

  /** One guide row: its height in mm and its rules, top to bottom. */
  datatype Row = Row(height: int, rules: seq<Rule>)

  /** The text overlay and the CSS properties rendering gives it (lengths in mm). */
  datatype TextBlock = TextBlock(
    fontFamily: Value,   // followed by the fallback family monospace
    fontSize: real,
    lineHeight: int,
    color: Value,
    paddingLeft: int,
    paddingRight: int,
    paddingTop: int,
    offsetY: Value,      // translateY
    content: Value)

  /** A child of the sheet element. */
  datatype Layer = Guides(rows: seq<Row>) | Overlay(block: TextBlock)

  /**
   * What rendering reads besides `state`: `parseInt(state.guideSize)` and
   * `parseFloat(state.textScale)` (None for NaN).
   */
  datatype Metrics = Metrics(lineHeight: int, textScale: Option<real>)

  /** `Math.floor(297 / lineHeight)`. */
  function RowsPerPage(lineHeight: int): (n: int)
    requires lineHeight != 0
    ensures lineHeight > 0 ==> n * lineHeight <= PageHeight < (n + 1) * lineHeight
    ensures lineHeight < 0 ==> n * lineHeight >= PageHeight > (n + 1) * lineHeight
  {
    if lineHeight > 0 then PageHeight / lineHeight else (-PageHeight) / (-lineHeight)
  }

  /** Fourteen-millimetre guides give 21 rows; guides taller than the page give none. */
  lemma RowsPerPageExamples(lineHeight: int)
    requires lineHeight > PageHeight
    ensures RowsPerPage(14) == 21
    ensures RowsPerPage(lineHeight) == 0
  {
  }

  /** How many rows the `for` loop appends: none when the quotient is negative. */
  function RowCount(lineHeight: int): (n: nat)
    requires lineHeight != 0
    ensures lineHeight > 0 ==> n == RowsPerPage(lineHeight)
    ensures lineHeight < 0 ==> n == 0
  {
    if RowsPerPage(lineHeight) > 0 then RowsPerPage(lineHeight) else 0
  }

  /** `fontSize`: the line height times the scale, or times 0.75 when the scale is 0 or NaN. */
  function FontSize(lineHeight: int, textScale: Option<real>): (size: real)
    ensures textScale.Some? && textScale.value != 0.0 ==> size == lineHeight as real * textScale.value
    ensures textScale == None || textScale == Some(0.0) ==> size == lineHeight as real * 0.75
    ensures lineHeight > 0 && textScale.Some? && 0.0 < textScale.value <= 1.0 ==> 0.0 < size <= lineHeight as real
  {
    var scale := if textScale.Some? && textScale.value != 0.0 then textScale.value else 0.75;
    if lineHeight > 0 && 0.0 < scale <= 1.0 then ScaleBound(lineHeight as real, scale); lineHeight as real * scale
    else lineHeight as real * scale
  }

  /** Scaling a positive length by a factor in (0, 1] keeps it positive and no longer. */
  lemma ScaleBound(x: real, k: real)
    requires x > 0.0 && 0.0 < k <= 1.0
    ensures 0.0 < x * k <= x
  {
    assert x * k <= x * 1.0;
  }

  /** One guide row: as tall as a line, a solid top rule, a dashed middle rule and a solid bottom rule, all in `color`. */
  function GuideRow(lineHeight: int, color: Value): (row: Row)
    ensures row.height == lineHeight && |row.rules| == 3
    ensures row.rules[0].position == Top && row.rules[1].position == Middle && row.rules[2].position == Bottom
    ensures forall r :: r in row.rules ==> r.color == color && (r.stroke == Dashed <==> r.position == Middle)
  {
    Row(lineHeight, [Rule(Top, Solid, color), Rule(Middle, Dashed, color), Rule(Bottom, Solid, color)])
  }

  /**
   * The text layer: the state's font family and colour, the line height,
   * 10 mm side paddings and 1 mm top padding; an unset (falsy) text shows
   * as the empty string and an unset baseline offset as 0.
   */
  function Block(s: State, m: Metrics): (b: TextBlock)
    ensures b.fontFamily == Get(s, "fontFamily") && b.color == Get(s, "fontColor")
    ensures b.fontSize == FontSize(m.lineHeight, m.textScale) && b.lineHeight == m.lineHeight
    ensures b.paddingLeft == 10 && b.paddingRight == 10 && b.paddingTop == 1
    ensures Truthy(Get(s, "text")) ==> b.content == Get(s, "text")
    ensures !Truthy(Get(s, "text")) ==> b.content == Str("")
    ensures Truthy(Get(s, "baselineOffset")) ==> b.offsetY == Get(s, "baselineOffset")
    ensures !Truthy(Get(s, "baselineOffset")) ==> b.offsetY == Num(0.0)
  {
    TextBlock(
      Get(s, "fontFamily"),
      FontSize(m.lineHeight, m.textScale),
      m.lineHeight,
      Get(s, "fontColor"),
      10, 10, 1,
      if Truthy(Get(s, "baselineOffset")) then Get(s, "baselineOffset") else Num(0.0),
      if Truthy(Get(s, "text")) then Get(s, "text") else Str(""))
  }

  /**
   * The children `renderSheet` leaves on the sheet: the guides layer, then
   * the text layer.
   */
  function SheetPlan(s: State, m: Metrics): (layers: seq<Layer>)
    requires m.lineHeight != 0
    ensures |layers| == 2 && layers[0].Guides? && layers[1] == Overlay(Block(s, m))
  {
    var color := Get(s, "guideColor");
    [Guides(seq(RowCount(m.lineHeight), _ => GuideRow(m.lineHeight, color))), Overlay(Block(s, m))]
  }

  /**
   * A render plan holds RowsPerPage rows (none for a negative line height),
   * each as tall as a line and ruled solid, dashed and solid in the guide
   * colour, under a text block that carries the text, font and colour
   * settings with the source's fallbacks.
   */
  lemma SheetPlanShape(s: State, m: Metrics)
    requires m.lineHeight != 0
    ensures var layers := SheetPlan(s, m);
      && |layers| == 2 && layers[0].Guides? && layers[1].Overlay?
      && (m.lineHeight > 0 ==> |layers[0].rows| == RowsPerPage(m.lineHeight))
      && (m.lineHeight < 0 ==> layers[0].rows == [])
      && forall row :: row in layers[0].rows ==>
           var c := Get(s, "guideColor");
           row.height == m.lineHeight &&
           row.rules == [Rule(Top, Solid, c), Rule(Middle, Dashed, c), Rule(Bottom, Solid, c)]
    ensures var b := SheetPlan(s, m)[1].block;
      && b.fontFamily == Get(s, "fontFamily")
      && b.lineHeight == m.lineHeight
      && b.color == Get(s, "fontColor")
      && b.paddingLeft == 10 && b.paddingRight == 10 && b.paddingTop == 1
      && (Truthy(Get(s, "text")) ==> b.content == Get(s, "text"))
      && (!Truthy(Get(s, "text")) ==> b.content == Str(""))
      && (Truthy(Get(s, "baselineOffset")) ==> b.offsetY == Get(s, "baselineOffset"))
      && (!Truthy(Get(s, "baselineOffset")) ==> b.offsetY == Num(0.0))
      && (m.textScale.Some? && m.textScale.value != 0.0 ==> b.fontSize == m.lineHeight as real * m.textScale.value)
      && (m.textScale == None || m.textScale == Some(0.0) ==> b.fontSize == m.lineHeight as real * 0.75)
  {
  }

  /** The default settings render as 21 rows of 14 mm under 11.2 mm text. */
  lemma DefaultSheet()
    ensures var layers := SheetPlan(DefaultState, Metrics(14, Some(0.8)));
      |layers[0].rows| == 21 && layers[1].block.fontSize == 11.2
      && layers[1].block.content == Str("The quick brown fox jumps over the lazy dog.")
  {
    SheetPlanShape(DefaultState, Metrics(14, Some(0.8)));
    assert RowsPerPage(14) == 21;
  }

  /** The text `generateContent` assembles from the tokens `onToken` receives. */
  method Accumulate(tokens: seq<string>) returns (text: string)
    ensures text == AI.Concat(tokens)
  {
    text := "";
    for i := 0 to |tokens|
      invariant text == AI.Concat(tokens[..i])
    {
      assert tokens[..i + 1][..i] == tokens[..i];
      text := text + tokens[i];
    }
    assert tokens[..|tokens|] == tokens;
  }

  /** The topic the generate button uses: the input's value, or "fun facts" when it is empty. */
  function Topic(input: string): (t: string)
    ensures t != ""
    ensures input != "" ==> t == input
    ensures input == "" ==> t == "fun facts"
  {
    if input != "" then input else "fun facts"
  }

  const PromptHead: string := "Generate 5 simple, clear sentences about "
  const PromptTail: string := " suitable for handwriting practice. Do not use numbering or bullets. Just the sentences."

  /** The user message `generateContent` sends: the topic, in double quotes, inside a fixed request. */
  function Prompt(topic: string): string
  {
    PromptHead + "\"" + topic + "\"" + PromptTail
  }

  /** The middle of `a + t + b` is `t`, with `a` before it and `b` after it. */
  lemma {:induction false} Sandwich(a: string, t: string, b: string)
    ensures var p := a + t + b;
      |p| == |a| + |t| + |b| && p[..|a|] == a && p[|a|..|a| + |t|] == t && p[|a| + |t|..] == b
  {
  }

  /**
   * The prompt carries the topic verbatim between two double quotes right
   * after the fixed head, and ends with the fixed tail.
   */
  lemma PromptQuotesTopic(topic: string)
    ensures var p := Prompt(topic); var h := |PromptHead| + 1;
      && |p| == h + |topic| + 1 + |PromptTail|
      && p[..h] == PromptHead + "\"" && p[h..h + |topic|] == topic
      && p[h + |topic|..] == "\"" + PromptTail
  {
    Sandwich(PromptHead + "\"", topic, "\"" + PromptTail);
    assert Prompt(topic) == (PromptHead + "\"") + topic + ("\"" + PromptTail);
  }

  /** Different topics give different prompts. */
  lemma PromptInjective(topic: string, other: string)
    ensures Prompt(topic) == Prompt(other) <==> topic == other
  {
    if Prompt(topic) == Prompt(other) {
      PromptQuotesTopic(topic);
      PromptQuotesTopic(other);
    }
  }

  const TeacherPrompt: string := "You are a helpful teacher."

  /** The page: the module-level `state`, the sheet element's children and the saved record. */
  class App {
    var state: State
    var sheet: seq<Layer>
    /** The record this page last wrote to the 'inkflow_state' key. */
    ghost var written: Option<State>

    /** Every default field is present in the state and in what was saved. */
    ghost predicate Valid()
      reads this
    {
      && DefaultState.Keys <= state.Keys
      && (written.Some? ==> DefaultState.Keys <= written.value.Keys)
    }

    /** `let state = { ...DEFAULT_STATE }` before the page initialises. */
    constructor ()
      ensures Valid() && state == DefaultState && sheet == [] && written == None
    {
      state := DefaultState;
      sheet := [];
      written := None;
    }

    /** `loadState`, without populating the inputs. */
    method LoadState(stored: Stored)
      requires Valid()
      modifies this`state
      ensures Valid() && state == Loaded(old(state), stored)
    {
      match stored {
        case Record(fields) => state := DefaultState + fields;
        case _ =>
      }
    }

    /** `saveState`. */
    method SaveState()
      requires Valid()
      modifies this`written
      ensures Valid() && written == Some(state)
      ensures Loaded(DefaultState, Record(written.value)) == state
    {
      written := Some(state);
      ReloadRoundTrip(DefaultState, state);
    }

    /** `renderSheet`: empties the sheet, then appends the guides and the text layer. */
    method RenderSheet(m: Metrics)
      requires m.lineHeight != 0
      modifies this`sheet
      ensures sheet == SheetPlan(state, m)
    {
      sheet := [];
      var lineHeight := m.lineHeight;
      var rowsPerPage := RowsPerPage(lineHeight);
      var color := Get(state, "guideColor");
      var rows := [];
      var i := 0;
      while i < rowsPerPage
        invariant 0 <= i <= RowCount(lineHeight)
        invariant |rows| == i
        invariant forall j :: 0 <= j < i ==> rows[j] == GuideRow(lineHeight, color)
      {
        rows := rows + [GuideRow(lineHeight, color)];
        i := i + 1;
      }
      assert rows == seq(RowCount(lineHeight), _ => GuideRow(lineHeight, color));
      sheet := sheet + [Guides(rows), Overlay(Block(state, m))];
    }

    /** `init`: load the stored settings, then render. */
    method Init(stored: Stored, m: Metrics)
      requires Valid() && m.lineHeight != 0
      modifies this
      ensures Valid()
      ensures state == Loaded(old(state), stored) && sheet == SheetPlan(state, m)
      ensures written == old(written)
    {
      LoadState(stored);
      RenderSheet(m);
    }

    /**
     * A settings input handler (the text, size, font, colour, scale and
     * baseline inputs): store the input's string value, render, save.
     */
    method UpdateSetting(field: string, input: string, m: Metrics)
      requires Valid() && m.lineHeight != 0
      modifies this
      ensures Valid()
      ensures state == old(state)[field := Str(input)]
      ensures sheet == SheetPlan(state, m) && written == Some(state)
    {
      state := state[field := Str(input)];
      RenderSheet(m);
      SaveState();
    }

    /**
     * The mode button handler. Only the alphabet mode rewrites the text and
     * re-renders; every mode is saved.
     */
    method SelectMode(mode: string, m: Metrics)
      requires Valid() && m.lineHeight != 0
      modifies this
      ensures Valid()
      ensures state == WithMode(old(state), mode) && written == Some(state)
      ensures mode == "alphabet" ==> sheet == SheetPlan(state, m)
      ensures mode != "alphabet" ==> sheet == old(sheet)
    {
      state := state["mode" := Str(mode)];
      if mode == "alphabet" {
        state := state["text" := Str(AlphabetText)];
        RenderSheet(m);
      }
      SaveState();
    }

    /**
     * The generate button with `generateContent`: load the model unless the
     * session is ready, stream the sentences, then store the accumulated
     * text, render and save. Any error (WebGPU missing, the runtime not
     * importable, the engine not created, the stream rejected) is reported
     * and changes nothing on the page; a stop ends the stream early and
     * keeps what arrived.
     */
    method GenerateContent(llm: AI.AppLLM, topicInput: string, platform: AI.Platform,
                           stream: AI.Stream, stopAt: nat, m: Metrics)
      returns (err: Option<AI.Error>)
      requires Valid() && llm.Valid() && m.lineHeight != 0
      modifies this, llm
      ensures Valid() && llm.Valid()
      ensures var loaded := old(llm.ready) || (platform.webGpu && platform.libraryLoads && platform.engineCreates);
        var ok := loaded && !AI.Fails(stream, stopAt);
        && (err == None <==> ok)
        && (ok ==>
              && state == old(state)["text" := Str(AI.Concat(AI.Delivered(stream.chunks[..AI.Processed(stream.chunks, stopAt)])))]
              && sheet == SheetPlan(state, m)
              && written == Some(state))
        && (!ok ==> state == old(state) && sheet == old(sheet) && written == old(written))
      ensures old(llm.ready) ==>
        llm.ready && llm.engine == old(llm.engine) && llm.modelId == old(llm.modelId) && llm.storedModelId == old(llm.storedModelId)
      ensures !old(llm.ready) && !platform.webGpu ==> err == Some(AI.WebGpuUnsupported) && unchanged(llm)
      ensures !old(llm.ready) && platform.webGpu && !platform.libraryLoads ==> err == Some(AI.ImportFailed) && unchanged(llm)
      ensures !old(llm.ready) && platform.webGpu && platform.libraryLoads ==>
        llm.modelId == old(llm.modelId) && llm.storedModelId == Some(old(llm.modelId))
      ensures !old(llm.ready) && platform.webGpu && platform.libraryLoads && !platform.engineCreates ==>
        err == Some(AI.CreationFailed) && llm.engine == old(llm.engine) && !llm.ready && llm.aborted == old(llm.aborted)
      ensures !old(llm.ready) && platform.webGpu && platform.libraryLoads && platform.engineCreates ==>
        llm.ready && llm.engine == AI.Handle(old(llm.modelId))
      ensures old(llm.ready) || (platform.webGpu && platform.libraryLoads && platform.engineCreates) ==>
        && llm.aborted == (stopAt < |stream.chunks|)
        && (err == None || err == Some(AI.StreamFailed))
    {
      var topic := Topic(topicInput);
      if !llm.ready {
        var loadResult, _ := llm.Load("", platform, true);
        if loadResult.Failure? {
          return Some(loadResult.error);
        }
      }
      var genErr, _, tokens := llm.Generate(Prompt(topic), TeacherPrompt, stream, stopAt);
      if genErr.Some? {
        return genErr;
      }
      var generatedText := Accumulate(tokens);
      // Storing, rendering and saving are exactly what the text input's handler does.
      UpdateSetting("text", generatedText, m);
      err := None;
    }
  }
}
