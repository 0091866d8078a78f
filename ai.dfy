/**
 * The generation session of scripts/ai.js (`window.AppLLM`): loading a
 * model, streaming a chat completion token by token, and cooperative
 * cancellation through a flag.
 *
 * The language-model runtime is opaque. Whether it can be imported and
 * whether engine creation succeeds are inputs (`Platform`), an engine is a
 * present/absent handle, and a completion stream is the sequence of chunks
 * it would produce.
 */
module AI {
  import opened Wrappers

  /** The model used when storage holds none. */
  const DefaultModelId: string := "Hermes-2-Pro-Llama-3-8B-q4f16_1-MLC"

  /** An engine handle, or the `null` it starts as. */
  datatype Engine = NoEngine | Handle(model: string)

  /** The errors `load` and `generate` throw. */
  datatype Error =
    | WebGpuUnsupported  // no navigator.gpu
    | ImportFailed       // the dynamic import of the runtime rejected
    | CreationFailed     // CreateMLCEngine rejected
    | NotLoaded          // generate before any engine exists
    | StreamFailed       // opening or reading the completion stream rejected

  /**
   * One signal passed to `initProgressCallback`: an object with a
   * `progress` field, a bare number, or anything else.
   */
  datatype Signal = ProgressReport(progress: real) | Fraction(value: real) | Unrecognised

  /** What the platform does when `load` runs. */
  datatype Platform = Platform(
    webGpu: bool,            // navigator.gpu is present
    libraryLoads: bool,      // the dynamic import resolves
    engineCreates: bool,     // CreateMLCEngine resolves
    progress: seq<Signal>)   // the signals reported while the engine is created

  /** The fraction a signal carries; 0 when it is not recognised. */
  function SignalFraction(p: Signal): real
  {
    match p
    case ProgressReport(x) => x
    case Fraction(x) => x
    case Unrecognised => 0.0
  }

  /** The percentage reported for one signal: the floor of 100 times its fraction, or 0. */
  function Percent(p: Signal): (r: int)
    ensures p.Unrecognised? ==> r == 0
    ensures r as real <= SignalFraction(p) * 100.0 < r as real + 1.0
  {
    match p
    case ProgressReport(x) => (x * 100.0).Floor
    case Fraction(x) => (x * 100.0).Floor
    case Unrecognised => 0
  }

  /** A fraction between 0 and 1 gives a percentage between 0 and 100. */
  lemma PercentInRange(p: Signal)
    requires 0.0 <= SignalFraction(p) <= 1.0
    ensures 0 <= Percent(p) <= 100
  {
  }

  /** A larger fraction never gives a smaller percentage. */
  lemma PercentMonotone(p: Signal, q: Signal)
    requires SignalFraction(p) <= SignalFraction(q)
    ensures Percent(p) <= Percent(q)
  {
  }

  /** The percentages handed to `updateProgress`: one per signal, and none without a callback. */
  function Reports(signals: seq<Signal>, hasCallback: bool): (r: seq<int>)
    ensures hasCallback ==> |r| == |signals| && forall i :: 0 <= i < |r| ==> r[i] == Percent(signals[i])
    ensures !hasCallback ==> r == []
  {
    if hasCallback then seq(|signals|, i requires 0 <= i < |signals| => Percent(signals[i])) else []
  }

  /** Signals whose fractions never decrease give percentages that never decrease. */
  lemma ReportsMonotone(signals: seq<Signal>, hasCallback: bool)
    requires forall i, j :: 0 <= i < j < |signals| ==> SignalFraction(signals[i]) <= SignalFraction(signals[j])
    ensures var r := Reports(signals, hasCallback);
      forall i, j :: 0 <= i < j < |r| ==> r[i] <= r[j]
  {
    var r := Reports(signals, hasCallback);
    forall i, j | 0 <= i < j < |r|
      ensures r[i] <= r[j]
    {
      PercentMonotone(signals[i], signals[j]);
    }
  }

  /** `modelId || this.modelId`: the requested id unless it is empty. */
  function ChosenModel(requested: string, current: string): (id: string)
    ensures requested != "" ==> id == requested
    ensures requested == "" ==> id == current
    ensures id == "" <==> requested == "" && current == ""
  {
    if requested != "" then requested else current
  }

  /** The id the session starts with: the stored one when it is non-empty, else the default. */
  function InitialModel(stored: Option<string>): (id: string)
    ensures stored.Some? && stored.value != "" ==> id == stored.value
    ensures stored.None? || stored.value == "" ==> id == DefaultModelId
    ensures id != ""
  {
    match stored
    case Some(s) => if s != "" then s else DefaultModelId
    case None => DefaultModelId
  }

  datatype Role = System | User

  datatype ChatMessage = ChatMessage(role: Role, content: string)

  /** The message list `generate` sends: the system message when there is one, then the user's. */
  function Messages(system: string, userText: string): (m: seq<ChatMessage>)
    ensures 1 <= |m| <= 2
    ensures m[|m| - 1] == ChatMessage(User, userText)
    ensures |m| == 2 <==> system != ""
    ensures |m| == 2 ==> m[0] == ChatMessage(System, system)
  {
    (if system != "" then [ChatMessage(System, system)] else []) + [ChatMessage(User, userText)]
  }

  /**
   * A stream chunk: the `choices[0].delta.content` it carries, or None when
   * any step of that path is missing.
   */
  type Chunk = Option<string>

  /** How a completion stream ends once its chunks are exhausted. */
  datatype Ending = Completes | Rejects

  /**
   * A completion stream: the chunks it yields, then either its normal end or
   * a rejection. A rejected `chat.completions.create` is a stream with no
   * chunks that rejects.
   */
  datatype Stream = Stream(chunks: seq<Chunk>, ending: Ending)

  /**
   * Whether `generate` throws from the stream: it rejects after its chunks
   * and `stop()` did not break the loop first.
   */
  predicate Fails(stream: Stream, stopAt: nat)
  {
    stream.ending == Rejects && |stream.chunks| <= stopAt
  }

  /** `chunk?.choices?.[0]?.delta?.content || ''`. */
  function Token(c: Chunk): (t: string)
    ensures t != "" <==> c.Some? && c.value != ""
    ensures t != "" ==> c == Some(t)
  {
    match c
    case Some(s) => s
    case None => ""
  }

  /** The tokens forwarded to `onToken` for the chunks `cs`: their non-empty contents, in order. */
  function Delivered(cs: seq<Chunk>): (tokens: seq<string>)
    ensures |tokens| <= |cs|
    ensures forall t :: t in tokens ==> t != ""
  {
    if cs == [] then []
    else
      var last := Token(cs[|cs| - 1]);
      Delivered(cs[..|cs| - 1]) + (if last != "" then [last] else [])
  }

  /** The text a sequence of tokens spells, in order: it is empty for no tokens and starts with the first one. */
  function Concat(tokens: seq<string>): (text: string)
    ensures tokens == [] ==> text == ""
    ensures tokens != [] ==> tokens[0] <= text
  {
    if tokens == [] then "" else Concat(tokens[..|tokens| - 1]) + tokens[|tokens| - 1]
  }

  /** The text the whole stream carries, empty deltas included. */
  function StreamText(cs: seq<Chunk>): string
  {
    if cs == [] then "" else StreamText(cs[..|cs| - 1]) + Token(cs[|cs| - 1])
  }

  /** The number of chunks `generate` processes when `stop()` takes effect before chunk `stopAt`. */
  function Processed(cs: seq<Chunk>, stopAt: nat): (n: nat)
    ensures n <= |cs| && n <= stopAt
    ensures n == |cs| || n == stopAt
  {
    if stopAt < |cs| then stopAt else |cs|
  }

  /** Delivery distributes over concatenating streams. */
  lemma {:induction false} DeliveredAppend(a: seq<Chunk>, b: seq<Chunk>)
    ensures Delivered(a + b) == Delivered(a) + Delivered(b)
  {
    if b == [] {
      assert a + b == a;
    } else {
      var b' := b[..|b| - 1];
      assert (a + b)[..|a + b| - 1] == a + b';
      DeliveredAppend(a, b');
    }
  }

  /** Forwarded tokens are exactly the non-empty chunk contents of the stream. */
  lemma {:induction false} DeliveredMembers(cs: seq<Chunk>, t: string)
    ensures t in Delivered(cs) <==> t != "" && Some(t) in cs
  {
    if cs != [] {
      var init := cs[..|cs| - 1];
      DeliveredMembers(init, t);
      assert cs == init + [cs[|cs| - 1]];
    }
  }

  /** What a cut-short generation delivers is a prefix of what the whole stream would. */
  lemma DeliveredPrefix(cs: seq<Chunk>, k: nat)
    requires k <= |cs|
    ensures Delivered(cs[..k]) <= Delivered(cs)
  {
    assert cs == cs[..k] + cs[k..];
    DeliveredAppend(cs[..k], cs[k..]);
  }

  lemma {:induction false} ConcatAppend(a: seq<string>, b: seq<string>)
    ensures Concat(a + b) == Concat(a) + Concat(b)
  {
    if b == [] {
      assert a + b == a;
    } else {
      var b' := b[..|b| - 1];
      assert (a + b)[..|a + b| - 1] == a + b';
      assert (a + b)[|a + b| - 1] == b[|b| - 1];
      ConcatAppend(a, b');
      calc {
        Concat(a + b);
        Concat(a + b') + b[|b| - 1];
        Concat(a) + Concat(b') + b[|b| - 1];
        Concat(a) + Concat(b);
      }
    }
  }

  /** Skipping empty deltas loses no text: the forwarded tokens spell the whole stream. */
  lemma {:induction false} DeliveredSpellsStream(cs: seq<Chunk>)
    ensures Concat(Delivered(cs)) == StreamText(cs)
  {
    if cs != [] {
      var init := cs[..|cs| - 1];
      var last := Token(cs[|cs| - 1]);
      DeliveredSpellsStream(init);
      ConcatAppend(Delivered(init), if last != "" then [last] else []);
    }
  }

  /** Three chunks "Hel", "lo", " world" are forwarded as three tokens spelling "Hello world". */
  lemma StreamExample()
    ensures Delivered([Some("Hel"), Some("lo"), Some(" world")]) == ["Hel", "lo", " world"]
    ensures Concat(["Hel", "lo", " world"]) == "Hello world"
  {
    var cs: seq<Chunk> := [Some("Hel"), Some("lo"), Some(" world")];
    assert cs[..2][..1] == [Some("Hel")];
    assert cs[..2] == [Some("Hel"), Some("lo")];
    var ts := ["Hel", "lo", " world"];
    assert ts[..2][..1] == ["Hel"];
    assert ts[..2] == ["Hel", "lo"];
    assert Concat(ts[..2][..1]) == "Hel";
    assert Concat(ts[..2]) == "Hel" + "lo" == "Hello";
    assert Concat(ts) == "Hello" + " world";
  }

  /** Stopping after the first of three chunks forwards exactly that chunk's token. */
  lemma StopExample()
    ensures var cs: seq<Chunk> := [Some("Hel"), Some("lo"), Some(" world")];
      Delivered(cs[..Processed(cs, 1)]) == ["Hel"]
  {
    var cs: seq<Chunk> := [Some("Hel"), Some("lo"), Some(" world")];
    assert cs[..1] == [Some("Hel")];
  }

  /** `window.AppLLM`. */
  class AppLLM {
    var engine: Engine
    var ready: bool
    var modelId: string
    var aborted: bool
    /** The value of the 'app.llm.model' storage key. */
    ghost var storedModelId: Option<string>

    /** The session only reports ready once it holds an engine. */
    ghost predicate Valid()
      reads this
    {
      ready ==> engine.Handle?
    }

    /** The object literal: no engine, not ready, the stored or default model id. */
    constructor (stored: Option<string>)
      ensures Valid()
      ensures engine == NoEngine && !ready && !aborted
      ensures modelId == InitialModel(stored) && storedModelId == stored
    {
      engine := NoEngine;
      ready := false;
      modelId := InitialModel(stored);
      aborted := false;
      storedModelId := stored;
    }

    /**
     * `load(modelId, updateProgress)`. Without WebGPU, or when the runtime
     * cannot be imported, nothing changes. Otherwise the chosen id is
     * recorded and persisted before the engine is created, so a failed
     * creation keeps the new id but not an engine for it.
     */
    method Load(requested: string, platform: Platform, hasCallback: bool)
      returns (r: Result<Engine, Error>, reported: seq<int>)
      requires Valid()
      modifies this
      ensures Valid() && aborted == old(aborted)
      ensures !platform.webGpu ==> r == Failure(WebGpuUnsupported) && reported == [] && unchanged(this)
      ensures platform.webGpu && !platform.libraryLoads ==>
        r == Failure(ImportFailed) && reported == [] && unchanged(this)
      ensures platform.webGpu && platform.libraryLoads ==>
        && modelId == ChosenModel(requested, old(modelId))
        && storedModelId == Some(modelId)
        && reported == Reports(platform.progress, hasCallback)
      ensures platform.webGpu && platform.libraryLoads && platform.engineCreates ==>
        r == Success(Handle(modelId)) && engine == Handle(modelId) && ready
      ensures platform.webGpu && platform.libraryLoads && !platform.engineCreates ==>
        r == Failure(CreationFailed) && engine == old(engine) && ready == old(ready)
    {
      var id := ChosenModel(requested, modelId);
      if !platform.webGpu {
        return Failure(WebGpuUnsupported), [];
      }
      if !platform.libraryLoads {
        return Failure(ImportFailed), [];
      }
      modelId := id;
      storedModelId := Some(id);
      reported := [];
      for i := 0 to |platform.progress|
        invariant hasCallback ==> reported == Reports(platform.progress[..i], true)
        invariant !hasCallback ==> reported == []
      {
        if hasCallback {
          reported := reported + [Percent(platform.progress[i])];
        }
      }
      assert platform.progress[..|platform.progress|] == platform.progress;
      if !platform.engineCreates {
        return Failure(CreationFailed), reported;
      }
      engine := Handle(id);
      ready := true;
      r := Success(engine);
    }

    /**
     * `generate(userText, { system, onToken })`. Returns the error it throws
     * (if any), the messages it sent and the tokens it handed to `onToken`.
     * `stop()` is taken to arrive while chunk `stopAt` is awaited (never,
     * when `stopAt >= |stream.chunks|`).
     */
    method Generate(userText: string, system: string, stream: Stream, stopAt: nat)
      returns (err: Option<Error>, sent: seq<ChatMessage>, tokens: seq<string>)
      requires Valid()
      modifies this
      ensures Valid()
      ensures engine == old(engine) && ready == old(ready)
      ensures modelId == old(modelId) && storedModelId == old(storedModelId)
      ensures old(engine) == NoEngine ==>
        err == Some(NotLoaded) && sent == [] && tokens == [] && aborted == old(aborted)
      ensures old(engine) != NoEngine ==>
        && sent == Messages(system, userText)
        && tokens == Delivered(stream.chunks[..Processed(stream.chunks, stopAt)])
        && aborted == (stopAt < |stream.chunks|)
        && err == (if Fails(stream, stopAt) then Some(StreamFailed) else None)
    {
      if engine == NoEngine {
        return Some(NotLoaded), [], [];
      }
      aborted := false;
      sent := [];
      if system != "" {
        sent := sent + [ChatMessage(System, system)];
      }
      sent := sent + [ChatMessage(User, userText)];
      assert sent == Messages(system, userText);
      var chunks := stream.chunks;
      tokens := [];
      var i := 0;
      while i < |chunks|
        invariant 0 <= i <= Processed(chunks, stopAt)
        invariant aborted == (stopAt < i)
        invariant tokens == Delivered(chunks[..i])
        invariant engine == old(engine) && ready == old(ready)
        invariant modelId == old(modelId) && storedModelId == old(storedModelId)
      {
        if i == stopAt {
          Stop();
        }
        if aborted {
          break;
        }
        var token := Token(chunks[i]);
        if token != "" {
          tokens := tokens + [token];
        }
        assert chunks[..i + 1][..i] == chunks[..i];
        i := i + 1;
      }
      if !aborted && stream.ending == Rejects {
        return Some(StreamFailed), sent, tokens;
      }
      err := None;
    }

    /** `stop()`: raises the abort flag and nothing else. */
    method Stop()
      modifies this`aborted
      ensures aborted
    {
      aborted := true;
    }
  }
}
