/** App.tsx: the storyboard run (`handleProcess`) and `reset`. The component's two
    pieces of state, the processing state and the scene list, are the fields of
    class AppState; every write to them, and every remote call, is recorded in a
    ghost event log so that the order of the run can be stated. */
module App {
  import opened Wrappers
  import opened Types
  import opened GeminiService
  import opened Sequences

  const AnalyzingMessage: string := "Analyzing content and drafting scenes..."
  const GeneratingMessage: string := "Bringing your story to life... generating images."
  const CompletedMessage: string := "Storyboard generation complete!"
  const ErrorMessage: string := "An error occurred during processing."
  const UnknownError: string := "Unknown error"
  /** The TypeError thrown by reading `.length` of a missing `scenes` (the engine's wording). */
  const MissingScenesMessage: string := "Cannot read properties of undefined (reading 'length')"

  const IdleState := ProcessingState(IDLE, 0, "", None)
  const AnalyzingState := ProcessingState(ANALYZING, 10, AnalyzingMessage, None)
  const GeneratingState := ProcessingState(GENERATING_IMAGES, 30, GeneratingMessage, None)
  const CompletedState := ProcessingState(COMPLETED, 100, CompletedMessage, None)

  /** `error.message || 'Unknown error'`. */
  function ErrorText(cause: string): string
  {
    if cause == "" then UnknownError else cause
  }

  function FailedState(cause: string): ProcessingState
  {
    ProcessingState(ERROR, 0, ErrorMessage, Some(ErrorText(cause)))
  }

  /** The image-generation endpoint of each call, by call number. */
  type Generator = nat -> Endpoint

  /** The outcome of image call i for a prompt and a reference. */
  type Caller = (nat, string, Option<string>) -> Result<string, string>

  /** The outcomes generateSceneImage yields when call i goes to endpoint gen(i). */
  function Calls(gen: Generator): Caller
  {
    (i: nat, prompt: string, reference: Option<string>) => GenerateOutcome(prompt, reference, gen(i))
  }

  /** What the run does, in order: a state write, a scene-list write, or a remote call. */
  datatype Event =
    | StateSet(state: ProcessingState)
    | ScenesSet(scenes: seq<StoryboardScene>)
    /** `setScenes(undefined)`: the scene list written with no value. */
    | ScenesUndefined
    | AnalysisRequested(parts: seq<Part>)
    | ImageRequested(index: nat, prompt: string, reference: Option<string>)

  // ---------------------------------------------------------------------------
  // Progress

  /** `30 + Math.floor(((i + 1) / totalScenes) * 60)`, in integer arithmetic. */
  function StepProgress(i: nat, n: nat): int
    requires i < n
  {
    30 + ((i + 1) * 60) / n
  }

  /** Each step's progress lies in 30..90, rises above 30 exactly when (i+1)*60 >= n
      (always for n <= 60), and is 90 at the last step. */
  lemma {:induction false} StepProgressBounds(i: nat, n: nat)
    requires i < n
    ensures 30 <= StepProgress(i, n) <= 90
    ensures StepProgress(i, n) > 30 <==> (i + 1) * 60 >= n
    ensures i == n - 1 ==> StepProgress(i, n) == 90
  {
    var x := (i + 1) * 60;
    var q := x / n;
    DivBounds(x, n);
    if q > 60 {
      MulMonotone(61, q, n);
    }
    if x < n {
      DivUnique(x, n, 0);
    }
    if i == n - 1 {
      DivUnique(x, n, 60);
    }
  }

  /** The quotient times the divisor is at most the dividend, and one more divisor exceeds it. */
  lemma {:induction false} DivBounds(x: nat, n: nat)
    requires n > 0
    ensures (x / n) * n <= x < (x / n) * n + n
  {
  }

  /** The quotient is the one q with q * n <= x < q * n + n. */
  lemma {:induction false} DivUnique(x: nat, n: nat, q: nat)
    requires n > 0 && q * n <= x < q * n + n
    ensures x / n == q
  {
    var d := x / n;
    DivBounds(x, n);
    if d < q {
      MulMonotone(d + 1, q, n);
    } else if d > q {
      MulMonotone(q + 1, d, n);
    }
  }

  /** Division by a positive number preserves order. */
  lemma {:induction false} DivMonotone(a: nat, b: nat, n: nat)
    requires a <= b && n > 0
    ensures a / n <= b / n
  {
    DivBounds(a, n);
    DivBounds(b, n);
    if a / n > b / n {
      MulMonotone(b / n + 1, a / n, n);
    }
  }

  lemma {:induction false} MulMonotone(a: nat, b: nat, n: nat)
    requires a <= b
    ensures a * n <= b * n
  {
  }

  /** Progress never goes down from one step to a later one. */
  lemma {:induction false} StepProgressMonotone(i: nat, j: nat, n: nat)
    requires i <= j < n
    ensures StepProgress(i, n) <= StepProgress(j, n)
  {
    MulMonotone(i + 1, j + 1, 60);
    DivMonotone((i + 1) * 60, (j + 1) * 60, n);
  }

  /** `Illustrating scene ${i + 1} of ${totalScenes}: ${scene.title}`. */
  function StepMessage(i: nat, n: nat, title: string): string
  {
    "Illustrating scene " + Decimal(i + 1) + " of " + Decimal(n) + ": " + title
  }

  /** A natural number in decimal digits. */
  function Decimal(n: nat): string
  {
    if n < 10 then ["0123456789"[n]] else Decimal(n / 10) + ["0123456789"[n % 10]]
  }

  // ---------------------------------------------------------------------------
  // The illustration loop (App.tsx:47-74) as a fold

  /** The loop's two variables after some steps: `updatedScenes` and
      `lastGeneratedImageUrl`. */
  datatype Illustration = Illustration(scenes: seq<StoryboardScene>, reference: Option<string>)

  /** The outcome of the image call of step i: scene i's prompt, with the current
      reference. */
  function Outcome(f: Illustration, i: nat, call: Caller): Result<string, string>
    requires i < |f.scenes|
  {
    call(i, f.scenes[i].visualPrompt, f.reference)
  }

  /** Scene i as the loop leaves it, given its call's outcome. */
  function Illustrated(scene: StoryboardScene, outcome: Result<string, string>): StoryboardScene
  {
    if outcome.Success? then scene.(imageUrl := Some(outcome.value)) else scene
  }

  /** The image a call returned, if it succeeded. */
  function Image(outcome: Result<string, string>): Option<string>
  {
    if outcome.Success? then Some(outcome.value) else None
  }

  /** One pass of the loop body, for index i, given the outcome of its image call:
      on success scene i gets the image and the image becomes the reference; on
      failure the scene is left alone and the reference is dropped. */
  function Step(f: Illustration, i: nat, outcome: Result<string, string>): (g: Illustration)
    requires i < |f.scenes|
    ensures |g.scenes| == |f.scenes|
  {
    Illustration(f.scenes[i := Illustrated(f.scenes[i], outcome)], Image(outcome))
  }

  /** The two events every step starts with: the progress write for index i and the
      image call with scene i's prompt and the current reference. */
  function Announce(f: Illustration, i: nat): seq<Event>
    requires i < |f.scenes|
  {
    var n := |f.scenes|;
    [StateSet(GeneratingState.(progress := StepProgress(i, n), message := StepMessage(i, n, f.scenes[i].title))),
     ImageRequested(i, f.scenes[i].visualPrompt, f.reference)]
  }

  /** The events of step i: its announcement, then the new scene list on success. */
  function StepTrace(f: Illustration, i: nat, outcome: Result<string, string>): seq<Event>
    requires i < |f.scenes|
  {
    Announce(f, i) + (if outcome.Success? then [ScenesSet(Step(f, i, outcome).scenes)] else [])
  }

  /** The loop's variables after the first k steps over `initial`. */
  function Illustrate(initial: seq<StoryboardScene>, call: Caller, k: nat): (f: Illustration)
    requires k <= |initial|
    ensures |f.scenes| == |initial|
  {
    if k == 0 then Illustration(initial, None)
    else
      var f := Illustrate(initial, call, k - 1);
      Step(f, k - 1, Outcome(f, k - 1, call))
  }

  /** The events of the first k steps over `initial`. */
  function Trace(initial: seq<StoryboardScene>, call: Caller, k: nat): seq<Event>
    requires k <= |initial|
  {
    if k == 0 then []
    else
      var f := Illustrate(initial, call, k - 1);
      Trace(initial, call, k - 1) + StepTrace(f, k - 1, Outcome(f, k - 1, call))
  }

  /** Step k of the fold, spelled out. */
  lemma {:induction false} IllustrateStep(initial: seq<StoryboardScene>, call: Caller, k: nat)
    requires 0 < k <= |initial|
    ensures var f := Illustrate(initial, call, k - 1);
      Illustrate(initial, call, k) == Step(f, k - 1, Outcome(f, k - 1, call))
  {
  }

  /** The events of step k of the fold, spelled out. */
  lemma {:induction false} TraceStep(initial: seq<StoryboardScene>, call: Caller, k: nat)
    requires 0 < k <= |initial|
    ensures var f := Illustrate(initial, call, k - 1);
      Trace(initial, call, k) == Trace(initial, call, k - 1) + StepTrace(f, k - 1, Outcome(f, k - 1, call))
  {
  }

  /** One more step of the fold: the loop's variables and the events after step i
      follow from those before it. */
  lemma {:induction false} Advance(initial: seq<StoryboardScene>, call: Caller, i: nat, start: seq<Event>)
    requires i < |initial|
    ensures var f := Illustrate(initial, call, i);
      && Illustrate(initial, call, i + 1) == Step(f, i, Outcome(f, i, call))
      && start + Trace(initial, call, i) + StepTrace(f, i, Outcome(f, i, call)) == start + Trace(initial, call, i + 1)
  {
    var f := Illustrate(initial, call, i);
    IllustrateStep(initial, call, i + 1);
    TraceStep(initial, call, i + 1);
    Assoc3(start, Trace(initial, call, i), StepTrace(f, i, Outcome(f, i, call)));
  }

  /** The outcome of call i: the reference it gets is the one the first i steps leave. */
  function StepOutcome(initial: seq<StoryboardScene>, call: Caller, i: nat): Result<string, string>
    requires i < |initial|
  {
    call(i, initial[i].visualPrompt, Illustrate(initial, call, i).reference)
  }

  /** The first k steps leave the scenes from k on as the analyzer gave them. */
  lemma {:induction false} IllustrateUntouched(initial: seq<StoryboardScene>, call: Caller, k: nat)
    requires k <= |initial|
    ensures forall j :: k <= j < |initial| ==> Illustrate(initial, call, k).scenes[j] == initial[j]
  {
    if k > 0 {
      var f := Illustrate(initial, call, k - 1);
      IllustrateUntouched(initial, call, k - 1);
      IllustrateStep(initial, call, k);
      var scenes := Illustrate(initial, call, k).scenes;
      forall j | k <= j < |initial| ensures scenes[j] == initial[j] {
        assert scenes[j] == f.scenes[j];
      }
    }
  }

  /** Step k finds scene k as the analyzer gave it. */
  lemma {:induction false} Pending(initial: seq<StoryboardScene>, call: Caller, k: nat)
    requires k < |initial|
    ensures Illustrate(initial, call, k).scenes[k] == initial[k]
  {
    IllustrateUntouched(initial, call, k);
  }

  /** After k steps, the scenes from k on are untouched and each earlier scene i
      differs from the analyzer's only by the image its own call returned. */
  lemma {:induction false} IllustrateScenes(initial: seq<StoryboardScene>, call: Caller, k: nat)
    requires k <= |initial|
    ensures forall j :: k <= j < |initial| ==> Illustrate(initial, call, k).scenes[j] == initial[j]
    ensures forall j :: 0 <= j < k ==>
      Illustrate(initial, call, k).scenes[j] == Illustrated(initial[j], StepOutcome(initial, call, j))
  {
    if k > 0 {
      var f := Illustrate(initial, call, k - 1);
      IllustrateScenes(initial, call, k - 1);
      var outcome := Outcome(f, k - 1, call);
      IllustrateStep(initial, call, k);
      assert f.scenes[k - 1] == initial[k - 1];
      assert outcome == StepOutcome(initial, call, k - 1);
      var scenes := Illustrate(initial, call, k).scenes;
      assert scenes == f.scenes[k - 1 := Illustrated(initial[k - 1], outcome)];
      forall j | k <= j < |initial| ensures scenes[j] == initial[j] {
        assert scenes[j] == f.scenes[j];
      }
      forall j | 0 <= j < k ensures scenes[j] == Illustrated(initial[j], StepOutcome(initial, call, j)) {
        if j < k - 1 {
          assert scenes[j] == f.scenes[j];
        }
      }
    }
  }

  /** The reference of call 0 is absent; the reference of call i+1 is the image call i
      returned, or absent if call i failed. */
  lemma {:induction false} IllustrateReferences(initial: seq<StoryboardScene>, call: Caller, k: nat)
    requires k <= |initial|
    ensures k == 0 ==> Illustrate(initial, call, k).reference == None
    ensures k > 0 ==>
      Illustrate(initial, call, k).reference == Image(StepOutcome(initial, call, k - 1))
  {
    if k > 0 {
      var f := Illustrate(initial, call, k - 1);
      Pending(initial, call, k - 1);
      IllustrateStep(initial, call, k);
      assert Outcome(f, k - 1, call) == StepOutcome(initial, call, k - 1);
    }
  }

  /** The progress values a list of events writes, in order. */
  function Progresses(events: seq<Event>): seq<int>
  {
    if events == [] then []
    else (if events[0].StateSet? then [events[0].state.progress] else []) + Progresses(events[1..])
  }

  /** The image calls a list of events makes, in order. */
  function ImageCalls(events: seq<Event>): seq<Event>
  {
    if events == [] then []
    else (if events[0].ImageRequested? then [events[0]] else []) + ImageCalls(events[1..])
  }

  lemma {:induction false} ProgressesAppend(a: seq<Event>, b: seq<Event>)
    ensures Progresses(a + b) == Progresses(a) + Progresses(b)
  {
    if a != [] {
      var ab := a + b;
      assert ab != [] && ab[0] == a[0];
      assert ab[1..] == a[1..] + b;
      ProgressesAppend(a[1..], b);
      calc {
        Progresses(ab);
        (if a[0].StateSet? then [a[0].state.progress] else []) + Progresses(ab[1..]);
        (if a[0].StateSet? then [a[0].state.progress] else []) + (Progresses(a[1..]) + Progresses(b));
        ((if a[0].StateSet? then [a[0].state.progress] else []) + Progresses(a[1..])) + Progresses(b);
        Progresses(a) + Progresses(b);
      }
    } else {
      assert a + b == b;
    }
  }

  lemma {:induction false} ImageCallsAppend(a: seq<Event>, b: seq<Event>)
    ensures ImageCalls(a + b) == ImageCalls(a) + ImageCalls(b)
  {
    if a != [] {
      var ab := a + b;
      assert ab != [] && ab[0] == a[0];
      assert ab[1..] == a[1..] + b;
      ImageCallsAppend(a[1..], b);
      calc {
        ImageCalls(ab);
        (if a[0].ImageRequested? then [a[0]] else []) + ImageCalls(ab[1..]);
        (if a[0].ImageRequested? then [a[0]] else []) + (ImageCalls(a[1..]) + ImageCalls(b));
        ((if a[0].ImageRequested? then [a[0]] else []) + ImageCalls(a[1..])) + ImageCalls(b);
        ImageCalls(a) + ImageCalls(b);
      }
    } else {
      assert a + b == b;
    }
  }


  lemma {:induction false} Single(e: Event)
    ensures Progresses([e]) == if e.StateSet? then [e.state.progress] else []
    ensures ImageCalls([e]) == if e.ImageRequested? then [e] else []
  {
    assert [e][1..] == [];
  }

  /** One step writes one progress value and makes one image call. */
  lemma {:induction false} StepEvents(f: Illustration, i: nat, outcome: Result<string, string>)
    requires i < |f.scenes|
    ensures Progresses(StepTrace(f, i, outcome)) == [StepProgress(i, |f.scenes|)]
    ensures ImageCalls(StepTrace(f, i, outcome)) == [ImageRequested(i, f.scenes[i].visualPrompt, f.reference)]
  {
    var step := Announce(f, i);
    assert step == [step[0]] + [step[1]];
    Single(step[0]);
    Single(step[1]);
    ProgressesAppend([step[0]], [step[1]]);
    ImageCallsAppend([step[0]], [step[1]]);
    var written := if outcome.Success? then [ScenesSet(Step(f, i, outcome).scenes)] else [];
    if outcome.Success? {
      Single(written[0]);
    }
    ProgressesAppend(step, written);
    ImageCallsAppend(step, written);
  }

  /** The progress values the first k of n steps should write: StepProgress(j, n)
      for each j < k, in order. */
  function Ticks(n: nat, k: nat): seq<int>
    requires k <= n
  {
    if k == 0 then [] else Ticks(n, k - 1) + [StepProgress(k - 1, n)]
  }

  lemma {:induction false} TicksAt(n: nat, k: nat)
    requires k <= n
    ensures |Ticks(n, k)| == k
    ensures forall j :: 0 <= j < k ==> Ticks(n, k)[j] == StepProgress(j, n)
  {
    if k > 0 {
      TicksAt(n, k - 1);
      var earlier := Ticks(n, k - 1);
      var all := Ticks(n, k);
      forall j | 0 <= j < k ensures all[j] == StepProgress(j, n) {
        if j < k - 1 {
          assert all[j] == earlier[j];
        }
      }
    }
  }

  /** The first k steps write exactly the expected progress values, in order. */
  lemma {:induction false} IllustrateProgress(initial: seq<StoryboardScene>, call: Caller, k: nat)
    requires k <= |initial|
    ensures Progresses(Trace(initial, call, k)) == Ticks(|initial|, k)
  {
    if k > 0 {
      var f := Illustrate(initial, call, k - 1);
      var before := Trace(initial, call, k - 1);
      var step := StepTrace(f, k - 1, Outcome(f, k - 1, call));
      IllustrateProgress(initial, call, k - 1);
      TraceStep(initial, call, k);
      StepEvents(f, k - 1, Outcome(f, k - 1, call));
      ProgressesAppend(before, step);
    }
  }

  /** The image calls the first k steps should make: one per index, in order, with
      that scene's prompt and the reference the earlier steps left. */
  function Requests(initial: seq<StoryboardScene>, call: Caller, k: nat): seq<Event>
    requires k <= |initial|
  {
    if k == 0 then []
    else
      var reference := Illustrate(initial, call, k - 1).reference;
      Requests(initial, call, k - 1) + [ImageRequested(k - 1, initial[k - 1].visualPrompt, reference)]
  }

  /** Call j of the expected calls is for scene j, with the reference the first j
      steps left. */
  lemma {:induction false} RequestsAt(initial: seq<StoryboardScene>, call: Caller, k: nat)
    requires k <= |initial|
    ensures |Requests(initial, call, k)| == k
    ensures forall j :: 0 <= j < k ==>
      Requests(initial, call, k)[j]
      == ImageRequested(j, initial[j].visualPrompt, Illustrate(initial, call, j).reference)
  {
    if k > 0 {
      RequestsAt(initial, call, k - 1);
      var earlier := Requests(initial, call, k - 1);
      var all := Requests(initial, call, k);
      forall j | 0 <= j < k
        ensures all[j] == ImageRequested(j, initial[j].visualPrompt, Illustrate(initial, call, j).reference)
      {
        if j < k - 1 {
          assert all[j] == earlier[j];
        }
      }
    }
  }

  /** The first k steps make exactly the expected image calls, in order. */
  lemma {:induction false} IllustrateCalls(initial: seq<StoryboardScene>, call: Caller, k: nat)
    requires k <= |initial|
    ensures ImageCalls(Trace(initial, call, k)) == Requests(initial, call, k)
  {
    if k > 0 {
      var f := Illustrate(initial, call, k - 1);
      var before := Trace(initial, call, k - 1);
      var step := StepTrace(f, k - 1, Outcome(f, k - 1, call));
      IllustrateCalls(initial, call, k - 1);
      Pending(initial, call, k - 1);
      TraceStep(initial, call, k);
      StepEvents(f, k - 1, Outcome(f, k - 1, call));
      ImageCallsAppend(before, step);
      assert ImageCalls(before + step)
        == Requests(initial, call, k - 1) + [ImageRequested(k - 1, initial[k - 1].visualPrompt, f.reference)];
    }
  }

  // ---------------------------------------------------------------------------
  // The whole run (App.tsx:25-91)

  /** The scenes a successful analysis hands to the loop, or the cause of the
      failure; a parse result without `scenes` fails with the message JavaScript
      gives when `.length` is read from `undefined`. */
  function ScenesOf(analysis: Result<StoryboardData, string>): Result<seq<StoryboardScene>, string>
  {
    match analysis
    case Failure(cause) => Failure(cause)
    case Success(data) =>
      match data.scenes
      case None => Failure(MissingScenesMessage)
      case Some(scenes) => Success(scenes)
  }

  /** Everything before the loop: encoding the files, the analysis call, and the
      presence of `scenes`; the scenes to illustrate, or the cause of the failure. */
  function Analysis(text: string, encoded: Result<seq<string>, string>, analyzer: Analyzer,
                    parse: string -> Option<StoryboardData>): Result<seq<StoryboardScene>, string>
  {
    match encoded
    case Failure(cause) => Failure(cause)
    case Success(images) => ScenesOf(AnalysisOutcome(analyzer(AnalysisParts(text, images)), parse))
  }

  /** The final processing state, the final scene list and the events of one run. */
  datatype Snapshot = Snapshot(state: ProcessingState, scenes: seq<StoryboardScene>, events: seq<Event>)

  /** The events up to the analysis call: ANALYZING at 10, the emptied scene list,
      and the analysis request when the files could be read. */
  function Opening(request: Option<seq<Part>>): seq<Event>
  {
    [StateSet(AnalyzingState), ScenesSet([])] + (if request.Some? then [AnalysisRequested(request.value)] else [])
  }

  /** What handleProcess does once the analysis has ended: `analysis` holds the
      scenes to illustrate or the cause of the failure, and `call` gives each image
      call's outcome. A failure ends in ERROR with no scenes; otherwise the scene
      list is written, the loop illustrates it, and the run ends in COMPLETED. */
  function Conclusion(analysis: Result<seq<StoryboardScene>, string>, call: Caller): Snapshot
  {
    match analysis
    case Failure(cause) =>
      Snapshot(FailedState(cause), [], [StateSet(FailedState(cause))])
    case Success(initial) =>
      Snapshot(CompletedState, Illustrate(initial, call, |initial|).scenes,
        [ScenesSet(initial), StateSet(GeneratingState)] + Trace(initial, call, |initial|) + [StateSet(CompletedState)])
  }

  /** A run of handleProcess given the analysis request, if one was sent, and the
      result of the part before the loop. */
  function RunFrom(request: Option<seq<Part>>, analysis: Result<seq<StoryboardScene>, string>, call: Caller): (s: Snapshot)
    ensures |s.events| >= 3
    ensures s.events[0] == StateSet(AnalyzingState) && s.events[1] == ScenesSet([])
    ensures s.events[|s.events| - 1] == StateSet(s.state)
    ensures s.state.status == ERROR <==> analysis.Failure?
    ensures s.state.status == COMPLETED <==> analysis.Success?
  {
    var c := Conclusion(analysis, call);
    Snapshot(c.state, c.scenes, Opening(request) + c.events)
  }

  /** One run of handleProcess: the files read as `encoded`, the analysis call
      answered by `analyzer`, its text parsed by `parse`, and image call i answered
      by endpoint gen(i). */
  function Run(text: string, encoded: Result<seq<string>, string>, analyzer: Analyzer,
               parse: string -> Option<StoryboardData>, gen: Generator): Snapshot
  {
    RunFrom(if encoded.Success? then Some(AnalysisParts(text, encoded.value)) else None,
            Analysis(text, encoded, analyzer, parse), Calls(gen))
  }

  /** What two events in a row write and call. */
  lemma {:induction false} Pair(a: Event, b: Event)
    ensures Progresses([a, b]) == Progresses([a]) + Progresses([b])
    ensures ImageCalls([a, b]) == ImageCalls([a]) + ImageCalls([b])
  {
    assert [a, b] == [a] + [b];
    ProgressesAppend([a], [b]);
    ImageCallsAppend([a], [b]);
  }

  /** The events up to the analysis call write 10 and make no image call. */
  lemma {:induction false} OpeningEvents(request: Option<seq<Part>>)
    ensures Progresses(Opening(request)) == [10] && ImageCalls(Opening(request)) == []
  {
    var a, b := StateSet(AnalyzingState), ScenesSet([]);
    Single(a);
    Single(b);
    Pair(a, b);
    if request.Some? {
      var r := AnalysisRequested(request.value);
      Single(r);
      ProgressesAppend([a, b], [r]);
      ImageCallsAppend([a, b], [r]);
    } else {
      assert Opening(request) == [a, b] + [];
    }
  }

  /** The two writes before the loop write 30 and make no image call. */
  lemma {:induction false} MiddleEvents(initial: seq<StoryboardScene>)
    ensures var middle := [ScenesSet(initial), StateSet(GeneratingState)];
      Progresses(middle) == [30] && ImageCalls(middle) == []
  {
    Single(ScenesSet(initial));
    Single(StateSet(GeneratingState));
    Pair(ScenesSet(initial), StateSet(GeneratingState));
  }

  /** A failure before the loop (file reading, the analysis call, its parse, or a
      missing `scenes`) ends in ERROR with progress 0, the cause (or "Unknown error")
      as the error text, no scenes, and no image call made. */
  lemma {:induction false} RunFailure(request: Option<seq<Part>>, analysis: Result<seq<StoryboardScene>, string>, call: Caller)
    requires analysis.Failure?
    ensures var s := RunFrom(request, analysis, call);
      && s.state.status == ERROR && s.state.progress == 0
      && s.state.error == Some(ErrorText(analysis.error))
      && s.scenes == []
      && ImageCalls(s.events) == []
      && Progresses(s.events) == [10, 0]
  {
    var failed := FailedState(analysis.error);
    assert RunFrom(request, analysis, call) == Snapshot(failed, [], Opening(request) + [StateSet(failed)]);
    FailedEvents(request, analysis.error);
  }

  /** The events of a failed run write 10 then 0 and make no image call. */
  lemma {:induction false} FailedEvents(request: Option<seq<Part>>, cause: string)
    ensures var events := Opening(request) + [StateSet(FailedState(cause))];
      Progresses(events) == [10, 0] && ImageCalls(events) == []
  {
    var failed := StateSet(FailedState(cause));
    OpeningEvents(request);
    Single(failed);
    ProgressesAppend(Opening(request), [failed]);
    ImageCallsAppend(Opening(request), [failed]);
    assert [10] + [0] == [10, 0];
  }

  /** After a successful analysis the run completes with progress 100 however many
      calls failed. The scene list keeps the analyzer's length and order; each scene
      keeps its id, title, description and prompt and has exactly the image its own
      call returned, or the analyzer's value if that call failed. */
  lemma {:induction false} RunCompletedScenes(request: Option<seq<Part>>, analysis: Result<seq<StoryboardScene>, string>, call: Caller)
    requires analysis.Success?
    ensures var initial := analysis.value;
      var s := RunFrom(request, analysis, call);
      && s.state == CompletedState && s.state.progress == 100
      && |s.scenes| == |initial|
      && (forall j :: 0 <= j < |initial| ==>
        && s.scenes[j].id == initial[j].id
        && s.scenes[j].title == initial[j].title
        && s.scenes[j].description == initial[j].description
        && s.scenes[j].visualPrompt == initial[j].visualPrompt
        && s.scenes[j].imageUrl == (if StepOutcome(initial, call, j).Success?
                                    then Some(StepOutcome(initial, call, j).value)
                                    else initial[j].imageUrl))
  {
    IllustrateScenes(analysis.value, call, |analysis.value|);
  }

  predicate NonDecreasing(xs: seq<int>)
  {
    forall i, j :: 0 <= i <= j < |xs| ==> xs[i] <= xs[j]
  }

  /** The events of a run that gets past the analysis, split at the loop. */
  lemma {:induction false} CompletedRunEvents(request: Option<seq<Part>>, initial: seq<StoryboardScene>, call: Caller)
    ensures RunFrom(request, Success(initial), call).events
      == Opening(request) + [ScenesSet(initial), StateSet(GeneratingState)]
         + Trace(initial, call, |initial|) + [StateSet(CompletedState)]
  {
    Assoc4(Opening(request), [ScenesSet(initial), StateSet(GeneratingState)],
            Trace(initial, call, |initial|), [StateSet(CompletedState)]);
  }

  /** After the analysis call, a run that gets past it writes the analyzer's scene
      list unchanged and then GENERATING_IMAGES at 30, before any image call. */
  lemma {:induction false} RunLoopStart(request: Option<seq<Part>>, initial: seq<StoryboardScene>, call: Caller)
    ensures var events := RunFrom(request, Success(initial), call).events;
      var k := |Opening(request)|;
      && |events| >= k + 2
      && events[..k] == Opening(request)
      && events[k] == ScenesSet(initial)
      && events[k + 1] == StateSet(GeneratingState)
      && GeneratingState.status == GENERATING_IMAGES && GeneratingState.progress == 30
  {
    CompletedRunEvents(request, initial, call);
    var opening := Opening(request);
    var rest := [ScenesSet(initial), StateSet(GeneratingState)] + Trace(initial, call, |initial|) + [StateSet(CompletedState)];
    Assoc4(opening, [ScenesSet(initial), StateSet(GeneratingState)], Trace(initial, call, |initial|), [StateSet(CompletedState)]);
    PrefixAt(opening, rest);
    assert rest[0] == ScenesSet(initial) && rest[1] == StateSet(GeneratingState);
  }

  /** The events before the loop of such a run write 10 then 30. */
  lemma {:induction false} OpeningProgress(request: Option<seq<Part>>, initial: seq<StoryboardScene>)
    ensures Progresses(Opening(request) + [ScenesSet(initial), StateSet(GeneratingState)]) == [10, 30]
  {
    OpeningEvents(request);
    MiddleEvents(initial);
    ProgressesAppend(Opening(request), [ScenesSet(initial), StateSet(GeneratingState)]);
    assert [10] + [30] == [10, 30];
  }

  lemma {:induction false} Surrounded(opening: seq<Event>, events: seq<Event>, closing: seq<Event>)
    requires Progresses(opening) == [10, 30] && Progresses(closing) == [100]
    ensures Progresses(opening + events + closing) == [10, 30] + Progresses(events) + [100]
  {
    ProgressesAppend(opening, events);
    ProgressesAppend(opening + events, closing);
  }

  /** The progress values of such a run: 10, 30, those of the loop, then 100. */
  lemma {:induction false} CompletedProgress(request: Option<seq<Part>>, initial: seq<StoryboardScene>, call: Caller)
    ensures Progresses(RunFrom(request, Success(initial), call).events)
      == [10, 30] + Progresses(Trace(initial, call, |initial|)) + [100]
  {
    CompletedRunEvents(request, initial, call);
    OpeningProgress(request, initial);
    Single(StateSet(CompletedState));
    Surrounded(Opening(request) + [ScenesSet(initial), StateSet(GeneratingState)],
               Trace(initial, call, |initial|), [StateSet(CompletedState)]);
  }

  /** The image calls of such a run are those of the loop. */
  lemma {:induction false} CompletedCalls(request: Option<seq<Part>>, initial: seq<StoryboardScene>, call: Caller)
    ensures ImageCalls(RunFrom(request, Success(initial), call).events)
      == ImageCalls(Trace(initial, call, |initial|))
  {
    var events := Trace(initial, call, |initial|);
    var middle := [ScenesSet(initial), StateSet(GeneratingState)];
    var opening := Opening(request) + middle;
    var closing := [StateSet(CompletedState)];
    CompletedRunEvents(request, initial, call);
    OpeningEvents(request);
    MiddleEvents(initial);
    Single(StateSet(CompletedState));
    ImageCallsAppend(Opening(request), middle);
    ImageCallsAppend(opening, events);
    ImageCallsAppend(opening + events, closing);
  }

  /** A run that gets past the analysis writes the progress values 10, 30, one per
      scene in order, then 100, and never lowers it. */
  lemma {:induction false} RunProgress(request: Option<seq<Part>>, analysis: Result<seq<StoryboardScene>, string>, call: Caller)
    requires analysis.Success?
    ensures var n := |analysis.value|;
      var p := Progresses(RunFrom(request, analysis, call).events);
      && |p| == n + 3
      && p[0] == 10 && p[1] == 30 && p[|p| - 1] == 100
      && (forall j :: 0 <= j < n ==> p[2 + j] == StepProgress(j, n))
      && NonDecreasing(p)
  {
    var initial := analysis.value;
    var n := |initial|;
    IllustrateProgress(initial, call, n);
    TicksAt(n, n);
    CompletedProgress(request, initial, call);
    ProgressShape(Progresses(Trace(initial, call, n)), n);
  }

  /** 10, 30, the loop's values StepProgress(0, n) .. StepProgress(n - 1, n), then
      100: a sequence that never goes down. */
  lemma {:induction false} ProgressShape(loop: seq<int>, n: nat)
    requires |loop| == n
    requires forall j :: 0 <= j < n ==> loop[j] == StepProgress(j, n)
    ensures var p := [10, 30] + loop + [100];
      && |p| == n + 3
      && p[0] == 10 && p[1] == 30 && p[|p| - 1] == 100
      && (forall j :: 0 <= j < n ==> p[2 + j] == StepProgress(j, n))
      && NonDecreasing(p)
  {
    var p := [10, 30] + loop + [100];
    forall j | 0 <= j < n ensures p[2 + j] == StepProgress(j, n) {
      assert p[2 + j] == loop[j];
    }
    FramedNonDecreasing(p, n);
  }

  /** A sequence of 10, 30, the step values in order and 100 never goes down. */
  lemma {:induction false} FramedNonDecreasing(p: seq<int>, n: nat)
    requires |p| == n + 3 && p[0] == 10 && p[1] == 30 && p[n + 2] == 100
    requires forall j :: 0 <= j < n ==> p[2 + j] == StepProgress(j, n)
    ensures NonDecreasing(p)
  {
    forall i, j | 0 <= i <= j < |p| ensures p[i] <= p[j] {
      if 2 <= i && j < n + 2 {
        StepProgressMonotone(i - 2, j - 2, n);
      } else if 2 <= i < n + 2 {
        StepProgressBounds(i - 2, n);
      } else if 2 <= j < n + 2 {
        StepProgressBounds(j - 2, n);
      }
    }
  }

  /** The reference call j gets: none for the first call, and for each later one
      the image the call before it returned, or none if that call failed. */
  function Reference(initial: seq<StoryboardScene>, call: Caller, j: nat): Option<string>
    requires j <= |initial|
  {
    if j == 0 then None else Image(StepOutcome(initial, call, j - 1))
  }

  /** A run that gets past the analysis calls the generator once per scene, in scene
      order, with that scene's prompt and the reference the call before it left. */
  lemma {:induction false} RunImageCalls(request: Option<seq<Part>>, analysis: Result<seq<StoryboardScene>, string>, call: Caller)
    requires analysis.Success?
    ensures var initial := analysis.value;
      var calls := ImageCalls(RunFrom(request, analysis, call).events);
      && |calls| == |initial|
      && forall j :: 0 <= j < |initial| ==>
        calls[j] == ImageRequested(j, initial[j].visualPrompt, Reference(initial, call, j))
  {
    var initial := analysis.value;
    var n := |initial|;
    IllustrateCalls(initial, call, n);
    RequestsAt(initial, call, n);
    CompletedCalls(request, initial, call);
    forall j | 0 <= j < n
      ensures Illustrate(initial, call, j).reference == Reference(initial, call, j)
    {
      IllustrateReferences(initial, call, j);
    }
  }

  /** A run whose files were read, once the analysis call has been made. */
  lemma {:induction false} RunAfterAnalysis(text: string, encoded: Result<seq<string>, string>, analyzer: Analyzer,
                         parse: string -> Option<StoryboardData>, gen: Generator,
                         parts: seq<Part>, analysis: Result<StoryboardData, string>)
    requires encoded.Success? && parts == AnalysisParts(text, encoded.value)
    requires analysis == AnalysisOutcome(analyzer(parts), parse)
    ensures Run(text, encoded, analyzer, parse, gen) == RunFrom(Some(parts), ScenesOf(analysis), Calls(gen))
  {
  }

  /** The log after the first writes of handleProcess. */
  lemma {:induction false} OpeningLog(log: seq<Event>, request: Option<seq<Part>>)
    ensures log + [StateSet(AnalyzingState)] + [ScenesSet([])]
      + (if request.Some? then [AnalysisRequested(request.value)] else []) == log + Opening(request)
  {
  }


  // ---------------------------------------------------------------------------
  // The scene list when `scenes` is missing, as App.tsx:39-47 is written

  /** Whether the analysis ended with a parse result that has no `scenes`. */
  predicate ScenesMissing(text: string, encoded: Result<seq<string>, string>, analyzer: Analyzer,
                          parse: string -> Option<StoryboardData>)
  {
    && encoded.Success?
    && var analysis := AnalysisOutcome(analyzer(AnalysisParts(text, encoded.value)), parse);
    && analysis.Success? && analysis.value.scenes.None?
  }

  /** The end of a run as App.tsx:39-47 is written: the final state, the scene list
      (None where it is `undefined`) and the events. */
  datatype AsWrittenSnapshot = AsWrittenSnapshot(state: ProcessingState, scenes: Option<seq<StoryboardScene>>, events: seq<Event>)

  /** handleProcess once the analysis call has returned, in the written order: the
      scene list is stored before `.length` is read, so a result without `scenes`
      stores `undefined`, writes GENERATING_IMAGES at 30, and only then throws into
      the `catch`, which leaves the list undefined. Any other result goes on as in
      Conclusion, where the order makes no difference. */
  function AsWrittenConclusion(analysis: Result<StoryboardData, string>, call: Caller): AsWrittenSnapshot
  {
    if analysis.Success? && analysis.value.scenes.None? then
      var failed := FailedState(MissingScenesMessage);
      AsWrittenSnapshot(failed, None, [ScenesUndefined, StateSet(GeneratingState), StateSet(failed)])
    else
      var c := Conclusion(ScenesOf(analysis), call);
      AsWrittenSnapshot(c.state, Some(c.scenes), c.events)
  }

  /** One run of handleProcess as written. */
  function AsWrittenRun(text: string, encoded: Result<seq<string>, string>, analyzer: Analyzer,
                        parse: string -> Option<StoryboardData>, gen: Generator): AsWrittenSnapshot
  {
    match encoded
    case Failure(cause) =>
      AsWrittenSnapshot(FailedState(cause), Some([]), Opening(None) + [StateSet(FailedState(cause))])
    case Success(images) =>
      var parts := AnalysisParts(text, images);
      var c := AsWrittenConclusion(AnalysisOutcome(analyzer(parts), parse), Calls(gen));
      AsWrittenSnapshot(c.state, c.scenes, Opening(Some(parts)) + c.events)
  }

  /** The two orders part only where `scenes` is missing: on every other run the
      run as written is the modelled run. */
  lemma {:induction false} AsWrittenAgrees(text: string, encoded: Result<seq<string>, string>, analyzer: Analyzer,
                                           parse: string -> Option<StoryboardData>, gen: Generator)
    requires !ScenesMissing(text, encoded, analyzer, parse)
    ensures var s := Run(text, encoded, analyzer, parse, gen);
      AsWrittenRun(text, encoded, analyzer, parse, gen) == AsWrittenSnapshot(s.state, Some(s.scenes), s.events)
  {
    if encoded.Success? {
      var parts := AnalysisParts(text, encoded.value);
      RunAfterAnalysis(text, encoded, analyzer, parse, gen, parts, AnalysisOutcome(analyzer(parts), parse));
    }
  }

  /** The writes after the analysis call of a run without `scenes`, as written:
      progress 30 then 0, and no image call. */
  lemma {:induction false} MissingTail(cause: string)
    ensures var tail := [ScenesUndefined, StateSet(GeneratingState), StateSet(FailedState(cause))];
      Progresses(tail) == [30, 0] && ImageCalls(tail) == []
  {
    var a, b, c := ScenesUndefined, StateSet(GeneratingState), StateSet(FailedState(cause));
    Single(a);
    Single(b);
    Single(c);
    Pair(a, b);
    assert [a, b, c] == [a, b] + [c];
    ProgressesAppend([a, b], [c]);
    ImageCallsAppend([a, b], [c]);
  }

  /** The events of a run without `scenes`, as written: progress 10, 30, 0, a pass
      through GENERATING_IMAGES, and no image call. */
  lemma {:induction false} MissingEvents(request: Option<seq<Part>>)
    ensures var events := Opening(request)
      + [ScenesUndefined, StateSet(GeneratingState), StateSet(FailedState(MissingScenesMessage))];
      && Progresses(events) == [10, 30, 0] && ImageCalls(events) == []
      && StateSet(GeneratingState) in events
  {
    var tail := [ScenesUndefined, StateSet(GeneratingState), StateSet(FailedState(MissingScenesMessage))];
    OpeningEvents(request);
    MissingTail(MissingScenesMessage);
    ProgressesAppend(Opening(request), tail);
    ImageCallsAppend(Opening(request), tail);
    assert (Opening(request) + tail)[|Opening(request)| + 1] == StateSet(GeneratingState);
  }

  /** A run that fails before the loop never enters GENERATING_IMAGES. */
  lemma {:induction false} FailedNeverGenerating(request: Option<seq<Part>>, cause: string)
    ensures StateSet(GeneratingState) !in Opening(request) + [StateSet(FailedState(cause))]
  {
  }

  /** Where `scenes` is missing, the run as written passes through
      GENERATING_IMAGES: it writes progress 10, 30, 0 and ends in ERROR with the
      scene list undefined. The modelled run fails before the write: it writes 10, 0
      and ends in ERROR with an empty list. Neither makes an image call. */
  lemma {:induction false} AsWrittenMissing(text: string, encoded: Result<seq<string>, string>, analyzer: Analyzer,
                                            parse: string -> Option<StoryboardData>, gen: Generator)
    requires ScenesMissing(text, encoded, analyzer, parse)
    ensures var w := AsWrittenRun(text, encoded, analyzer, parse, gen);
      && w.state == FailedState(MissingScenesMessage) && w.scenes == None
      && StateSet(GeneratingState) in w.events
      && Progresses(w.events) == [10, 30, 0] && ImageCalls(w.events) == []
    ensures var s := Run(text, encoded, analyzer, parse, gen);
      && s.state == FailedState(MissingScenesMessage) && s.scenes == []
      && StateSet(GeneratingState) !in s.events
      && Progresses(s.events) == [10, 0] && ImageCalls(s.events) == []
  {
    var request := Some(AnalysisParts(text, encoded.value));
    var failed := FailedState(MissingScenesMessage);
    assert AsWrittenRun(text, encoded, analyzer, parse, gen)
      == AsWrittenSnapshot(failed, None, Opening(request) + [ScenesUndefined, StateSet(GeneratingState), StateSet(failed)]);
    MissingEvents(request);
    assert Run(text, encoded, analyzer, parse, gen) == RunFrom(request, Failure(MissingScenesMessage), Calls(gen));
    assert RunFrom(request, Failure(MissingScenesMessage), Calls(gen)) == Snapshot(failed, [], Opening(request) + [StateSet(failed)]);
    FailedEvents(request, MissingScenesMessage);
    FailedNeverGenerating(request, MissingScenesMessage);
  }

  /** An analysis reply without text is read as `'{}'`, which has no `scenes`: as
      written the run writes 10, 30, 0 and ends with the scene list undefined, which
      the render's `scenes.length` (App.tsx:157) then reads; the modelled run writes
      10, 0 and ends with an empty list. */
  lemma {:induction false} EmptyReplyScenes(text: string, images: seq<string>, analyzer: Analyzer,
                                            parse: string -> Option<StoryboardData>, gen: Generator)
    requires analyzer(AnalysisParts(text, images)) == AnalysisResponse(None)
    ensures ScenesMissing(text, Success(images), analyzer, parse)
    ensures var w := AsWrittenRun(text, Success(images), analyzer, parse, gen);
      w.state.status == ERROR && w.scenes == None && Progresses(w.events) == [10, 30, 0]
    ensures var s := Run(text, Success(images), analyzer, parse, gen);
      s.state.status == ERROR && s.scenes == [] && Progresses(s.events) == [10, 0]
  {
    assert ResponseBody(None) == "{}";
    assert AnalysisOutcome(AnalysisResponse(None), parse) == Success(StoryboardData(None));
    AsWrittenMissing(text, Success(images), analyzer, parse, gen);
  }

  // ---------------------------------------------------------------------------
  // The component's state

  class AppState {
    var state: ProcessingState
    var scenes: seq<StoryboardScene>
    /** Every state write, scene-list write and remote call, in order. */
    ghost var log: seq<Event>

    /** The two `useState` hooks' initial values (App.tsx:9-14). */
    constructor ()
      ensures state == IdleState && scenes == [] && log == []
    {
      state := IdleState;
      scenes := [];
      log := [];
    }

    /** The `catch` block: ERROR, progress 0, and the cause as the error text. */
    method Fail(cause: string)
      modifies this
      ensures state == FailedState(cause) && scenes == old(scenes)
      ensures log == old(log) + [StateSet(FailedState(cause))]
    {
      state := ProcessingState(ERROR, 0, ErrorMessage, Some(if cause == "" then UnknownError else cause));
      log := log + [StateSet(state)];
    }

    /** handleProcess. `encoded` is the result of reading the files, `analyzer` the
        content-analysis call, `parse` JSON.parse, and `gen(i)` the i-th image call. */
    method HandleProcess(text: string, encoded: Result<seq<string>, string>, analyzer: Analyzer,
                         parse: string -> Option<StoryboardData>, gen: Generator)
      modifies this
      ensures state == Run(text, encoded, analyzer, parse, gen).state
      ensures scenes == Run(text, encoded, analyzer, parse, gen).scenes
      ensures log == old(log) + Run(text, encoded, analyzer, parse, gen).events
    {
      state := AnalyzingState;
      log := log + [StateSet(state)];
      scenes := [];
      log := log + [ScenesSet(scenes)];

      if encoded.Failure? {
        assert Run(text, encoded, analyzer, parse, gen) == RunFrom(None, Failure(encoded.error), Calls(gen));
        OpeningLog(old(log), None);
        Fail(encoded.error);
        return;
      }
      var parts, analysis := AnalyzeContent(text, encoded.value, analyzer, parse);
      log := log + [AnalysisRequested(parts)];
      OpeningLog(old(log), Some(parts));
      RunAfterAnalysis(text, encoded, analyzer, parse, gen, parts, analysis);
      ProcessAnalysis(analysis, gen);
      Assoc3(old(log), Opening(Some(parts)), Conclusion(ScenesOf(analysis), Calls(gen)).events);
    }

    /** The rest of handleProcess once the analysis call has returned: a failure
        goes to the `catch` block; a result without `scenes` fails there too; the
        scenes are then written, GENERATING_IMAGES at 30 is set, the loop runs, and
        COMPLETED at 100 is set. */
    method ProcessAnalysis(analysis: Result<StoryboardData, string>, gen: Generator)
      requires scenes == []
      modifies this
      ensures state == Conclusion(ScenesOf(analysis), Calls(gen)).state
      ensures scenes == Conclusion(ScenesOf(analysis), Calls(gen)).scenes
      ensures log == old(log) + Conclusion(ScenesOf(analysis), Calls(gen)).events
    {
      if analysis.Failure? {
        Fail(analysis.error);
        return;
      }
      // `scenes` is checked before the scene list is written; see README, Findings.
      if analysis.value.scenes.None? {
        assert ScenesOf(analysis) == Failure(MissingScenesMessage);
        Fail(MissingScenesMessage);
        return;
      }
      var initial := analysis.value.scenes.value;
      scenes := initial;
      log := log + [ScenesSet(scenes)];
      state := GeneratingState;
      log := log + [StateSet(state)];
      ghost var opening := [ScenesSet(initial), StateSet(GeneratingState)];
      assert log == old(log) + opening;
      GenerateImages(initial, gen);
      state := CompletedState;
      log := log + [StateSet(state)];
      Assoc4(old(log), opening, Trace(initial, Calls(gen), |initial|), [StateSet(CompletedState)]);
    }

    /** The loop of handleProcess (App.tsx:47-74): for each scene in order, write the
        step's progress and message, ask for its image with the last image returned
        as the reference, and on success store the image in the scene and pass it on;
        on failure go on with no reference. */
    method GenerateImages(initial: seq<StoryboardScene>, gen: Generator)
      modifies this
      requires scenes == initial
      requires state.status == GENERATING_IMAGES && state.error == None
      ensures scenes == Illustrate(initial, Calls(gen), |initial|).scenes
      ensures log == old(log) + Trace(initial, Calls(gen), |initial|)
      ensures |initial| == 0 ==> state == old(state)
      ensures |initial| > 0 ==> state == GeneratingState.(progress := 90,
        message := StepMessage(|initial| - 1, |initial|, initial[|initial| - 1].title))
    {
      var totalScenes := |initial|;
      var updatedScenes := initial;
      var lastGeneratedImageUrl: Option<string> := None;
      ghost var start := log;
      var i := 0;
      while i < totalScenes
        invariant 0 <= i <= totalScenes
        invariant Illustrate(initial, Calls(gen), i) == Illustration(updatedScenes, lastGeneratedImageUrl)
        invariant scenes == updatedScenes
        invariant log == start + Trace(initial, Calls(gen), i)
        invariant state.status == GENERATING_IMAGES && state.error == None
        invariant i == 0 ==> state == old(state)
        invariant i > 0 ==> state == GeneratingState.(progress := StepProgress(i - 1, totalScenes),
          message := StepMessage(i - 1, totalScenes, initial[i - 1].title))
      {
        Pending(initial, Calls(gen), i);
        updatedScenes, lastGeneratedImageUrl := IllustrateScene(i, updatedScenes, lastGeneratedImageUrl, gen);
        Advance(initial, Calls(gen), i, start);
        i := i + 1;
      }
      if totalScenes > 0 {
        StepProgressBounds(totalScenes - 1, totalScenes);
      }
    }

    /** One pass of the loop body for index i: write the step's progress and
        message, ask for scene i's image with the current reference, and on success
        store the image in scene i, publish the list and make it the reference; on
        failure drop the reference. */
    method IllustrateScene(i: nat, updatedScenes: seq<StoryboardScene>, lastGeneratedImageUrl: Option<string>,
                           gen: Generator)
      returns (nextScenes: seq<StoryboardScene>, nextReference: Option<string>)
      modifies this
      requires i < |updatedScenes| && scenes == updatedScenes
      requires state.status == GENERATING_IMAGES && state.error == None
      ensures var f := Illustration(updatedScenes, lastGeneratedImageUrl);
        Illustration(nextScenes, nextReference) == Step(f, i, Outcome(f, i, Calls(gen)))
      ensures scenes == nextScenes
      ensures var f := Illustration(updatedScenes, lastGeneratedImageUrl);
        log == old(log) + StepTrace(f, i, Outcome(f, i, Calls(gen)))
      ensures state == GeneratingState.(progress := StepProgress(i, |updatedScenes|),
        message := StepMessage(i, |updatedScenes|, updatedScenes[i].title))
    {
      ghost var f := Illustration(updatedScenes, lastGeneratedImageUrl);
      var totalScenes := |updatedScenes|;
      var scene := updatedScenes[i];
      state := state.(progress := 30 + ((i + 1) * 60) / totalScenes,
                      message := StepMessage(i, totalScenes, scene.title));
      var announced := [StateSet(state), ImageRequested(i, scene.visualPrompt, lastGeneratedImageUrl)];
      assert announced == Announce(f, i);
      log := log + announced;
      var request, outcome := GenerateSceneImage(scene.visualPrompt, lastGeneratedImageUrl, gen(i));
      assert outcome == Outcome(f, i, Calls(gen));
      if outcome.Success? {
        var imageUrl := outcome.value;
        nextScenes := updatedScenes[i := scene.(imageUrl := Some(imageUrl))];
        nextReference := Some(imageUrl);
        scenes := nextScenes;
        log := log + [ScenesSet(scenes)];
      } else {
        nextScenes := updatedScenes;
        nextReference := None;
        assert updatedScenes[i := Illustrated(scene, outcome)] == updatedScenes;
        assert announced + [] == announced;
      }
    }

    /** reset: no scenes, IDLE, progress 0, empty message. */
    method Reset()
      modifies this
      ensures state == IdleState && state.progress == 0 && state.message == ""
      ensures scenes == []
      ensures log == old(log) + [ScenesSet([]), StateSet(IdleState)]
    {
      scenes := [];
      log := log + [ScenesSet(scenes)];
      state := ProcessingState(IDLE, 0, "", None);
      log := log + [StateSet(state)];
    }
  }
}
