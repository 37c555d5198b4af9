/**
 * The image stage of convex/replicate.ts (`regenerateSegmentImageUsingPrompt`):
 * a try/catch/finally sequence that marks a segment in flight, asks the image
 * model for a picture of the segment's stored prompt, stores a full-size copy
 * and a preview, and patches the segment with the outcome; the `finally` block
 * asks the story's pending-segment counter to be decremented, at most once and
 * only while the story is generating segments.
 *
 * The image model, the download, the decoding and the blob store are one input,
 * `ImageRun`: the two storage ids they produced, or the error that ended them.
 * The external calls the handler makes are returned as a trace of effects. The
 * decrement mutation is not part of this model; it appears only as an effect.
 */
module Replicate {
  import opened Common
  import opened Schema

  const SCALED_IMAGE_WIDTH: int := 468
  const SCALED_IMAGE_HEIGHT: int := 850

  const SEGMENT_NOT_FOUND: string := "Segment not found"
  const STORY_NOT_FOUND: string := "Story not found"
  const NO_URL: string := "Replicate did not return URL"
  const FAILURE_PREFIX: string := "Image generation failed: "

  datatype Dimensions = Dimensions(width: int, height: int)

  /** The size requested from the image model: portrait exactly when the story is vertical. */
  function TargetSize(isVertical: bool): (d: Dimensions)
    ensures d.width < d.height <==> isVertical
    ensures d.width * d.height == 1080 * 1920
    ensures isVertical ==> d.width == 1080
    ensures !isVertical ==> d.width == 1920
  {
    if isVertical then Dimensions(1080, 1920) else Dimensions(1920, 1080)
  }

  /** The bounding box the preview is scaled to fit: the 468 x 850 box, turned with the story. */
  function PreviewBox(isVertical: bool): (d: Dimensions)
    ensures d.width < d.height <==> isVertical
    ensures {d.width, d.height} == {SCALED_IMAGE_WIDTH, SCALED_IMAGE_HEIGHT}
  {
    if isVertical then Dimensions(SCALED_IMAGE_WIDTH, SCALED_IMAGE_HEIGHT)
    else Dimensions(SCALED_IMAGE_HEIGHT, SCALED_IMAGE_WIDTH)
  }

  /** The call made to the image model: SDXL with explicit dimensions, or Flux with an aspect ratio. */
  datatype ModelCall = Sdxl(prompt: string, width: int, height: int) | Flux(prompt: string, aspectRatio: string)

  datatype ImageRequest = ImageRequest(call: ModelCall, previewBox: Dimensions)

  /** The request the handler makes for a prompt and an orientation. */
  function RequestFor(prompt: string, isVertical: bool, useFlux: bool): (q: ImageRequest)
    ensures q.call.prompt == prompt && q.previewBox == PreviewBox(isVertical)
    ensures q.call.Sdxl? <==> !useFlux
    ensures q.call.Sdxl? ==> Dimensions(q.call.width, q.call.height) == TargetSize(isVertical)
    ensures q.call.Flux? ==> q.call.aspectRatio == (if isVertical then "9:16" else "16:9")
  {
    var size := TargetSize(isVertical);
    var call := if useFlux then Flux(prompt, if isVertical then "9:16" else "16:9")
                else Sdxl(prompt, size.width, size.height);
    ImageRequest(call, PreviewBox(isVertical))
  }

  /** What the external part of the stage produced. */
  datatype ImageRun =
    | NoUrl                          // the model's output had no first URL
    | FetchFailed(statusText: string) // downloading the image failed
    | StepFailed(message: string)     // the model call, decoding or a store threw
    | Stored(image: StorageId, preview: StorageId)

  function RunFailureMessage(run: ImageRun): string
    requires !run.Stored?
  {
    match run
    case NoUrl => NO_URL
    case FetchFailed(t) => "Failed to fetch image from Replicate: " + t
    case StepFailed(m) => m
  }

  /** The optional fields of an `updateSegment` call; absent fields are left as they are. */
  datatype SegmentPatch = SegmentPatch(
    image: Option<StorageId>,
    previewImage: Option<StorageId>,
    isGenerating: Option<bool>,
    error: Option<string>)

  /** The segment after a patch: each supplied field takes its new value, every other field keeps its old one. */
  function ApplyPatch(s: Segment, p: SegmentPatch): (t: Segment)
    ensures t.storyId == s.storyId && t.text == s.text && t.order == s.order && t.prompt == s.prompt
    ensures t.image == (if p.image.Some? then p.image else s.image)
    ensures t.previewImage == (if p.previewImage.Some? then p.previewImage else s.previewImage)
    ensures p.isGenerating.Some? ==> t.isGenerating == p.isGenerating.value
    ensures p.isGenerating.None? ==> t.isGenerating == s.isGenerating
    ensures t.error == (if p.error.Some? then p.error else s.error)
  {
    s.(image := if p.image.Some? then p.image else s.image,
       previewImage := if p.previewImage.Some? then p.previewImage else s.previewImage,
       isGenerating := if p.isGenerating.Some? then p.isGenerating.value else s.isGenerating,
       error := if p.error.Some? then p.error else s.error)
  }

  /** Applying the same patch twice is applying it once. */
  lemma ApplyPatchIdempotent(s: Segment, p: SegmentPatch)
    ensures ApplyPatch(ApplyPatch(s, p), p) == ApplyPatch(s, p)
  {
  }

  const START_PATCH: SegmentPatch := SegmentPatch(None, None, Some(true), Some(""))

  function DonePatch(image: StorageId, preview: StorageId): SegmentPatch
  {
    SegmentPatch(Some(image), Some(preview), Some(false), Some(""))
  }

  function FailurePatch(message: string): SegmentPatch
  {
    SegmentPatch(None, None, Some(false), Some(FAILURE_PREFIX + message))
  }

  /** An external step of the handler, in the order it was made. */
  datatype Effect =
    | UpdateSegment(segmentId: SegmentId, patch: SegmentPatch)
    | GenerateImage(request: ImageRequest)
    | DecrementPending(storyId: StoryId)

  /** The number of decrement requests in a trace. */
  function Decrements(trace: seq<Effect>): (n: nat)
    ensures n <= |trace|
  {
    if trace == [] then 0 else (if trace[0].DecrementPending? then 1 else 0) + Decrements(trace[1..])
  }

  /** The number of image-model calls in a trace. */
  function ImageCalls(trace: seq<Effect>): (n: nat)
    ensures n <= |trace|
  {
    if trace == [] then 0 else (if trace[0].GenerateImage? then 1 else 0) + ImageCalls(trace[1..])
  }

  /** Each count is zero exactly when the trace holds no step of its kind. */
  lemma {:induction false} CountsZero(trace: seq<Effect>)
    ensures Decrements(trace) == 0 <==> forall i :: 0 <= i < |trace| ==> !trace[i].DecrementPending?
    ensures ImageCalls(trace) == 0 <==> forall i :: 0 <= i < |trace| ==> !trace[i].GenerateImage?
  {
    if trace != [] {
      CountsZero(trace[1..]);
      assert forall i :: 1 <= i < |trace| ==> trace[i] == trace[1..][i - 1];
    }
  }

  /** Both counts add up over concatenated traces. */
  lemma {:induction false} CountsAdd(a: seq<Effect>, b: seq<Effect>)
    ensures Decrements(a + b) == Decrements(a) + Decrements(b)
    ensures ImageCalls(a + b) == ImageCalls(a) + ImageCalls(b)
  {
    if a != [] {
      assert (a + b)[1..] == a[1..] + b;
      CountsAdd(a[1..], b);
    } else {
      assert a + b == b;
    }
  }

  /** The segment has a prompt and its story exists, so the stage reaches the image model. */
  predicate Ready(seg: Segment, stories: map<StoryId, Story>)
  {
    seg.prompt.Some? && seg.prompt.value != "" && seg.storyId in stories
  }

  /** The error the stage raises when a found segment is not Ready. */
  function AbortMessage(segmentId: SegmentId, seg: Segment): string
  {
    if seg.prompt.None? || seg.prompt.value == "" then "Prompt missing for segment " + segmentId
    else STORY_NOT_FOUND
  }

  /** `story.isVertical ?? false`. */
  function IsVertical(story: Story): bool
  {
    story.isVertical == Some(true)
  }

  /** The `finally` block asks for a decrement: the story id was read, and the story read there is generating segments. */
  predicate DecrementDue(storyId: StoryId, stories: map<StoryId, Story>, finallyReadFails: bool)
  {
    !finallyReadFails && storyId in stories && stories[storyId].status == GeneratingSegments
  }

  /** `updateSegment`: patch the supplied fields of an existing segment; a missing one makes the call throw. */
  method UpdateSegmentRow(segments: SegmentTable, segmentId: SegmentId, patch: SegmentPatch) returns (ok: bool)
    modifies segments
    ensures ok <==> segmentId in old(segments.rows)
    ensures ok ==> segments.rows == old(segments.rows)[segmentId := ApplyPatch(old(segments.rows)[segmentId], patch)]
    ensures !ok ==> segments.rows == old(segments.rows)
  {
    if segmentId !in segments.rows {
      return false;
    }
    segments.rows := segments.rows[segmentId := ApplyPatch(segments.rows[segmentId], patch)];
    ok := true;
  }

  /**
   * The `try` block of `regenerateSegmentImageUsingPrompt`: the steps it made,
   * the story id it read (set once the segment was found), and the message of
   * the error it raised, if any.
   */
  method TryGenerate(segments: SegmentTable, stories: StoryTable, segmentId: SegmentId, useFlux: bool, run: ImageRun)
    returns (trace: seq<Effect>, storyId: Option<StoryId>, caught: Option<string>)
    modifies segments
    ensures storyId.Some? <==> segmentId in old(segments.rows)
    ensures storyId.Some? ==> storyId.value == old(segments.rows)[segmentId].storyId
    ensures Decrements(trace) == 0
    ensures segmentId !in old(segments.rows) ==>
      trace == [] && caught == Some(SEGMENT_NOT_FOUND) && segments.rows == old(segments.rows)
    ensures segmentId in old(segments.rows) && !Ready(old(segments.rows)[segmentId], stories.rows) ==>
      && trace == [] && segments.rows == old(segments.rows)
      && caught == Some(AbortMessage(segmentId, old(segments.rows)[segmentId]))
    ensures segmentId in old(segments.rows) && Ready(old(segments.rows)[segmentId], stories.rows) ==>
      var seg := old(segments.rows)[segmentId];
      && ImageCalls(trace) == 1
      && |trace| >= 2
      && trace[0] == UpdateSegment(segmentId, START_PATCH)
      && trace[1] == GenerateImage(RequestFor(seg.prompt.value, IsVertical(stories.rows[seg.storyId]), useFlux))
      && (run.Stored? ==> caught.None? && segments.rows == old(segments.rows)[segmentId :=
            seg.(image := Some(run.image), previewImage := Some(run.preview), isGenerating := false, error := Some(""))])
      && (!run.Stored? ==> caught == Some(RunFailureMessage(run)) && segments.rows == old(segments.rows)[segmentId :=
            seg.(isGenerating := true, error := Some(""))])
  {
    trace := [];
    storyId := None;
    caught := None;
    if segmentId !in segments.rows {
      caught := Some(SEGMENT_NOT_FOUND);
      return;
    }
    var segment := segments.rows[segmentId];
    storyId := Some(segment.storyId);
    if segment.prompt.None? || segment.prompt.value == "" {
      caught := Some("Prompt missing for segment " + segmentId);
      return;
    }
    if segment.storyId !in stories.rows {
      caught := Some(STORY_NOT_FOUND);
      return;
    }
    var story := stories.rows[segment.storyId];
    var _ := UpdateSegmentRow(segments, segmentId, START_PATCH);
    var request := RequestFor(segment.prompt.value, IsVertical(story), useFlux);
    var start := [UpdateSegment(segmentId, START_PATCH), GenerateImage(request)];
    assert start[1..] == [GenerateImage(request)];
    if run.Stored? {
      var _ := UpdateSegmentRow(segments, segmentId, DonePatch(run.image, run.preview));
      CountsAdd(start, [UpdateSegment(segmentId, DonePatch(run.image, run.preview))]);
      trace := start + [UpdateSegment(segmentId, DonePatch(run.image, run.preview))];
    } else {
      trace := start;
      caught := Some(RunFailureMessage(run));
    }
  }

  /**
   * `regenerateSegmentImageUsingPrompt`. `useFlux` is the IMAGE_MODEL setting,
   * `run` what the external steps produced, and `finallyReadFails` whether the
   * story read inside `finally` threw. `threw` is whether the action itself ends
   * by throwing: only when the segment is missing, since the catch block's
   * patch of that segment then throws too.
   */
  method RegenerateSegmentImageUsingPrompt(segments: SegmentTable, stories: StoryTable, segmentId: SegmentId,
                                           useFlux: bool, run: ImageRun, finallyReadFails: bool)
    returns (trace: seq<Effect>, threw: bool)
    modifies segments
    ensures threw <==> segmentId !in old(segments.rows)
    // A missing segment: only the catch block's patch is attempted, and nothing is decremented.
    ensures segmentId !in old(segments.rows) ==>
      && segments.rows == old(segments.rows)
      && trace == [UpdateSegment(segmentId, FailurePatch(SEGMENT_NOT_FOUND))]
    // Exit discipline: at most one decrement, as the last step, exactly when it is due.
    ensures Decrements(trace) <= 1
    ensures Decrements(trace) == 1 <==>
      segmentId in old(segments.rows) && DecrementDue(old(segments.rows)[segmentId].storyId, stories.rows, finallyReadFails)
    ensures Decrements(trace) == 1 ==> trace[|trace| - 1] == DecrementPending(old(segments.rows)[segmentId].storyId)
    // The image model is called at most once, after the segment was marked in flight.
    ensures ImageCalls(trace) <= 1
    ensures ImageCalls(trace) == 1 <==> segmentId in old(segments.rows) && Ready(old(segments.rows)[segmentId], stories.rows)
    ensures ImageCalls(trace) == 1 ==>
      var seg := old(segments.rows)[segmentId];
      && |trace| >= 2
      && trace[0] == UpdateSegment(segmentId, START_PATCH)
      && trace[1] == GenerateImage(RequestFor(seg.prompt.value, IsVertical(stories.rows[seg.storyId]), useFlux))
    // The segment's final state.
    ensures segmentId in old(segments.rows) && !Ready(old(segments.rows)[segmentId], stories.rows) ==>
      var seg := old(segments.rows)[segmentId];
      segments.rows == old(segments.rows)[segmentId :=
        seg.(isGenerating := false, error := Some(FAILURE_PREFIX + AbortMessage(segmentId, seg)))]
    ensures segmentId in old(segments.rows) && Ready(old(segments.rows)[segmentId], stories.rows) && run.Stored? ==>
      var seg := old(segments.rows)[segmentId];
      segments.rows == old(segments.rows)[segmentId :=
        seg.(image := Some(run.image), previewImage := Some(run.preview), isGenerating := false, error := Some(""))]
    ensures segmentId in old(segments.rows) && Ready(old(segments.rows)[segmentId], stories.rows) && !run.Stored? ==>
      var seg := old(segments.rows)[segmentId];
      segments.rows == old(segments.rows)[segmentId :=
        seg.(isGenerating := false, error := Some(FAILURE_PREFIX + RunFailureMessage(run)))]
  {
    var storyId: Option<StoryId>;
    var caught: Option<string>;
    trace, storyId, caught := TryGenerate(segments, stories, segmentId, useFlux, run);
    threw := false;

    // catch
    if caught.Some? {
      var ok := UpdateSegmentRow(segments, segmentId, FailurePatch(caught.value));
      CountsAdd(trace, [UpdateSegment(segmentId, FailurePatch(caught.value))]);
      trace := trace + [UpdateSegment(segmentId, FailurePatch(caught.value))];
      threw := !ok;
    }

    // finally: a failure of the read or of the decrement is caught and logged here
    if storyId.Some? && DecrementDue(storyId.value, stories.rows, finallyReadFails) {
      CountsAdd(trace, [DecrementPending(storyId.value)]);
      trace := trace + [DecrementPending(storyId.value)];
    }
  }
}
