/**
 * The party line-up (utils/imageUtils.ts, mergeMultipleImages): the
 * character images are loaded, scaled to one height and drawn side by side,
 * 20 pixels apart, on a white canvas whose PNG is the composite reference.
 *
 * Loading an image, and the canvas's encoding, are outside the model: each
 * image's load outcome and the order in which the browser reports them are
 * inputs, and `toDataURL` is a function parameter.
 */
module ImageUtils {
  import opened Js

  const TargetHeight: real := 1024.0
  const Gap: real := 20.0
  const White := "#FFFFFF"

  /** A loaded image's natural size; a height of 0 is not modelled. */
  type Positive = x: int | x > 0 witness 1

  datatype LoadOutcome = Loaded(width: nat, height: Positive) | LoadFailed

  /** One `drawImage(img, x, y, w, h)` call, naming the image by its index. */
  datatype Draw = Draw(image: nat, x: real, y: real, w: real, h: real)

  /** The canvas's size is in whole pixels: assigning a number to `width` or
      `height` converts it to an unsigned long. */
  datatype Canvas = Canvas(width: nat, height: nat, fill: string, draws: seq<Draw>)

  /** `toDataURL` either encodes the canvas or throws. */
  datatype Encoding = Encoded(url: string) | EncodeError(message: string)

  /** How the promise settles. */
  datatype Settled = Resolved(url: string) | Rejected(message: string)

  // ---------------------------------------------------------------------------
  // Layout: the specification
  // ---------------------------------------------------------------------------

  /** `img.width * (TARGET_HEIGHT / img.height)` */
  function ScaledWidth(width: nat, height: Positive): (w: real)
    ensures w >= 0.0
  {
    (width as real) * (TargetHeight / (height as real))
  }

  /** Scaling keeps the aspect ratio: w / 1024 = width / height. */
  lemma ScaledWidthKeepsAspect(width: nat, height: Positive)
    ensures ScaledWidth(width, height) * (height as real) == (width as real) * TargetHeight
  {
    var h := height as real;
    assert (TargetHeight / h) * h == TargetHeight;
    calc {
      ScaledWidth(width, height) * h;
      (width as real) * ((TargetHeight / h) * h);
      (width as real) * TargetHeight;
    }
  }

  /** The conversion to an unsigned long: truncation toward zero, then
      reduction modulo 2^32. */
  function UnsignedLong(x: real): (n: nat)
    ensures 0.0 <= x < 4294967296.0 ==> n as real <= x < n as real + 1.0
  {
    var t := if x >= 0.0 then x.Floor else -((-x).Floor);
    t % 0x1_0000_0000
  }

  predicate AllLoaded(outcomes: seq<LoadOutcome>) {
    forall i | 0 <= i < |outcomes| :: outcomes[i].Loaded?
  }

  function Widths(outcomes: seq<LoadOutcome>): (ws: seq<real>)
    requires AllLoaded(outcomes)
    ensures |ws| == |outcomes|
    ensures forall i | 0 <= i < |ws| :: ws[i] == ScaledWidth(outcomes[i].width, outcomes[i].height)
  {
    seq(|outcomes|, i requires 0 <= i < |outcomes| => ScaledWidth(outcomes[i].width, outcomes[i].height))
  }

  function Sum(ws: seq<real>): real {
    if ws == [] then 0.0 else Sum(ws[..|ws| - 1]) + ws[|ws| - 1]
  }

  /** Where the k-th image is drawn: after the widths of those before it and
      one gap per image. */
  function Offset(ws: seq<real>, k: nat): real
    requires k <= |ws|
  {
    Sum(ws[..k]) + (k as real) * Gap
  }

  /** The canvas the line-up is drawn on: 1024 high, as wide as the scaled
      images and the gaps between them, with image k drawn at its offset. */
  function Composite(outcomes: seq<LoadOutcome>): Canvas
    requires AllLoaded(outcomes)
  {
    var ws := Widths(outcomes);
    Canvas(UnsignedLong(Sum(ws) + ((|ws| - 1) as real) * Gap), UnsignedLong(TargetHeight), White,
      seq(|ws|, k requires 0 <= k < |ws| => Draw(k, Offset(ws, k), 0.0, ws[k], TargetHeight)))
  }

  lemma SumPrefixStep(ws: seq<real>, k: nat)
    requires k < |ws|
    ensures Sum(ws[..k + 1]) == Sum(ws[..k]) + ws[k]
  {
    assert ws[..k + 1][..k] == ws[..k];
  }

  /** Each image starts 20 pixels after the previous one ends. */
  lemma OffsetStep(ws: seq<real>, k: nat)
    requires k < |ws|
    ensures Offset(ws, k + 1) == Offset(ws, k) + ws[k] + Gap
  {
    SumPrefixStep(ws, k);
  }

  /** The images stand left to right in list order, none overlapping the
      next, and the last one ends within the last pixel column of the canvas
      (the width being the line-up's length rounded down), for any line-up
      shorter than 2^32 pixels. */
  lemma LineUp(outcomes: seq<LoadOutcome>)
    requires AllLoaded(outcomes) && |outcomes| >= 1
    ensures var c := Composite(outcomes);
      && |c.draws| == |outcomes|
      && c.draws[0].x == 0.0
      && (forall k | 0 <= k < |c.draws| - 1 :: c.draws[k].x + c.draws[k].w < c.draws[k + 1].x)
      && var end := c.draws[|c.draws| - 1].x + c.draws[|c.draws| - 1].w;
         end < 4294967296.0 ==> c.width as real <= end < c.width as real + 1.0
  {
    var ws := Widths(outcomes);
    var n := |ws|;
    assert ws[..0] == [];
    forall k | 0 <= k < n - 1
      ensures Offset(ws, k) + ws[k] < Offset(ws, k + 1)
    {
      OffsetStep(ws, k);
    }
    var total := Sum(ws) + ((n - 1) as real) * Gap;
    EndIsTotal(ws);
    SumNonNegative(ws);
    var c := Composite(outcomes);
    assert c.draws[n - 1].x + c.draws[n - 1].w == total;
    assert c.width == UnsignedLong(total);
  }

  lemma {:induction false} SumNonNegative(ws: seq<real>)
    requires forall i | 0 <= i < |ws| :: ws[i] >= 0.0
    ensures Sum(ws) >= 0.0
    decreases |ws|
  {
    if ws != [] {
      SumNonNegative(ws[..|ws| - 1]);
    }
  }

  /** The last image ends where the widths and gaps add up to. */
  lemma EndIsTotal(ws: seq<real>)
    requires |ws| >= 1
    ensures Offset(ws, |ws| - 1) + ws[|ws| - 1] == Sum(ws) + ((|ws| - 1) as real) * Gap
  {
    SumPrefixStep(ws, |ws| - 1);
    assert ws[..|ws|] == ws;
  }

  // ---------------------------------------------------------------------------
  // Load events
  // ---------------------------------------------------------------------------

  /** `order` lists the n image indices, each once: every image reports one
      load or error event. */
  predicate IsEventOrder(order: seq<nat>, n: nat) {
    && |order| == n
    && (forall k | 0 <= k < |order| :: order[k] < n)
    && (forall i | 0 <= i < n :: i in order)
  }

  function LoadedCount(outcomes: seq<LoadOutcome>, events: seq<nat>): (c: nat)
    requires forall k | 0 <= k < |events| :: events[k] < |outcomes|
    ensures c <= |events|
    ensures c == |events| <==> forall k | 0 <= k < |events| :: outcomes[events[k]].Loaded?
  {
    if events == [] then 0
    else
      var init := events[..|events| - 1];
      LoadedCount(outcomes, init) + if outcomes[events[|events| - 1]].Loaded? then 1 else 0
  }

  /** The first image in event order that failed to load. */
  function FirstFailure(outcomes: seq<LoadOutcome>, events: seq<nat>): (r: Option<nat>)
    requires forall k | 0 <= k < |events| :: events[k] < |outcomes|
    ensures r.None? <==> forall k | 0 <= k < |events| :: outcomes[events[k]].Loaded?
    ensures r.Some? ==> exists k | 0 <= k < |events| ::
      (events[k] == r.value && outcomes[r.value].LoadFailed? && forall j | 0 <= j < k :: outcomes[events[j]].Loaded?)
  {
    if events == [] then None
    else if outcomes[events[0]].LoadFailed? then Some(events[0])
    else
      var r := FirstFailure(outcomes, events[1..]);
      if r.Some? then
        var k :| 0 <= k < |events[1..]| && events[1..][k] == r.value && outcomes[r.value].LoadFailed?
          && forall j | 0 <= j < k :: outcomes[events[1..][j]].Loaded?;
        assert events[k + 1] == r.value && forall j | 0 <= j < k + 1 :: outcomes[events[j]].Loaded?;
        r
      else r
  }

  /** An event order that covers every image reaches every outcome. */
  lemma EventsCoverAll(outcomes: seq<LoadOutcome>, order: seq<nat>)
    requires IsEventOrder(order, |outcomes|)
    ensures (forall k | 0 <= k < |order| :: outcomes[order[k]].Loaded?) <==> AllLoaded(outcomes)
    ensures FirstFailure(outcomes, order).None? <==> AllLoaded(outcomes)
  {
    if forall k | 0 <= k < |order| :: outcomes[order[k]].Loaded? {
      forall i | 0 <= i < |outcomes| ensures outcomes[i].Loaded? {
        assert i in order;
      }
    }
  }

  /** The message of a failed load. */
  function LoadErrorMessage(index: nat): string {
    "Failed to load image at index " + NatToString(index)
  }

  /** What `onAllLoaded` settles the promise with. */
  function AllLoadedOutcome(outcomes: seq<LoadOutcome>, hasContext: bool, encode: Canvas -> Encoding): Settled
    requires AllLoaded(outcomes)
  {
    if !hasContext then Rejected("Could not get canvas context")
    else match encode(Composite(outcomes))
      case Encoded(url) => Resolved(url)
      case EncodeError(message) => Rejected(message)
  }

  // ---------------------------------------------------------------------------
  // The operation
  // ---------------------------------------------------------------------------

  /** The canvas arithmetic of `onAllLoaded`: a running total of the scaled
      widths plus the gaps, then a running x offset per image. */
  method Layout(outcomes: seq<LoadOutcome>) returns (c: Canvas)
    requires AllLoaded(outcomes)
    ensures c == Composite(outcomes)
  {
    ghost var ws := Widths(outcomes);
    var totalWidth := 0.0;
    var widths: seq<real> := [];
    for i := 0 to |outcomes|
      invariant widths == ws[..i]
      invariant totalWidth == Sum(widths)
    {
      var w := ScaledWidth(outcomes[i].width, outcomes[i].height);
      SumPrefixStep(ws, i);
      totalWidth := totalWidth + w;
      widths := widths + [w];
    }
    assert widths == ws;
    totalWidth := totalWidth + ((|outcomes| - 1) as real) * Gap;
    var currentX := 0.0;
    var draws: seq<Draw> := [];
    assert ws[..0] == [];
    for i := 0 to |widths|
      invariant currentX == Offset(ws, i)
      invariant |draws| == i
      invariant forall k | 0 <= k < i :: draws[k] == Draw(k, Offset(ws, k), 0.0, ws[k], TargetHeight)
    {
      draws := draws + [Draw(i, currentX, 0.0, widths[i], TargetHeight)];
      OffsetStep(ws, i);
      currentX := currentX + widths[i] + Gap;
    }
    c := Canvas(UnsignedLong(totalWidth), UnsignedLong(TargetHeight), White, draws);
  }

  /** How the promise stands after the first k events: rejected by the first
      failed load, settled by `onAllLoaded` once the last of the images has
      loaded, pending otherwise (an empty list never gets that far). */
  function SettledAfter(outcomes: seq<LoadOutcome>, order: seq<nat>, k: nat,
    hasContext: bool, encode: Canvas -> Encoding): Option<Settled>
    requires IsEventOrder(order, |outcomes|) && k <= |order|
  {
    match FirstFailure(outcomes, order[..k])
    case Some(i) => Some(Rejected(LoadErrorMessage(i)))
    case None =>
      if k == |order| && k > 0 then
        assert order[..k] == order;
        EventsCoverAll(outcomes, order);
        Some(AllLoadedOutcome(outcomes, hasContext, encode))
      else None
  }

  /** mergeMultipleImages. No list or an empty one gives "", a single image is
      passed through; otherwise the first failed load, in event order, rejects,
      and once every image has loaded the line-up is drawn and encoded. */
  method MergeMultipleImages(
    imageUrls: Option<seq<string>>, outcomes: seq<LoadOutcome>, order: seq<nat>,
    hasContext: bool, encode: Canvas -> Encoding) returns (r: Settled)
    requires imageUrls.Some? ==> |outcomes| == |imageUrls.value| && IsEventOrder(order, |outcomes|)
    ensures imageUrls.None? || imageUrls.value == [] ==> r == Resolved("")
    ensures imageUrls.Some? && |imageUrls.value| == 1 ==> r == Resolved(imageUrls.value[0])
    ensures imageUrls.Some? && |imageUrls.value| >= 2 && FirstFailure(outcomes, order).Some? ==>
      r == Rejected(LoadErrorMessage(FirstFailure(outcomes, order).value))
    ensures imageUrls.Some? && |imageUrls.value| >= 2 && AllLoaded(outcomes) ==>
      r == AllLoadedOutcome(outcomes, hasContext, encode)
  {
    if imageUrls.None? || |imageUrls.value| == 0 {
      return Resolved("");
    }
    if |imageUrls.value| == 1 {
      return Resolved(imageUrls.value[0]);
    }
    var n := |imageUrls.value|;
    var settled := LoadAll(outcomes, order, hasContext, encode);
    assert order[..n] == order;
    EventsCoverAll(outcomes, order);
    r := settled.value;
  }

  /** The load and error handlers, run in event order: `loadedCount` counts the
      loads, `hasError` records a failure, and the first settlement wins. */
  method LoadAll(outcomes: seq<LoadOutcome>, order: seq<nat>, hasContext: bool, encode: Canvas -> Encoding)
    returns (settled: Option<Settled>)
    requires IsEventOrder(order, |outcomes|)
    ensures settled == SettledAfter(outcomes, order, |order|, hasContext, encode)
  {
    var n := |outcomes|;
    var loadedCount := 0;
    var hasError := false;
    settled := None;
    assert order[..0] == [];
    for k := 0 to n
      invariant loadedCount == LoadedCount(outcomes, order[..k])
      invariant hasError <==> FirstFailure(outcomes, order[..k]).Some?
      invariant settled == SettledAfter(outcomes, order, k, hasContext, encode)
    {
      EventStep(outcomes, order, k, hasContext, encode);
      var index := order[k];
      if outcomes[index].Loaded? {
        loadedCount := loadedCount + 1;
        if loadedCount == n && !hasError {
          EventsCoverAll(outcomes, order);
          var result := OnAllLoaded(outcomes, hasContext, encode);
          if settled.None? {
            settled := Some(result);
          }
        }
      } else {
        hasError := true;
        if settled.None? {
          settled := Some(Rejected(LoadErrorMessage(index)));
        }
      }
    }
  }

  /** What one more event does to the count, the failure and the settlement. */
  lemma EventStep(outcomes: seq<LoadOutcome>, order: seq<nat>, k: nat, hasContext: bool, encode: Canvas -> Encoding)
    requires IsEventOrder(order, |outcomes|) && k < |order|
    ensures LoadedCount(outcomes, order[..k + 1]) ==
      LoadedCount(outcomes, order[..k]) + if outcomes[order[k]].Loaded? then 1 else 0
    ensures LoadedCount(outcomes, order[..k + 1]) == |order| <==>
      k + 1 == |order| && FirstFailure(outcomes, order[..k + 1]).None?
    ensures FirstFailure(outcomes, order[..k + 1]).Some? <==>
      FirstFailure(outcomes, order[..k]).Some? || outcomes[order[k]].LoadFailed?
    ensures var before := SettledAfter(outcomes, order, k, hasContext, encode);
      SettledAfter(outcomes, order, k + 1, hasContext, encode) ==
        if before.Some? then before
        else if outcomes[order[k]].LoadFailed? then Some(Rejected(LoadErrorMessage(order[k])))
        else if k + 1 == |order| then (EventsCoverAll(outcomes, order); Some(AllLoadedOutcome(outcomes, hasContext, encode)))
        else None
  {
    assert order[..k + 1][..k] == order[..k];
    FirstFailureStep(outcomes, order, k);
    if k + 1 == |order| {
      assert order[..k + 1] == order;
    }
  }

  /** What the first failure among the first k+1 events is, from that among the first k. */
  lemma FirstFailureStep(outcomes: seq<LoadOutcome>, order: seq<nat>, k: nat)
    requires IsEventOrder(order, |outcomes|) && k < |order|
    ensures FirstFailure(outcomes, order[..k]).Some? ==>
      FirstFailure(outcomes, order[..k + 1]) == FirstFailure(outcomes, order[..k])
    ensures FirstFailure(outcomes, order[..k]).None? && outcomes[order[k]].LoadFailed? ==>
      FirstFailure(outcomes, order[..k + 1]) == Some(order[k])
    ensures FirstFailure(outcomes, order[..k]).None? && outcomes[order[k]].Loaded? ==>
      FirstFailure(outcomes, order[..k + 1]).None?
  {
    FirstFailureAppend(outcomes, order[..k], order[k]);
    assert order[..k] + [order[k]] == order[..k + 1];
  }

  lemma {:induction false} FirstFailureAppend(outcomes: seq<LoadOutcome>, events: seq<nat>, e: nat)
    requires forall k | 0 <= k < |events| :: events[k] < |outcomes|
    requires e < |outcomes|
    ensures FirstFailure(outcomes, events).Some? ==>
      FirstFailure(outcomes, events + [e]) == FirstFailure(outcomes, events)
    ensures FirstFailure(outcomes, events).None? ==>
      FirstFailure(outcomes, events + [e]) == if outcomes[e].LoadFailed? then Some(e) else None
    decreases |events|
  {
    if events == [] {
      assert events + [e] == [e];
    } else {
      assert (events + [e])[0] == events[0];
      assert (events + [e])[1..] == events[1..] + [e];
      FirstFailureAppend(outcomes, events[1..], e);
    }
  }

  /** onAllLoaded, reached with every image loaded. */
  method OnAllLoaded(outcomes: seq<LoadOutcome>, hasContext: bool, encode: Canvas -> Encoding) returns (r: Settled)
    requires AllLoaded(outcomes)
    ensures r == AllLoadedOutcome(outcomes, hasContext, encode)
  {
    if !hasContext {
      return Rejected("Could not get canvas context");
    }
    var canvas := Layout(outcomes);
    match encode(canvas)
    case Encoded(url) => r := Resolved(url);
    case EncodeError(message) => r := Rejected(message);
  }
}
