/**
 * The scroll-stack layout engine: on every scroll tick each card gets a
 * translation, scale, rotation and blur computed from the scroll offset; a
 * card that reaches its pin start is locked into a stack slot, and the last
 * card entering its pin window fires a completion callback once.
 *
 * DOM measurements (card offsets, scroll offset, container height, the end
 * marker and the section bottom) are inputs; style writes are reported as the
 * list of card indices whose cached transform was rewritten.
 */
module ScrollStack {
  import opened Wrappers

  function Min(a: real, b: real): real { if a <= b then a else b }
  function Max(a: real, b: real): real { if a >= b then a else b }
  function Abs(a: real): real { if a < 0.0 then -a else a }

  lemma DivideBack(x: real, y: real)
    requires y > 0.0
    ensures (x / y) * y == x
    ensures 0.0 <= x <= y ==> 0.0 <= x / y <= 1.0
  {
  }

  lemma DivideMonotone(x1: real, x2: real, y: real)
    requires x1 <= x2 && y > 0.0
    ensures x1 / y <= x2 / y
  {
  }

  lemma MultiplyMonotone(x: real, y: real, w: real)
    requires x <= y && w >= 0.0
    ensures x * w <= y * w
  {
  }

  /**
   * A position option: a string such as "20%" together with the number that
   * `parseFloat` reads from it, or a plain number.
   */
  datatype Length = Text(text: string, leading: real) | Number(value: real)

  /** `parsePercentage`: a string holding '%' is that share of the container height. */
  function ParsePercentage(v: Length, containerHeight: real): (r: real)
    ensures v.Text? && '%' in v.text && v.leading == 100.0 ==> r == containerHeight
    ensures v.Text? && '%' in v.text && v.leading == 0.0 ==> r == 0.0
    ensures v.Text? && '%' !in v.text ==> r == v.leading
    ensures v.Number? ==> r == v.value
  {
    match v
    case Text(s, x) => if '%' in s then x / 100.0 * containerHeight else x
    case Number(x) => x
  }

  lemma PercentageWithinContainer(s: string, x: real, h: real)
    requires '%' in s && 0.0 <= x <= 100.0 && 0.0 <= h
    ensures 0.0 <= ParsePercentage(Text(s, x), h) <= h
  {
    MultiplyMonotone(0.0, x / 100.0, h);
    MultiplyMonotone(x / 100.0, 1.0, h);
  }

  /** `calculateProgress`: 0 before `start`, 1 after `end`, linear in between. */
  function CalculateProgress(scrollTop: real, start: real, end: real): (p: real)
    requires start < end || scrollTop < start || scrollTop > end
    ensures scrollTop < start ==> p == 0.0
    ensures start <= scrollTop && scrollTop > end ==> p == 1.0
    ensures start < end ==> 0.0 <= p <= 1.0
    ensures start <= scrollTop <= end ==> p * (end - start) == scrollTop - start
  {
    if scrollTop < start then 0.0
    else if scrollTop > end then 1.0
    else
      DivideBack(scrollTop - start, end - start);
      (scrollTop - start) / (end - start)
  }

  /** The effect-shaping props of the component. */
  datatype Config = Config(
    itemScale: real,
    itemStackDistance: real,
    stackPosition: Length,
    scaleEndPosition: Length,
    baseScale: real,
    rotationAmount: real,
    blurAmount: real)

  const Defaults := Config(0.03, 30.0, Text("20%", 20.0), Text("10%", 10.0), 0.85, 0.0, 0.0)

  /**
   * What one tick reads from the page: the scroll offset, the container
   * height, the end marker's offset (0 when there is none) and the bottom of
   * the section container when one is cached.
   */
  datatype Viewport = Viewport(scrollTop: real, containerHeight: real, endTop: real, sectionBottom: Option<real>)

  datatype Transform = Transform(translateY: real, scale: real, rotation: real, blur: real)

  /** `Math.max(-h, Math.min(2h, t))`. */
  function Clamp(t: real, h: real): real {
    Max(-h, Min(2.0 * h, t))
  }

  lemma ClampBounds(t: real, h: real)
    requires 0.0 <= h
    ensures -h <= Clamp(t, h) <= 2.0 * h
    ensures -h <= t <= 2.0 * h ==> Clamp(t, h) == t
  {
  }

  /** One tick: the configuration, the measured card offsets and the viewport. */
  datatype Frame = Frame(cfg: Config, offsets: seq<real>, vp: Viewport) {

    function StackPx(): real { ParsePercentage(cfg.stackPosition, vp.containerHeight) }
    function ScaleEndPx(): real { ParsePercentage(cfg.scaleEndPosition, vp.containerHeight) }

    /** Scroll offset at which card `i` starts pinning (also its scale trigger start). */
    function PinStart(i: nat): real
      requires i < |offsets|
    {
      offsets[i] - StackPx() - cfg.itemStackDistance * i as real
    }

    function TriggerEnd(i: nat): real
      requires i < |offsets|
    {
      offsets[i] - ScaleEndPx()
    }

    /** Where the pin window closes: section bottom or end marker, never before the pin start. */
    function PinEnd(i: nat): (e: real)
      requires i < |offsets|
      ensures e >= PinStart(i)
    {
      var h := vp.containerHeight;
      var calculated :=
        match vp.sectionBottom
        case Some(bottom) => Min(bottom - h * 0.5, vp.endTop - h / 2.0)
        case None => vp.endTop - h / 2.0;
      Max(PinStart(i), calculated)
    }

    predicate Reached(i: nat)
      requires i < |offsets|
    {
      vp.scrollTop >= PinStart(i)
    }

    predicate InPinWindow(i: nat)
      requires i < |offsets|
    {
      PinStart(i) <= vp.scrollTop <= PinEnd(i)
    }

    /** The scale window of card `i` is not a single point sitting at the scroll offset. */
    predicate NonDegenerate(i: nat)
      requires i < |offsets|
    {
      PinStart(i) < TriggerEnd(i) || vp.scrollTop < PinStart(i) || vp.scrollTop > TriggerEnd(i)
    }

    predicate WellFormed() {
      forall i: nat :: i < |offsets| ==> NonDegenerate(i)
    }

    /** The same tick seen at another scroll offset. */
    function AtScroll(s: real): Frame {
      this.(vp := vp.(scrollTop := s))
    }

    function Progress(i: nat): real
      requires i < |offsets| && NonDegenerate(i)
    {
      CalculateProgress(vp.scrollTop, PinStart(i), TriggerEnd(i))
    }

    function TargetScale(i: nat): real {
      cfg.baseScale + i as real * cfg.itemScale
    }

    function Scale(i: nat): real
      requires i < |offsets| && NonDegenerate(i)
    {
      1.0 - Progress(i) * (1.0 - TargetScale(i))
    }

    function Rotation(i: nat): real
      requires i < |offsets| && NonDegenerate(i)
    {
      if cfg.rotationAmount != 0.0 then i as real * cfg.rotationAmount * Progress(i) else 0.0
    }

    /** Number of cards below `k` whose pin start lies at or before offset `at`. */
    function ReachedBelow(k: nat, at: real): (c: nat)
      requires k <= |offsets|
      ensures c <= k
    {
      if k == 0 then 0
      else ReachedBelow(k - 1, at) + (if at >= PinStart(k - 1) then 1 else 0)
    }

    /**
     * Card `i`'s translation before clamping, given its stack slot. The
     * `None` arms are the source's "approaching but not yet locked" branches.
     */
    function RawTranslateY(i: nat, slot: Option<nat>): real
      requires i < |offsets|
    {
      var st := vp.scrollTop;
      var pinStart := PinStart(i);
      var pinEnd := PinEnd(i);
      var d := cfg.itemStackDistance;
      if pinStart <= st <= pinEnd then
        match slot
        case Some(k) => StackPx() + k as real * d - offsets[i] + st
        case None => StackPx() + ReachedBelow(i, st) as real * d - offsets[i] + st
      else if st > pinEnd then
        match slot
        case Some(k) => StackPx() + k as real * d - offsets[i] + pinEnd
        case None => StackPx() + ReachedBelow(i, pinEnd) as real * d - offsets[i] + pinEnd
      else
        0.0
    }

    /** `topCardIndex`: the highest index among the first `k` cards whose pin start is reached, or 0. */
    function TopReached(k: nat): (r: nat)
      requires k <= |offsets|
      ensures r == 0 || r < k
      ensures 0 < r < k ==> Reached(r)
      ensures forall j: nat :: r < j < k ==> !Reached(j)
    {
      if k == 0 then 0
      else if Reached(k - 1) then k - 1
      else TopReached(k - 1)
    }

    /** The top index the blur pass uses: only computed when blur is on. */
    function BlurTop(): nat {
      if cfg.blurAmount != 0.0 then TopReached(|offsets|) else 0
    }

    function Blur(i: nat, top: nat): real {
      if cfg.blurAmount != 0.0 && i < top then Max(0.0, (top - i) as real * cfg.blurAmount) else 0.0
    }

    /** `Transform` of card `i`: the clamped translation, scale, rotation and blur. */
    function CardTransform(i: nat, slot: Option<nat>, top: nat): Transform
      requires i < |offsets| && NonDegenerate(i)
    {
      Transform(Clamp(RawTranslateY(i, slot), vp.containerHeight), Scale(i), Rotation(i), Blur(i, top))
    }
  }

  /** The slot table: locked stack position and entry scroll offset per card index. */
  datatype StackTable = StackTable(slots: map<nat, nat>, entries: map<nat, real>)

  const EmptyTable := StackTable(map[], map[])

  /** Number of cards with index below `i` that hold a slot. */
  function CountSlotted(m: map<nat, nat>, i: nat): (c: nat)
    ensures c <= i
  {
    if i == 0 then 0 else CountSlotted(m, i - 1) + (if i - 1 in m then 1 else 0)
  }

  lemma {:induction false} CountSlottedAll(m: map<nat, nat>, i: nat)
    requires forall j: nat :: j < i ==> j in m
    ensures CountSlotted(m, i) == i
  {
    if i > 0 {
      CountSlottedAll(m, i - 1);
    }
  }

  /** Card `i`'s slot bookkeeping: lock on first reaching the pin start, release above it. */
  function StepCard(f: Frame, t: StackTable, i: nat): StackTable
    requires i < |f.offsets|
  {
    var t1 :=
      if f.Reached(i) && i !in t.slots then
        StackTable(t.slots[i := CountSlotted(t.slots, i)], t.entries[i := f.vp.scrollTop])
      else t;
    if f.vp.scrollTop < f.PinStart(i) && i in t1.slots then
      StackTable(t1.slots - {i}, t1.entries - {i})
    else t1
  }

  /**
   * One card's step: afterwards it holds a slot exactly when reached, keeps a
   * slot it already held, or locks into the count of slotted cards below it at
   * the current offset; every other card's slot and entry are left alone.
   */
  lemma StepCardEffect(f: Frame, t: StackTable, i: nat)
    requires i < |f.offsets|
    ensures var r := StepCard(f, t, i);
      && (i in r.slots <==> f.Reached(i))
      && (f.Reached(i) && i in t.slots ==> r.slots[i] == t.slots[i])
      && (f.Reached(i) && i !in t.slots ==> r.slots[i] == CountSlotted(t.slots, i) && r.entries[i] == f.vp.scrollTop)
      && (forall j :: j != i ==> (j in r.slots <==> j in t.slots) && (j in r.entries <==> j in t.entries))
      && (forall j :: j != i && j in t.slots ==> r.slots[j] == t.slots[j])
      && (forall j :: j != i && j in t.entries ==> r.entries[j] == t.entries[j])
  {
  }

  /**
   * A card's transform: the translation stays within the clamp window and is
   * zero before the pin start, blur only hits cards below the top one, and no
   * rotation is applied when the rotation amount is zero.
   */
  lemma CardTransformShape(f: Frame, i: nat, slot: Option<nat>, top: nat)
    requires i < |f.offsets| && f.NonDegenerate(i)
    ensures var r := f.CardTransform(i, slot, top);
      && (0.0 <= f.vp.containerHeight ==> -f.vp.containerHeight <= r.translateY <= 2.0 * f.vp.containerHeight)
      && (0.0 <= f.vp.containerHeight && !f.Reached(i) ==> r.translateY == 0.0)
      && (top <= i || f.cfg.blurAmount == 0.0 ==> r.blur == 0.0)
      && (f.cfg.rotationAmount == 0.0 ==> r.rotation == 0.0)
      && r.scale == f.Scale(i)
  {
    if 0.0 <= f.vp.containerHeight {
      ClampBounds(f.RawTranslateY(i, slot), f.vp.containerHeight);
    }
  }

  /** The slot table after the first `k` cards of a tick have been processed. */
  function TableAfter(f: Frame, t: StackTable, k: nat): StackTable
    requires k <= |f.offsets|
  {
    if k == 0 then t else StepCard(f, TableAfter(f, t, k - 1), k - 1)
  }

  /**
   * What a tick does to the slot table: afterwards card `i` holds a slot
   * exactly when its pin start is reached; a slot held while reached is never
   * reassigned; a newly locked card gets a slot no larger than its index and
   * records the scroll offset; cards beyond `k` are untouched.
   */
  lemma {:induction false} TableAfterSlots(f: Frame, t: StackTable, k: nat)
    requires k <= |f.offsets|
    requires t.slots.Keys == t.entries.Keys
    ensures var r := TableAfter(f, t, k);
      && r.slots.Keys == r.entries.Keys
      && (forall i: nat :: i < k ==> (i in r.slots <==> f.Reached(i)))
      && (forall i: nat :: k <= i ==> (i in r.slots <==> i in t.slots))
      && (forall i: nat :: k <= i && i in t.slots ==> r.slots[i] == t.slots[i] && r.entries[i] == t.entries[i])
      && (forall i: nat :: i < k && i in t.slots && f.Reached(i) ==>
            r.slots[i] == t.slots[i] && r.entries[i] == t.entries[i])
      && (forall i: nat :: i < k && i !in t.slots && f.Reached(i) ==>
            r.slots[i] <= i && r.entries[i] == f.vp.scrollTop)
  {
    TableAfterKeys(f, t, k);
    forall i: nat {
      TableAfterAt(f, t, k, i);
    }
  }

  /** Which cards hold a slot after the first `k` cards of a tick. */
  lemma {:induction false} TableAfterKeys(f: Frame, t: StackTable, k: nat)
    requires k <= |f.offsets|
    requires t.slots.Keys == t.entries.Keys
    ensures var r := TableAfter(f, t, k);
      && r.slots.Keys == r.entries.Keys
      && (forall i: nat :: i < k ==> (i in r.slots <==> f.Reached(i)))
      && (forall i: nat :: k <= i ==> (i in r.slots <==> i in t.slots))
  {
    if k > 0 {
      TableAfterKeys(f, t, k - 1);
    }
  }

  /** The slot and entry offset card `i` holds after the first `k` cards of a tick. */
  lemma {:induction false} TableAfterAt(f: Frame, t: StackTable, k: nat, i: nat)
    requires k <= |f.offsets|
    requires t.slots.Keys == t.entries.Keys
    ensures var r := TableAfter(f, t, k);
      && (k <= i && i in t.slots ==>
            i in r.slots && i in r.entries && r.slots[i] == t.slots[i] && r.entries[i] == t.entries[i])
      && (i < k && i in t.slots && f.Reached(i) ==>
            i in r.slots && i in r.entries && r.slots[i] == t.slots[i] && r.entries[i] == t.entries[i])
      && (i < k && i !in t.slots && f.Reached(i) ==>
            i in r.slots && i in r.entries && r.slots[i] <= i && r.entries[i] == f.vp.scrollTop)
  {
    if k > 0 {
      TableAfterAt(f, t, k - 1, i);
      TableAfterKeys(f, t, k - 1);
    }
  }

  /** Later steps of a tick never touch an earlier card's slot. */
  lemma {:induction false} TableAfterFrame(f: Frame, t: StackTable, j: nat, k: nat, i: nat)
    requires i < j <= k <= |f.offsets|
    ensures Get(TableAfter(f, t, k).slots, i) == Get(TableAfter(f, t, j).slots, i)
  {
    if j < k {
      TableAfterFrame(f, t, j, k - 1, i);
    }
  }

  /**
   * The "approaching but not yet locked" arms are dead: after the tick a card
   * whose pin start is reached always holds a slot, so its translation uses
   * the locked arm.
   */
  lemma ApproachBranchUnreachable(f: Frame, t: StackTable, i: nat)
    requires i < |f.offsets|
    requires t.slots.Keys == t.entries.Keys
    ensures var slot := Get(TableAfter(f, t, |f.offsets|).slots, i);
      f.vp.scrollTop >= f.PinStart(i) ==> slot.Some?
  {
    TableAfterSlots(f, t, |f.offsets|);
  }

  /** Scrolling above every card's pin start empties both slot maps. */
  lemma ScrollAboveAllEmptiesTable(f: Frame, t: StackTable)
    requires t.slots.Keys == t.entries.Keys
    requires forall i: nat :: i in t.slots ==> i < |f.offsets|
    requires forall i: nat :: i < |f.offsets| ==> !f.Reached(i)
    ensures TableAfter(f, t, |f.offsets|) == EmptyTable
  {
    var r := TableAfter(f, t, |f.offsets|);
    TableAfterSlots(f, t, |f.offsets|);
    assert r.slots.Keys == {};
    assert r.entries.Keys == {};
  }

  /** A second tick at the same scroll offset leaves the slot table as it is. */
  lemma TickIdempotent(f: Frame, t: StackTable)
    requires t.slots.Keys == t.entries.Keys
    ensures var r := TableAfter(f, t, |f.offsets|);
      TableAfter(f, r, |f.offsets|) == r
  {
    var n := |f.offsets|;
    var r := TableAfter(f, t, n);
    TableAfterSlots(f, t, n);
    StableTableFixed(f, r, n);
  }

  lemma {:induction false} StableTableFixed(f: Frame, r: StackTable, k: nat)
    requires k <= |f.offsets|
    requires forall i: nat :: i < |f.offsets| ==> (i in r.slots <==> f.Reached(i))
    ensures TableAfter(f, r, k) == r
  {
    if k > 0 {
      StableTableFixed(f, r, k - 1);
    }
  }

  /** Every slot value is at most its card index. */
  predicate SlotsBounded(m: map<nat, nat>) {
    forall i: nat :: i in m ==> m[i] <= i
  }

  lemma SlotsStayBounded(f: Frame, t: StackTable, k: nat)
    requires k <= |f.offsets|
    requires t.slots.Keys == t.entries.Keys && SlotsBounded(t.slots)
    ensures SlotsBounded(TableAfter(f, t, k).slots)
  {
    TableAfterSlots(f, t, k);
  }

  /** Pin starts grow with the card index (cards at least `itemStackDistance` apart). */
  predicate StacksInOrder(f: Frame) {
    forall a: nat, b: nat :: a < b < |f.offsets| ==> f.PinStart(a) <= f.PinStart(b)
  }

  /** Every locked card sits in the slot equal to its index. */
  predicate SlotsMatchIndex(m: map<nat, nat>) {
    forall i: nat :: i in m ==> m[i] == i
  }

  /**
   * With pin starts in index order, slots stay equal to card indices, so the
   * stacked cards are contiguous from slot 0 in index order.
   */
  lemma {:induction false} OrderedCardsTakeOwnSlot(f: Frame, t: StackTable, k: nat)
    requires k <= |f.offsets|
    requires StacksInOrder(f)
    requires t.slots.Keys == t.entries.Keys && SlotsMatchIndex(t.slots)
    ensures SlotsMatchIndex(TableAfter(f, t, k).slots)
  {
    if k > 0 {
      var i := k - 1;
      var m := TableAfter(f, t, i);
      OrderedCardsTakeOwnSlot(f, t, i);
      TableAfterSlots(f, t, i);
      if f.Reached(i) && i !in m.slots {
        forall j: nat | j < i ensures j in m.slots {
          assert f.PinStart(j) <= f.PinStart(i);
        }
        CountSlottedAll(m.slots, i);
      }
    }
  }

  /** With pin starts in index order, a reached card is locked in the slot equal to its index. */
  lemma OrderedSlotOfReached(f: Frame, t: StackTable, i: nat)
    requires i < |f.offsets| && StacksInOrder(f) && f.Reached(i)
    requires t.slots.Keys == t.entries.Keys && SlotsMatchIndex(t.slots)
    ensures Get(TableAfter(f, t, |f.offsets|).slots, i) == Some(i)
  {
    TableAfterSlots(f, t, |f.offsets|);
    OrderedCardsTakeOwnSlot(f, t, |f.offsets|);
  }

  /**
   * With pin starts in index order, a pinned card's top edge sits at
   * `stackPx + i * itemStackDistance` on screen, whatever the scroll offset.
   */
  lemma OrderedStackScreenPosition(f: Frame, t: StackTable, i: nat)
    requires i < |f.offsets| && StacksInOrder(f)
    requires t.slots.Keys == t.entries.Keys && SlotsMatchIndex(t.slots)
    requires f.InPinWindow(i)
    ensures var slot := Get(TableAfter(f, t, |f.offsets|).slots, i);
      f.offsets[i] + f.RawTranslateY(i, slot) - f.vp.scrollTop
        == f.StackPx() + i as real * f.cfg.itemStackDistance
  {
    OrderedSlotOfReached(f, t, i);
    TranslationPhases(f, i, i);
  }

  /**
   * With the default props in a 500px container, pinned cards in index order
   * sit 100px, 130px, 160px, ... from the container top.
   */
  lemma DefaultStackSpacing(offsets: seq<real>, vp: Viewport, t: StackTable, i: nat)
    requires vp.containerHeight == 500.0 && i < |offsets|
    requires StacksInOrder(Frame(Defaults, offsets, vp))
    requires t.slots.Keys == t.entries.Keys && SlotsMatchIndex(t.slots)
    requires Frame(Defaults, offsets, vp).InPinWindow(i)
    ensures var f := Frame(Defaults, offsets, vp);
      var slot := Get(TableAfter(f, t, |offsets|).slots, i);
      offsets[i] + f.RawTranslateY(i, slot) - vp.scrollTop == 100.0 + 30.0 * i as real
  {
    var f := Frame(Defaults, offsets, vp);
    assert '%' in "20%";
    assert f.StackPx() == 100.0;
    OrderedStackScreenPosition(f, t, i);
  }

  /**
   * Translation over a card's life: 0 before its pin start; while pinned its
   * screen position is fixed by its slot; past the pin end it is frozen at
   * the value it had at the pin end.
   */
  lemma TranslationPhases(f: Frame, i: nat, k: nat)
    requires i < |f.offsets|
    ensures f.vp.scrollTop < f.PinStart(i) ==> f.RawTranslateY(i, Some(k)) == 0.0
    ensures f.InPinWindow(i) ==>
      f.offsets[i] + f.RawTranslateY(i, Some(k)) - f.vp.scrollTop
        == f.StackPx() + k as real * f.cfg.itemStackDistance
    ensures f.vp.scrollTop > f.PinEnd(i) ==>
      f.RawTranslateY(i, Some(k)) == f.AtScroll(f.PinEnd(i)).RawTranslateY(i, Some(k))
  {
    var g := f.AtScroll(f.PinEnd(i));
    assert g.PinStart(i) == f.PinStart(i) && g.PinEnd(i) == f.PinEnd(i);
  }

  /** Cards at or above the top reached index are sharp; each one below it is blurred by its depth. */
  lemma BlurByDepth(f: Frame, i: nat, top: nat)
    ensures i >= top || f.cfg.blurAmount <= 0.0 ==> f.Blur(i, top) == 0.0
    ensures i < top && f.cfg.blurAmount > 0.0 ==> f.Blur(i, top) == (top - i) as real * f.cfg.blurAmount
  {
    if i < top && f.cfg.blurAmount > 0.0 {
      MultiplyMonotone(0.0, (top - i) as real, f.cfg.blurAmount);
    }
  }

  /** Scale is 1 before the trigger start and the card's target scale after the trigger end. */
  lemma ScaleEndpoints(f: Frame, i: nat)
    requires i < |f.offsets| && f.NonDegenerate(i)
    ensures f.vp.scrollTop < f.PinStart(i) ==> f.Scale(i) == 1.0
    ensures f.vp.scrollTop >= f.PinStart(i) && f.vp.scrollTop > f.TriggerEnd(i) ==>
      f.Scale(i) == f.TargetScale(i)
  {
  }

  /** Progress never decreases as the scroll offset grows. */
  lemma ProgressMonotone(s1: real, s2: real, a: real, b: real)
    requires s1 <= s2
    requires a < b || s1 < a || s1 > b
    requires a < b || s2 < a || s2 > b
    ensures CalculateProgress(s1, a, b) <= CalculateProgress(s2, a, b)
  {
    if a <= s1 <= b && a <= s2 <= b {
      DivideMonotone(s1 - a, s2 - a, b - a);
    }
  }

  /** Scrolling further never enlarges a card whose target scale is at most 1. */
  lemma ScaleNonIncreasing(f: Frame, i: nat, s1: real, s2: real)
    requires i < |f.offsets| && s1 <= s2 && f.TargetScale(i) <= 1.0
    requires f.AtScroll(s1).NonDegenerate(i) && f.AtScroll(s2).NonDegenerate(i)
    ensures f.AtScroll(s2).Scale(i) <= f.AtScroll(s1).Scale(i)
  {
    var g1, g2 := f.AtScroll(s1), f.AtScroll(s2);
    var a, b := f.PinStart(i), f.TriggerEnd(i);
    assert g1.PinStart(i) == a == g2.PinStart(i) && g1.TriggerEnd(i) == b == g2.TriggerEnd(i);
    var p1, p2 := CalculateProgress(s1, a, b), CalculateProgress(s2, a, b);
    assert g1.Progress(i) == p1 && g2.Progress(i) == p2;
    ProgressMonotone(s1, s2, a, b);
    var target := f.TargetScale(i);
    assert g1.TargetScale(i) == target == g2.TargetScale(i);
    ShrinkMonotone(p1, p2, target);
  }

  lemma ShrinkMonotone(p1: real, p2: real, target: real)
    requires p1 <= p2 && target <= 1.0
    ensures 1.0 - p2 * (1.0 - target) <= 1.0 - p1 * (1.0 - target)
  {
    MultiplyMonotone(p1, p2, 1.0 - target);
  }

  /** The per-card transforms of a tick, given the slot table after it. */
  function Transforms(f: Frame, slots: map<nat, nat>): seq<Transform>
    requires f.WellFormed()
  {
    TransformsUpTo(f, slots, |f.offsets|)
  }

  function TransformsUpTo(f: Frame, slots: map<nat, nat>, k: nat): (ts: seq<Transform>)
    requires f.WellFormed() && k <= |f.offsets|
    ensures |ts| == k
  {
    if k == 0 then []
    else TransformsUpTo(f, slots, k - 1) + [f.CardTransform(k - 1, Get(slots, k - 1), f.BlurTop())]
  }

  /** The `i`th of a tick's transforms is card `i`'s transform for its slot. */
  lemma {:induction false} TransformsAt(f: Frame, slots: map<nat, nat>, k: nat, i: nat)
    requires f.WellFormed() && i < k <= |f.offsets|
    ensures TransformsUpTo(f, slots, k)[i] == f.CardTransform(i, Get(slots, i), f.BlurTop())
  {
    if i < k - 1 {
      TransformsAt(f, slots, k - 1, i);
    }
  }

  /** Card `i`'s transform for the tick whose transforms are `ts`. */
  method ComputeTransform(f: Frame, i: nat, slot: Option<nat>, top: nat, ghost final: map<nat, nat>, ghost ts: seq<Transform>)
    returns (t: Transform)
    requires f.WellFormed() && i < |f.offsets|
    requires top == f.BlurTop() && slot == Get(final, i) && ts == Transforms(f, final)
    ensures |ts| == |f.offsets| && t == ts[i]
  {
    t := f.CardTransform(i, slot, top);
    TransformsAt(f, final, |f.offsets|, i);
  }

  /** A style write happens when nothing is cached or a component moved past its epsilon. */
  predicate Changed(last: Option<Transform>, t: Transform) {
    match last
    case None => true
    case Some(l) =>
      || Abs(l.translateY - t.translateY) > 0.1
      || Abs(l.scale - t.scale) > 0.001
      || Abs(l.rotation - t.rotation) > 0.1
      || Abs(l.blur - t.blur) > 0.1
  }

  /** The last-transform cache after the first `k` cards of a tick. */
  function CacheAfter(cache: map<nat, Transform>, ts: seq<Transform>, k: nat): map<nat, Transform>
    requires k <= |ts|
  {
    if k == 0 then cache
    else
      var c := CacheAfter(cache, ts, k - 1);
      if Changed(Get(c, k - 1), ts[k - 1]) then c[k - 1 := ts[k - 1]] else c
  }

  /**
   * After a tick's first `k` cards, each of them has its new transform cached
   * when it moved past an epsilon and keeps its old entry otherwise; later
   * cards keep theirs.
   */
  lemma {:induction false} CacheAfterEntries(cache: map<nat, Transform>, ts: seq<Transform>, k: nat)
    requires k <= |ts|
    ensures var r := CacheAfter(cache, ts, k);
      && (forall i: nat :: i < k ==>
            Get(r, i) == if Changed(Get(cache, i), ts[i]) then Some(ts[i]) else Get(cache, i))
      && (forall i: nat :: k <= i ==> Get(r, i) == Get(cache, i))
  {
    if k > 0 {
      CacheAfterEntries(cache, ts, k - 1);
    }
  }

  /** Cards not yet reached in a tick keep their cached transform. */
  lemma {:induction false} CacheAfterUntouched(cache: map<nat, Transform>, ts: seq<Transform>, k: nat, i: nat)
    requires k <= |ts| && k <= i
    ensures Get(CacheAfter(cache, ts, k), i) == Get(cache, i)
  {
    if k > 0 {
      CacheAfterUntouched(cache, ts, k - 1, i);
    }
  }

  /** The indices whose style is rewritten during the first `k` cards of a tick, in order. */
  function WrittenAfter(cache: map<nat, Transform>, ts: seq<Transform>, k: nat): seq<nat>
    requires k <= |ts|
  {
    if k == 0 then []
    else WrittenAfter(cache, ts, k - 1) + (if Changed(Get(cache, k - 1), ts[k - 1]) then [k - 1] else [])
  }

  /** The written indices are exactly the cards whose transform moved, in increasing order. */
  lemma {:induction false} WrittenAfterMembers(cache: map<nat, Transform>, ts: seq<Transform>, k: nat)
    requires k <= |ts|
    ensures var w := WrittenAfter(cache, ts, k);
      && (forall x :: x in w ==> x < k && Changed(Get(cache, x), ts[x]))
      && (forall i: nat :: i < k && Changed(Get(cache, i), ts[i]) ==> i in w)
      && (forall a, b :: 0 <= a < b < |w| ==> w[a] < w[b])
  {
    if k > 0 {
      var w0 := WrittenAfter(cache, ts, k - 1);
      WrittenAfterMembers(cache, ts, k - 1);
      assert forall a :: 0 <= a < |w0| ==> w0[a] in w0;
    }
  }

  lemma {:induction false} NothingChangedNothingWritten(cache: map<nat, Transform>, ts: seq<Transform>, k: nat)
    requires k <= |ts|
    requires forall i: nat :: i < k ==> !Changed(Get(cache, i), ts[i])
    ensures WrittenAfter(cache, ts, k) == []
  {
    if k > 0 {
      NothingChangedNothingWritten(cache, ts, k - 1);
    }
  }

  /** Repeating a tick with the same transforms writes no style at all. */
  lemma RepeatTickWritesNothing(cache: map<nat, Transform>, ts: seq<Transform>)
    ensures WrittenAfter(CacheAfter(cache, ts, |ts|), ts, |ts|) == []
  {
    var c := CacheAfter(cache, ts, |ts|);
    CacheAfterEntries(cache, ts, |ts|);
    forall i: nat | i < |ts| ensures !Changed(Get(c, i), ts[i]) {
    }
    NothingChangedNothingWritten(c, ts, |ts|);
  }

  /** `onStackComplete` bookkeeping for the last card: (new flag, whether the callback fires). */
  function CompletionStep(completed: bool, inView: bool): (bool, bool) {
    if inView && !completed then (true, true)
    else if !inView && completed then (false, false)
    else (completed, false)
  }

  /** Number of callback firings over a run of ticks, given whether the last card was in view at each. */
  function FireCount(completed: bool, views: seq<bool>): nat
    decreases |views|
  {
    if views == [] then 0
    else
      var (c, fired) := CompletionStep(completed, views[0]);
      (if fired then 1 else 0) + FireCount(c, views[1..])
  }

  /** Number of times the last card enters its pin window over a run of ticks. */
  function Entries(wasInView: bool, views: seq<bool>): nat
    decreases |views|
  {
    if views == [] then 0
    else (if views[0] && !wasInView then 1 else 0) + Entries(views[0], views[1..])
  }

  /** The callback fires exactly once per entry of the last card into its pin window. */
  lemma {:induction false} FiresOncePerEntry(completed: bool, views: seq<bool>)
    decreases |views|
    ensures FireCount(completed, views) == Entries(completed, views)
  {
    if views != [] {
      FiresOncePerEntry(views[0], views[1..]);
    }
  }

  /** Counts the slotted cards below `i` with the source's counting loop. */
  method CountStacked(slots: map<nat, nat>, i: nat) returns (count: nat)
    ensures count == CountSlotted(slots, i)
  {
    count := 0;
    var j := 0;
    while j < i
      invariant 0 <= j <= i
      invariant count == CountSlotted(slots, j)
    {
      if j in slots {
        count := count + 1;
      }
      j := j + 1;
    }
  }

  /** The blur pass's scan for the highest card whose pin start is reached. */
  method TopCardIndex(f: Frame) returns (top: nat)
    ensures top == f.TopReached(|f.offsets|)
  {
    top := 0;
    var j := 0;
    while j < |f.offsets|
      invariant 0 <= j <= |f.offsets|
      invariant top == f.TopReached(j)
    {
      if f.vp.scrollTop >= f.PinStart(j) {
        top := j;
      }
      j := j + 1;
    }
  }

  /** Card `i`'s slot lock/release step: count the slotted cards below it on first reach, release above. */
  method LockOrRelease(f: Frame, t: StackTable, i: nat) returns (r: StackTable)
    requires i < |f.offsets|
    ensures r == StepCard(f, t, i)
  {
    r := t;
    var st := f.vp.scrollTop;
    var pinStart := f.PinStart(i);
    if st >= pinStart && i !in r.slots {
      var position := CountStacked(r.slots, i);
      r := StackTable(r.slots[i := position], r.entries[i := st]);
    }
    if st < pinStart && i in r.slots {
      r := StackTable(r.slots - {i}, r.entries - {i});
    }
  }

  /**
   * The per-card loop of a tick: each card's slot step, its transform, and a
   * cache write (reported in `written`) when the transform moved.
   */
  method Tick(f: Frame, t: StackTable, cache: map<nat, Transform>)
    returns (table: StackTable, newCache: map<nat, Transform>, written: seq<nat>)
    requires f.WellFormed()
    ensures table == TableAfter(f, t, |f.offsets|)
    ensures newCache == CacheAfter(cache, Transforms(f, table.slots), |f.offsets|)
    ensures written == WrittenAfter(cache, Transforms(f, table.slots), |f.offsets|)
  {
    var n := |f.offsets|;
    ghost var final := TableAfter(f, t, n);
    ghost var ts := Transforms(f, final.slots);
    table, newCache, written := t, cache, [];
    var i := 0;
    while i < n
      invariant 0 <= i <= n
      invariant table == TableAfter(f, t, i)
      invariant newCache == CacheAfter(cache, ts, i)
      invariant written == WrittenAfter(cache, ts, i)
    {
      var top := 0;
      if f.cfg.blurAmount != 0.0 {
        top := TopCardIndex(f);
      }
      table := LockOrRelease(f, table, i);
      TableAfterFrame(f, t, i + 1, n, i);
      var transform := ComputeTransform(f, i, Get(table.slots, i), top, final.slots, ts);
      CacheAfterUntouched(cache, ts, i, i);
      if Changed(Get(newCache, i), transform) {
        newCache := newCache[i := transform];
        written := written + [i];
      }
      i := i + 1;
    }
  }

  /** One mounted stacking region and its per-card state tables. */
  class StackEngine {
    const cfg: Config
    var offsets: seq<real>
    var slots: map<nat, nat>
    var entries: map<nat, real>
    var lastTransforms: map<nat, Transform>
    var completed: bool
    var updating: bool

    ghost predicate Valid()
      reads this
    {
      && (forall i: nat :: i in slots ==> i < |offsets|)
      && slots.Keys == entries.Keys
    }

    function Table(): StackTable
      reads this
    {
      StackTable(slots, entries)
    }

    constructor(cfg: Config)
      ensures Valid() && this.cfg == cfg
      ensures offsets == [] && Table() == EmptyTable && lastTransforms == map[]
      ensures !completed && !updating
    {
      this.cfg := cfg;
      offsets := [];
      slots, entries := map[], map[];
      lastTransforms := map[];
      completed, updating := false, false;
    }

    /** The layout effect's cleanup: every cache and flag is cleared. */
    method Unmount()
      modifies this
      ensures Valid() && offsets == [] && Table() == EmptyTable && lastTransforms == map[]
      ensures !completed && !updating
    {
      completed := false;
      offsets := [];
      lastTransforms := map[];
      slots, entries := map[], map[];
      updating := false;
    }

    /** The completion check run after the last card: fire on entering the pin window, re-arm on leaving. */
    method MarkCompletion(inView: bool) returns (fired: bool)
      modifies this`completed
      ensures (completed, fired) == CompletionStep(old(completed), inView)
    {
      fired := false;
      if inView && !completed {
        completed := true;
        fired := true;
      } else if !inView && completed {
        completed := false;
      }
    }

    /** `updateCardTransforms`: one scroll tick over all cards. */
    method UpdateCardTransforms(vp: Viewport) returns (written: seq<nat>, fired: bool)
      requires Valid()
      requires Frame(cfg, offsets, vp).WellFormed()
      modifies this
      ensures Valid() && offsets == old(offsets) && updating == old(updating)
      ensures offsets == [] || old(updating) ==>
        && Table() == old(Table()) && lastTransforms == old(lastTransforms)
        && completed == old(completed) && written == [] && !fired
      ensures offsets != [] && !old(updating) ==>
        var f := Frame(cfg, offsets, vp);
        var ts := Transforms(f, slots);
        && Table() == TableAfter(f, old(Table()), |offsets|)
        && lastTransforms == CacheAfter(old(lastTransforms), ts, |offsets|)
        && written == WrittenAfter(old(lastTransforms), ts, |offsets|)
        && (completed, fired) == CompletionStep(old(completed), f.InPinWindow(|offsets| - 1))
    {
      written, fired := [], false;
      if |offsets| == 0 || updating {
        return;
      }
      updating := true;
      var f := Frame(cfg, offsets, vp);
      var table, cache;
      table, cache, written := Tick(f, StackTable(slots, entries), lastTransforms);
      TableAfterSlots(f, StackTable(slots, entries), |offsets|);
      slots, entries := table.slots, table.entries;
      lastTransforms := cache;
      fired := MarkCompletion(f.InPinWindow(|offsets| - 1));
      updating := false;
    }

    /**
     * The layout effect: takes the measured card offsets, clears the slot
     * tables and runs a first tick.
     */
    method Mount(cards: seq<real>, vp: Viewport) returns (written: seq<nat>, fired: bool)
      requires Frame(cfg, cards, vp).WellFormed()
      modifies this
      ensures Valid() && offsets == cards && updating == old(updating)
      ensures cards == [] || old(updating) ==>
        && Table() == EmptyTable && lastTransforms == old(lastTransforms)
        && completed == old(completed) && written == [] && !fired
      ensures cards != [] && !old(updating) ==>
        var f := Frame(cfg, cards, vp);
        var ts := Transforms(f, slots);
        && Table() == TableAfter(f, EmptyTable, |cards|)
        && lastTransforms == CacheAfter(old(lastTransforms), ts, |cards|)
        && written == WrittenAfter(old(lastTransforms), ts, |cards|)
        && (completed, fired) == CompletionStep(old(completed), f.InPinWindow(|cards| - 1))
    {
      offsets := cards;
      slots, entries := map[], map[];
      written, fired := UpdateCardTransforms(vp);
    }
  }
}
