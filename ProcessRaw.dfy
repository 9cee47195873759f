/**
 * `processRawTranscript` (`src/utils/transcript.ts`): whatever shape the
 * fetched transcript has (a string, caption events, a list of segment-like
 * items, an object with a `transcript` string), produce its segments and
 * the chunks built from them.
 */
module ProcessRaw {
  import opened Wrappers
  import opened Text
  import opened Transcript

  /** A list-valued property: absent or falsy, an array, or some other truthy value. */
  datatype ListField<T> = Absent | List(items: seq<T>) | NotList

  /** A segment-like item; a field is `None` when absent (or not of the expected type). */
  datatype RawItem = RawItem(
    startMs: Option<int>, tStartMs: Option<int>, endMs: Option<int>,
    durationMs: Option<int>, dDurationMs: Option<int>,
    text: Option<string>, utf8: Option<string>)

  /** An entry of an event's `segs`: `null` (or `undefined`), or an object whose `utf8` may be absent. */
  datatype SegEntry = NullSeg | SegObj(utf8: Option<string>)

  /**
   * An entry of `events` as it arrives: `null` (or `undefined`), or a value
   * whose `tStartMs`, `dDurationMs` and `segs` are read; a primitive such as
   * a number reads as an event with all three absent.
   */
  datatype EventEntry = NullEvent | Event(tStartMs: Option<int>, dDurationMs: Option<int>, segs: ListField<SegEntry>)

  /**
   * `normalizeEvents` throws on this entry: reading `ev.segs` of `null`,
   * calling `.map` on a truthy `segs` that is not an array, or reading
   * `s.utf8` of a `null` entry of `segs`.
   */
  predicate EventThrows(e: EventEntry)
  {
    || e.NullEvent?
    || (e.Event? && e.segs.NotList?)
    || (e.Event? && e.segs.List? && exists j :: 0 <= j < |e.segs.items| && e.segs.items[j].NullSeg?)
  }

  /** The event an entry that does not throw stands for. */
  function EventOf(e: EventEntry): RawEvent
    requires !EventThrows(e)
  {
    var segs := if e.segs.List? then
      Some(seq(|e.segs.items|, j requires 0 <= j < |e.segs.items| => e.segs.items[j].utf8))
    else None;
    RawEvent(e.tStartMs, e.dDurationMs, segs)
  }

  /** The events `normalizeEvents` reads, or `None` when one of the entries makes it throw. */
  function EventsIn(entries: seq<EventEntry>): (r: Option<seq<RawEvent>>)
    ensures r.None? <==> exists i :: 0 <= i < |entries| && EventThrows(entries[i])
    ensures r.Some? ==> |r.value| == |entries|
    ensures r.Some? ==> forall i :: 0 <= i < |entries| ==> r.value[i] == EventOf(entries[i])
  {
    if forall i :: 0 <= i < |entries| ==> !EventThrows(entries[i]) then
      Some(seq(|entries|, i requires 0 <= i < |entries| && !EventThrows(entries[i]) => EventOf(entries[i])))
    else None
  }

  /**
   * The input: a falsy value other than the empty string; a string; an
   * object with the properties the function looks at; or any other truthy
   * value (a number, say), which has none of them.
   */
  datatype Raw =
    | Falsy
    | Str(s: string)
    | Obj(events: ListField<EventEntry>, segments: ListField<Option<RawItem>>,
          segs: ListField<Option<RawItem>>, transcript: Option<string>)
    | OtherTruthy

  datatype Processed = Processed(segments: seq<Segment>, chunks: seq<Segment>)

  /** `x || d` on a number: absent or zero falls through to `d`. */
  function NumberOr(x: Option<int>, d: int): (r: int)
    ensures x.Some? && x.value != 0 ==> r == x.value
    ensures (x.None? || x.value == 0) ==> r == d
  {
    if x.Some? && x.value != 0 then x.value else d
  }

  /** `x || d` on a string: absent or empty falls through to `d`. */
  function TextOr(x: Option<string>, d: string): (r: string)
    ensures x.Some? && x.value != [] ==> r == x.value
    ensures (x.None? || x.value == []) ==> r == d
  {
    if x.Some? && x.value != [] then x.value else d
  }

  /** The segment the `list.map` callback builds from one item. */
  function ItemSegment(it: RawItem): Segment
  {
    var start := NumberOr(it.startMs, NumberOr(it.tStartMs, 0));
    var end := NumberOr(it.endMs, start + NumberOr(it.durationMs, NumberOr(it.dDurationMs, 0)));
    Segment(start, end, Trim(Js, Collapse(Js, TextOr(it.text, TextOr(it.utf8, [])))))
  }

  /** `list.map(...)`: reading a property of a null item throws. */
  function ItemSegments(list: seq<Option<RawItem>>): (r: Option<seq<Segment>>)
    ensures r.Some? <==> forall i :: 0 <= i < |list| ==> list[i].Some?
    ensures r.Some? ==> |r.value| == |list|
    ensures r.Some? ==> forall i :: 0 <= i < |list| ==> r.value[i] == ItemSegment(list[i].value)
  {
    if forall i :: 0 <= i < |list| ==> list[i].Some? then
      Some(seq(|list|, i requires 0 <= i < |list| && list[i].Some? => ItemSegment(list[i].value)))
    else None
  }

  /** `raw.segments || raw.segs || []`, once one of them is known to be an array: `None` when it is not a list. */
  function ChosenList(segments: ListField<Option<RawItem>>, segs: ListField<Option<RawItem>>): Option<seq<Option<RawItem>>>
  {
    match segments
    case List(items) => Some(items)
    case NotList => None
    case Absent => if segs.List? then Some(segs.items) else Some([])
  }

  /** One segment and one chunk, both the cleaned text at time 0. */
  function SingleText(s: string): Processed
  {
    var seg := Segment(0, 0, CleanText(s));
    Processed([seg], [seg])
  }

  const NoTranscript: Processed := Processed([], [])

  /** What `processRawTranscript(raw, maxChars, overlapChars)` returns; `None` is a thrown `TypeError`. */
  function ProcessResult(raw: Raw, maxChars: int, overlapChars: int): Option<Processed>
  {
    match raw
    case Falsy => Some(NoTranscript)
    case OtherTruthy => Some(NoTranscript)
    case Str(s) => if s == [] then Some(NoTranscript) else Some(SingleText(s))
    case Obj(events, segments, segs, transcript) =>
      if events.List? then
        match EventsIn(events.items)
        case None => None
        case Some(evs) =>
          var out := Merged(SortByStart(EventSegments(evs)), 1000);
          Some(Processed(out, Chunks(out, maxChars, overlapChars)))
      else if segments.List? || segs.List? then
        match ChosenList(segments, segs)
        case None => None
        case Some(list) =>
          match ItemSegments(list)
          case None => None
          case Some(items) =>
            var merged := Merged(SortByStart(items), 1000);
            Some(Processed(merged, Chunks(merged, maxChars, overlapChars)))
      else if transcript.Some? && transcript.value != [] then Some(SingleText(transcript.value))
      else Some(NoTranscript)
  }

  /** `processRawTranscript`, calling `normalizeEvents`, `mergeAdjacentSegments` and `chunkSegments`. */
  method ProcessRawTranscript(raw: Raw, maxChars: int, overlapChars: int) returns (r: Option<Processed>)
    ensures r == ProcessResult(raw, maxChars, overlapChars)
  {
    match raw
    case Falsy => return Some(NoTranscript);
    case OtherTruthy => return Some(NoTranscript);
    case Str(s) =>
      if s == [] {
        return Some(NoTranscript);
      }
      return Some(SingleText(s));
    case Obj(events, segments, segs, transcript) =>
      if events.List? {
        var evs := EventsIn(events.items);
        if evs.None? {
          return None;
        }
        var out := NormalizeEvents(evs.value);
        var chunks := ChunkSegments(out, maxChars, overlapChars);
        return Some(Processed(out, chunks));
      }
      if segments.List? || segs.List? {
        var list := ChosenList(segments, segs);
        if list.None? {
          return None;
        }
        var items := ItemSegments(list.value);
        if items.None? {
          return None;
        }
        var a := new Segment[|items.value|](k requires 0 <= k < |items.value| => items.value[k]);
        assert a[..] == items.value;
        var merged := MergeAdjacentSegments(a, 1000);
        var chunks := ChunkSegments(merged, maxChars, overlapChars);
        return Some(Processed(merged, chunks));
      }
      if transcript.Some? && transcript.value != [] {
        return Some(SingleText(transcript.value));
      }
      return Some(NoTranscript);
  }

  /** Falsy input, the empty string, and a value with none of the known shapes give nothing. */
  lemma ProcessEmpty(raw: Raw, maxChars: int, overlapChars: int)
    requires raw.Falsy? || raw == Str([]) || raw.OtherTruthy?
      || (raw.Obj? && !raw.events.List? && !raw.segments.List? && !raw.segs.List? && (raw.transcript.None? || raw.transcript.value == []))
    ensures ProcessResult(raw, maxChars, overlapChars) == Some(Processed([], []))
  {
  }

  /** A string (or an object's `transcript` string, when nothing else is there) becomes one cleaned segment that is also the one chunk. */
  lemma ProcessText(raw: Raw, maxChars: int, overlapChars: int)
    requires (raw.Str? && raw.s != [])
      || (raw.Obj? && !raw.events.List? && !raw.segments.List? && !raw.segs.List? && raw.transcript.Some? && raw.transcript.value != [])
    ensures var r := ProcessResult(raw, maxChars, overlapChars);
      var s := if raw.Str? then raw.s else raw.transcript.value;
      && r.Some? && r.value.segments == r.value.chunks && |r.value.segments| == 1
      && r.value.segments[0] == Segment(0, 0, CleanText(s))
  {
  }

  /** The list the function maps holds a null item. */
  predicate HasNull(items: seq<Option<RawItem>>)
  {
    exists i :: 0 <= i < |items| && items[i].None?
  }

  /**
   * It throws exactly when the caption events hold an entry `normalizeEvents`
   * throws on, or, without caption events, when the segment list it picks is
   * not an array (a truthy `segments` beside an array `segs`) or holds a null
   * item.
   */
  lemma ProcessThrows(raw: Raw, maxChars: int, overlapChars: int)
    ensures ProcessResult(raw, maxChars, overlapChars).None? <==>
      && raw.Obj?
      && (|| (raw.events.List? && exists i :: 0 <= i < |raw.events.items| && EventThrows(raw.events.items[i]))
          || (&& !raw.events.List?
              && (|| (raw.segments.NotList? && raw.segs.List?)
                  || (raw.segments.List? && HasNull(raw.segments.items))
                  || (raw.segments.Absent? && raw.segs.List? && HasNull(raw.segs.items)))))
  {
  }

  /** `{events: [null]}` and an event whose `segs` holds `null` throw. */
  lemma NullEventThrows(maxChars: int, overlapChars: int)
    ensures ProcessResult(Obj(List([NullEvent]), Absent, Absent, None), maxChars, overlapChars).None?
    ensures ProcessResult(Obj(List([Event(None, None, List([NullSeg]))]), Absent, Absent, None), maxChars, overlapChars).None?
  {
    assert EventThrows(NullEvent);
    assert EventThrows(Event(None, None, List([NullSeg]))) by {
      assert List([NullSeg]).items[0].NullSeg?;
    }
  }

  /** Merged segments come out ordered by start, no more of them than there were inputs, with the same non-whitespace text. */
  lemma MergedOrdered(input: seq<Segment>)
    ensures var m := Merged(SortByStart(input), 1000);
      SortedByStart(m) && |m| <= |input| && NonSpace(Js, AllText(m)) == NonSpace(Js, AllText(SortByStart(input)))
  {
    MergeAdjacentSegmentsResult(input, 1000);
  }

  /**
   * Whatever the input, a result's segments are ordered by start and its
   * chunks are trimmed; from events or a list, there are no more segments
   * than inputs and the chunks are those of the segments.
   */
  lemma ProcessShape(raw: Raw, maxChars: int, overlapChars: int)
    ensures var r := ProcessResult(raw, maxChars, overlapChars);
      r.Some? ==> SortedByStart(r.value.segments) && AllTrimmed(r.value.chunks)
    ensures var r := ProcessResult(raw, maxChars, overlapChars);
      r.Some? && raw.Obj? && raw.events.List? ==>
        |r.value.segments| <= |raw.events.items| && r.value.chunks == Chunks(r.value.segments, maxChars, overlapChars)
    ensures var r := ProcessResult(raw, maxChars, overlapChars);
      r.Some? && raw.Obj? && !raw.events.List? && raw.segments.List? ==>
        |r.value.segments| <= |raw.segments.items| && r.value.chunks == Chunks(r.value.segments, maxChars, overlapChars)
  {
    var r := ProcessResult(raw, maxChars, overlapChars);
    if r.Some? {
      var p := r.value;
      if raw.Obj? && (raw.events.List? || raw.segments.List? || raw.segs.List?) {
        if raw.events.List? {
          var evs := EventsIn(raw.events.items).value;
          EventSegmentsShape(evs);
          MergedOrdered(EventSegments(evs));
        } else {
          var list := ChosenList(raw.segments, raw.segs).value;
          MergedOrdered(ItemSegments(list).value);
        }
        ChunksTrimmed(p.segments, maxChars, overlapChars);
      } else if p.segments != [] {
        var s := if raw.Str? then raw.s else raw.transcript.value;
        CleanTextShape(s);
        assert AllTrimmed(p.chunks);
      }
    }
  }
}
