/** `simulateMarket`: three synthetic customers, one from each market
    segment (individuals, small businesses, enterprises), each with a
    willingness-to-buy percentage inside the segment's range. */
module Market {
  import opened Text
  import opened Hash
  import opened Scoring

  /** The texts of one segment; the source holds three of each. */
  datatype SegmentPool = SegmentPool(names: seq<string>, descriptions: seq<string>, reactions: seq<string>)

  const SegmentSize: nat := 3

  predicate SegmentsWellFormed(segments: seq<SegmentPool>)
  {
    |segments| == 3
    && forall i :: 0 <= i < 3 ==>
         |segments[i].names| == SegmentSize && |segments[i].descriptions| == SegmentSize
         && |segments[i].reactions| == SegmentSize
  }

  /** Lower end of segment i's willingness range, in percent. */
  function RangeMin(i: nat): int
    requires i < 3
  {
    [45, 30, 60][i]
  }

  /** Upper end of segment i's willingness range (exclusive in effect). */
  function RangeMax(i: nat): int
    requires i < 3
  {
    [75, 60, 85][i]
  }

  /** `PersonaResult`. */
  datatype Persona = Persona(name: string, description: string, quote: string, willingness: int)

  /** Willingness of the persona in slot i for hash h:
      the range minimum plus (h + 10i) mod (range width). */
  function Willingness(h: nat, i: nat): (w: int)
    requires i < 3
    ensures RangeMin(i) <= w < RangeMax(i)
    ensures (w - RangeMin(i)) % (RangeMax(i) - RangeMin(i)) == (h + i * 10) % (RangeMax(i) - RangeMin(i))
  {
    RangeMin(i) + (h + i * 10) % (RangeMax(i) - RangeMin(i))
  }

  function PersonaAt(input: Idea, h: nat, i: nat, seg: SegmentPool): (p: Persona)
    requires i < 3
    requires |seg.names| == SegmentSize && |seg.descriptions| == SegmentSize && |seg.reactions| == SegmentSize
    ensures p.name == seg.names[(h + i) % SegmentSize]
    ensures p.description == seg.descriptions[(h + i * 2) % SegmentSize]
    ensures p.quote == Replace(seg.reactions[(h + i * 3) % SegmentSize], "{idea}", input.name)
    ensures RangeMin(i) <= p.willingness < RangeMax(i)
    ensures p.willingness == Willingness(h, i)
  {
    Persona(seg.names[(h + i) % SegmentSize], seg.descriptions[(h + i * 2) % SegmentSize],
            Replace(seg.reactions[(h + i * 3) % SegmentSize], "{idea}", input.name),
            Willingness(h, i))
  }

  /** `simulateMarket(input)`. */
  function SimulateMarket(input: Idea, segments: seq<SegmentPool>): (r: seq<Persona>)
    requires SegmentsWellFormed(segments)
    ensures |r| == 3
    ensures forall i :: 0 <= i < 3 ==> r[i].name in segments[i].names
    ensures forall i :: 0 <= i < 3 ==> r[i].description in segments[i].descriptions
    ensures forall i :: 0 <= i < 3 ==> RangeMin(i) <= r[i].willingness < RangeMax(i)
    ensures 45 <= r[0].willingness < 75 && 30 <= r[1].willingness < 60 && 60 <= r[2].willingness < 85
    ensures forall i :: 0 <= i < 3 ==>
              r[i] == PersonaAt(input, Hash.Hash(input.name + input.description), i, segments[i])
  {
    var h := Hash.Hash(input.name + input.description);
    seq(3, i requires 0 <= i < 3 => PersonaAt(input, h, i, segments[i]))
  }

  /** The market ignores the audience: two ideas that differ only in their
      audience meet the same three personas. */
  lemma MarketIgnoresAudience(a: Idea, b: Idea, segments: seq<SegmentPool>)
    requires SegmentsWellFormed(segments)
    requires a.name == b.name && a.description == b.description
    ensures SimulateMarket(a, segments) == SimulateMarket(b, segments)
  {
  }

  /** Every value of a segment's range is the willingness for some hash, so
      the range is exactly [RangeMin(i), RangeMax(i)). */
  lemma WillingnessCoversRange(i: nat, w: int)
    requires i < 3 && RangeMin(i) <= w < RangeMax(i)
    ensures exists h: nat :: Willingness(h, i) == w
  {
    var width := RangeMax(i) - RangeMin(i);
    var h: nat := (w - RangeMin(i)) + width * 10 - i * 10;
    assert (h + i * 10) % width == w - RangeMin(i);
    assert Willingness(h, i) == w;
  }
}
