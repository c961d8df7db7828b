/**
  Coordinates of the LED matrix and the coordinate-to-pin dictionary that a
  controller owns. The dictionary is a map together with the order in which
  its keys were inserted, since iterating over its values follows that order.
 */
module PinMap {
  import opened Device

  /** A logical LED position; any pair of integers is a legal key. */
  datatype Coord = Coord(x: int, y: int)

  datatype LookupRep = LookupRep(pins: map<Coord, Pin>, order: seq<Coord>) {
    /** The keys are listed once each, and exactly the keys are listed. */
    ghost predicate IsDict() {
      && (forall i, j :: 0 <= i < j < |order| ==> order[i] != order[j])
      && (forall c :: c in pins <==> c in order)
    }
  }

  /** An insertion-ordered dictionary from coordinates to pins. */
  type PinLookup = d: LookupRep | d.IsDict() witness LookupRep(map[], [])

  /** The dictionary's values, in insertion order. */
  function PinValues(d: PinLookup): (vs: seq<Pin>)
    ensures |vs| == |d.order|
    ensures forall i :: 0 <= i < |vs| ==> vs[i] == d.pins[d.order[i]]
    ensures forall p :: p in vs <==> p in d.pins.Values
  {
    var vs := seq(|d.order|, i requires 0 <= i < |d.order| => d.pins[d.order[i]]);
    forall p | p in d.pins.Values
      ensures p in vs
    {
      var c :| c in d.pins && d.pins[c] == p;
      var i :| 0 <= i < |d.order| && d.order[i] == c;
      assert vs[i] == p;
    }
    vs
  }
}
