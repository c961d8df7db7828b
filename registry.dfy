/**
  The registry: the fixed, ordered list of controllers and a memo of the
  coordinates already resolved to their owning controller.
 */
module Registry {
  import opened Device
  import opened PinMap
  import opened ArduinoController

  datatype Option<T> = None | Some(value: T)

  /** The position of the first controller in cs that handles c, if any. */
  function FirstHandlerIndex(cs: seq<ArduinoFirmataController>, c: Coord): (r: Option<nat>)
    ensures r.Some? ==>
      && r.value < |cs|
      && cs[r.value].CanHandle(c)
      && forall j :: 0 <= j < r.value ==> !cs[j].CanHandle(c)
    ensures r.None? ==> forall j :: 0 <= j < |cs| ==> !cs[j].CanHandle(c)
    decreases |cs|
  {
    if cs == [] then None
    else if cs[0].CanHandle(c) then Some(0)
    else match FirstHandlerIndex(cs[1..], c)
      case None => None
      case Some(k) => Some(k + 1)
  }

  /** The controller owning c under first-match-wins, or null when none does. */
  function Resolve(cs: seq<ArduinoFirmataController>, c: Coord): (r: ArduinoFirmataController?)
    ensures r == null <==> forall j :: 0 <= j < |cs| ==> !cs[j].CanHandle(c)
    ensures r != null ==> r in cs && r.CanHandle(c)
  {
    match FirstHandlerIndex(cs, c)
    case None => null
    case Some(i) => cs[i]
  }

  /** Each entry of the new map is an entry of the old one, or a new key. */
  ghost predicate Extends<K, V>(before: map<K, V>, after: map<K, V>) {
    forall k :: k in before ==> k in after && after[k] == before[k]
  }

  class ControllerRegistry {
    /** The registered controllers, in registration order. */
    const controllers: seq<ArduinoFirmataController>
    /** Coordinates already resolved, with the controller found for each. */
    var knownControllerMap: map<Coord, ArduinoFirmataController>

    /** Every memo entry is exactly what a fresh scan would return. */
    ghost predicate Valid()
      reads this
    {
      forall k :: k in knownControllerMap ==> knownControllerMap[k] == Resolve(controllers, k)
    }

    constructor (controllers: seq<ArduinoFirmataController>)
      ensures Valid()
      ensures this.controllers == controllers && knownControllerMap == map[]
    {
      this.controllers := controllers;
      knownControllerMap := map[];
    }

    /**
      The controller owning c: from the memo when c is in it, otherwise the
      first controller that handles c, which is then memoized. When no
      controller handles c the result is null and nothing is memoized.
     */
    method ControllerFor(c: Coord) returns (r: ArduinoFirmataController?)
      requires Valid()
      modifies this
      ensures Valid()
      ensures r == Resolve(controllers, c)
      ensures Extends(old(knownControllerMap), knownControllerMap)
      ensures c in old(knownControllerMap) ==>
        r == old(knownControllerMap)[c] && knownControllerMap == old(knownControllerMap)
      ensures c !in old(knownControllerMap) && r != null ==>
        knownControllerMap == old(knownControllerMap)[c := r]
      ensures r == null ==> knownControllerMap == old(knownControllerMap)
    {
      if c in knownControllerMap {
        return knownControllerMap[c];
      }
      for i := 0 to |controllers|
        invariant knownControllerMap == old(knownControllerMap)
        invariant forall j :: 0 <= j < i ==> !controllers[j].CanHandle(c)
      {
        var ctrl := controllers[i];
        if ctrl.CanHandle(c) {
          knownControllerMap := knownControllerMap[c := ctrl];
          return ctrl;
        }
      }
      return null;
    }
  }

  /** A memo entry names a registered controller that handles its key. */
  lemma CacheConsistent(reg: ControllerRegistry)
    requires reg.Valid()
    ensures forall k :: k in reg.knownControllerMap ==>
      reg.knownControllerMap[k] in reg.controllers && reg.knownControllerMap[k].CanHandle(k)
  {
  }

  /** No coordinate is handled by two different positions of the list. */
  ghost predicate Disjoint(cs: seq<ArduinoFirmataController>) {
    forall i, j, c :: 0 <= i < j < |cs| && cs[i].CanHandle(c) ==> !cs[j].CanHandle(c)
  }

  /** With disjoint mappings, a coordinate resolves to its one owner. */
  lemma ResolveUniqueOwner(cs: seq<ArduinoFirmataController>, i: nat, c: Coord)
    requires Disjoint(cs) && i < |cs| && cs[i].CanHandle(c)
    ensures Resolve(cs, c) == cs[i]
  {
  }

  /**
    Asking twice for the same coordinate gives the same controller, whether
    or not the first call filled the memo.
   */
  method ResolveTwice(reg: ControllerRegistry, c: Coord)
    returns (first: ArduinoFirmataController?, second: ArduinoFirmataController?)
    requires reg.Valid()
    modifies reg
    ensures reg.Valid()
    ensures first == second
  {
    first := reg.ControllerFor(c);
    second := reg.ControllerFor(c);
  }

  /** The serial port of the one shipped board. */
  const ShippedDevice: string := "/dev/tty.usbmodem14501"

  /**
    The shipped pin assignment: column 1, rows 15 down to 11, on pins 2 to 6,
    and column 2, rows 15 down to 11, on pins 7 to 11.
   */
  const ShippedPins: PinLookup := LookupRep(
    map[
      Coord(1, 15) := 2, Coord(1, 14) := 3, Coord(1, 13) := 4, Coord(1, 12) := 5, Coord(1, 11) := 6,
      Coord(2, 15) := 7, Coord(2, 14) := 8, Coord(2, 13) := 9, Coord(2, 12) := 10, Coord(2, 11) := 11],
    [Coord(1, 15), Coord(1, 14), Coord(1, 13), Coord(1, 12), Coord(1, 11),
     Coord(2, 15), Coord(2, 14), Coord(2, 13), Coord(2, 12), Coord(2, 11)])

  /** The shipped mapping covers a 2-by-5 block, pins counting down each column. */
  lemma ShippedCoverage(c: Coord)
    ensures c in ShippedPins.pins <==> (c.x == 1 || c.x == 2) && 11 <= c.y <= 15
    ensures c in ShippedPins.pins ==>
      ShippedPins.pins[c] == if c.x == 1 then 17 - c.y else 22 - c.y
  {
  }

  /** The module-level configuration: one board, no coordinate resolved yet. */
  method NewShippedRegistry() returns (reg: ControllerRegistry)
    ensures fresh(reg) && reg.Valid() && reg.knownControllerMap == map[]
    ensures |reg.controllers| == 1 && fresh(reg.controllers[0]) && reg.controllers[0].Valid()
    ensures reg.controllers[0].device == ShippedDevice && reg.controllers[0].pinLookup == ShippedPins
    ensures reg.controllers[0].initializedDevice == null
  {
    var board := new ArduinoFirmataController(ShippedDevice, ShippedPins);
    reg := new ControllerRegistry([board]);
  }

  /** Under the shipped configuration the block resolves to the one controller. */
  lemma ShippedResolution(cs: seq<ArduinoFirmataController>, c: Coord)
    requires |cs| == 1 && cs[0].pinLookup == ShippedPins
    ensures Resolve(cs, c) == if (c.x == 1 || c.x == 2) && 11 <= c.y <= 15 then cs[0] else null
  {
    ShippedCoverage(c);
  }

  /**
    With the shipped configuration, (1, 15) and (2, 11) reach the single
    controller on pins 2 and 11, and (3, 15) reaches no controller.
   */
  method ShippedLookups() returns (a: ArduinoFirmataController?, b: ArduinoFirmataController?, z: ArduinoFirmataController?)
    ensures a != null && a == b && a.pinLookup == ShippedPins
    ensures Coord(1, 15) in a.pinLookup.pins && a.pinLookup.pins[Coord(1, 15)] == 2
    ensures Coord(2, 11) in b.pinLookup.pins && b.pinLookup.pins[Coord(2, 11)] == 11
    ensures z == null
  {
    var reg := NewShippedRegistry();
    ghost var cs := reg.controllers;
    ShippedResolution(cs, Coord(1, 15));
    ShippedResolution(cs, Coord(2, 11));
    ShippedResolution(cs, Coord(3, 15));
    a := reg.ControllerFor(Coord(1, 15));
    b := reg.ControllerFor(Coord(2, 11));
    z := reg.ControllerFor(Coord(3, 15));
    ShippedCoverage(Coord(1, 15));
    ShippedCoverage(Coord(2, 11));
  }
}
