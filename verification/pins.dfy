/** The pin registry of a device and its search by pin name or alternate
    signal (src/pins.rs). */
module PinRegistry {
  import opened Wrappers
  import opened PinModel
  import Seqs
  import Text

  /** The device's pins in declaration order; the order is what search
      results index into. */
  datatype Pins = Pins(pins: seq<Pin>)

  /** Some alternate signal of `pin` mentions `query` as a substring. */
  ghost predicate SignalMentions(pin: Pin, query: string) {
    pin.IO? && exists j :: 0 <= j < |pin.params.signals| && Text.IsSubstring(query, pin.params.signals[j])
  }

  /** A pin answers a search when its own name is the query, or when one of
      its alternate signals mentions the query. */
  ghost predicate Matches(pin: Pin, query: string) {
    Name(pin) == query || SignalMentions(pin, query)
  }

  /** The scan over one I/O pin's signals, as `position(|s| s.contains(name))`. */
  function SignalHit(params: IOPin, query: string): (hit: bool)
    ensures hit <==> exists j :: 0 <= j < |params.signals| && Text.IsSubstring(query, params.signals[j])
  {
    forall j | 0 <= j < |params.signals| ensures Text.Contains(params.signals[j], query) <==> Text.IsSubstring(query, params.signals[j]) {
      Text.ContainsIsSubstring(params.signals[j], query);
    }
    Seqs.FirstWhere(params.signals, (s: string) => Text.Contains(s, query)).Some?
  }

  /** `Pins::find_pin`: the indices of all pins that answer `query`, each
      once and in ascending order; no match is the empty list. */
  method FindPin(registry: Pins, query: string) returns (found: seq<nat>)
    ensures forall k :: 0 <= k < |found| ==> found[k] < |registry.pins|
    ensures Seqs.StrictlyIncreasing(found)
    ensures forall i :: 0 <= i < |registry.pins| ==> (i in found <==> Matches(registry.pins[i], query))
    ensures forall i :: 0 <= i < |registry.pins| && !registry.pins[i].IO? ==>
      (i in found <==> Name(registry.pins[i]) == query)
    ensures (forall i :: 0 <= i < |registry.pins| ==> !Matches(registry.pins[i], query)) ==> found == []
  {
    found := [];
    var idx := 0;
    while idx < |registry.pins|
      invariant idx <= |registry.pins|
      invariant forall k :: 0 <= k < |found| ==> found[k] < idx
      invariant Seqs.StrictlyIncreasing(found)
      invariant forall i :: 0 <= i < idx ==> (i in found <==> Matches(registry.pins[i], query))
    {
      var pin := registry.pins[idx];
      if Name(pin) == query {
        found := found + [idx];
      } else {
        match Params(pin) {
          case Some(params) =>
            if SignalHit(params, query) {
              found := found + [idx];
            }
          case None =>
        }
      }
      idx := idx + 1;
    }
    if |found| > 0 {
      assert found[0] in found;
    }
  }

  /** The local list `Pins::find_alternate_pins` builds and then drops: the
      I/O pins with a signal mentioning `query`, in ascending order. The
      index the caller passes is shadowed by the loop variable, so it plays
      no part. */
  method AlternateScan(registry: Pins, query: string) returns (found: seq<nat>)
    ensures forall k :: 0 <= k < |found| ==> found[k] < |registry.pins|
    ensures Seqs.StrictlyIncreasing(found)
    ensures forall i :: 0 <= i < |registry.pins| ==> (i in found <==> SignalMentions(registry.pins[i], query))
  {
    found := [];
    var idx := 0;
    while idx < |registry.pins|
      invariant idx <= |registry.pins|
      invariant forall k :: 0 <= k < |found| ==> found[k] < idx
      invariant Seqs.StrictlyIncreasing(found)
      invariant forall i :: 0 <= i < idx ==> (i in found <==> SignalMentions(registry.pins[i], query))
    {
      match Params(registry.pins[idx]) {
        case Some(params) =>
          if SignalHit(params, query) {
            found := found + [idx];
          }
        case None =>
      }
      idx := idx + 1;
    }
  }

  /** `Pins::find_alternate_pins`: computes the scan and discards it, so it
      returns nothing and changes nothing. */
  method FindAlternatePins(registry: Pins, index: nat, query: string) {
    var _ := AlternateScan(registry, query);
  }

  /** A small registry: a supply pin and two I/O pins offering USART1
      signals. */
  function SampleRegistry(): Pins {
    Pins([
      POWER("VDD", Linear(1)),
      IO("PA9", Linear(30), IOPin(true, "", ["TIM1_CH2", "USART1_TX"], None)),
      IO("PA10", Linear(31), IOPin(true, "", ["USART1_RX"], None))])
  }

  /** Which sample pins answer "USART1" and "VDD". */
  lemma SampleMatches()
    ensures !Matches(SampleRegistry().pins[0], "USART1")
    ensures Matches(SampleRegistry().pins[1], "USART1")
    ensures Matches(SampleRegistry().pins[2], "USART1")
    ensures Matches(SampleRegistry().pins[0], "VDD")
    ensures !Matches(SampleRegistry().pins[1], "VDD")
    ensures !Matches(SampleRegistry().pins[2], "VDD")
  {
    var pins := SampleRegistry().pins;
    assert Text.OccursAt("USART1", pins[1].params.signals[1], 0);
    assert Text.OccursAt("USART1", pins[2].params.signals[0], 0);
    Text.AbsentFirstCharNotSubstring("VDD", pins[1].params.signals[0]);
    Text.AbsentFirstCharNotSubstring("VDD", pins[1].params.signals[1]);
    Text.AbsentFirstCharNotSubstring("VDD", pins[2].params.signals[0]);
  }

  /** Searching the sample for "USART1" finds both I/O pins through their
      signals and not the supply pin; searching for "VDD" finds the supply
      pin by its name. */
  method FindPinSample() returns (bySignal: seq<nat>, byName: seq<nat>)
    ensures bySignal == [1, 2]
    ensures byName == [0]
  {
    var registry := SampleRegistry();
    SampleMatches();
    bySignal := FindPin(registry, "USART1");
    FindPinAnswerUnique(registry, "USART1", bySignal, [1, 2]);
    byName := FindPin(registry, "VDD");
    FindPinAnswerUnique(registry, "VDD", byName, [0]);
  }

  /** The search answer is fully determined by which pins match: any two
      ascending index lists naming exactly the matching pins coincide. */
  lemma FindPinAnswerUnique(registry: Pins, query: string, a: seq<nat>, b: seq<nat>)
    requires Seqs.StrictlyIncreasing(a) && Seqs.StrictlyIncreasing(b)
    requires forall k :: 0 <= k < |a| ==> a[k] < |registry.pins|
    requires forall k :: 0 <= k < |b| ==> b[k] < |registry.pins|
    requires forall i :: 0 <= i < |registry.pins| ==> (i in a <==> Matches(registry.pins[i], query))
    requires forall i :: 0 <= i < |registry.pins| ==> (i in b <==> Matches(registry.pins[i], query))
    ensures a == b
  {
    forall v ensures v in a <==> v in b {
      if v in a {
        var k :| 0 <= k < |a| && a[k] == v;
      }
      if v in b {
        var k :| 0 <= k < |b| && b[k] == v;
      }
    }
    Seqs.StrictlyIncreasingUnique(a, b);
  }
}
