/** The event catalog: events registered under their key with a weight, kept
    in registration order, and drawn by a walk over cumulative weights. */
module Events {
  import opened Basics
  import opened Draws
  import opened OrderedDict

  /** An event and the deltas it applies at national level. */
  datatype Event = Event(
    key: string,
    description: string,
    impactApprovalPresident: real := 0.0,
    impactApprovalCongress: real := 0.0,
    impactGrowth: real := 0.0,
    impactUnemployment: real := 0.0,
    impactInflation: real := 0.0,
    partyBenefit: Option<PartyID> := None)

  datatype CatalogEntry = CatalogEntry(event: Event, weight: real)

  /** The sum of the first `n` weights: the accumulator after `n` steps. */
  function Cumulative(c: seq<CatalogEntry>, n: nat): real
    requires n <= |c|
  {
    if n == 0 then 0.0 else Cumulative(c, n - 1) + c[n - 1].weight
  }

  /** The accumulator just after adding entry `j`. */
  function Through(c: seq<CatalogEntry>, j: nat): real
    requires j < |c|
  {
    Cumulative(c, j + 1)
  }

  function TotalWeight(c: seq<CatalogEntry>): real
  {
    Cumulative(c, |c|)
  }

  /** The index the walk stops at, searching from `k`: the first index whose
      cumulative weight reaches the pick, or the last index when none does. */
  function PickFrom(c: seq<CatalogEntry>, pick: real, k: nat): (i: nat)
    requires k < |c|
    ensures k <= i < |c|
    ensures forall j :: k <= j < i ==> pick > Through(c, j)
    ensures pick <= Through(c, i) || i == |c| - 1
    decreases |c| - k
  {
    if pick <= Through(c, k) || k == |c| - 1 then k else PickFrom(c, pick, k + 1)
  }

  function PickIndex(c: seq<CatalogEntry>, pick: real): (i: nat)
    requires |c| > 0
    ensures i < |c|
  {
    PickFrom(c, pick, 0)
  }

  /** The picked index is the first whose cumulative weight reaches the pick;
      only when no index does is the last one returned. */
  lemma {:induction false} PickIndexIsFirstCovering(c: seq<CatalogEntry>, pick: real, i: nat)
    requires i < |c|
    requires forall j :: 0 <= j < i ==> pick > Through(c, j)
    requires pick <= Through(c, i) || i == |c| - 1
    ensures PickIndex(c, pick) == i
  {
  }

  /** A pick no larger than the total weight is always covered: the
      fall-back to the last event is then never needed. */
  lemma PickCovered(c: seq<CatalogEntry>, pick: real)
    requires |c| > 0 && pick <= TotalWeight(c)
    ensures pick <= Through(c, PickIndex(c, pick))
  {
  }

  /** With non-negative weights the total is non-negative, so a pick drawn
      from [0, total] is covered. */
  lemma {:induction false} NonNegativeTotal(c: seq<CatalogEntry>, n: nat)
    requires n <= |c|
    requires forall j :: 0 <= j < |c| ==> c[j].weight >= 0.0
    ensures Cumulative(c, n) >= 0.0
  {
    if n > 0 {
      NonNegativeTotal(c, n - 1);
    }
  }

  /** The accumulator walk of `random_event`, over the catalog entries in
      registration order. */
  method Walk(entries: seq<CatalogEntry>, pick: real) returns (ev: Event)
    requires |entries| > 0
    ensures ev == entries[PickIndex(entries, pick)].event
  {
    var acc := 0.0;
    var i := 0;
    while i < |entries|
      invariant 0 <= i <= |entries|
      invariant acc == Cumulative(entries, i)
      invariant forall j :: 0 <= j < i ==> pick > Through(entries, j)
    {
      acc := acc + entries[i].weight;
      if pick <= acc {
        PickIndexIsFirstCovering(entries, pick, i);
        return entries[i].event;
      }
      i := i + 1;
    }
    PickIndexIsFirstCovering(entries, pick, |entries| - 1);
    ev := entries[|entries| - 1].event;
  }

  /** The registered events with their weights, in registration order. */
  class EventManager {
    const rng: Rng
    var catalog: ODict<string, CatalogEntry>

    /** The catalog is a well-formed ordered dictionary and every entry is
        filed under its own event's key. */
    ghost predicate Valid()
      reads this
    {
      catalog.Valid() && forall k :: k in catalog.entries ==> catalog.entries[k].event.key == k
    }

    function Entries(): (es: seq<CatalogEntry>)
      reads this
      requires Valid()
      ensures |es| == |catalog.keys|
    {
      catalog.Values()
    }

    constructor (rng: Rng)
      ensures this.rng == rng && catalog == Empty() && Valid()
    {
      this.rng := rng;
      catalog := Empty();
    }

    /** `register`: file the event under its key; an existing key has its
        entry replaced in place, a new key goes last. */
    method Register(event: Event, weight: real := 1.0)
      requires Valid()
      modifies this
      ensures Valid()
      ensures catalog == old(catalog).Put(event.key, CatalogEntry(event, weight))
      ensures catalog.Get(event.key) == Some(CatalogEntry(event, weight))
      ensures forall k :: k != event.key ==> catalog.Get(k) == old(catalog).Get(k)
    {
      catalog := catalog.Put(event.key, CatalogEntry(event, weight));
    }

    /** `random_event`: None exactly when the catalog is empty (and then no draw
        is made); otherwise one draw picks uniformly in [0, total weight] and
        the walk returns the first event whose cumulative weight reaches it. */
    method RandomEvent() returns (ev: Option<Event>)
      requires Valid()
      modifies rng`pos
      ensures ev.None? <==> catalog.keys == []
      ensures ev.None? ==> rng.pos == old(rng.pos)
      ensures ev.Some? ==> rng.pos == old(rng.pos) + 1
      ensures ev.Some? ==> ev.value == Entries()[PickIndex(Entries(),
                Scale(0.0, TotalWeight(Entries()), rng.stream(old(rng.pos))))].event
      ensures ev.Some? ==> ev.value.key in catalog.entries
    {
      if catalog.keys == [] {
        return None;
      }
      var events := Entries();
      var total := TotalWeight(events);
      var pick := rng.Uniform(0.0, total);
      var e := Walk(events, pick);
      ev := Some(e);
    }
  }
}
