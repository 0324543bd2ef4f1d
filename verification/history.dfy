/**
 Sequences of pour events replayed through the engine, one after another, as
 the pour trigger delivers them (app.js:32, app.js:50). The lemmas here relate
 the registry after a whole history to the history itself: total volume,
 per-chemical totals, the key order of first pours, and independence of the
 derived readout from the order of the pours.
 */
module History {
  import opened Composition
  import opened Readout
  import opened Beakers

  datatype PourEvent = PourEvent(vessel: VesselId, chem: Chem, amount: int)

  /** Applies the events in order, the last one last. */
  function Replay(vs: Vessels, events: seq<PourEvent>): Vessels
  {
    if |events| == 0 then vs
    else
      var e := events[|events| - 1];
      Pour(Replay(vs, events[..|events| - 1]), e.vessel, e.chem, e.amount)
  }

  /** What one event adds to chemical `k` of vessel `id`. */
  function Contribution(e: PourEvent, id: VesselId, k: Chem): int
  {
    if e.vessel == id && e.chem == k then e.amount else 0
  }

  /** The total amount of `k` the events pour into vessel `id`. */
  function PouredOf(events: seq<PourEvent>, id: VesselId, k: Chem): int
  {
    if |events| == 0 then 0
    else PouredOf(events[..|events| - 1], id, k) + Contribution(events[|events| - 1], id, k)
  }

  /** The total amount, of any chemical, the events pour into vessel `id`. */
  function Poured(events: seq<PourEvent>, id: VesselId): int
  {
    if |events| == 0 then 0
    else
      var e := events[|events| - 1];
      Poured(events[..|events| - 1], id) + (if e.vessel == id then e.amount else 0)
  }

  /** The chemicals poured into vessel `id`, one entry per event, in event order. */
  function ChemsInto(events: seq<PourEvent>, id: VesselId): seq<Chem>
  {
    if |events| == 0 then []
    else
      var e := events[|events| - 1];
      ChemsInto(events[..|events| - 1], id) + (if e.vessel == id then [e.chem] else [])
  }

  /** Index of the first occurrence of `x` in `s`. */
  function FirstIndex(s: seq<Chem>, x: Chem): (r: nat)
    requires x in s
    ensures r < |s| && s[r] == x
    ensures forall i :: 0 <= i < r ==> s[i] != x
  {
    if s[0] == x then 0 else 1 + FirstIndex(s[1..], x)
  }

  lemma {:induction false} FirstIndexSnoc(s: seq<Chem>, c: Chem, x: Chem)
    requires x in s + [c]
    ensures x in s ==> FirstIndex(s + [c], x) == FirstIndex(s, x)
    ensures x !in s ==> FirstIndex(s + [c], x) == |s|
  {
    var t := s + [c];
    var r := FirstIndex(t, x);
    if x in s {
      var q := FirstIndex(s, x);
      assert t[q] == x;
      assert r <= q;
      assert s[r] == x;
    } else {
      assert forall i :: 0 <= i < |s| ==> t[i] != x;
      assert r == |s|;
    }
  }

  // ---------------------------------------------------------------- conservation

  /** Every vessel the registry holds keeps its invariant along any history. */
  lemma {:induction false} ReplayPreservesAllValid(vs: Vessels, events: seq<PourEvent>)
    requires AllValid(vs)
    ensures AllValid(Replay(vs, events))
  {
    if |events| > 0 {
      var e := events[|events| - 1];
      ReplayPreservesAllValid(vs, events[..|events| - 1]);
      PourPreservesAllValid(Replay(vs, events[..|events| - 1]), e.vessel, e.chem, e.amount);
    }
  }

  /** The volume of a vessel grows by exactly what the history pours into it. */
  lemma {:induction false} ReplayVolume(vs: Vessels, events: seq<PourEvent>, id: VesselId)
    ensures StateOf(Replay(vs, events), id).volume == StateOf(vs, id).volume + Poured(events, id)
  {
    if |events| > 0 {
      ReplayVolume(vs, events[..|events| - 1], id);
    }
  }

  /** Each component of a vessel grows by exactly what the history pours of it. */
  lemma {:induction false} ReplayAmount(vs: Vessels, events: seq<PourEvent>, id: VesselId, k: Chem)
    ensures Amount(StateOf(Replay(vs, events), id).components, k)
            == Amount(StateOf(vs, id).components, k) + PouredOf(events, id, k)
  {
    if |events| > 0 {
      ReplayAmount(vs, events[..|events| - 1], id, k);
    }
  }

  /** A vessel's keys after a history: the keys it had, plus every chemical
      poured into it, whatever the amounts. */
  lemma {:induction false} ReplayKeys(vs: Vessels, events: seq<PourEvent>, id: VesselId, k: Chem)
    ensures k in StateOf(Replay(vs, events), id).components
            <==> k in StateOf(vs, id).components || k in ChemsInto(events, id)
  {
    if |events| > 0 {
      ReplayKeys(vs, events[..|events| - 1], id, k);
    }
  }

  // ---------------------------------------------------------------- key order

  /** `order` lists each chemical of `cs` exactly once, in order of first occurrence in `cs`. */
  ghost predicate FirstOccurrenceOrder(order: seq<Chem>, cs: seq<Chem>)
  {
    && NoDup(order)
    && (forall k :: k in order <==> k in cs)
    && (forall i, j :: 0 <= i < j < |order| ==> FirstIndex(cs, order[i]) < FirstIndex(cs, order[j]))
  }

  /** One pour extends the first-occurrence order by the poured chemical. */
  lemma PourIntoOrder(v: VesselState, cs: seq<Chem>, chem: Chem, amount: int)
    requires forall k :: k in v.components <==> k in v.order
    requires FirstOccurrenceOrder(v.order, cs)
    ensures FirstOccurrenceOrder(PourInto(v, chem, amount).order, cs + [chem])
  {
    var cs' := cs + [chem];
    forall k | k in v.order
      ensures FirstIndex(cs', k) == FirstIndex(cs, k)
    {
      FirstIndexSnoc(cs, chem, k);
    }
    if chem in v.components {
      assert PourInto(v, chem, amount).order == v.order;
    } else {
      AppendFirstOccurrence(v.order, cs, chem);
    }
  }

  lemma AppendFirstOccurrence(order: seq<Chem>, cs: seq<Chem>, chem: Chem)
    requires FirstOccurrenceOrder(order, cs) && chem !in cs
    ensures FirstOccurrenceOrder(order + [chem], cs + [chem])
  {
    var after, cs' := order + [chem], cs + [chem];
    FirstIndexSnoc(cs, chem, chem);
    forall i | 0 <= i < |order|
      ensures FirstIndex(cs', after[i]) == FirstIndex(cs, order[i]) < |cs|
    {
      assert after[i] == order[i];
      FirstIndexSnoc(cs, chem, order[i]);
    }
  }

  /** A vessel's invariant survives any history. */
  lemma {:induction false} ReplayKeepsValid(vs: Vessels, events: seq<PourEvent>, id: VesselId)
    requires Valid(StateOf(vs, id))
    ensures Valid(StateOf(Replay(vs, events), id))
  {
    if |events| > 0 {
      var e := events[|events| - 1];
      ReplayKeepsValid(vs, events[..|events| - 1], id);
      PourIntoPreservesValid(StateOf(Replay(vs, events[..|events| - 1]), id), e.chem, e.amount);
    }
  }

  /** Starting from a vessel with no state, the summary's key order lists each
      chemical poured into it exactly once, ordered by its first pour. */
  lemma {:induction false} ReplayOrder(vs: Vessels, events: seq<PourEvent>, id: VesselId)
    requires id !in vs
    ensures FirstOccurrenceOrder(StateOf(Replay(vs, events), id).order, ChemsInto(events, id))
  {
    if |events| > 0 {
      var prefix := events[..|events| - 1];
      var e := events[|events| - 1];
      var before := StateOf(Replay(vs, prefix), id);
      ReplayOrder(vs, prefix, id);
      FreshIsValid();
      ReplayKeepsValid(vs, prefix, id);
      assert forall k :: k in before.components <==> k in before.order;
      if e.vessel == id {
        assert StateOf(Replay(vs, events), id) == PourInto(before, e.chem, e.amount);
        assert ChemsInto(events, id) == ChemsInto(prefix, id) + [e.chem];
        PourIntoOrder(before, ChemsInto(prefix, id), e.chem, e.amount);
      } else {
        assert StateOf(Replay(vs, events), id) == before;
        assert ChemsInto(events, id) == ChemsInto(prefix, id);
      }
    }
  }

  /** A later pour of a chemical already present never moves it. */
  lemma RepeatPourKeepsOrder(vs: Vessels, id: VesselId, chem: Chem, amount: int)
    requires chem in StateOf(vs, id).components
    ensures StateOf(Pour(vs, id, chem, amount), id).order == StateOf(vs, id).order
  {
  }

  // ---------------------------------------------------------------- pour order

  lemma {:induction false} PouredOfConcat(a: seq<PourEvent>, b: seq<PourEvent>, id: VesselId, k: Chem)
    ensures PouredOf(a + b, id, k) == PouredOf(a, id, k) + PouredOf(b, id, k)
  {
    if |b| == 0 {
      assert a + b == a;
    } else {
      assert (a + b)[..|a + b| - 1] == a + b[..|b| - 1];
      PouredOfConcat(a, b[..|b| - 1], id, k);
    }
  }

  /** The last event of `a` occurs in any rearrangement `b` of it; removing
      one occurrence from each leaves rearrangements of each other. */
  lemma MatchLast(a: seq<PourEvent>, b: seq<PourEvent>) returns (i: nat)
    requires multiset(a) == multiset(b) && |a| > 0
    ensures i < |b| && b[i] == a[|a| - 1]
    ensures a == a[..|a| - 1] + [b[i]]
    ensures multiset(a[..|a| - 1]) == multiset(b[..i] + b[i + 1..])
  {
    var x := a[|a| - 1];
    assert a == a[..|a| - 1] + [x];
    assert x in multiset(b);
    i :| 0 <= i < |b| && b[i] == x;
    assert b == b[..i] + [x] + b[i + 1..];
    assert multiset(b[..i] + b[i + 1..]) == multiset(b) - multiset{x};
    assert multiset(a[..|a| - 1]) == multiset(a) - multiset{x};
  }

  lemma PouredOfSplit(b: seq<PourEvent>, i: nat, id: VesselId, k: Chem)
    requires i < |b|
    ensures PouredOf(b, id, k) == PouredOf(b[..i] + b[i + 1..], id, k) + Contribution(b[i], id, k)
  {
    assert b == b[..i] + [b[i]] + b[i + 1..];
    PouredOfConcat(b[..i] + [b[i]], b[i + 1..], id, k);
    PouredOfConcat(b[..i], [b[i]], id, k);
    PouredOfConcat(b[..i], b[i + 1..], id, k);
    assert [b[i]][..0] == [];
  }

  lemma PouredSplit(b: seq<PourEvent>, i: nat, id: VesselId)
    requires i < |b|
    ensures Poured(b, id) == Poured(b[..i] + b[i + 1..], id) + (if b[i].vessel == id then b[i].amount else 0)
  {
    assert b == b[..i] + [b[i]] + b[i + 1..];
    PouredConcat(b[..i] + [b[i]], b[i + 1..], id);
    PouredConcat(b[..i], [b[i]], id);
    PouredConcat(b[..i], b[i + 1..], id);
    assert [b[i]][..0] == [];
  }

  /** The per-chemical total does not depend on the order of the events. */
  lemma {:induction false} PouredOfPermutation(a: seq<PourEvent>, b: seq<PourEvent>, id: VesselId, k: Chem)
    requires multiset(a) == multiset(b)
    ensures PouredOf(a, id, k) == PouredOf(b, id, k)
    decreases |a|
  {
    if |a| == 0 {
      assert |b| == |multiset(b)| == 0;
    } else {
      var i := MatchLast(a, b);
      var x := b[i];
      PouredOfPermutation(a[..|a| - 1], b[..i] + b[i + 1..], id, k);
      PouredOfConcat(a[..|a| - 1], [x], id, k);
      PouredOfSplit(b, i, id, k);
    }
  }

  /** A chemical is among those poured into `id` iff some event pours it there. */
  lemma {:induction false} ChemsIntoMembers(events: seq<PourEvent>, id: VesselId, k: Chem)
    ensures k in ChemsInto(events, id) <==> exists e :: e in events && e.vessel == id && e.chem == k
  {
    if |events| > 0 {
      var prefix, last := events[..|events| - 1], events[|events| - 1];
      ChemsIntoMembers(prefix, id, k);
      assert events == prefix + [last];
      assert forall e :: e in events <==> e in prefix || e == last;
    }
  }

  /** Two histories holding the same pours in any order leave every vessel with
      the same composition. */
  lemma PourOrderComponents(vs: Vessels, a: seq<PourEvent>, b: seq<PourEvent>, id: VesselId)
    requires multiset(a) == multiset(b)
    ensures StateOf(Replay(vs, a), id).components == StateOf(Replay(vs, b), id).components
  {
    var ca, cb := StateOf(Replay(vs, a), id).components, StateOf(Replay(vs, b), id).components;
    assert forall e :: e in a <==> e in b by {
      forall e ensures e in a <==> e in b {
        assert e in a <==> e in multiset(a);
        assert e in b <==> e in multiset(b);
      }
    }
    forall k
      ensures k in ca <==> k in cb
      ensures k in ca ==> ca[k] == cb[k]
    {
      ReplayKeys(vs, a, id, k);
      ReplayKeys(vs, b, id, k);
      ChemsIntoMembers(a, id, k);
      ChemsIntoMembers(b, id, k);
      ReplayAmount(vs, a, id, k);
      ReplayAmount(vs, b, id, k);
      PouredOfPermutation(a, b, id, k);
    }
  }

  /** Hence the readout after either history is the same: volume, pH and colour. */
  lemma PourOrderIrrelevant(vs: Vessels, a: seq<PourEvent>, b: seq<PourEvent>, id: VesselId)
    requires multiset(a) == multiset(b)
    ensures Summarize(StateOf(Replay(vs, a), id)).volume == Summarize(StateOf(Replay(vs, b), id)).volume
    ensures Summarize(StateOf(Replay(vs, a), id)).pH == Summarize(StateOf(Replay(vs, b), id)).pH
    ensures ColorOf(StateOf(Replay(vs, a), id).components) == ColorOf(StateOf(Replay(vs, b), id).components)
  {
    PourOrderComponents(vs, a, b, id);
    PourOrderVolume(vs, a, b, id);
  }

  lemma {:induction false} PouredPermutation(a: seq<PourEvent>, b: seq<PourEvent>, id: VesselId)
    requires multiset(a) == multiset(b)
    ensures Poured(a, id) == Poured(b, id)
    decreases |a|
  {
    if |a| == 0 {
      assert |b| == |multiset(b)| == 0;
    } else {
      var i := MatchLast(a, b);
      var x := b[i];
      PouredPermutation(a[..|a| - 1], b[..i] + b[i + 1..], id);
      PouredConcat(a[..|a| - 1], [x], id);
      PouredSplit(b, i, id);
    }
  }

  lemma {:induction false} PouredConcat(a: seq<PourEvent>, b: seq<PourEvent>, id: VesselId)
    ensures Poured(a + b, id) == Poured(a, id) + Poured(b, id)
  {
    if |b| == 0 {
      assert a + b == a;
    } else {
      assert (a + b)[..|a + b| - 1] == a + b[..|b| - 1];
      PouredConcat(a, b[..|b| - 1], id);
    }
  }

  lemma PourOrderVolume(vs: Vessels, a: seq<PourEvent>, b: seq<PourEvent>, id: VesselId)
    requires multiset(a) == multiset(b)
    ensures StateOf(Replay(vs, a), id).volume == StateOf(Replay(vs, b), id).volume
  {
    ReplayVolume(vs, a, id);
    ReplayVolume(vs, b, id);
    PouredPermutation(a, b, id);
  }
}
