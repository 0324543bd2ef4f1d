/**
 The beaker mixing engine (app.js:54-80): a registry from vessel id to vessel
 state, a pour that accumulates volume and composition, and the readout the
 engine derives after every pour. The module-level registry of the source is
 an explicit map here, passed in and returned.
 */
module Beakers {
  import opened Composition
  import opened Readout

  type VesselId = string

  /** A vessel's state. `components` together with `order` stands for one
      JavaScript object: `order` is the insertion order of its keys, which is
      the order `Object.keys` reports them in. */
  datatype VesselState = VesselState(volume: int, components: Components, order: seq<Chem>)

  /** The state a vessel is given on its first pour. */
  const Fresh: VesselState := VesselState(0, map[], [])

  /** The invariant every reachable vessel keeps: each key listed exactly once,
      and the volume is the sum of all component amounts. */
  ghost predicate Valid(v: VesselState)
  {
    && NoDup(v.order)
    && (forall k :: k in v.components <==> k in v.order)
    && v.volume == SumOver(v.order, v.components)
  }

  /** One pour into one vessel: volume and the poured chemical both rise by
      `amount`; a chemical seen before keeps its place in the key order, a new
      one is appended after all others. */
  function PourInto(v: VesselState, chem: Chem, amount: int): (r: VesselState)
    ensures r.volume == v.volume + amount
    ensures r.components.Keys == v.components.Keys + {chem}
    ensures Amount(r.components, chem) == Amount(v.components, chem) + amount
    ensures forall k :: k != chem ==> Amount(r.components, k) == Amount(v.components, k)
    ensures chem in v.components ==> r.order == v.order
    ensures chem !in v.components ==> r.order == v.order + [chem]
  {
    VesselState(v.volume + amount, Add(v.components, chem, amount),
                if chem in v.components then v.order else v.order + [chem])
  }

  lemma FreshIsValid()
    ensures Valid(Fresh)
  {
  }

  /** A pour keeps the vessel invariant: conservation of volume holds after it. */
  lemma PourIntoPreservesValid(v: VesselState, chem: Chem, amount: int)
    requires Valid(v)
    ensures Valid(PourInto(v, chem, amount))
  {
    var r := PourInto(v, chem, amount);
    if chem in v.components {
      SumOverAdd(v.order, v.components, chem, amount);
    } else {
      assert chem !in v.order;
      SumOverAdd(v.order, v.components, chem, amount);
      SumOverSnoc(v.order, chem, r.components);
      assert NoDup(r.order) by {
        forall i, j | 0 <= i < j < |r.order|
          ensures r.order[i] != r.order[j]
        {
          if j == |v.order| {
            assert r.order[i] == v.order[i];
          }
        }
      }
    }
  }

  type Vessels = map<VesselId, VesselState>

  /** The state of a vessel, with a vessel never poured into reading as Fresh. */
  function StateOf(vs: Vessels, id: VesselId): VesselState
  {
    if id in vs then vs[id] else Fresh
  }

  /** Every vessel in the registry keeps the invariant. */
  ghost predicate AllValid(vs: Vessels)
  {
    forall id :: id in vs ==> Valid(vs[id])
  }

  /** A pour into vessel `id`: the vessel is created on its first pour, and no
      other vessel is touched. */
  function Pour(vs: Vessels, id: VesselId, chem: Chem, amount: int): (r: Vessels)
    ensures r.Keys == vs.Keys + {id}
    ensures r[id] == PourInto(StateOf(vs, id), chem, amount)
    ensures id !in vs ==> r[id] == VesselState(amount, map[chem := amount], [chem])
    ensures forall other :: other != id ==> StateOf(r, other) == StateOf(vs, other)
  {
    vs[id := PourInto(StateOf(vs, id), chem, amount)]
  }

  lemma PourPreservesAllValid(vs: Vessels, id: VesselId, chem: Chem, amount: int)
    requires AllValid(vs)
    ensures AllValid(Pour(vs, id, chem, amount))
  {
    FreshIsValid();
    PourIntoPreservesValid(StateOf(vs, id), chem, amount);
  }

  /** The monitor readout, as a structured record: volume, pH and the
      `key:amount` pairs in key order. */
  datatype Summary = Summary(volume: int, pH: real, components: seq<(Chem, int)>)

  function Pairs(order: seq<Chem>, c: Components): (r: seq<(Chem, int)>)
    ensures |r| == |order|
    ensures forall i :: 0 <= i < |r| ==> r[i] == (order[i], Amount(c, order[i]))
  {
    if |order| == 0 then [] else Pairs(order[..|order| - 1], c) + [(order[|order| - 1], Amount(c, order[|order| - 1]))]
  }

  /** The summary of a vessel: its volume, the pH of its composition, and one
      `key:amount` entry per key, in key insertion order. */
  function Summarize(v: VesselState): (s: Summary)
    ensures s.volume == v.volume
    ensures s.pH == PH(v.components)
    ensures 0.5 <= s.pH <= 13.5
    ensures s.pH == 7.0 <==> Amount(v.components, Acid) == Amount(v.components, Base)
    ensures |s.components| == |v.order|
    ensures forall i :: 0 <= i < |s.components| ==> s.components[i] == (v.order[i], Amount(v.components, v.order[i]))
  {
    Summary(v.volume, PH(v.components), Pairs(v.order, v.components))
  }

  function PairSum(ps: seq<(Chem, int)>): int
  {
    if |ps| == 0 then 0 else PairSum(ps[..|ps| - 1]) + ps[|ps| - 1].1
  }

  lemma {:induction false} PairSumIsSumOver(order: seq<Chem>, c: Components)
    ensures PairSum(Pairs(order, c)) == SumOver(order, c)
  {
    if |order| > 0 {
      var init := order[..|order| - 1];
      PairSumIsSumOver(init, c);
      var ps := Pairs(order, c);
      assert ps[..|ps| - 1] == Pairs(init, c);
    }
  }

  /** The chemical identifiers of a summary's listing, in order. The ensures
      clauses only expose the comprehension to callers; they are not a property. */
  function Names(ps: seq<(Chem, int)>): (r: seq<Chem>)
    ensures |r| == |ps|
    ensures forall i :: 0 <= i < |ps| ==> r[i] == ps[i].0
  {
    seq(|ps|, i requires 0 <= i < |ps| => ps[i].0)
  }

  /** For a valid vessel the readout lists every component exactly once, with
      its amount. */
  lemma SummaryListsEachKeyOnce(v: VesselState)
    requires Valid(v)
    ensures forall k :: k in v.components <==> k in Names(Summarize(v).components)
    ensures NoDup(Names(Summarize(v).components))
    ensures forall p :: p in Summarize(v).components ==> p.0 in v.components && p.1 == v.components[p.0]
  {
  }

  /** For a valid vessel the listed amounts add up to the reported volume. */
  lemma SummaryAddsUp(v: VesselState)
    requires Valid(v)
    ensures PairSum(Summarize(v).components) == Summarize(v).volume
  {
    PairSumIsSumOver(v.order, v.components);
  }

  /** What `updateBeakerChemistry` produces: the new registry, the colour given
      to the vessel's liquid, and the monitor summary. */
  datatype Update = Update(vessels: Vessels, color: Color, summary: Summary)

  lemma PouredSummaryIsFaithful(v: VesselState, chem: Chem, amount: int)
    ensures Valid(v) ==> chem in Names(Summarize(PourInto(v, chem, amount)).components)
    ensures Valid(v) ==> PairSum(Summarize(PourInto(v, chem, amount)).components) == v.volume + amount
  {
    if Valid(v) {
      PourIntoPreservesValid(v, chem, amount);
      SummaryListsEachKeyOnce(PourInto(v, chem, amount));
      SummaryAddsUp(PourInto(v, chem, amount));
    }
  }

  /** The whole engine step for one pour: the registry after the pour, the
      colour of the poured-into vessel, and its summary, which lists that
      vessel's keys in insertion order with their amounts. When the vessel was
      valid, the summary lists the poured chemical and its listed amounts add
      up to the reported volume. */
  function UpdateBeakerChemistry(vs: Vessels, id: VesselId, chem: Chem, amount: int): (u: Update)
    ensures u.vessels == Pour(vs, id, chem, amount)
    ensures u.color == ColorOf(u.vessels[id].components)
    ensures u.summary == Summarize(u.vessels[id])
    ensures |u.summary.components| == |u.vessels[id].order|
    ensures forall i :: 0 <= i < |u.summary.components| ==>
              u.summary.components[i] == (u.vessels[id].order[i], Amount(u.vessels[id].components, u.vessels[id].order[i]))
    ensures u.summary.volume == StateOf(vs, id).volume + amount
    ensures 0.5 <= u.summary.pH <= 13.5
    ensures u.summary.pH == PH(u.vessels[id].components)
    ensures Valid(StateOf(vs, id)) ==> chem in Names(u.summary.components)
    ensures Valid(StateOf(vs, id)) ==> PairSum(u.summary.components) == u.summary.volume
  {
    var before := StateOf(vs, id);
    var state := PourInto(before, chem, amount);
    PouredSummaryIsFaithful(before, chem, amount);
    Update(vs[id := state], ColorOf(state.components), Summarize(state))
  }
}
