/**
 Concrete pour histories worked through the engine, end to end.
 */
module Scenarios {
  import opened Composition
  import opened Readout
  import opened Beakers
  import opened History

  /** Ten units of acid then ten of base: volume 20, pH 7, pale green, and the
      monitor lists hcl before naoh. */
  lemma NeutralizationScenario()
    ensures var vs := Replay(map[], [PourEvent("B1", "hcl", 10), PourEvent("B1", "naoh", 10)]);
      && vs["B1"].volume == 20
      && vs["B1"].components == map["hcl" := 10, "naoh" := 10]
      && PH(vs["B1"].components) == 7.0
      && ColorOf(vs["B1"].components) == PaleGreen
      && Summarize(vs["B1"]).components == [("hcl", 10), ("naoh", 10)]
  {
    var e1, e2 := PourEvent("B1", "hcl", 10), PourEvent("B1", "naoh", 10);
    assert [e1, e2][..1] == [e1];
    assert [e1][..0] == [];
    var s1 := Pour(map[], "B1", "hcl", 10);
    assert s1["B1"] == VesselState(10, map["hcl" := 10], ["hcl"]);
    var s2 := Pour(s1, "B1", "naoh", 10);
    assert "naoh" != "hcl";
    assert s2["B1"].order == ["hcl", "naoh"];
    assert s2["B1"].components == map["hcl" := 10, "naoh" := 10];
    var order := s2["B1"].order;
    assert order[..1] == ["hcl"];
    assert order[..1][..0] == [];
  }

  /** Acid, more base, indicator, "agno3" and salt: the neutralization rule is
      evaluated last and wins, and "agno3" is not the precipitant the rule
      looks for, so the mixture is pale green and neither gray nor pink. */
  lemma EveryRuleEvaluatedScenario()
    ensures var vs := Pour(Pour(Pour(Pour(Pour(map[], "B", "hcl", 5), "B", "naoh", 10),
                                          "B", "phenolph", 1), "B", "agno3", 1), "B", "salt", 1);
      && ColorOf(vs["B"].components) == PaleGreen
      && Matches(IndicatorInBase, vs["B"].components)
      && !Matches(Precipitate, vs["B"].components)
      && PH(vs["B"].components) == 8.0
      && vs["B"].volume == 18
  {
    var c := Pour(Pour(Pour(Pour(Pour(map[], "B", "hcl", 5), "B", "naoh", 10),
                                "B", "phenolph", 1), "B", "agno3", 1), "B", "salt", 1)["B"].components;
    assert c == map["hcl" := 5, "naoh" := 10, "phenolph" := 1, "agno3" := 1, "salt" := 1];
    assert Amount(c, Precipitant) == 0;
  }

  /** Silver and salt with no acid or base: the precipitate shows gray. */
  lemma PrecipitateScenario()
    ensures ColorOf(Pour(Pour(map[], "B", "silver", 1), "B", "salt", 1)["B"].components) == Gray
  {
    var c := Pour(Pour(map[], "B", "silver", 1), "B", "salt", 1)["B"].components;
    assert c == map["silver" := 1, "salt" := 1];
    assert Amount(c, Acid) == 0;
  }

  /** Indicator then base: pink, at pH 7.4. */
  lemma IndicatorScenario()
    ensures var c := Pour(Pour(map[], "B", "phenolph", 1), "B", "naoh", 2)["B"].components;
      ColorOf(c) == Pink && PH(c) == 7.4
  {
    var c := Pour(Pour(map[], "B", "phenolph", 1), "B", "naoh", 2)["B"].components;
    assert c == map["phenolph" := 1, "naoh" := 2];
    assert Amount(c, Acid) == 0;
    assert Amount(c, Precipitant) == 0;
  }
}
