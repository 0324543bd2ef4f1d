/**
 The derived readout of a composition: the linear, clamped pH heuristic over
 the strong acid and strong base amounts, and the display colour chosen by
 three overriding rules evaluated in a fixed order (app.js:62-72).
 */
module Readout {
  import opened Composition

  /** The identifiers the derivation rules look at; every other one is inert. */
  const Acid: Chem := "hcl"
  const Base: Chem := "naoh"
  const Indicator: Chem := "phenolph"
  const Precipitant: Chem := "silver"
  const Salt: Chem := "salt"

  function Max(a: real, b: real): real
  {
    if a >= b then a else b
  }

  function Min(a: real, b: real): real
  {
    if a <= b then a else b
  }

  // ---------------------------------------------------------------- pH

  /** pH estimate from the acid and base amounts: 7 at balance, moving 1/5 of
      a unit per unit of imbalance, clamped to [0.5, 13.5]. */
  function PHOf(acid: int, base: int): (r: real)
    ensures 0.5 <= r <= 13.5
    ensures r == 7.0 <==> acid == base
    ensures r < 7.0 <==> acid > base
    ensures r > 7.0 <==> base > acid
  {
    if acid > base then Max(0.5, 7.0 - (acid - base) as real / 5.0)
    else if base > acid then Min(13.5, 7.0 + (base - acid) as real / 5.0)
    else 7.0
  }

  /** The pH of a composition depends on nothing but its acid and base amounts. */
  function PH(c: Components): real
  {
    PHOf(Amount(c, Acid), Amount(c, Base))
  }

  /** With more acid than base the estimate follows the line 7 - d/5 until d
      reaches 32.5 (for whole amounts: 33), and is 0.5 from there on. */
  lemma PHAcidSide(acid: int, base: int)
    requires acid > base
    ensures acid - base <= 32 ==> PHOf(acid, base) == 7.0 - (acid - base) as real / 5.0
    ensures acid - base >= 33 ==> PHOf(acid, base) == 0.5
    ensures acid - base <= 32 ==> PHOf(acid, base) > 0.5
  {
  }

  /** The mirror image on the base side: 7 + d/5, clamped at 13.5. */
  lemma PHBaseSide(acid: int, base: int)
    requires base > acid
    ensures base - acid <= 32 ==> PHOf(acid, base) == 7.0 + (base - acid) as real / 5.0
    ensures base - acid >= 33 ==> PHOf(acid, base) == 13.5
    ensures base - acid <= 32 ==> PHOf(acid, base) < 13.5
  {
  }

  /** Exchanging acid and base reflects the estimate about 7. */
  lemma PHSymmetric(acid: int, base: int)
    ensures PHOf(acid, base) + PHOf(base, acid) == 14.0
  {
  }

  /** Only the imbalance matters: equal extra amounts of both neutralize. */
  lemma PHShift(acid: int, base: int, t: int)
    ensures PHOf(acid + t, base + t) == PHOf(acid, base)
  {
  }

  /** More acid never raises the estimate; more base never lowers it. */
  lemma PHMonotone(acid: int, base: int, acid': int, base': int)
    requires acid <= acid' && base' <= base
    ensures PHOf(acid', base') <= PHOf(acid, base)
  {
  }

  /** Worked values: an imbalance of 25 gives 2, one of 1000 clamps. */
  lemma PHExamples()
    ensures PHOf(25, 0) == 2.0
    ensures PHOf(1010, 10) == 0.5
    ensures PHOf(0, 1000) == 13.5
    ensures PHOf(0, 0) == 7.0
  {
  }

  // ---------------------------------------------------------------- colour

  /** The display colours the engine can choose. */
  datatype Color = CoolBlue | Pink | Gray | PaleGreen

  /** The colour token written to the liquid's `color` attribute. */
  function Hex(color: Color): string
  {
    match color
    case CoolBlue => "#7fc8ff"
    case Pink => "#ff88c3"
    case Gray => "#d9d9d9"
    case PaleGreen => "#bfffbf"
  }

  /** The three rules that may replace the default colour. */
  datatype Rule = IndicatorInBase | Precipitate | Neutralized

  /** The rules in the order the engine evaluates them. */
  const Rules: seq<Rule> := [IndicatorInBase, Precipitate, Neutralized]

  const Default: Color := CoolBlue

  /** Whether a rule's condition holds of a composition. */
  predicate Matches(rule: Rule, c: Components)
  {
    match rule
    case IndicatorInBase => Present(c, Indicator) && Amount(c, Base) > Amount(c, Acid)
    case Precipitate => Present(c, Precipitant) && Amount(c, Salt) > 0
    case Neutralized => Present(c, Acid) && Present(c, Base)
  }

  function Paint(rule: Rule): Color
  {
    match rule
    case IndicatorInBase => Pink
    case Precipitate => Gray
    case Neutralized => PaleGreen
  }

  /** Evaluates every rule front to back; a matching rule overwrites the colour
      chosen so far, as the sequence of `if (...) color = ...` statements does. */
  function Overwrite(rules: seq<Rule>, color: Color, c: Components): Color
  {
    if |rules| == 0 then color
    else Overwrite(rules[1..], if Matches(rules[0], c) then Paint(rules[0]) else color, c)
  }

  /** Reference definition: the colour of the last matching rule, or the given
      colour when none matches. */
  function LastMatch(rules: seq<Rule>, color: Color, c: Components): Color
  {
    if |rules| == 0 then color
    else if Matches(rules[|rules| - 1], c) then Paint(rules[|rules| - 1])
    else LastMatch(rules[..|rules| - 1], color, c)
  }

  lemma {:induction false} LastMatchAppend(p: seq<Rule>, s: seq<Rule>, color: Color, c: Components)
    ensures LastMatch(s, LastMatch(p, color, c), c) == LastMatch(p + s, color, c)
  {
    if |s| > 0 {
      var init := s[..|s| - 1];
      assert (p + s)[..|p + s| - 1] == p + init;
      LastMatchAppend(p, init, color, c);
    } else {
      assert p + s == p;
    }
  }

  /** Evaluating all rules with overwriting is "the last matching rule wins". */
  lemma {:induction false} OverwriteIsLastMatch(rules: seq<Rule>, color: Color, c: Components)
    ensures Overwrite(rules, color, c) == LastMatch(rules, color, c)
  {
    if |rules| > 0 {
      var first := LastMatch([rules[0]], color, c);
      assert first == (if Matches(rules[0], c) then Paint(rules[0]) else color) by {
        assert [rules[0]][..0] == [];
        assert LastMatch([], color, c) == color;
      }
      OverwriteIsLastMatch(rules[1..], first, c);
      LastMatchAppend([rules[0]], rules[1..], color, c);
      assert [rules[0]] + rules[1..] == rules;
    }
  }

  /** The colour of a composition, stated as a priority list: neutralization
      beats precipitate, which beats the indicator, which beats the default. */
  function ColorOf(c: Components): (r: Color)
    ensures r == PaleGreen <==> Present(c, Acid) && Present(c, Base)
    ensures r == Gray <==>
      !(Present(c, Acid) && Present(c, Base))
      && Present(c, Precipitant) && Amount(c, Salt) > 0
    ensures r == Pink <==>
      !(Present(c, Acid) && Present(c, Base))
      && !(Present(c, Precipitant) && Amount(c, Salt) > 0)
      && Present(c, Indicator) && Amount(c, Base) > Amount(c, Acid)
    ensures r == CoolBlue <==>
      !(Present(c, Acid) && Present(c, Base))
      && !(Present(c, Precipitant) && Amount(c, Salt) > 0)
      && !(Present(c, Indicator) && Amount(c, Base) > Amount(c, Acid))
  {
    var afterIndicator := if Matches(IndicatorInBase, c) then Pink else Default;
    var afterPrecipitate := if Matches(Precipitate, c) then Gray else afterIndicator;
    var afterNeutralized := if Matches(Neutralized, c) then PaleGreen else afterPrecipitate;
    assert Overwrite(Rules, Default, c) == Overwrite([Precipitate, Neutralized], afterIndicator, c) by {
      assert Rules[1..] == [Precipitate, Neutralized];
    }
    assert Overwrite([Precipitate, Neutralized], afterIndicator, c) == Overwrite([Neutralized], afterPrecipitate, c) by {
      assert [Precipitate, Neutralized][1..] == [Neutralized];
    }
    assert Overwrite([Neutralized], afterPrecipitate, c) == afterNeutralized by {
      assert [Neutralized][1..] == [];
    }
    Overwrite(Rules, Default, c)
  }

  /** The engine's own rule list obeys "the last matching rule wins". */
  lemma ColorIsLastMatch(c: Components)
    ensures ColorOf(c) == LastMatch(Rules, Default, c)
  {
    OverwriteIsLastMatch(Rules, Default, c);
  }

  /** Distinct colours are written as distinct tokens. */
  lemma HexDistinct(a: Color, b: Color)
    ensures Hex(a) == Hex(b) ==> a == b
  {
  }

  /** Pink needs more base than acid and excludes green; so, with no negative
      acid amount, a pink mixture holds base and no acid. */
  lemma PinkMeansNoAcid(c: Components)
    requires ColorOf(c) == Pink && Amount(c, Acid) >= 0
    ensures Amount(c, Acid) == 0 && Amount(c, Base) > 0
  {
  }
}
