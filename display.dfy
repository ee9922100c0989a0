/**
 * The Reporter's row selection: the three-tier colour scale and the rows of
 * the opportunities table (`get_score_color`, `display_opportunities`).
 * Rows are kept as records of their text parts; table layout is not modelled.
 */
module Display {
  import opened Analyzer
  import opened Sequences

  /** The three display tiers, named by their markup colour. */
  datatype ScoreColor = Green | Yellow | Red {
    function Name(): string {
      match this
      case Green => "green"
      case Yellow => "yellow"
      case Red => "red"
    }

    /** Position on the scale, worst first. */
    function Rank(): nat {
      match this
      case Red => 0
      case Yellow => 1
      case Green => 2
    }
  }

  /** `get_score_color` on a 0..100 score; each lower bound is inclusive. */
  function GetScoreColor(score: real): (c: ScoreColor)
    ensures c == Green <==> score >= 90.0
    ensures c == Yellow <==> 50.0 <= score < 90.0
    ensures c == Red <==> score < 50.0
  {
    if score >= 90.0 then Green
    else if score >= 50.0 then Yellow
    else Red
  }

  /** A higher score never gets a worse tier. */
  lemma GetScoreColorMonotone(s: real, t: real)
    requires s <= t
    ensures GetScoreColor(s).Rank() <= GetScoreColor(t).Rank()
  {
  }

  const SavingsPrefix: string := " \U{2022} Potential savings: "

  /** The savings suffix of a row: present exactly when the display value is
      non-empty, and then it ends with that value. */
  function Savings(displayValue: string): (s: string)
    ensures s == "" <==> displayValue == ""
    ensures s != "" ==> |SavingsPrefix| <= |s| && s[..|SavingsPrefix|] == SavingsPrefix && s[|SavingsPrefix|..] == displayValue
  {
    if displayValue != "" then SavingsPrefix + displayValue else ""
  }

  /** One table row: a bullet in the tier colour, the title, the optional
      savings suffix, and the description on the next line. */
  datatype OpportunityRow = OpportunityRow(color: ScoreColor, title: string, savings: string, description: string) {
    function Text(): string {
      "[" + color.Name() + "]\U{25CF} " + title + "[/" + color.Name() + "]" + savings + "\n  " + description
    }
  }

  function RowOf(opportunity: Opportunity): OpportunityRow {
    OpportunityRow(
      GetScoreColor(opportunity.score * 100.0),
      opportunity.title,
      Savings(opportunity.displayValue),
      opportunity.description)
  }

  /** The text of an opportunity's row: the title in the tier colour first,
      the description last on its own indented line, and savings text in
      between exactly when the display value is non-empty. */
  lemma RowOfText(opportunity: Opportunity)
    ensures var name := GetScoreColor(opportunity.score * 100.0).Name();
            var lead := "[" + name + "]\U{25CF} " + opportunity.title + "[/" + name + "]";
            var last := "\n  " + opportunity.description;
            var text := RowOf(opportunity).Text();
            && |lead| + |last| <= |text|
            && text[..|lead|] == lead
            && text[|text| - |last|..] == last
            && (opportunity.displayValue == "" <==> text == lead + last)
  {
    var name := GetScoreColor(opportunity.score * 100.0).Name();
    var lead := "[" + name + "]\U{25CF} " + opportunity.title + "[/" + name + "]";
    var last := "\n  " + opportunity.description;
    var savings := Savings(opportunity.displayValue);
    var text := RowOf(opportunity).Text();
    assert text == lead + savings + last;
    assert text[..|lead|] == lead;
    assert text[|text| - |last|..] == last;
    if text == lead + last {
      assert |savings| == 0;
    }
  }

  /** An opportunity is worth showing when it does not already score full marks. */
  predicate IsActionable(opportunity: Opportunity) {
    opportunity.score < 1.0
  }

  /** The opportunities worth showing, in order. */
  function Actionable(opportunities: seq<Opportunity>): seq<Opportunity> {
    Filter(IsActionable, opportunities)
  }

  /** An opportunity is shown iff it is in the input with a score below 1. */
  lemma ActionableMembers(opportunities: seq<Opportunity>)
    ensures forall o :: o in Actionable(opportunities) <==> o in opportunities && o.score < 1.0
    ensures |Actionable(opportunities)| <= |opportunities|
  {
    FilterMembers(IsActionable, opportunities);
  }

  /** The table `display_opportunities` builds: one row per actionable
      opportunity, in order. */
  function ShownRows(opportunities: seq<Opportunity>): seq<OpportunityRow> {
    var shown := Actionable(opportunities);
    seq(|shown|, j requires 0 <= j < |shown| => RowOf(shown[j]))
  }

  /** Every row shown comes from an opportunity of the input scoring below 1,
      and carries that opportunity's tier, title, savings and description. */
  lemma ShownRowsAreActionable(opportunities: seq<Opportunity>)
    ensures forall row :: row in ShownRows(opportunities) ==>
              exists o :: o in opportunities && o.score < 1.0 && row == RowOf(o)
  {
    ActionableMembers(opportunities);
    var shown := Actionable(opportunities);
    forall row | row in ShownRows(opportunities)
      ensures exists o :: o in opportunities && o.score < 1.0 && row == RowOf(o)
    {
      var j :| 0 <= j < |shown| && ShownRows(opportunities)[j] == row;
      assert shown[j] in shown;
    }
  }

  /** `display_opportunities`: one row per actionable opportunity, in order. */
  method DisplayOpportunities(opportunities: seq<Opportunity>) returns (rows: seq<OpportunityRow>)
    ensures |rows| == |Actionable(opportunities)|
    ensures forall j :: 0 <= j < |rows| ==> rows[j] == RowOf(Actionable(opportunities)[j])
    ensures rows == ShownRows(opportunities)
  {
    rows := [];
    for i := 0 to |opportunities|
      invariant |rows| == |Actionable(opportunities[..i])|
      invariant forall j :: 0 <= j < |rows| ==> rows[j] == RowOf(Actionable(opportunities[..i])[j])
    {
      var opportunity := opportunities[i];
      FilterAppend(IsActionable, opportunities[..i], [opportunity]);
      FilterSingleton(IsActionable, opportunity);
      assert opportunities[..i + 1] == opportunities[..i] + [opportunity];
      if opportunity.score < 1.0 {
        rows := rows + [RowOf(opportunity)];
      }
    }
    assert opportunities[..|opportunities|] == opportunities;
  }
}
