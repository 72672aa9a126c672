/**
 * How a plan is shown in a reply: one block per section, in the plan's
 * iteration order, each titled by the humanised key, blocks separated by
 * a blank line.
 */
module PlanRender {
  import opened Text
  import opened AccountPlan

  /** `key.replace('_', ' ').title()`. */
  function Humanize(key: string): (title: string)
    ensures |title| == |key|
  {
    Title(ReplaceChar(key, '_', ' '))
  }

  /** No underscore survives humanising. */
  lemma HumanizeHasNoUnderscore(key: string)
    ensures '_' !in Humanize(key)
  {
    var t := ReplaceChar(key, '_', ' ');
    forall i | 0 <= i < |key| ensures Humanize(key)[i] != '_' {
      TitleAt(t, i);
    }
  }

  /** Humanising a title again gives the same title. */
  lemma HumanizeIdempotent(key: string)
    ensures Humanize(Humanize(key)) == Humanize(key)
  {
    var h := Humanize(key);
    HumanizeHasNoUnderscore(key);
    assert ReplaceChar(h, '_', ' ') == h;
    TitleIdempotent(ReplaceChar(key, '_', ' '));
  }

  /** Words of a snake_case key come out capitalised and space-separated. */
  lemma HumanizeNextSteps()
    ensures Humanize("next_steps") == "Next Steps"
  {
    assert ReplaceChar("next_steps", '_', ' ') == "next steps";
    TitleNextSteps();
  }

  lemma TitleNextSteps()
    ensures Title("next steps") == "Next Steps"
  {
    var a := "next steps";
    forall i | 0 <= i < |a| ensures Title(a)[i] == "Next Steps"[i] {
      TitleAt(a, i);
    }
  }

  /** `f"### {title}\n{text}"` for one section. */
  function Block(s: Section): string {
    "### " + Humanize(s.key) + "\n" + s.text
  }

  /** The `pretty` list: one block per section, in order. */
  function Blocks(p: seq<Section>): (bs: seq<string>)
    ensures |bs| == |p|
  {
    seq(|p|, i requires 0 <= i < |p| => Block(p[i]))
  }

  /** `"\n\n".join(pretty)`. */
  function RenderedPlan(p: seq<Section>): string {
    Join(Blocks(p), "\n\n")
  }

  /** The loop that builds `pretty` and joins it. */
  method RenderPlan(plan: Plan) returns (planText: string)
    ensures planText == RenderedPlan(plan)
  {
    var pretty: seq<string> := [];
    for i := 0 to |plan|
      invariant pretty == Blocks(plan[..i])
    {
      var section := plan[i];
      pretty := pretty + ["### " + Humanize(section.key) + "\n" + section.text];
    }
    assert plan[..|plan|] == plan;
    planText := Join(pretty, "\n\n");
  }

  /** The empty plan renders as the empty text. */
  lemma RenderedEmptyPlan()
    ensures RenderedPlan([]) == ""
  {
  }

  /**
   * A section added at the end of the plan (a new key put into the dict)
   * renders as one more block after a blank line.
   */
  lemma RenderedPlanAppend(p: seq<Section>, s: Section)
    requires p != []
    ensures RenderedPlan(p + [s]) == RenderedPlan(p) + "\n\n" + Block(s)
  {
    assert Blocks(p + [s]) == Blocks(p) + [Block(s)];
    JoinAppend(Blocks(p), Block(s), "\n\n");
  }

  /** A non-empty plan's text opens with the block of its first section. */
  lemma RenderedPlanStartsWithFirstBlock(p: seq<Section>)
    requires p != []
    ensures Block(p[0]) <= RenderedPlan(p)
  {
  }

  /**
   * Overwriting one section re-renders that section's block only: every
   * other block is the same, at the same position.
   */
  lemma PutKeepsOtherBlocks(p: Plan, key: string, text: string, i: nat)
    requires i < |p| && p[i].key != key
    ensures Blocks(Put(p, key, text))[i] == Blocks(p)[i]
  {
    PutKeepsOtherEntries(p, key, text, i);
  }
}
