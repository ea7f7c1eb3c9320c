/**
 * The environment banner: nothing for a missing or empty label, otherwise the
 * label itself on a colour chosen by what the lowercased label contains.
 */
module EnvironmentBanner {
  import opened Wrappers
  import opened Text

  const Red := "#e74c3c"
  const Orange := "#f39c12"
  const Blue := "#3498db"

  /** What the banner renders. */
  datatype Banner = Banner(text: string, backgroundColor: string)

  /** `getBackgroundColor`: "dev" wins over "qa", and anything else is blue. */
  function BackgroundColor(envLabel: string): string {
    var lower := Lower(envLabel);
    if Contains(lower, "dev") then Red
    else if Contains(lower, "qa") then Orange
    else Blue
  }

  /** The component: no banner for an absent or empty label (both falsy). */
  function Render(envLabel: Option<string>): Option<Banner> {
    if envLabel.None? || envLabel.value == "" then None
    else Some(Banner(envLabel.value, BackgroundColor(envLabel.value)))
  }

  /** A missing or empty label renders nothing; any other label renders a banner
      showing the label verbatim. */
  lemma RenderIff(envLabel: Option<string>)
    ensures Render(envLabel).None? <==> envLabel.None? || envLabel.value == ""
    ensures Render(envLabel).Some? ==> Render(envLabel).value.text == envLabel.value
  {
  }

  /** The colour classes, stated with `includes` on the lowercased label. */
  lemma BackgroundColorByContains(envLabel: string)
    ensures BackgroundColor(envLabel) == Red <==> Contains(Lower(envLabel), "dev")
    ensures BackgroundColor(envLabel) == Orange <==>
      !Contains(Lower(envLabel), "dev") && Contains(Lower(envLabel), "qa")
    ensures BackgroundColor(envLabel) == Blue <==>
      !Contains(Lower(envLabel), "dev") && !Contains(Lower(envLabel), "qa")
  {
    assert Red[1] != Orange[1] && Red[1] != Blue[1] && Orange[1] != Blue[1];
  }

  /** The colour classes, stated by where "dev" and "qa" occur in the lowercased label. */
  lemma BackgroundColorCases(envLabel: string)
    ensures BackgroundColor(envLabel) == Red <==> exists i :: OccursAt(Lower(envLabel), "dev", i)
    ensures BackgroundColor(envLabel) == Orange <==>
      (!exists i :: OccursAt(Lower(envLabel), "dev", i)) && exists i :: OccursAt(Lower(envLabel), "qa", i)
    ensures BackgroundColor(envLabel) == Blue <==>
      (!exists i :: OccursAt(Lower(envLabel), "dev", i)) && !exists i :: OccursAt(Lower(envLabel), "qa", i)
  {
    BackgroundColorByContains(envLabel);
    ContainsIff(Lower(envLabel), "dev");
    ContainsIff(Lower(envLabel), "qa");
  }

  /** A label containing both "dev" and "qa" is red. */
  lemma DevBeatsQa(envLabel: string, i: int, j: int)
    requires OccursAt(Lower(envLabel), "dev", i) && OccursAt(Lower(envLabel), "qa", j)
    ensures BackgroundColor(envLabel) == Red
  {
    BackgroundColorCases(envLabel);
  }

  /** The colour ignores case: a label and its lowercase form get the same colour. */
  lemma ColorIgnoresCase(envLabel: string)
    ensures BackgroundColor(Lower(envLabel)) == BackgroundColor(envLabel)
  {
    LowerIdempotent(envLabel);
  }

  /** Lowering works character by character, so it distributes over concatenation. */
  lemma {:induction false} LowerAppend(a: string, b: string)
    ensures Lower(a + b) == Lower(a) + Lower(b)
  {
    if a == [] {
      assert a + b == b;
    } else {
      assert (a + b)[0] == a[0] && (a + b)[1..] == a[1..] + b;
      LowerAppend(a[1..], b);
      assert Lower(a + b) == [LowerChar(a[0])] + (Lower(a[1..]) + Lower(b));
    }
  }

  /** A label that starts with "DEV", in any case, is red. */
  lemma DevPrefixIsRed(rest: string)
    ensures BackgroundColor("DEV" + rest) == Red
  {
    LowerAppend("DEV", rest);
    assert Lower("DEV") == "dev";
    assert OccursAt(Lower("DEV" + rest), "dev", 0);
    BackgroundColorCases("DEV" + rest);
  }

  /** A label with no letter d that starts with "QA" is orange. */
  lemma QaPrefixIsOrange(rest: string)
    requires forall i :: 0 <= i < |rest| ==> rest[i] != 'd' && rest[i] != 'D'
    ensures BackgroundColor("QA" + rest) == Orange
  {
    var lbl := "QA" + rest;
    LowerAppend("QA", rest);
    assert Lower("QA") == "qa";
    assert OccursAt(Lower(lbl), "qa", 0);
    LowerAt(lbl);
    var lower := Lower(lbl);
    forall i | 0 <= i <= |lower| - 3
      ensures !OccursAt(lower, "dev", i)
    {
      assert lbl[i] == if i < 2 then "QA"[i] else rest[i - 2];
      assert lower[i..i + 3][0] == lower[i] != 'd';
    }
    BackgroundColorCases(lbl);
  }

  /** The labels the banner's tests use. */
  lemma ColorExamples()
    ensures BackgroundColor("DEV ENVIRONMENT") == Red
    ensures BackgroundColor("QA TESTING") == Orange
    ensures Render(Some("")) == None
  {
    assert "DEV ENVIRONMENT" == "DEV" + " ENVIRONMENT";
    DevPrefixIsRed(" ENVIRONMENT");
    assert "QA TESTING" == "QA" + " TESTING";
    QaPrefixIsOrange(" TESTING");
  }
}
