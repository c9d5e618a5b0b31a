/**
 * The body of `template_replacer` in agents/storage_agent.py: three
 * replace-all substitutions in a fixed order over the generic template, then
 * two checks that turn the result into an error text.
 *
 * The template fetched from the bucket is an input: its text, or the text
 * of the exception that fetching or decoding it raised.
 */
module Storage {
  import opened Wrappers
  import opened Strings

  // ---------------------------------------------------------------------
  // The substitutions (storage_agent.py:38-46)
  // ---------------------------------------------------------------------

  /** A placeholder and its replacement. */
  type Replacement = (string, string)

  predicate Placeholders(pairs: seq<Replacement>) {
    forall i :: 0 <= i < |pairs| ==> pairs[i].0 != ""
  }

  /** `str.replace` for each pair in order, each on the result of the one before. */
  function Substitute(text: string, pairs: seq<Replacement>): string
    requires Placeholders(pairs)
    decreases |pairs|
  {
    if pairs == [] then text
    else Substitute(ReplaceAll(text, pairs[0].0, pairs[0].1), pairs[1..])
  }

  const DescriptionPlaceholder := "Description about the first example"
  const HeadingPlaceholder := "First example"
  const ServicePlaceholder := "SERVICE_NAME"

  /** The dictionary of replacements, in its insertion order. */
  function Replacements(serviceName: string, description: string, heading: string): (r: seq<Replacement>)
    ensures Placeholders(r)
  {
    [(DescriptionPlaceholder, description), (HeadingPlaceholder, heading), (ServicePlaceholder, serviceName)]
  }

  /** The loop that reassigns the processed text once per replacement. */
  method ApplyReplacements(template: string, pairs: seq<Replacement>) returns (processed: string)
    requires Placeholders(pairs)
    ensures processed == Substitute(template, pairs)
  {
    processed := template;
    for i := 0 to |pairs|
      invariant Substitute(processed, pairs[i..]) == Substitute(template, pairs)
    {
      assert pairs[i..][1..] == pairs[i + 1..];
      processed := ReplaceAll(processed, pairs[i].0, pairs[i].1);
    }
    assert pairs[|pairs|..] == [];
  }

  /** Three pairs: three nested replacements, the first innermost. */
  lemma SubstituteThree(t: string, p: Replacement, q: Replacement, r: Replacement)
    requires p.0 != "" && q.0 != "" && r.0 != ""
    ensures Substitute(t, [p, q, r]) == ReplaceAll(ReplaceAll(ReplaceAll(t, p.0, p.1), q.0, q.1), r.0, r.1)
  {
    var t1 := ReplaceAll(t, p.0, p.1);
    var t2 := ReplaceAll(t1, q.0, q.1);
    assert [p, q, r][1..] == [q, r] && [q, r][1..] == [r] && [r][1..] == [];
    assert Substitute(t, [p, q, r]) == Substitute(t1, [q, r]);
    assert Substitute(t1, [q, r]) == Substitute(t2, [r]);
  }

  /** When the text is exactly the first placeholder, the later pairs act on its replacement. */
  lemma PlaceholderThenLater(p: Replacement, q: Replacement, r: Replacement)
    requires p.0 != "" && q.0 != "" && r.0 != ""
    ensures Substitute(p.0, [p, q, r]) == ReplaceAll(ReplaceAll(p.1, q.0, q.1), r.0, r.1)
  {
    SubstituteThree(p.0, p, q, r);
    ReplaceAllWhole(p.0, p.1);
  }

  /**
   * The substitutions are applied in order, each to the text the earlier
   * ones produced: the description placeholder becomes the description,
   * and then the heading and service placeholders inside the description
   * are replaced too.
   */
  lemma LaterSubstitutionsReachInsertedText(serviceName: string, description: string, heading: string)
    ensures Substitute(DescriptionPlaceholder, Replacements(serviceName, description, heading))
      == ReplaceAll(ReplaceAll(description, HeadingPlaceholder, heading), ServicePlaceholder, serviceName)
  {
    PlaceholderThenLater((DescriptionPlaceholder, description), (HeadingPlaceholder, heading), (ServicePlaceholder, serviceName));
  }

  /** A description that is the heading placeholder ends up as the heading. */
  lemma HeadingReplacesInsertedPlaceholder(serviceName: string, heading: string)
    requires !Contains(heading, ServicePlaceholder)
    ensures Substitute(DescriptionPlaceholder, Replacements(serviceName, HeadingPlaceholder, heading)) == heading
  {
    LaterSubstitutionsReachInsertedText(serviceName, HeadingPlaceholder, heading);
    ReplaceAllWhole(HeadingPlaceholder, heading);
  }

  /** A template with none of the placeholders comes out unchanged. */
  lemma NoPlaceholderUnchanged(template: string, serviceName: string, description: string, heading: string)
    requires !Contains(template, DescriptionPlaceholder) && !Contains(template, HeadingPlaceholder)
    requires !Contains(template, ServicePlaceholder)
    ensures Substitute(template, Replacements(serviceName, description, heading)) == template
  {
    SubstituteThree(template, (DescriptionPlaceholder, description), (HeadingPlaceholder, heading), (ServicePlaceholder, serviceName));
  }

  // ---------------------------------------------------------------------
  // The checks (storage_agent.py:48-59)
  // ---------------------------------------------------------------------

  const TffilePattern := "{{ tffile"
  const ResourcePattern := "resource \""
  const MissingTffile := "Error: Template processing failed - missing {{ tffile }} pattern"
  const BothEmbedded := "Error: Template contains both embedded Terraform code and {{ tffile }} - this is incorrect"

  /** `[i for i, line in enumerate(lines) if p in line]`, numbering from `start`. */
  function LinesWith(lines: seq<string>, p: string, start: nat): (r: seq<nat>)
    ensures forall k :: 0 <= k < |r| ==> start <= r[k] < start + |lines| && Contains(lines[r[k] - start], p)
  {
    if lines == [] then []
    else (if Contains(lines[0], p) then [start] else []) + LinesWith(lines[1..], p, start + 1)
  }

  lemma {:induction false} LinesWithNonEmpty(lines: seq<string>, p: string, start: nat)
    ensures LinesWith(lines, p, start) != [] <==> AnyLineContains(lines, p)
  {
    if lines != [] {
      LinesWithNonEmpty(lines[1..], p, start + 1);
    }
  }

  /** The two checks on the processed text. */
  function Validate(processed: string): string {
    if !Contains(processed, TffilePattern) then MissingTffile
    else if Contains(processed, ResourcePattern) && Contains(processed, TffilePattern) then
      var lines := SplitLines(processed);
      if LinesWith(lines, ResourcePattern, 0) != [] && LinesWith(lines, TffilePattern, 0) != [] then BothEmbedded
      else processed
    else processed
  }

  /**
   * The line-by-line check agrees with the substring test, since neither
   * pattern holds a newline: a text with the file reference and embedded
   * code is always rejected, and a text is returned exactly when it has the
   * reference and no embedded code.
   */
  lemma ValidateCases(processed: string)
    ensures !Contains(processed, TffilePattern) ==> Validate(processed) == MissingTffile
    ensures Contains(processed, TffilePattern) && Contains(processed, ResourcePattern) ==>
      Validate(processed) == BothEmbedded
    ensures Contains(processed, TffilePattern) && !Contains(processed, ResourcePattern) ==>
      Validate(processed) == processed
  {
    var lines := SplitLines(processed);
    ContainsByLines(processed, ResourcePattern);
    ContainsByLines(processed, TffilePattern);
    LinesWithNonEmpty(lines, ResourcePattern, 0);
    LinesWithNonEmpty(lines, TffilePattern, 0);
  }

  // ---------------------------------------------------------------------
  // template_replacer (storage_agent.py:17-62)
  // ---------------------------------------------------------------------

  const ExceptionPrefix := "Error in template replacement: "

  /**
   * `template_replacer`: the fetched template substituted and checked, or
   * the exception's text after a fixed prefix. The resource name argument
   * is not used by the body.
   */
  function TemplateReplacerResult(fetched: Result<string, string>, serviceName: string, description: string, heading: string)
    : string
  {
    match fetched
    case Err(message) => ExceptionPrefix + message
    case Ok(template) => Validate(Substitute(template, Replacements(serviceName, description, heading)))
  }

  /**
   * Every answer is one of: the exception text, one of the two check
   * errors, or a processed text that has the file reference and no
   * embedded Terraform code.
   */
  lemma TemplateReplacerAnswers(fetched: Result<string, string>, serviceName: string, description: string, heading: string)
    ensures var r := TemplateReplacerResult(fetched, serviceName, description, heading);
      && (fetched.Err? ==> StartsWith(r, ExceptionPrefix) && r[|ExceptionPrefix|..] == fetched.error)
      && (fetched.Ok? ==>
            r == MissingTffile || r == BothEmbedded
            || (r == Substitute(fetched.value, Replacements(serviceName, description, heading))
                && Contains(r, TffilePattern) && !Contains(r, ResourcePattern)))
  {
    if fetched.Ok? {
      ValidateCases(Substitute(fetched.value, Replacements(serviceName, description, heading)));
    } else {
      var r := ExceptionPrefix + fetched.error;
      assert r[..|ExceptionPrefix|] == ExceptionPrefix;
    }
  }

  /** `template_replacer` with its loop over the replacements. */
  method TemplateReplacer(fetched: Result<string, string>, serviceName: string, description: string, heading: string)
    returns (r: string)
    ensures r == TemplateReplacerResult(fetched, serviceName, description, heading)
  {
    if fetched.Err? {
      return ExceptionPrefix + fetched.error;
    }
    var processed := ApplyReplacements(fetched.value, Replacements(serviceName, description, heading));
    if !Contains(processed, TffilePattern) {
      return MissingTffile;
    }
    if Contains(processed, ResourcePattern) && Contains(processed, TffilePattern) {
      var lines := SplitLines(processed);
      var terraformLines := LinesWith(lines, ResourcePattern, 0);
      var tffileLines := LinesWith(lines, TffilePattern, 0);
      if terraformLines != [] && tffileLines != [] {
        return BothEmbedded;
      }
    }
    return processed;
  }
}
