/** The red-flag safety detector: a fixed list of urgent phrases and a scan of a report. */
module Utils {
  import opened Wrappers
  import opened Text
  import opened Schemas

  /** The urgent phrases, all in lower case. */
  const RedFlags: seq<string> :=
    ["chest pain", "difficulty breathing", "unconscious", "severe bleeding", "sudden weakness"]

  /** Some red-flag phrase occurs, as a substring, in the lower-cased text. */
  predicate Flagged(text: string) {
    exists k | 0 <= k < |RedFlags| :: Contains(Lower(text), RedFlags[k])
  }

  /**
   * The detector's meaning: some symptom name, or some answer of a dictionary
   * evidence snippet, is flagged. Missing lists and missing keys read as empty.
   */
  predicate HasRedFlag(r: StructuredReport)
    ensures HasRedFlag(r) ==> |SymptomsOf(r)| + |SnippetsOf(r)| > 0
  {
    || (exists i | 0 <= i < |SymptomsOf(r)| :: SymptomFlagged(SymptomsOf(r)[i]))
    || (exists i | 0 <= i < |SnippetsOf(r)| :: SnippetFlagged(SnippetsOf(r)[i]))
  }

  /** The symptom's name (or "" when it has none) is flagged. */
  predicate SymptomFlagged(s: SymptomItem) {
    Flagged(NameText(s))
  }

  /** The snippet is a dictionary whose answer (or "" when it has none) is flagged. */
  predicate SnippetFlagged(e: EvidenceSnippet) {
    Flagged(AnswerText(e))
  }

  /**
   * The scan as the detector runs it: symptoms first, then evidence snippets,
   * each against every phrase, stopping at the first match. It reads the report
   * and changes nothing.
   */
  method DetectRedFlags(report: StructuredReport) returns (found: bool)
    ensures found == HasRedFlag(report)
  {
    var symptoms := report.symptoms.GetOr([]);
    for i := 0 to |symptoms|
      invariant forall k :: 0 <= k < i ==> !Flagged(NameText(symptoms[k]))
    {
      var name := Lower(symptoms[i].name.GetOr(""));
      for j := 0 to |RedFlags|
        invariant forall m :: 0 <= m < j ==> !Contains(name, RedFlags[m])
      {
        if Contains(name, RedFlags[j]) {
          assert Flagged(NameText(SymptomsOf(report)[i]));
          return true;
        }
      }
    }
    var snippets := report.evidenceSnippets.GetOr([]);
    for i := 0 to |snippets|
      invariant forall k :: 0 <= k < i ==> !Flagged(AnswerText(snippets[k]))
    {
      var answer := if snippets[i].QA? then Lower(snippets[i].answer.GetOr("")) else "";
      for j := 0 to |RedFlags|
        invariant forall m :: 0 <= m < j ==> !Contains(answer, RedFlags[m])
      {
        if Contains(answer, RedFlags[j]) {
          assert Flagged(AnswerText(SnippetsOf(report)[i]));
          return true;
        }
      }
    }
    return false;
  }

  /** Every phrase is already in lower case. */
  lemma RedFlagsAreLowercase(k: nat)
    requires k < |RedFlags|
    ensures Lower(RedFlags[k]) == RedFlags[k]
  {
    LowerOfLowercase(RedFlags[k]);
  }

  /** Matching is by substring: any text with a phrase inside it is flagged, whatever surrounds it. */
  lemma FlaggedBySubstring(pre: string, k: nat, post: string)
    requires k < |RedFlags|
    ensures Flagged(pre + RedFlags[k] + post)
  {
    LowerAppend(pre + RedFlags[k], post);
    LowerAppend(pre, RedFlags[k]);
    RedFlagsAreLowercase(k);
    ContainsMiddle(Lower(pre), RedFlags[k], Lower(post));
  }

  /** A symptom named "Severe Chest Pain" raises the flag: the match ignores case and surrounding words. */
  lemma SevereChestPainIsFlagged(r: StructuredReport)
    requires r.symptoms == Some([SymptomItem(Some("Severe Chest Pain"), None, None, None, None, None, None, None, None)])
    ensures HasRedFlag(r)
  {
    var name := "Severe Chest Pain";
    assert Lower(name) == "severe " + RedFlags[0] + "";
    ContainsMiddle("severe ", RedFlags[0], "");
    assert Flagged(NameText(SymptomsOf(r)[0]));
  }

  /** Changing only the letter case of names and answers never changes the detector's verdict. */
  predicate SameUpToCaseReports(a: StructuredReport, b: StructuredReport) {
    && |SymptomsOf(a)| == |SymptomsOf(b)|
    && (forall i :: 0 <= i < |SymptomsOf(a)| ==>
          SameUpToCase(NameText(SymptomsOf(a)[i]), NameText(SymptomsOf(b)[i])))
    && |SnippetsOf(a)| == |SnippetsOf(b)|
    && (forall i :: 0 <= i < |SnippetsOf(a)| ==>
          SameUpToCase(AnswerText(SnippetsOf(a)[i]), AnswerText(SnippetsOf(b)[i])))
  }

  lemma CaseInsensitive(a: StructuredReport, b: StructuredReport)
    requires SameUpToCaseReports(a, b)
    ensures HasRedFlag(a) <==> HasRedFlag(b)
  {
    forall i | 0 <= i < |SymptomsOf(a)|
      ensures Flagged(NameText(SymptomsOf(a)[i])) <==> Flagged(NameText(SymptomsOf(b)[i]))
    {
      SameUpToCaseIffSameLower(NameText(SymptomsOf(a)[i]), NameText(SymptomsOf(b)[i]));
    }
    forall i | 0 <= i < |SnippetsOf(a)|
      ensures Flagged(AnswerText(SnippetsOf(a)[i])) <==> Flagged(AnswerText(SnippetsOf(b)[i]))
    {
      SameUpToCaseIffSameLower(AnswerText(SnippetsOf(a)[i]), AnswerText(SnippetsOf(b)[i]));
    }
  }

  /** The empty text is never flagged, so a missing name or answer never raises the flag. */
  lemma EmptyNotFlagged()
    ensures !Flagged("")
  {
    forall k | 0 <= k < |RedFlags|
      ensures !Contains(Lower(""), RedFlags[k])
    {
      assert Lower("") == [];
      NotContainedInEmpty(RedFlags[k]);
    }
  }

  /**
   * A report whose symptoms carry no name and whose snippets carry no answer, or
   * are not dictionaries (including a report with neither list), is not flagged.
   */
  lemma NothingToScan(r: StructuredReport)
    requires forall i :: 0 <= i < |SymptomsOf(r)| ==> SymptomsOf(r)[i].name == None
    requires forall i :: 0 <= i < |SnippetsOf(r)| ==> SnippetsOf(r)[i].NonDict? || SnippetsOf(r)[i].answer == None
    ensures !HasRedFlag(r)
  {
    EmptyNotFlagged();
  }

  /** `r` with `extra` symptoms appended. */
  function WithMoreSymptoms(r: StructuredReport, extra: seq<SymptomItem>): StructuredReport {
    r.(symptoms := Some(SymptomsOf(r) + extra))
  }

  /** `r` with `extra` evidence snippets appended. */
  function WithMoreSnippets(r: StructuredReport, extra: seq<EvidenceSnippet>): StructuredReport {
    r.(evidenceSnippets := Some(SnippetsOf(r) + extra))
  }

  /** Some element of `a + b` satisfies `p` exactly when some element of `a` or of `b` does. */
  lemma ExistsInConcat<T>(a: seq<T>, b: seq<T>, p: T -> bool)
    ensures (exists i | 0 <= i < |a + b| :: p((a + b)[i]))
        <==> (exists i | 0 <= i < |a| :: p(a[i])) || (exists i | 0 <= i < |b| :: p(b[i]))
  {
    var ab := a + b;
    if exists i | 0 <= i < |ab| :: p(ab[i]) {
      var i :| 0 <= i < |ab| && p(ab[i]);
      if i < |a| {
        assert ab[i] == a[i];
      } else {
        assert ab[i] == b[i - |a|];
      }
    }
    if exists i | 0 <= i < |a| :: p(a[i]) {
      var i :| 0 <= i < |a| && p(a[i]);
      assert ab[i] == a[i];
    }
    if exists i | 0 <= i < |b| :: p(b[i]) {
      var i :| 0 <= i < |b| && p(b[i]);
      assert ab[|a| + i] == b[i];
    }
  }

  /** Appending symptoms raises the flag exactly when it was raised or a new name is flagged. */
  lemma MoreSymptoms(r: StructuredReport, extra: seq<SymptomItem>)
    ensures HasRedFlag(WithMoreSymptoms(r, extra))
        <==> HasRedFlag(r) || exists i | 0 <= i < |extra| :: SymptomFlagged(extra[i])
  {
    var p := SymptomFlagged;
    assert forall x :: p(x) == SymptomFlagged(x);
    ExistsInConcat(SymptomsOf(r), extra, p);
    assert SymptomsOf(WithMoreSymptoms(r, extra)) == SymptomsOf(r) + extra;
    assert SnippetsOf(WithMoreSymptoms(r, extra)) == SnippetsOf(r);
  }

  /** Appending snippets raises the flag exactly when it was raised or a new dictionary answer is flagged. */
  lemma MoreSnippets(r: StructuredReport, extra: seq<EvidenceSnippet>)
    ensures HasRedFlag(WithMoreSnippets(r, extra))
        <==> HasRedFlag(r) || exists i | 0 <= i < |extra| :: SnippetFlagged(extra[i])
  {
    var p := SnippetFlagged;
    assert forall x :: p(x) == SnippetFlagged(x);
    ExistsInConcat(SnippetsOf(r), extra, p);
    assert SnippetsOf(WithMoreSnippets(r, extra)) == SnippetsOf(r) + extra;
    assert SymptomsOf(WithMoreSnippets(r, extra)) == SymptomsOf(r);
  }

  /** Monotonicity: once a report is flagged, appending symptoms or snippets keeps it flagged. */
  lemma Monotone(r: StructuredReport, moreSymptoms: seq<SymptomItem>, moreSnippets: seq<EvidenceSnippet>)
    requires HasRedFlag(r)
    ensures HasRedFlag(WithMoreSymptoms(r, moreSymptoms))
    ensures HasRedFlag(WithMoreSnippets(r, moreSnippets))
  {
    MoreSymptoms(r, moreSymptoms);
    MoreSnippets(r, moreSnippets);
  }

  /** Snippets that are not dictionaries never cause a match: appending them changes nothing. */
  lemma NonDictSnippetsIgnored(r: StructuredReport, extra: seq<EvidenceSnippet>)
    requires forall i :: 0 <= i < |extra| ==> extra[i].NonDict?
    ensures HasRedFlag(WithMoreSnippets(r, extra)) == HasRedFlag(r)
  {
    MoreSnippets(r, extra);
    EmptyNotFlagged();
  }
}
