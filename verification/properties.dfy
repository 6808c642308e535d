/** Properties of the URL gate that relate several inputs or several calls. */
module GateProperties {
  import opened AsciiText
  import opened CustomCssGate

  /** A matching exclude pattern suppresses every load, whatever the include
      list, `useInternalCss` and `cssUrl` say. */
  lemma ExclusionWins(url: string, props: Properties, k: nat)
    requires k < |Patterns(props.excludeUrls)|
    requires Contains(Lower(url), Lower(Patterns(props.excludeUrls)[k]))
    ensures Decide(url, props) == []
    ensures Gate(url, props).ExcludedBy?
  {
  }

  /** With no include patterns and no exclude match, styling applies. */
  lemma EmptyIncludeApplies(url: string, props: Properties)
    requires |Patterns(props.includeUrls)| == 0
    requires !ExcludeHit(url, props)
    ensures Decide(url, props) == Requests(props)
  {
  }

  /** A non-empty include list none of whose patterns is contained in the
      address suppresses styling. */
  lemma UnmatchedIncludeSuppresses(url: string, props: Properties)
    requires |Patterns(props.includeUrls)| > 0
    requires !ExcludeHit(url, props)
    requires forall k :: 0 <= k < |Patterns(props.includeUrls)| ==>
      !Contains(Lower(url), Lower(Patterns(props.includeUrls)[k]))
    ensures Decide(url, props) == []
  {
  }

  /** One contained include pattern is enough for styling to apply. */
  lemma MatchedIncludeApplies(url: string, props: Properties, k: nat)
    requires k < |Patterns(props.includeUrls)|
    requires Contains(Lower(url), Lower(Patterns(props.includeUrls)[k]))
    requires !ExcludeHit(url, props)
    ensures Decide(url, props) == Requests(props)
  {
  }

  /** An empty exclude pattern suppresses every page. */
  lemma EmptyExcludePatternSuppressesAll(url: string, props: Properties)
    requires "" in Patterns(props.excludeUrls)
    ensures Decide(url, props) == []
  {
    var k :| 0 <= k < |Patterns(props.excludeUrls)| && Patterns(props.excludeUrls)[k] == "";
    ContainsEmpty(Lower(url));
    assert Lower("") == "";
    ExclusionWins(url, props, k);
  }

  /** An empty include pattern qualifies every page no exclude pattern matches. */
  lemma EmptyIncludePatternQualifiesAll(url: string, props: Properties)
    requires "" in Patterns(props.includeUrls)
    requires !ExcludeHit(url, props)
    ensures Decide(url, props) == Requests(props)
  {
    var k :| 0 <= k < |Patterns(props.includeUrls)| && Patterns(props.includeUrls)[k] == "";
    ContainsEmpty(Lower(url));
    assert Lower("") == "";
    MatchedIncludeApplies(url, props, k);
  }

  // ---------------------------------------------------------------------
  // Case-insensitivity

  /** Two pattern lists of equal length that agree pattern by pattern up to
      the case of letters. */
  predicate PatternsEqualIgnoringCase(ps: seq<string>, qs: seq<string>) {
    |ps| == |qs| && forall k :: 0 <= k < |ps| ==> EqualIgnoringCase(ps[k], qs[k])
  }

  /** Scans of two such lists stop at the same position. */
  lemma {:induction false} FirstMatchFromIgnoresCase(lowerUrl: string, ps: seq<string>, qs: seq<string>, from: nat)
    requires PatternsEqualIgnoringCase(ps, qs)
    ensures FirstMatchFrom(lowerUrl, ps, from) == FirstMatchFrom(lowerUrl, qs, from)
    decreases |ps| - from
  {
    if from < |ps| {
      LowerEqualIffEqualIgnoringCase(ps[from], qs[from]);
      assert Matches(lowerUrl, ps[from]) == Matches(lowerUrl, qs[from]);
      FirstMatchFromIgnoresCase(lowerUrl, ps, qs, from + 1);
    }
  }

  /** Changing the letter case of the address or of any pattern changes
      neither the verdict (nor the pattern it reports) nor the loads. */
  lemma CaseInsensitive(url: string, url': string, props: Properties, props': Properties)
    requires EqualIgnoringCase(url, url')
    requires PatternsEqualIgnoringCase(Patterns(props.excludeUrls), Patterns(props'.excludeUrls))
    requires PatternsEqualIgnoringCase(Patterns(props.includeUrls), Patterns(props'.includeUrls))
    requires props'.cssUrl == props.cssUrl && props'.useInternalCss == props.useInternalCss
    ensures Gate(url, props) == Gate(url', props')
    ensures Decide(url, props) == Decide(url', props')
  {
    LowerEqualIffEqualIgnoringCase(url, url');
    FirstMatchFromIgnoresCase(Lower(url), Patterns(props.excludeUrls), Patterns(props'.excludeUrls), 0);
    FirstMatchFromIgnoresCase(Lower(url), Patterns(props.includeUrls), Patterns(props'.includeUrls), 0);
  }

  // ---------------------------------------------------------------------
  // Order of patterns

  /** Whether some pattern is contained depends only on which patterns the
      list holds. */
  lemma AnyContainedSameElements(lowerUrl: string, ps: seq<string>, qs: seq<string>)
    requires forall p :: p in ps <==> p in qs
    ensures AnyContained(lowerUrl, ps) <==> AnyContained(lowerUrl, qs)
  {
    if AnyContained(lowerUrl, ps) {
      var k :| 0 <= k < |ps| && Contains(lowerUrl, Lower(ps[k]));
      assert ps[k] in qs;
      var j :| 0 <= j < |qs| && qs[j] == ps[k];
    }
    if AnyContained(lowerUrl, qs) {
      var k :| 0 <= k < |qs| && Contains(lowerUrl, Lower(qs[k]));
      assert qs[k] in ps;
      var j :| 0 <= j < |ps| && ps[j] == qs[k];
    }
  }

  /** The loads depend only on the sets of patterns: reordering or repeating
      patterns in either list changes nothing. */
  lemma DecisionDependsOnPatternSets(url: string, props: Properties, props': Properties)
    requires forall p :: p in Patterns(props.excludeUrls) <==> p in Patterns(props'.excludeUrls)
    requires forall p :: p in Patterns(props.includeUrls) <==> p in Patterns(props'.includeUrls)
    requires props'.cssUrl == props.cssUrl && props'.useInternalCss == props.useInternalCss
    ensures Decide(url, props) == Decide(url, props')
  {
    AnyContainedSameElements(Lower(url), Patterns(props.excludeUrls), Patterns(props'.excludeUrls));
    AnyContainedSameElements(Lower(url), Patterns(props.includeUrls), Patterns(props'.includeUrls));
    if |Patterns(props.includeUrls)| > 0 {
      assert Patterns(props.includeUrls)[0] in Patterns(props'.includeUrls);
    }
    if |Patterns(props'.includeUrls)| > 0 {
      assert Patterns(props'.includeUrls)[0] in Patterns(props.includeUrls);
    }
  }

  /** Permuting either pattern list leaves the loads unchanged. */
  lemma PatternOrderIrrelevant(url: string, props: Properties, props': Properties)
    requires multiset(Patterns(props.excludeUrls)) == multiset(Patterns(props'.excludeUrls))
    requires multiset(Patterns(props.includeUrls)) == multiset(Patterns(props'.includeUrls))
    requires props'.cssUrl == props.cssUrl && props'.useInternalCss == props.useInternalCss
    ensures Decide(url, props) == Decide(url, props')
  {
    forall p ensures p in Patterns(props.excludeUrls) <==> p in Patterns(props'.excludeUrls) {
      assert p in multiset(Patterns(props.excludeUrls)) <==> p in multiset(Patterns(props'.excludeUrls));
    }
    forall p ensures p in Patterns(props.includeUrls) <==> p in Patterns(props'.includeUrls) {
      assert p in multiset(Patterns(props.includeUrls)) <==> p in multiset(Patterns(props'.includeUrls));
    }
    DecisionDependsOnPatternSets(url, props, props');
  }
}
