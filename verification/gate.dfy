/** The URL gate of the custom-CSS application customizer: given the current
    page address and the deployment's property bag, decide whether styling
    applies and which stylesheets to request. */
module CustomCssGate {
  import opened Options
  import opened AsciiText

  /** The customizer's property bag; every field is optional. */
  datatype Properties = Properties(
    cssUrl: Option<string>,
    useInternalCss: Option<bool>,
    includeUrls: Option<seq<string>>,
    excludeUrls: Option<seq<string>>,
    enableDebug: Option<bool>)

  /** A request to the stylesheet loader: the bundled stylesheet, or the
      operator-supplied one at `url`. */
  datatype Load = Internal | External(url: string)

  /** What the gate concluded, and which pattern (by position in its list)
      it reports when a pattern decided the outcome. */
  datatype Verdict =
    | ExcludedBy(index: nat)
    | Unfiltered
    | IncludedBy(index: nat)
    | NoIncludeMatch
  {
    predicate Applies() {
      Unfiltered? || IncludedBy?
    }
  }

  /** One line of the diagnostic trace written when `enableDebug` is set. */
  datatype Event =
    | CurrentUrl(url: string)
    | IncludePatterns(patterns: Option<seq<string>>)
    | ExcludePatterns(patterns: Option<seq<string>>)
    | ExcludeMatched(pattern: string)
    | IncludeMatched(pattern: string)
    | NoIncludeMatched

  /** A pattern list; an absent list behaves like an empty one. The list is
      non-empty exactly when the guard `list && list.length > 0` holds, and it
      holds exactly the patterns that guarded `for ... of` loop visits. */
  function Patterns(list: Option<seq<string>>): (ps: seq<string>)
    ensures |ps| > 0 <==> list.Some? && |list.value| > 0
    ensures forall p :: p in ps <==> list.Some? && p in list.value
  {
    list.GetOr([])
  }

  /** JavaScript truthiness of the optional `enableDebug` flag: absent and
      `false` are both falsy. */
  function DebugEnabled(props: Properties): (on: bool)
    ensures props.enableDebug == None ==> !on
    ensures props.enableDebug == Some(false) ==> !on
    ensures props.enableDebug == Some(true) ==> on
  {
    props.enableDebug == Some(true)
  }

  /** `useInternalCss !== false`: only the literal `false` switches the
      bundled stylesheet off, so an absent value counts as true. */
  function InternalEnabled(props: Properties): (on: bool)
    ensures props.useInternalCss == None ==> on
    ensures props.useInternalCss == Some(true) ==> on
    ensures props.useInternalCss == Some(false) ==> !on
  {
    props.useInternalCss != Some(false)
  }

  /** JavaScript truthiness of the optional `cssUrl`: absent and the empty
      string are both falsy, every other string is truthy. */
  function ExternalGiven(props: Properties): (on: bool)
    ensures props.cssUrl == None ==> !on
    ensures props.cssUrl == Some("") ==> !on
    ensures forall u :: props.cssUrl == Some(u) && |u| > 0 ==> on
  {
    props.cssUrl.Some? && props.cssUrl.value != ""
  }

  // ---------------------------------------------------------------------
  // Reference meaning of the gate, in terms of substring containment

  /** Some pattern of `ps`, lower-cased, is a substring of `lowerUrl`. */
  ghost predicate AnyContained(lowerUrl: string, ps: seq<string>) {
    exists k :: 0 <= k < |ps| && Contains(lowerUrl, Lower(ps[k]))
  }

  /** `k` is the position of the first pattern of `ps` contained in `lowerUrl`. */
  ghost predicate IsFirstContained(lowerUrl: string, ps: seq<string>, k: int) {
    && 0 <= k < |ps|
    && Contains(lowerUrl, Lower(ps[k]))
    && forall j :: 0 <= j < k ==> !Contains(lowerUrl, Lower(ps[j]))
  }

  ghost predicate ExcludeHit(url: string, props: Properties) {
    AnyContained(Lower(url), Patterns(props.excludeUrls))
  }

  ghost predicate IncludeHit(url: string, props: Properties) {
    AnyContained(Lower(url), Patterns(props.includeUrls))
  }

  /** Styling applies when no exclude pattern matches and either there are
      no include patterns or one of them matches. */
  ghost predicate ShouldStyle(url: string, props: Properties) {
    && !ExcludeHit(url, props)
    && (|Patterns(props.includeUrls)| == 0 || IncludeHit(url, props))
  }

  // ---------------------------------------------------------------------
  // The gate as the customizer computes it

  /** The per-pattern test `currentUrl.indexOf(pattern.toLowerCase()) > -1`,
      where `currentUrl` has already been lower-cased. */
  function Matches(lowerUrl: string, pattern: string): (b: bool)
    ensures b <==> Contains(lowerUrl, Lower(pattern))
  {
    IndexOf(lowerUrl, Lower(pattern)) > -1
  }

  /** The scan of a pattern list from position `from`, stopping at the first
      pattern that matches. */
  function FirstMatchFrom(lowerUrl: string, ps: seq<string>, from: nat): (r: Option<nat>)
    ensures r.None? ==> forall k :: from <= k < |ps| ==> !Matches(lowerUrl, ps[k])
    ensures r.Some? ==> from <= r.value < |ps| && Matches(lowerUrl, ps[r.value])
    ensures r.Some? ==> forall k :: from <= k < r.value ==> !Matches(lowerUrl, ps[k])
    decreases |ps| - from
  {
    if from >= |ps| then None
    else if Matches(lowerUrl, ps[from]) then Some(from)
    else FirstMatchFrom(lowerUrl, ps, from + 1)
  }

  /** The whole scan of a pattern list. */
  function FirstMatch(lowerUrl: string, ps: seq<string>): (r: Option<nat>)
    ensures r.None? <==> !AnyContained(lowerUrl, ps)
    ensures r.Some? ==> IsFirstContained(lowerUrl, ps, r.value)
  {
    FirstMatchFrom(lowerUrl, ps, 0)
  }

  /** The decision: exclusion first, then inclusion. */
  function Gate(url: string, props: Properties): (v: Verdict)
    ensures v.ExcludedBy? <==> ExcludeHit(url, props)
    ensures v.ExcludedBy? ==> IsFirstContained(Lower(url), Patterns(props.excludeUrls), v.index)
    ensures v.Unfiltered? <==> !ExcludeHit(url, props) && |Patterns(props.includeUrls)| == 0
    ensures v.IncludedBy? ==> !ExcludeHit(url, props)
    ensures v.IncludedBy? ==> IsFirstContained(Lower(url), Patterns(props.includeUrls), v.index)
    ensures v.NoIncludeMatch? <==>
      !ExcludeHit(url, props) && |Patterns(props.includeUrls)| > 0 && !IncludeHit(url, props)
    ensures v.Applies() <==> ShouldStyle(url, props)
  {
    var currentUrl := Lower(url);
    var excludes := Patterns(props.excludeUrls);
    var includes := Patterns(props.includeUrls);
    var excluded := FirstMatch(currentUrl, excludes);
    if |excludes| > 0 && excluded.Some? then ExcludedBy(excluded.value)
    else if |includes| == 0 then Unfiltered
    else match FirstMatch(currentUrl, includes)
      case Some(k) => IncludedBy(k)
      case None => NoIncludeMatch
  }

  /** The loads requested once styling applies: the bundled stylesheet
      unless disabled, then the external one if given. */
  function Requests(props: Properties): (r: seq<Load>)
    ensures |r| <= 2
    ensures Internal in r <==> InternalEnabled(props)
    ensures forall u :: External(u) in r <==> props.cssUrl == Some(u) && u != ""
    ensures |r| == 2 ==> r[0] == Internal && r[1].External?
  {
    (if InternalEnabled(props) then [Internal] else [])
    + (if ExternalGiven(props) then [External(props.cssUrl.value)] else [])
  }

  /** The stylesheet loads the customizer requests for the page at `url`. */
  function Decide(url: string, props: Properties): (r: seq<Load>)
    ensures |r| <= 2
    ensures !ShouldStyle(url, props) ==> r == []
    ensures Internal in r <==> ShouldStyle(url, props) && InternalEnabled(props)
    ensures forall u :: External(u) in r <==>
      ShouldStyle(url, props) && props.cssUrl == Some(u) && u != ""
    ensures |r| == 2 ==> r[0] == Internal && r[1].External?
  {
    if Gate(url, props).Applies() then Requests(props) else []
  }

  /** The first three trace lines: address and both pattern lists. */
  function Header(url: string, props: Properties): seq<Event> {
    [CurrentUrl(Lower(url)), IncludePatterns(props.includeUrls), ExcludePatterns(props.excludeUrls)]
  }

  /** The diagnostic trace. The matched pattern is reported as written, not
      lower-cased, and it is the first matching one in its list. */
  function DebugTrace(url: string, props: Properties): (r: seq<Event>)
    ensures r == [] <==> !DebugEnabled(props)
    ensures r != [] ==> 3 <= |r| <= 4 && r[..3] == Header(url, props)
    ensures r != [] && ExcludeHit(url, props) ==>
      exists k :: IsFirstContained(Lower(url), Patterns(props.excludeUrls), k)
        && r == Header(url, props) + [ExcludeMatched(Patterns(props.excludeUrls)[k])]
    ensures r != [] && !ExcludeHit(url, props) && IncludeHit(url, props) ==>
      exists k :: IsFirstContained(Lower(url), Patterns(props.includeUrls), k)
        && r == Header(url, props) + [IncludeMatched(Patterns(props.includeUrls)[k])]
    ensures NoIncludeMatched in r <==>
      DebugEnabled(props) && !ShouldStyle(url, props) && !ExcludeHit(url, props)
    ensures |r| == 3 <==>
      DebugEnabled(props) && !ExcludeHit(url, props) && |Patterns(props.includeUrls)| == 0
  {
    if !DebugEnabled(props) then []
    else
      match Gate(url, props)
      case ExcludedBy(k) => Header(url, props) + [ExcludeMatched(Patterns(props.excludeUrls)[k])]
      case Unfiltered => Header(url, props)
      case IncludedBy(k) => Header(url, props) + [IncludeMatched(Patterns(props.includeUrls)[k])]
      case NoIncludeMatch => Header(url, props) + [NoIncludeMatched]
  }

  /** The body of `onInit` as written: two loops with an early return and a
      `break`, emitting load requests and trace lines as it goes. */
  method OnInit(url: string, props: Properties) returns (loads: seq<Load>, trace: seq<Event>)
    ensures loads == Decide(url, props)
    ensures trace == DebugTrace(url, props)
  {
    loads := [];
    trace := [];
    var currentUrl := Lower(url);
    var debug := DebugEnabled(props);
    if debug {
      trace := [CurrentUrl(currentUrl), IncludePatterns(props.includeUrls), ExcludePatterns(props.excludeUrls)];
    }

    if props.excludeUrls.Some? && |props.excludeUrls.value| > 0 {
      var excludes := props.excludeUrls.value;
      var i := 0;
      while i < |excludes|
        invariant 0 <= i <= |excludes|
        invariant FirstMatchFrom(currentUrl, excludes, i) == FirstMatch(currentUrl, excludes)
        invariant trace == if debug then Header(url, props) else []
      {
        if IndexOf(currentUrl, Lower(excludes[i])) > -1 {
          assert Gate(url, props) == ExcludedBy(i);
          if debug {
            trace := trace + [ExcludeMatched(excludes[i])];
          }
          return;
        }
        i := i + 1;
      }
    }

    assert !ExcludeHit(url, props);
    var shouldApplyCss := true;
    if props.includeUrls.Some? && |props.includeUrls.value| > 0 {
      shouldApplyCss := false;
      var includes := props.includeUrls.value;
      var i := 0;
      while i < |includes|
        invariant 0 <= i <= |includes|
        invariant FirstMatchFrom(currentUrl, includes, i) == FirstMatch(currentUrl, includes)
        invariant !shouldApplyCss
        invariant trace == if debug then Header(url, props) else []
      {
        if IndexOf(currentUrl, Lower(includes[i])) > -1 {
          shouldApplyCss := true;
          assert Gate(url, props) == IncludedBy(i);
          if debug {
            trace := trace + [IncludeMatched(includes[i])];
          }
          break;
        }
        i := i + 1;
      }
    }

    assert shouldApplyCss <==> Gate(url, props).Applies();
    if shouldApplyCss {
      if InternalEnabled(props) {
        loads := loads + [Internal];
      }
      if props.cssUrl.Some? && props.cssUrl.value != "" {
        loads := loads + [External(props.cssUrl.value)];
      }
    } else if debug {
      trace := trace + [NoIncludeMatched];
    }
  }
}
