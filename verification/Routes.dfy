/** Route and selector shapes, and the matching of a route against a worker's pattern. */
module Routes {
  import opened Options

  type Parts = seq<string>

  const STAR := "*"
  const DOUBLE_STAR := "**"

  // ----- Splitting -----

  /** `text.split("/")`. */
  function Split(text: string): (parts: Parts)
    ensures |parts| >= 1
  {
    if text == "" then [""]
    else if text[0] == '/' then [""] + Split(text[1..])
    else
      var rest := Split(text[1..]);
      [[text[0]] + rest[0]] + rest[1..]
  }

  function Join(parts: Parts): string
    requires |parts| >= 1
  {
    if |parts| == 1 then parts[0] else parts[0] + "/" + Join(parts[1..])
  }

  lemma {:induction false} SplitJoins(text: string)
    ensures Join(Split(text)) == text
    ensures forall i :: 0 <= i < |Split(text)| ==> '/' !in Split(text)[i]
  {
    if text != "" {
      SplitJoins(text[1..]);
      var rest := Split(text[1..]);
      if text[0] == '/' {
        assert Split(text)[1..] == rest;
      } else {
        assert Split(text)[1..] == rest[1..];
        assert text == [text[0]] + text[1..];
      }
    }
  }

  lemma {:induction false} JoinSplits(parts: Parts)
    requires |parts| >= 1 && forall i :: 0 <= i < |parts| ==> '/' !in parts[i]
    ensures Split(Join(parts)) == parts
    decreases |parts|, |parts[0]|
  {
    if parts[0] != "" {
      var shorter := [parts[0][1..]] + parts[1..];
      JoinSplits(shorter);
      assert shorter[1..] == parts[1..];
      assert Join(parts)[1..] == Join(shorter) && Join(parts)[0] == parts[0][0];
      assert parts[0] == [parts[0][0]] + parts[0][1..];
      assert parts[0][0] in parts[0];
    } else if |parts| > 1 {
      JoinSplits(parts[1..]);
      assert Join(parts) == "/" + Join(parts[1..]);
      assert Join(parts)[1..] == Join(parts[1..]);
    } else {
      assert parts == [""];
    }
  }

  // ----- The grammar -----

  predicate Wild(part: string) {
    part == STAR || part == DOUBLE_STAR
  }

  predicate WellFormedPart(part: string) {
    part != "" && ('*' in part ==> Wild(part))
  }

  /** `_parts`: the segments after the scheme, if each is a literal, a star or a double star. */
  function RouteParts(route: string, scheme: string, allowInterior: bool): Option<Parts> {
    var prefix := scheme + "://";
    if !(prefix <= route) then None
    else
      var parts := Split(route[|prefix|..]);
      if exists i :: 0 <= i < |parts| && !WellFormedPart(parts[i]) then None
      else if !allowInterior && DOUBLE_STAR in parts && parts[|parts| - 1] != DOUBLE_STAR then None
      else Some(parts)
  }

  predicate Adjacent(parts: Parts) {
    exists i :: 0 < i < |parts| && parts[i - 1] == DOUBLE_STAR && parts[i] == DOUBLE_STAR
  }

  /** The number of segments that are not double stars. */
  function Fixed(parts: Parts): (n: nat)
    ensures n <= |parts|
    ensures n == |parts| <==> DOUBLE_STAR !in parts
  {
    if parts == [] then 0 else (if parts[0] == DOUBLE_STAR then 0 else 1) + Fixed(parts[1..])
  }

  /** `is_selector_route_shape` on the segments. */
  predicate SelectorParts(parts: Parts, segmentCount: nat, allowRealm: bool, allowInterior: bool)
    requires |parts| >= 1
  {
    if allowInterior then
      && !Adjacent(parts)
      && Fixed(parts) <= segmentCount
      && (DOUBLE_STAR !in parts ==> Fixed(parts) == segmentCount)
      && (Wild(parts[0]) ==> allowRealm)
    else if parts == [DOUBLE_STAR] then allowRealm
    else if |parts| == 2 && parts[1] == DOUBLE_STAR then parts[0] != STAR || allowRealm
    else |parts| == segmentCount && DOUBLE_STAR !in parts && (parts[0] == STAR ==> allowRealm)
  }

  predicate IsSelectorRouteShape(
    route: string, scheme: string, segmentCount: nat, allowRealm: bool, allowInterior: bool)
  {
    var parts := RouteParts(route, scheme, allowInterior);
    parts.Some? && |parts.value| >= 1 && SelectorParts(parts.value, segmentCount, allowRealm, allowInterior)
  }

  // ----- What a selector means -----

  /** A star stands for one segment, a double star for any number of segments. */
  predicate Glob(parts: Parts, segments: seq<string>)
    decreases |parts| + |segments|
  {
    if parts == [] then segments == []
    else if parts[0] == DOUBLE_STAR then
      Glob(parts[1..], segments) || (segments != [] && Glob(parts, segments[1..]))
    else segments != [] && (parts[0] == STAR || parts[0] == segments[0]) && Glob(parts[1..], segments[1..])
  }

  predicate Concrete(segments: seq<string>) {
    forall i :: 0 <= i < |segments| ==> segments[i] != "" && '*' !in segments[i] && '/' !in segments[i]
  }

  predicate WellFormed(parts: Parts) {
    forall i :: 0 <= i < |parts| ==> WellFormedPart(parts[i]) && '/' !in parts[i]
  }

  ghost predicate MatchesSome(parts: Parts, segmentCount: nat) {
    exists segments :: |segments| == segmentCount && Concrete(segments) && Glob(parts, segments)
  }

  lemma {:induction false} GlobNeedsFixed(parts: Parts, segments: seq<string>)
    requires Glob(parts, segments)
    ensures Fixed(parts) <= |segments|
    ensures DOUBLE_STAR !in parts ==> Fixed(parts) == |segments|
    decreases |parts| + |segments|
  {
    if parts != [] {
      assert parts == [parts[0]] + parts[1..];
      if parts[0] == DOUBLE_STAR {
        if Glob(parts[1..], segments) {
          GlobNeedsFixed(parts[1..], segments);
        } else {
          GlobNeedsFixed(parts, segments[1..]);
        }
      } else {
        GlobNeedsFixed(parts[1..], segments[1..]);
      }
    }
  }

  /** `n` segments that match: a double star takes what the rest does not need. */
  function Example(parts: Parts, n: nat): seq<string>
    requires Fixed(parts) <= n
    decreases |parts|
  {
    if parts == [] then []
    else if parts[0] == DOUBLE_STAR then Filler(n - Fixed(parts)) + Example(parts[1..], Fixed(parts))
    else [if parts[0] == STAR then "a" else parts[0]] + Example(parts[1..], n - 1)
  }

  function Filler(n: nat): (segments: seq<string>)
    ensures |segments| == n && Concrete(segments)
  {
    seq(n, _ => "a")
  }

  lemma {:induction false} DoubleStarSkips(parts: Parts, skipped: seq<string>, segments: seq<string>)
    requires parts != [] && parts[0] == DOUBLE_STAR && Glob(parts[1..], segments)
    ensures Glob(parts, skipped + segments)
    decreases |skipped|
  {
    if skipped == [] {
      assert skipped + segments == segments;
    } else {
      DoubleStarSkips(parts, skipped[1..], segments);
      assert (skipped + segments)[1..] == skipped[1..] + segments;
    }
  }

  lemma {:induction false} ExampleMatches(parts: Parts, n: nat)
    requires WellFormed(parts) && Fixed(parts) <= n && (DOUBLE_STAR !in parts ==> Fixed(parts) == n)
    ensures |Example(parts, n)| == n && Concrete(Example(parts, n)) && Glob(parts, Example(parts, n))
    decreases |parts|
  {
    if parts != [] {
      assert parts == [parts[0]] + parts[1..];
      var rest := parts[1..];
      assert forall i :: 0 <= i < |rest| ==> rest[i] == parts[i + 1];
      if parts[0] == DOUBLE_STAR {
        ExampleMatches(rest, Fixed(parts));
        DoubleStarSkips(parts, Filler(n - Fixed(parts)), Example(rest, Fixed(parts)));
      } else {
        ExampleMatches(rest, n - 1);
        assert Example(parts, n)[1..] == Example(rest, n - 1);
      }
    }
  }

  lemma PartsAreWellFormed(route: string, scheme: string, allowInterior: bool)
    requires RouteParts(route, scheme, allowInterior).Some?
    ensures WellFormed(RouteParts(route, scheme, allowInterior).value)
    ensures |RouteParts(route, scheme, allowInterior).value| >= 1
  {
    SplitJoins(route[|scheme + "://"|..]);
  }

  /** With interior double stars allowed, a selector is accepted exactly if its segments are
      well-formed, no two double stars are adjacent, its realm is wild only where that is
      allowed, and some concrete route of the domain's depth matches it. */
  lemma SelectorAcceptedIffItCanMatch(route: string, scheme: string, segmentCount: nat, allowRealm: bool)
    ensures IsSelectorRouteShape(route, scheme, segmentCount, allowRealm, true) <==>
      var parts := RouteParts(route, scheme, true);
      && parts.Some? && |parts.value| >= 1
      && !Adjacent(parts.value)
      && (Wild(parts.value[0]) ==> allowRealm)
      && MatchesSome(parts.value, segmentCount)
  {
    var parts := RouteParts(route, scheme, true);
    if parts.Some? {
      PartsAreWellFormed(route, scheme, true);
      CanMatchExactly(parts.value, segmentCount);
    }
  }

  lemma CanMatchExactly(parts: Parts, segmentCount: nat)
    requires WellFormed(parts)
    ensures MatchesSome(parts, segmentCount)
      <==> Fixed(parts) <= segmentCount && (DOUBLE_STAR !in parts ==> Fixed(parts) == segmentCount)
  {
    if MatchesSome(parts, segmentCount) {
      var segments :| |segments| == segmentCount && Concrete(segments) && Glob(parts, segments);
      GlobNeedsFixed(parts, segments);
    }
    if Fixed(parts) <= segmentCount && (DOUBLE_STAR !in parts ==> Fixed(parts) == segmentCount) {
      ExampleMatches(parts, segmentCount);
    }
  }

  /** The default grammar, too, accepts only selectors that some route of the domain's depth
      matches. */
  lemma DefaultSelectorsCanMatch(route: string, scheme: string, segmentCount: nat, allowRealm: bool)
    requires segmentCount >= 1 && IsSelectorRouteShape(route, scheme, segmentCount, allowRealm, false)
    ensures MatchesSome(RouteParts(route, scheme, false).value, segmentCount)
  {
    var parts := RouteParts(route, scheme, false).value;
    PartsAreWellFormed(route, scheme, false);
    CanMatchExactly(parts, segmentCount);
    if |parts| == 2 {
      assert parts[1..] == [parts[1]] && parts[1..][1..] == [];
    }
  }

  lemma BehindThePrefix(prefix: string, text: string)
    ensures prefix <= prefix + text && (prefix + text)[|prefix|..] == text
  {
  }

  /** A route text is taken apart exactly if each segment is a literal, a star or a double
      star, and a double star elsewhere than at the end is allowed or does not occur without
      one at the end. */
  lemma PartsExactly(scheme: string, parts: Parts, allowInterior: bool)
    requires parts != [] && forall i :: 0 <= i < |parts| ==> '/' !in parts[i]
    ensures var taken := RouteParts(scheme + "://" + Join(parts), scheme, allowInterior);
      if WellFormed(parts) && (allowInterior || DOUBLE_STAR !in parts || parts[|parts| - 1] == DOUBLE_STAR)
      then taken == Some(parts) else taken == None
  {
    BehindThePrefix(scheme + "://", Join(parts));
    JoinSplits(parts);
    hide Split, Join, WellFormedPart;
  }

  /** Exactly which selectors the default grammar accepts: everything, if the realm may be
      wild; a realm and everything in it; and as many literals and stars as a route has
      segments.  A realm that is a single star is accepted only if it may be wild. */
  lemma DefaultGrammarExactly(scheme: string, parts: Parts, segmentCount: nat, allowRealm: bool)
    requires parts != [] && forall i :: 0 <= i < |parts| ==> '/' !in parts[i]
    ensures IsSelectorRouteShape(scheme + "://" + Join(parts), scheme, segmentCount, allowRealm, false)
      <==> WellFormed(parts)
           && (|| (parts == [DOUBLE_STAR] && allowRealm)
               || (|parts| == 2 && parts[1] == DOUBLE_STAR && (parts[0] == STAR ==> allowRealm))
               || (|parts| == segmentCount && (forall i :: 0 <= i < |parts| ==> parts[i] != DOUBLE_STAR)
                   && (parts[0] == STAR ==> allowRealm)))
  {
    PartsExactly(scheme, parts, false);
    assert DOUBLE_STAR in parts <==> exists i :: 0 <= i < |parts| && parts[i] == DOUBLE_STAR;
    hide RouteParts, WellFormed;
  }

  lemma ConcreteIsLiteral(segment: string)
    requires segment != "" && '*' !in segment
    ensures WellFormedPart(segment) && segment != STAR && segment != DOUBLE_STAR
  {
    assert STAR[0] == '*' && DOUBLE_STAR[0] == '*';
  }

  /** So every concrete route of the depth is a selector, and every concrete realm followed by
      a double star. */
  lemma ConcreteRoutesAreSelectors(scheme: string, segments: seq<string>, allowRealm: bool)
    requires segments != [] && Concrete(segments)
    ensures IsSelectorRouteShape(scheme + "://" + Join(segments), scheme, |segments|, allowRealm, false)
  {
    forall i | 0 <= i < |segments|
      ensures WellFormedPart(segments[i]) && '/' !in segments[i] && segments[i] != STAR && segments[i] != DOUBLE_STAR
    {
      ConcreteIsLiteral(segments[i]);
    }
    DefaultGrammarExactly(scheme, segments, |segments|, allowRealm);
    hide IsSelectorRouteShape, Join, WellFormedPart;
  }

  lemma WholeRealmsAreSelectors(scheme: string, realm: string, segmentCount: nat, allowRealm: bool)
    requires Concrete([realm])
    ensures IsSelectorRouteShape(scheme + "://" + Join([realm, DOUBLE_STAR]), scheme, segmentCount, allowRealm, false)
  {
    assert [realm][0] == realm;
    ConcreteIsLiteral(realm);
    DefaultGrammarExactly(scheme, [realm, DOUBLE_STAR], segmentCount, allowRealm);
    hide IsSelectorRouteShape, Join;
  }

  /** Where realm wildcards are not allowed, the default grammar keeps them out, except that
      it lets the realm be a double star when exactly one more follows. */
  lemma RealmWildcardSlipsThroughExactly(route: string, scheme: string, segmentCount: nat)
    requires RouteParts(route, scheme, false).Some?
    ensures var parts := RouteParts(route, scheme, false).value;
      |parts| >= 1 &&
      (IsSelectorRouteShape(route, scheme, segmentCount, false, false) && Wild(parts[0])
       <==> parts == [DOUBLE_STAR, DOUBLE_STAR])
  {
    PartsAreWellFormed(route, scheme, false);
    var parts := RouteParts(route, scheme, false).value;
    assert parts[0] in parts;
  }

  lemma DoubleRealmStarIsAccepted(segmentCount: nat)
    ensures IsSelectorRouteShape("kv://**/**", "kv", segmentCount, false, false)
  {
    var prefix := "kv" + "://";
    assert prefix == "kv://" && "kv://**/**"[5..] == "**/**";
    var parts := [DOUBLE_STAR, DOUBLE_STAR];
    assert Join(parts[1..]) == DOUBLE_STAR && Join(parts) == "**" + "/" + "**" == "**/**";
    JoinSplits(parts);
  }

  // ----- Worker patterns -----

  /** `text[6:]`, which drops "rpc://". */
  function AfterScheme(text: string): string {
    if |text| <= 6 then "" else text[6..]
  }

  /** `_route(pattern, patterns=True)` accepts. */
  predicate IsWorkerPattern(pattern: string) {
    RouteParts(pattern, "rpc", false).Some?
  }

  /** The parts up to and including the first double star. */
  function Cut(parts: Parts): Parts {
    if parts == [] then []
    else if parts[0] == DOUBLE_STAR then [DOUBLE_STAR]
    else [parts[0]] + Cut(parts[1..])
  }

  /** Segment by segment, until a double star accepts whatever is left. */
  predicate MatchesParts(segments: seq<string>, parts: Parts) {
    if parts == [] then segments == []
    else if parts[0] == DOUBLE_STAR then true
    else segments != [] && (parts[0] == STAR || parts[0] == segments[0]) && MatchesParts(segments[1..], parts[1..])
  }

  /** `_matches`. */
  method Matches(route: string, pattern: string) returns (matched: bool)
    ensures matched <==> Glob(Cut(Split(AfterScheme(pattern))), Split(AfterScheme(route)))
  {
    var segments, parts := Split(AfterScheme(route)), Split(AfterScheme(pattern));
    MatchingIsGlobOfTheCut(segments, parts);
    var i := 0;
    while i < |parts|
      invariant i <= |parts| && i <= |segments|
      invariant MatchesParts(segments, parts) <==> MatchesParts(segments[i..], parts[i..])
    {
      assert parts[i..][1..] == parts[i + 1..];
      if parts[i] == DOUBLE_STAR {
        return true;
      }
      if i >= |segments| || (parts[i] != STAR && parts[i] != segments[i]) {
        return false;
      }
      assert segments[i..][1..] == segments[i + 1..];
      i := i + 1;
    }
    return |segments| == |parts|;
  }

  lemma {:induction false} DoubleStarMatchesAll(segments: seq<string>)
    ensures Glob([DOUBLE_STAR], segments)
  {
    assert [DOUBLE_STAR][1..] == [];
    if segments != [] {
      DoubleStarMatchesAll(segments[1..]);
    }
  }

  /** `_matches` decides the glob meaning of the pattern cut after its first double star. */
  lemma {:induction false} MatchingIsGlobOfTheCut(segments: seq<string>, parts: Parts)
    ensures MatchesParts(segments, parts) <==> Glob(Cut(parts), segments)
    decreases |parts|
  {
    if parts != [] {
      if parts[0] == DOUBLE_STAR {
        DoubleStarMatchesAll(segments);
      } else {
        assert Cut(parts)[1..] == Cut(parts[1..]);
        if segments != [] {
          MatchingIsGlobOfTheCut(segments[1..], parts[1..]);
        }
      }
    }
  }

  /** Nothing but double stars follows the first double star. */
  predicate StarsTrail(parts: Parts) {
    forall i, j :: 0 <= i < j < |parts| && parts[i] == DOUBLE_STAR ==> parts[j] == DOUBLE_STAR
  }

  lemma {:induction false} OnlyDoubleStarsMatchAll(parts: Parts, segments: seq<string>)
    requires parts != [] && forall i :: 0 <= i < |parts| ==> parts[i] == DOUBLE_STAR
    ensures Glob(parts, segments)
    decreases |parts| + |segments|
  {
    if segments != [] {
      OnlyDoubleStarsMatchAll(parts, segments[1..]);
    } else if |parts| > 1 {
      OnlyDoubleStarsMatchAll(parts[1..], segments);
    } else {
      assert parts[1..] == [];
    }
  }

  lemma {:induction false} TrailingStarsAgree(segments: seq<string>, parts: Parts)
    requires StarsTrail(parts)
    ensures MatchesParts(segments, parts) <==> Glob(parts, segments)
    decreases |parts|
  {
    if parts != [] {
      if parts[0] == DOUBLE_STAR {
        OnlyDoubleStarsMatchAll(parts, segments);
      } else if segments != [] {
        assert forall i :: 0 <= i < |parts[1..]| ==> parts[1..][i] == parts[i + 1];
        TrailingStarsAgree(segments[1..], parts[1..]);
      }
    }
  }

  /** The segments that spell the parts before the first double star. */
  function Stem(parts: Parts): seq<string> {
    if parts == [] || parts[0] == DOUBLE_STAR then []
    else [if parts[0] == STAR then "a" else parts[0]] + Stem(parts[1..])
  }

  lemma {:induction false} StemDisagrees(parts: Parts)
    requires WellFormed(parts) && !StarsTrail(parts)
    ensures Concrete(Stem(parts)) && MatchesParts(Stem(parts), parts) && Fixed(parts) > |Stem(parts)|
    decreases |parts|
  {
    if parts[0] == DOUBLE_STAR {
      SomethingFixed(parts);
    } else {
      var rest := parts[1..];
      assert forall i :: 0 <= i < |rest| ==> rest[i] == parts[i + 1];
      StemDisagrees(rest);
      assert Stem(parts)[1..] == Stem(rest);
    }
  }

  lemma SomethingFixed(parts: Parts)
    requires !StarsTrail(parts)
    ensures Fixed(parts) > 0
  {
    var i, j :| 0 <= i < j < |parts| && parts[i] == DOUBLE_STAR && parts[j] != DOUBLE_STAR;
    FixedSplits(parts[..j], parts[j..]);
    assert parts == parts[..j] + parts[j..] && parts[j..][0] == parts[j];
  }

  lemma {:induction false} FixedSplits(a: Parts, b: Parts)
    ensures Fixed(a + b) == Fixed(a) + Fixed(b)
    decreases |a|
  {
    if a == [] {
      assert a + b == b;
    } else {
      FixedSplits(a[1..], b);
      assert (a + b)[1..] == a[1..] + b;
    }
  }

  /** `_matches` decides the glob meaning of a well-formed pattern on every concrete route
      exactly if nothing but double stars follows the pattern's first double star. */
  lemma MatchesDecidesGlobExactly(parts: Parts)
    requires WellFormed(parts)
    ensures StarsTrail(parts)
      <==> forall segments :: Concrete(segments) ==> (MatchesParts(segments, parts) <==> Glob(parts, segments))
  {
    if StarsTrail(parts) {
      forall segments | Concrete(segments)
        ensures MatchesParts(segments, parts) <==> Glob(parts, segments)
      {
        TrailingStarsAgree(segments, parts);
      }
    } else {
      StemDisagrees(parts);
      if Glob(parts, Stem(parts)) {
        GlobNeedsFixed(parts, Stem(parts));
      }
    }
  }

  /** A pattern that `_route` accepts and `_matches` misreads: the check looks only at the
      last segment, so a literal may stand between two double stars. */
  lemma WorkerPatternIsMisread()
    ensures IsWorkerPattern("rpc://**/b/**")
    ensures MatchesParts(["x"], Split(AfterScheme("rpc://**/b/**")))
    ensures !Glob(Split(AfterScheme("rpc://**/b/**")), ["x"])
  {
    var parts := [DOUBLE_STAR, "b", DOUBLE_STAR];
    assert "rpc" + "://" == "rpc://" && "rpc://**/b/**"[6..] == "**/b/**";
    assert parts[1..] == ["b", DOUBLE_STAR] && parts[1..][1..] == [DOUBLE_STAR];
    assert Join(parts[1..]) == "b" + "/" + "**" == "b/**";
    assert Join(parts) == "**" + "/" + "b/**" == "**/b/**";
    JoinSplits(parts);
    assert "b"[0] != "x"[0] && parts[1] == "b" && "b" != STAR by { assert STAR[0] == '*'; }
    assert ["x"][1..] == [] && !Glob(parts[1..], ["x"]) && !Glob(parts[1..], []) && !Glob(parts, []);
  }
}
