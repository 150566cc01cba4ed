/** Which components an environment deploys, and which service its route points at. */
module Discovery {
  import opened Model
  import opened Text

  // ---------------------------------------------------------------- components

  function LegacyComponents(spec: Spec): seq<Component> {
    match spec.helm
    case Some(h) => [Component(h.chart.name, h.chart, h.valuesParse, true)]
    case None => []
  }

  predicate ReadsTemplate(spec: Spec) {
    spec.components == [] && spec.templateRef.Some?
  }

  /** Components, then the template, then the legacy Helm field. `template` is the outcome of reading it. */
  function Resolve(spec: Spec, template: Option<seq<Component>>): seq<Component> {
    if spec.components != [] then spec.components
    else if spec.templateRef.Some? && template.Some? then template.value
    else LegacyComponents(spec)
  }

  function FirstPrimary(cs: seq<Component>): Option<string> {
    if cs == [] then None
    else if cs[0].primary then Some(cs[0].name)
    else FirstPrimary(cs[1..])
  }

  /** The template is only read when no component of the spec is primary. */
  predicate PrimaryReadsTemplate(spec: Spec) {
    FirstPrimary(spec.components).None? && spec.templateRef.Some?
  }

  function PrimaryName(spec: Spec, template: Option<seq<Component>>): string {
    var own := FirstPrimary(spec.components);
    var fromTemplate := if spec.templateRef.Some? && template.Some? then FirstPrimary(template.value) else None;
    if own.Some? then own.value
    else if fromTemplate.Some? then fromTemplate.value
    else if spec.helm.Some? then spec.helm.value.chart.name
    else ""
  }

  // ---------------------------------------------------------------- services

  predicate Eligible(s: Service, port: int) {
    !s.headless && !s.externalName && !Contains(ToLower(s.name), "metrics") && port in s.ports
  }

  function Matching(services: seq<Service>, port: int): seq<Service> {
    if services == [] then []
    else
      var rest := Matching(services[..|services| - 1], port);
      if Eligible(services[|services| - 1], port) then rest + [services[|services| - 1]] else rest
  }

  /** Insertion from the right, as an insertion sort moves an element left past every longer name. */
  function InsertByLength(sorted: seq<Service>, s: Service): seq<Service> {
    if sorted == [] || |sorted[|sorted| - 1].name| <= |s.name| then sorted + [s]
    else InsertByLength(sorted[..|sorted| - 1], s) + [sorted[|sorted| - 1]]
  }

  function SortByLength(services: seq<Service>): (r: seq<Service>)
    ensures |r| == |services|
  {
    if services == [] then []
    else
      InsertLength(SortByLength(services[..|services| - 1]), services[|services| - 1]);
      InsertByLength(SortByLength(services[..|services| - 1]), services[|services| - 1])
  }

  lemma InsertLength(sorted: seq<Service>, s: Service)
    ensures |InsertByLength(sorted, s)| == |sorted| + 1
  {}

  predicate NamedAfter(s: Service, component: string) {
    component != "" && Contains(ToLower(s.name), ToLower(component))
  }

  function FirstNamedAfter(services: seq<Service>, component: string): Option<string> {
    if services == [] then None
    else if NamedAfter(services[0], component) then Some(services[0].name)
    else FirstNamedAfter(services[1..], component)
  }

  /** The choice among at least two matching services. */
  function Choose(matches: seq<Service>, component: string): string
    requires matches != []
  {
    var sorted := SortByLength(matches);
    match FirstNamedAfter(sorted, component)
    case Some(name) => name
    case None => sorted[0].name
  }

  /** The backend found for a port, given the primary component's name. */
  function Discover(services: seq<Service>, port: int, component: string): Option<string> {
    var matches := Matching(services, port);
    if matches == [] then None
    else if |matches| == 1 then Some(matches[0].name)
    else Some(Choose(matches, component))
  }

  // ---------------------------------------------------------------- basic facts

  lemma {:induction false} MatchingEligible(services: seq<Service>, port: int)
    ensures forall s :: s in Matching(services, port) <==> s in services && Eligible(s, port)
  {
    if services != [] {
      MatchingEligible(services[..|services| - 1], port);
      assert services == services[..|services| - 1] + [services[|services| - 1]];
    }
  }

  lemma {:induction false} InsertMembers(sorted: seq<Service>, s: Service)
    ensures multiset(InsertByLength(sorted, s)) == multiset(sorted) + multiset{s}
  {
    if sorted != [] && |sorted[|sorted| - 1].name| > |s.name| {
      InsertMembers(sorted[..|sorted| - 1], s);
      assert sorted == sorted[..|sorted| - 1] + [sorted[|sorted| - 1]];
    }
  }

  lemma {:induction false} SortMembers(services: seq<Service>)
    ensures multiset(SortByLength(services)) == multiset(services)
  {
    if services != [] {
      SortMembers(services[..|services| - 1]);
      InsertMembers(SortByLength(services[..|services| - 1]), services[|services| - 1]);
      assert services == services[..|services| - 1] + [services[|services| - 1]];
    }
  }

  lemma {:induction false} FirstNamedAfterFound(services: seq<Service>, component: string)
    ensures var r := FirstNamedAfter(services, component);
      match r
      case None => forall s :: s in services ==> !NamedAfter(s, component)
      case Some(name) => exists i :: 0 <= i < |services| && services[i].name == name && NamedAfter(services[i], component)
                           && (forall j :: 0 <= j < i ==> !NamedAfter(services[j], component))
  {
    if services != [] && !NamedAfter(services[0], component) {
      FirstNamedAfterFound(services[1..], component);
      match FirstNamedAfter(services[1..], component)
      case None =>
      case Some(name) =>
        var i :| 0 <= i < |services[1..]| && services[1..][i].name == name && NamedAfter(services[1..][i], component)
                 && (forall j :: 0 <= j < i ==> !NamedAfter(services[1..][j], component));
        assert services[i + 1].name == name;
        forall j | 0 <= j < i + 1 ensures !NamedAfter(services[j], component) {
          if j > 0 { assert services[j] == services[1..][j - 1]; }
        }
    }
  }

  lemma ChosenAmong(matches: seq<Service>, component: string)
    requires matches != []
    ensures exists s :: s in matches && s.name == Choose(matches, component)
  {
    var sorted := SortByLength(matches);
    SortMembers(matches);
    FirstNamedAfterFound(sorted, component);
    forall s | s in sorted ensures s in matches { assert s in multiset(sorted); }
    assert sorted[0] in sorted;
  }

  // ---------------------------------------------------------------- what discovery promises

  predicate Shortest(services: seq<Service>, s: Service) {
    forall u :: u in services ==> |s.name| <= |u.name|
  }

  /** Of the shortest names after the component, or of the shortest names if none is after it. */
  predicate Preferred(matches: seq<Service>, component: string, s: Service) {
    && s in matches
    && if exists u :: u in matches && NamedAfter(u, component)
       then NamedAfter(s, component) && forall u :: u in matches && NamedAfter(u, component) ==> |s.name| <= |u.name|
       else Shortest(matches, s)
  }

  predicate SortedByLength(services: seq<Service>) {
    forall i, j :: 0 <= i < j < |services| ==> |services[i].name| <= |services[j].name|
  }

  lemma {:induction false} InsertSorted(sorted: seq<Service>, s: Service)
    requires SortedByLength(sorted)
    ensures SortedByLength(InsertByLength(sorted, s))
  {
    if sorted != [] && |sorted[|sorted| - 1].name| > |s.name| {
      var rest, last := sorted[..|sorted| - 1], sorted[|sorted| - 1];
      InsertSorted(rest, s);
      InsertMembers(rest, s);
      var r := InsertByLength(rest, s);
      forall i | 0 <= i < |r| ensures |r[i].name| <= |last.name| {
        assert r[i] in multiset(r);
        assert r[i] in rest || r[i] == s;
      }
    }
  }

  lemma {:induction false} SortSorts(services: seq<Service>)
    ensures SortedByLength(SortByLength(services))
  {
    if services != [] {
      SortSorts(services[..|services| - 1]);
      InsertSorted(SortByLength(services[..|services| - 1]), services[|services| - 1]);
    }
  }

  /** Whatever order a sort by length leaves names of equal length in, the first match is preferred. */
  lemma AnySortPrefers(matches: seq<Service>, sorted: seq<Service>, component: string)
    requires matches != [] && multiset(sorted) == multiset(matches) && SortedByLength(sorted)
    ensures var name := if FirstNamedAfter(sorted, component).Some? then FirstNamedAfter(sorted, component).value else sorted[0].name;
      exists s :: Preferred(matches, component, s) && s.name == name
  {
    hide NamedAfter, SortedByLength, Preferred;
    SameMembers(sorted, matches);
    FirstNamedAfterFound(sorted, component);
    match FirstNamedAfter(sorted, component)
    case None => FirstPrefers(matches, sorted, component);
    case Some(name) =>
      var i :| 0 <= i < |sorted| && sorted[i].name == name && NamedAfter(sorted[i], component) && (forall j :: 0 <= j < i ==> !NamedAfter(sorted[j], component));
      NamedPrefers(matches, sorted, component, i);
  }

  lemma FirstPrefers(matches: seq<Service>, sorted: seq<Service>, component: string)
    requires |sorted| > 0 && SortedByLength(sorted) && forall s :: s in sorted <==> s in matches
    requires forall s :: s in sorted ==> !NamedAfter(s, component)
    ensures Preferred(matches, component, sorted[0])
  {
    hide NamedAfter;
  }

  lemma NamedPrefers(matches: seq<Service>, sorted: seq<Service>, component: string, i: nat)
    requires i < |sorted| && SortedByLength(sorted) && forall s :: s in sorted <==> s in matches
    requires NamedAfter(sorted[i], component) && forall j :: 0 <= j < i ==> !NamedAfter(sorted[j], component)
    ensures Preferred(matches, component, sorted[i])
  {
    hide NamedAfter;
    forall u | u in matches && NamedAfter(u, component) ensures |sorted[i].name| <= |u.name| {
      var k :| 0 <= k < |sorted| && sorted[k] == u;
    }
  }

  lemma SameMembers(a: seq<Service>, b: seq<Service>)
    requires multiset(a) == multiset(b)
    ensures |a| == |b| && forall s :: s in a <==> s in b
  {
    assert |a| == |multiset(a)| == |b|;
    forall s ensures s in a <==> s in b { assert s in multiset(a) <==> s in a; assert s in multiset(b) <==> s in b; }
  }

  /** Discovery fails exactly when no listed service is eligible; otherwise it returns the name of an
      eligible service that is shortest among those named after the component, if any are, and shortest
      of all otherwise. */
  lemma {:induction false} DiscoverRefines(services: seq<Service>, port: int, component: string)
    ensures var r := Discover(services, port, component); var matches := Matching(services, port);
      && (r.None? <==> forall s :: s in services ==> !Eligible(s, port))
      && (r.Some? ==> exists s :: s in services && Eligible(s, port) && Preferred(matches, component, s) && s.name == r.value)
  {
    hide NamedAfter, Eligible, Matching, Choose, Preferred;
    var matches := Matching(services, port);
    MatchingEligible(services, port);
    if matches != [] {
      assert matches[0] in matches;
      if |matches| == 1 { OnlyOne(matches, component); } else { ChoosePrefers(matches, component); }
      assert exists s :: Preferred(matches, component, s) && s.name == Discover(services, port, component).value;
      var s :| Preferred(matches, component, s) && s.name == Discover(services, port, component).value;
      PreferredMember(matches, component, s);
    }
  }

  lemma PreferredMember(matches: seq<Service>, component: string, s: Service)
    requires Preferred(matches, component, s)
    ensures s in matches
  {
  }

  lemma OnlyOne(matches: seq<Service>, component: string)
    requires |matches| == 1
    ensures Preferred(matches, component, matches[0])
  {
    hide NamedAfter;
  }

  lemma ChoosePrefers(matches: seq<Service>, component: string)
    requires matches != []
    ensures exists s :: Preferred(matches, component, s) && s.name == Choose(matches, component)
  {
    hide Preferred, SortByLength, FirstNamedAfter;
    SortMembers(matches);
    SortSorts(matches);
    AnySortPrefers(matches, SortByLength(matches), component);
  }

  predicate DistinctLengths(matches: seq<Service>) {
    forall s, u :: s in matches && u in matches && |s.name| == |u.name| ==> s.name == u.name
  }

  lemma PreferredUnique(matches: seq<Service>, matches': seq<Service>, component: string, s: Service, u: Service)
    requires DistinctLengths(matches) && forall v :: v in matches <==> v in matches'
    requires Preferred(matches, component, s) && Preferred(matches', component, u)
    ensures s.name == u.name
  {
    hide NamedAfter;
    if exists v :: v in matches && NamedAfter(v, component) {
      var v :| v in matches && NamedAfter(v, component);
      assert v in matches';
    }
  }

  /** With distinct lengths the answer does not depend on the order of the listing. */
  lemma {:induction false} DiscoverPermuted(services: seq<Service>, services': seq<Service>, port: int, component: string)
    requires multiset(services) == multiset(services') && DistinctLengths(Matching(services, port))
    ensures Discover(services, port, component) == Discover(services', port, component)
  {
    hide NamedAfter, Eligible, Matching, Discover, Preferred;
    var matches, matches' := Matching(services, port), Matching(services', port);
    MatchingEligible(services, port);
    MatchingEligible(services', port);
    SameMembers(services, services');
    DiscoverRefines(services, port, component);
    DiscoverRefines(services', port, component);
    if Discover(services, port, component).Some? {
      var s :| s in services && Eligible(s, port) && Preferred(matches, component, s) && s.name == Discover(services, port, component).value;
      var u :| u in services' && Eligible(u, port) && Preferred(matches', component, u) && u.name == Discover(services', port, component).value;
      PreferredUnique(matches, matches', component, s, u);
    }
  }

  // ---------------------------------------------------------------- primary component

  lemma {:induction false} FirstPrimaryFound(cs: seq<Component>)
    ensures match FirstPrimary(cs)
      case None => forall c :: c in cs ==> !c.primary
      case Some(name) => exists i :: 0 <= i < |cs| && cs[i].primary && cs[i].name == name && forall j :: 0 <= j < i ==> !cs[j].primary
  {
    if cs != [] && !cs[0].primary {
      FirstPrimaryFound(cs[1..]);
      match FirstPrimary(cs[1..])
      case None =>
      case Some(name) =>
        var i :| 0 <= i < |cs[1..]| && cs[1..][i].primary && cs[1..][i].name == name && forall j :: 0 <= j < i ==> !cs[1..][j].primary;
        assert cs[i + 1].primary && cs[i + 1].name == name;
        forall j | 0 <= j < i + 1 ensures !cs[j].primary { if j > 0 { assert cs[j] == cs[1..][j - 1]; } }
    }
  }

  /** The name used by the discovery heuristic is that of the first primary component of the very list the
      deployment resolves to, for every spec and every outcome of reading the template. */
  lemma PrimaryAgreesWithResolution(spec: Spec, template: Option<seq<Component>>, i: nat)
    requires var cs := Resolve(spec, template); i < |cs| && cs[i].primary && forall j :: 0 <= j < i ==> !cs[j].primary
    ensures PrimaryName(spec, template) == Resolve(spec, template)[i].name
  {
    var cs := Resolve(spec, template);
    FirstPrimaryFound(cs);
    assert cs[i] in cs;
    if FirstPrimary(cs).Some? {
      var k :| 0 <= k < |cs| && cs[k].primary && cs[k].name == FirstPrimary(cs).value && forall j :: 0 <= j < k ==> !cs[j].primary;
      assert k == i;
    }
  }

  // ---------------------------------------------------------------- in so many words

  /** The components of the specification; without any, those of a template that could be read, even if it
      has none; in every other case the chart of the legacy field as the one, primary, component. */
  lemma ResolveMeans(spec: Spec, template: Option<seq<Component>>)
    ensures var cs := Resolve(spec, template);
      && (spec.components != [] ==> cs == spec.components)
      && (spec.components == [] && spec.templateRef.Some? && template.Some? ==> cs == template.value)
      && (spec.components == [] && (spec.templateRef.None? || template.None?) ==>
            if spec.helm.Some? then cs == [Component(spec.helm.value.chart.name, spec.helm.value.chart, spec.helm.value.valuesParse, true)] else cs == [])
  {
  }

  /** The place of the first primary component; the length of the list if there is none. */
  predicate PrimaryAt(cs: seq<Component>, i: nat) {
    i <= |cs| && (i < |cs| ==> cs[i].primary) && forall j :: 0 <= j < i ==> !cs[j].primary
  }

  lemma FirstPrimaryAt(cs: seq<Component>, i: nat)
    requires PrimaryAt(cs, i)
    ensures FirstPrimary(cs) == if i < |cs| then Some(cs[i].name) else None
  {
    FirstPrimaryFound(cs);
    if i < |cs| { assert cs[i] in cs; }
  }

  /** The heuristic's name: of the first primary component of the specification, else of the template's if
      it could be read, else that of the legacy chart, else none. */
  lemma PrimaryNameMeans(spec: Spec, template: Option<seq<Component>>, i: nat, k: nat)
    requires PrimaryAt(spec.components, i) && PrimaryAt(if spec.templateRef.Some? && template.Some? then template.value else [], k)
    ensures PrimaryName(spec, template) ==
      if i < |spec.components| then spec.components[i].name
      else if spec.templateRef.Some? && template.Some? && k < |template.value| then template.value[k].name
      else if spec.helm.Some? then spec.helm.value.chart.name
      else ""
  {
    FirstPrimaryAt(spec.components, i);
    FirstPrimaryAt(if spec.templateRef.Some? && template.Some? then template.value else [], k);
    hide FirstPrimary;
  }

  /** The same letter, in either case. */
  predicate SameLetter(c: char, d: char) {
    c == d || (IsUpper(c) && IsLower(d) && c as int - 'A' as int == d as int - 'a' as int)
           || (IsLower(c) && IsUpper(d) && c as int - 'a' as int == d as int - 'A' as int)
  }

  predicate At(sub: string, s: string, i: nat) {
    i + |sub| <= |s| && forall j :: 0 <= j < |sub| ==> SameLetter(s[i + j], sub[j])
  }

  /** Part of a name, whatever the case. */
  predicate Within(sub: string, s: string) { exists i: nat :: i <= |s| && At(sub, s, i) }

  lemma LowerMeans(c: char, d: char)
    ensures Lower(c) == Lower(d) <==> SameLetter(c, d)
  {
  }

  lemma ContainsMeans(s: string, sub: string)
    ensures Contains(ToLower(s), ToLower(sub)) <==> Within(sub, s)
  {
    hide ToLower, Lower, SameLetter;
    var t, u := ToLower(s), ToLower(sub);
    forall c, d ensures Lower(c) == Lower(d) <==> SameLetter(c, d) { LowerMeans(c, d); }
    if Contains(t, u) {
      var i :| 0 <= i <= |t| && u <= t[i..];
      forall j | 0 <= j < |sub| ensures SameLetter(s[i + j], sub[j]) { assert t[i..][j] == u[j]; }
      assert At(sub, s, i);
    }
    if i: nat :| i <= |s| && At(sub, s, i) {
      assert u <= t[i..] by { forall j | 0 <= j < |u| ensures t[i..][j] == u[j] { assert SameLetter(s[i + j], sub[j]); } }
    }
  }

  /** A service that can be a backend: it has a cluster address of its own, is no alias, is not there for
      metrics, and exposes the port. */
  predicate Fits(s: Service, port: int) {
    !s.headless && !s.externalName && !Within("metrics", s.name) && port in s.ports
  }

  predicate GoesBy(s: Service, component: string) { component != "" && Within(component, s.name) }

  lemma EligibleMeans(s: Service, port: int)
    ensures Eligible(s, port) <==> Fits(s, port)
  {
    assert ToLower("metrics") == "metrics";
    ContainsMeans(s.name, "metrics");
    hide ToLower, Contains;
  }

  lemma NamedMeans(s: Service, component: string)
    ensures NamedAfter(s, component) <==> GoesBy(s, component)
  {
    ContainsMeans(s.name, component);
  }

  /** Of shortest name among those that fit - among those that go by the component's name if any do. */
  predicate BestFit(services: seq<Service>, port: int, component: string, s: Service) {
    && s in services && Fits(s, port)
    && if exists u :: u in services && Fits(u, port) && GoesBy(u, component)
       then GoesBy(s, component) && forall u :: u in services && Fits(u, port) && GoesBy(u, component) ==> |s.name| <= |u.name|
       else forall u :: u in services && Fits(u, port) ==> |s.name| <= |u.name|
  }

  /** A service is found exactly if one fits, and then one that fits best. */
  lemma {:induction false} DiscoverMeans(services: seq<Service>, port: int, component: string)
    ensures var r := Discover(services, port, component);
      && (r.None? <==> forall s :: s in services ==> !Fits(s, port))
      && (r.Some? ==> exists s :: BestFit(services, port, component, s) && s.name == r.value)
  {
    hide Eligible, NamedAfter, Fits, GoesBy, Matching, Discover;
    DiscoverRefines(services, port, component);
    MatchingEligible(services, port);
    forall s ensures Eligible(s, port) <==> Fits(s, port) { EligibleMeans(s, port); }
    forall s ensures NamedAfter(s, component) <==> GoesBy(s, component) { NamedMeans(s, component); }
    if Discover(services, port, component).Some? {
      var s :| s in services && Eligible(s, port) && Preferred(Matching(services, port), component, s) && s.name == Discover(services, port, component).value;
      if exists u :: u in services && Fits(u, port) && GoesBy(u, component) {
        var u :| u in services && Fits(u, port) && GoesBy(u, component);
        assert u in Matching(services, port) && NamedAfter(u, component);
      }
      assert BestFit(services, port, component, s);
    }
  }
}
