/** The loops of service discovery: filter the listing, sort in place, take the first that fits. */
module ServiceSearch {
  import opened Model
  import opened Text
  import opened Discovery

  lemma {:induction false} FirstPrimaryPrefix(cs: seq<Component>, i: nat)
    requires i <= |cs| && forall j :: 0 <= j < i ==> !cs[j].primary
    ensures FirstPrimary(cs) == FirstPrimary(cs[i..])
    ensures i < |cs| && cs[i].primary ==> FirstPrimary(cs) == Some(cs[i].name)
    decreases i
  {
    if i > 0 {
      FirstPrimaryPrefix(cs[1..], i - 1);
      assert cs[1..][i - 1..] == cs[i..];
    }
  }

  /** The first primary component of a list. */
  method FindPrimary(cs: seq<Component>) returns (name: Option<string>)
    ensures name == FirstPrimary(cs)
  {
    for i := 0 to |cs|
      invariant forall j :: 0 <= j < i ==> !cs[j].primary
    {
      if cs[i].primary {
        FirstPrimaryPrefix(cs, i);
        return Some(cs[i].name);
      }
    }
    FirstPrimaryPrefix(cs, |cs|);
    name := None;
  }

  /** The listed services that qualify, in list order. */
  method FilterServices(services: seq<Service>, port: int) returns (matches: seq<Service>)
    ensures matches == Matching(services, port)
  {
    matches := [];
    for i := 0 to |services|
      invariant matches == Matching(services[..i], port)
    {
      assert services[..i + 1][..i] == services[..i];
      var svc := services[i];
      if svc.headless || svc.externalName || Contains(ToLower(svc.name), "metrics") { continue; }
      var exposed := false;
      for k := 0 to |svc.ports|
        invariant exposed <==> port in svc.ports[..k]
      {
        if svc.ports[k] == port { exposed := true; }
      }
      assert svc.ports[..|svc.ports|] == svc.ports;
      if exposed { matches := matches + [svc]; }
    }
    assert services[..|services|] == services;
  }

  /** One round of the sort: the element at i moves left past every longer name. */
  method MoveLeft(a: array<Service>, i: nat)
    requires i < a.Length
    modifies a
    ensures a[..][..i + 1] == InsertByLength(old(a[..i]), old(a[i])) && a[..][i + 1..] == old(a[..])[i + 1..]
  {
    hide InsertByLength;
    var j := i;
    ghost var sorted, s := a[..i], a[i];
    assert sorted[..i] == sorted && InsertByLength(sorted, s) + sorted[i..] == InsertByLength(sorted, s);
    while j > 0 && |a[j].name| < |a[j - 1].name|
      invariant 0 <= j <= i && a[j] == s
      invariant forall k :: 0 <= k < j ==> a[k] == sorted[k]
      invariant forall k :: j < k <= i ==> a[k] == sorted[k - 1]
      invariant forall k :: i < k < a.Length ==> a[k] == old(a[k])
      invariant InsertByLength(sorted, s) == InsertByLength(sorted[..j], s) + sorted[j..]
    {
      InsertStep(sorted, s, j);
      a[j], a[j - 1] := a[j - 1], a[j];
      j := j - 1;
    }
    InsertStops(sorted[..j], s);
    Assemble(a[..], old(a[..]), sorted, s, j);
  }

  lemma Assemble(now: seq<Service>, was: seq<Service>, sorted: seq<Service>, s: Service, j: nat)
    requires |now| == |was| > |sorted| >= j && now[j] == s
    requires forall k :: 0 <= k < j ==> now[k] == sorted[k]
    requires forall k :: j < k <= |sorted| ==> now[k] == sorted[k - 1]
    requires forall k :: |sorted| < k < |now| ==> now[k] == was[k]
    ensures now[..|sorted| + 1] == sorted[..j] + [s] + sorted[j..] && now[|sorted| + 1..] == was[|sorted| + 1..]
  {
  }

  lemma InsertStep(sorted: seq<Service>, s: Service, j: nat)
    requires 0 < j <= |sorted|
    ensures |s.name| < |sorted[j - 1].name| ==>
      InsertByLength(sorted[..j], s) + sorted[j..] == InsertByLength(sorted[..j - 1], s) + sorted[j - 1..]
  {
    assert sorted[..j][..j - 1] == sorted[..j - 1] && sorted[..j][j - 1] == sorted[j - 1];
    if |s.name| < |sorted[j - 1].name| {
      assert InsertByLength(sorted[..j], s) == InsertByLength(sorted[..j - 1], s) + [sorted[j - 1]];
      assert [sorted[j - 1]] + sorted[j..] == sorted[j - 1..];
    }
  }

  lemma InsertStops(sorted: seq<Service>, s: Service)
    requires sorted == [] || |sorted[|sorted| - 1].name| <= |s.name|
    ensures InsertByLength(sorted, s) == sorted + [s]
  {
  }

  /** Sort by the length of the name, in place; names of equal length keep their order. */
  method SortByNameLength(a: array<Service>)
    modifies a
    ensures a[..] == SortByLength(old(a[..]))
  {
    ghost var was := a[..];
    for i := 0 to a.Length
      invariant a[..i] == SortByLength(was[..i]) && a[i..] == was[i..]
    {
      assert was[..i + 1][..i] == was[..i] && was[..i + 1][i] == was[i] == a[i];
      ghost var before := a[..];
      MoveLeft(a, i);
      assert a[..i + 1] == a[..][..i + 1] && a[i + 1..] == a[..][i + 1..] == before[i + 1..] == was[i + 1..];
    }
    assert was[..a.Length] == was && a[..a.Length] == a[..];
  }

  /** The name of the first service, in order, that is named after the component. */
  method FindNamedAfter(a: array<Service>, component: string) returns (name: Option<string>)
    ensures name == FirstNamedAfter(a[..], component)
  {
    if component != "" {
      for i := 0 to a.Length
        invariant forall j :: 0 <= j < i ==> !NamedAfter(a[j], component)
      {
        if Contains(ToLower(a[i].name), ToLower(component)) {
          FirstNamedPrefix(a[..], component, i);
          return Some(a[i].name);
        }
      }
    }
    FirstNamedPrefix(a[..], component, a.Length);
    name := None;
  }

  lemma {:induction false} FirstNamedPrefix(services: seq<Service>, component: string, i: nat)
    requires i <= |services| && forall j :: 0 <= j < i ==> !NamedAfter(services[j], component)
    ensures FirstNamedAfter(services, component) == FirstNamedAfter(services[i..], component)
    ensures i < |services| && NamedAfter(services[i], component) ==> FirstNamedAfter(services, component) == Some(services[i].name)
    decreases i
  {
    if i > 0 {
      FirstNamedPrefix(services[1..], component, i - 1);
      assert services[1..][i - 1..] == services[i..];
    }
  }

  /** Choosing among several services that expose the port. */
  method ChooseService(matches: seq<Service>, component: string) returns (name: string)
    requires matches != []
    ensures name == Choose(matches, component)
  {
    var a := new Service[|matches|](i requires 0 <= i < |matches| => matches[i]);
    assert a[..] == matches;
    SortByNameLength(a);
    assert a.Length > 0;
    var named := FindNamedAfter(a, component);
    match named
    case Some(n) => name := n;
    case None => name := a[0].name;
  }
}
