/** String handling of the operator: release-name fragments and case-insensitive containment. */
module Text {

  function Lower(c: char): char {
    if 'A' <= c <= 'Z' then (c as int + 32) as char else c
  }

  function ToLower(s: string): (r: string)
    ensures |r| == |s|
    ensures forall i :: 0 <= i < |s| ==> r[i] == Lower(s[i])
  {
    if s == [] then [] else [Lower(s[0])] + ToLower(s[1..])
  }

  predicate Contains(s: string, sub: string) {
    exists i :: 0 <= i <= |s| && sub <= s[i..]
  }

  predicate Alnum(c: char) { 'a' <= c <= 'z' || '0' <= c <= '9' }

  predicate Allowed(c: char) { Alnum(c) || c == '-' }

  /** What one byte of a component name contributes to the release name. */
  function Keep(c: char): string {
    if Allowed(c) then [c]
    else if 'A' <= c <= 'Z' then [Lower(c)]
    else if c == ' ' || c == '_' then "-"
    else []
  }

  function Filter(s: string): (r: string)
    ensures forall c :: c in r ==> Allowed(c)
  {
    if s == [] then [] else Filter(s[..|s| - 1]) + Keep(s[|s| - 1])
  }

  function TrimHead(s: string): string {
    if |s| > 0 && s[0] == '-' then s[1..] else s
  }

  function TrimTail(s: string): string {
    if |s| > 0 && s[|s| - 1] == '-' then s[..|s| - 1] else s
  }

  const MAX_FRAGMENT := 20

  function Truncate(s: string): string {
    if |s| > MAX_FRAGMENT then s[..MAX_FRAGMENT] else s
  }

  function Sanitize(name: string): string {
    var cut := Truncate(TrimTail(TrimHead(Filter(name))));
    if cut == [] then "component" else cut
  }

  // ---------------------------------------------------------------- the loop

  lemma FilterStep(name: string, i: nat)
    requires i < |name|
    ensures Filter(name[..i + 1]) == Filter(name[..i]) + Keep(name[i])
  {
    assert name[..i + 1][..i] == name[..i];
  }

  /** A byte buffer filled one character at a time, its edges trimmed, and cut. */
  method SanitizeName(name: string) returns (r: string)
    ensures r == Sanitize(name)
  {
    var result: string := [];
    for i := 0 to |name|
      invariant result == Filter(name[..i])
    {
      var c := name[i];
      if Alnum(c) || c == '-' {
        result := result + [c];
      } else if 'A' <= c <= 'Z' {
        result := result + [(c as int + 32) as char];
      } else if c == ' ' || c == '_' {
        result := result + ['-'];
      }
      FilterStep(name, i);
    }
    assert name[..|name|] == name;
    if |result| > 0 && result[0] == '-' {
      result := result[1..];
    }
    if |result| > 0 && result[|result| - 1] == '-' {
      result := result[..|result| - 1];
    }
    if |result| > 20 {
      result := result[..20];
    }
    if |result| == 0 {
      return "component";
    }
    return result;
  }

  // ---------------------------------------------------------------- what comes out

  /** A part of a release name: not empty, at most 20 characters, lower-case letters, digits and dashes. */
  predicate Fragment(s: string) {
    1 <= |s| <= MAX_FRAGMENT && forall c :: c in s ==> Allowed(c)
  }

  lemma SanitizeShape(name: string)
    ensures Fragment(Sanitize(name))
  {
    assert forall c :: c in "component" ==> Allowed(c);
  }

  lemma {:induction false} FilterClean(s: string)
    requires forall c :: c in s ==> Allowed(c)
    ensures Filter(s) == s
  {
    if s != [] {
      FilterClean(s[..|s| - 1]);
      assert s == s[..|s| - 1] + [s[|s| - 1]];
      assert Allowed(s[|s| - 1]);
    }
  }

  // ---------------------------------------------------------------- character by character

  predicate IsLower(c: char) { 'a' <= c <= 'z' }
  predicate IsUpper(c: char) { 'A' <= c <= 'Z' }
  predicate IsDigit(c: char) { '0' <= c <= '9' }

  lemma {:induction false} FilterConcat(a: string, b: string)
    ensures Filter(a + b) == Filter(a) + Filter(b)
  {
    hide Keep;
    if b == [] {
      assert a + b == a;
    } else {
      FilterConcat(a, b[..|b| - 1]);
      assert (a + b)[..|a + b| - 1] == a + b[..|b| - 1];
    }
  }

  lemma FilterOne(c: char)
    ensures Filter([c]) == Keep(c)
  {
    assert [c][..0] == "";
    assert Filter("") == "";
  }

  /** An upper-case letter counts as the lower-case one, a space or underscore as a dash, and any character
      that is no letter, digit, space, underscore or dash not at all - wherever in whatever name. */
  lemma SanitizeReads(a: string, c: char, b: string)
    ensures IsUpper(c) ==> Sanitize(a + [c] + b) == Sanitize(a + [(c as int - 'A' as int + 'a' as int) as char] + b)
    ensures c == ' ' || c == '_' ==> Sanitize(a + [c] + b) == Sanitize(a + "-" + b)
    ensures !IsUpper(c) && !IsLower(c) && !IsDigit(c) && c !in " _-" ==> Sanitize(a + [c] + b) == Sanitize(a + b)
  {
    hide Sanitize, Filter;
    if IsUpper(c) {
      var d := (c as int - 'A' as int + 'a' as int) as char;
      FilterOne(d);
      Replaced(a, c, b, [d]);
    } else if c == ' ' || c == '_' {
      FilterOne('-');
      Replaced(a, c, b, "-");
    } else if !IsLower(c) && !IsDigit(c) && c !in " _-" {
      assert Filter("") == "" by { FilterClean(""); }
      Replaced(a, c, b, "");
      assert a + "" + b == a + b;
    }
  }

  lemma Replaced(a: string, c: char, b: string, d: string)
    requires Keep(c) == Filter(d)
    ensures Sanitize(a + [c] + b) == Sanitize(a + d + b)
  {
    hide Filter, Keep, TrimHead, TrimTail, Truncate;
    FilterThree(a, [c], b);
    FilterThree(a, d, b);
    FilterOne(c);
  }

  lemma FilterThree(a: string, m: string, b: string)
    ensures Filter(a + m + b) == Filter(a) + Filter(m) + Filter(b)
  {
    FilterConcat(a + m, b);
    FilterConcat(a, m);
  }

  /** Of a name of lower-case letters, digits and dashes one dash goes at either end and what is beyond the
      twentieth character; if nothing is left it is "component". */
  lemma SanitizeCuts(s: string)
    requires forall i :: 0 <= i < |s| ==> IsLower(s[i]) || IsDigit(s[i]) || s[i] == '-'
    ensures var from := if s != "" && s[0] == '-' then 1 else 0;
      var to := if |s| > from && s[|s| - 1] == '-' then |s| - 1 else |s|;
      Sanitize(s) == if to == from then "component" else if to - from > 20 then s[from..from + 20] else s[from..to]
  {
    assert forall c :: c in s ==> Allowed(c);
    FilterClean(s);
    hide Filter, Allowed;
  }

  /** So a name of letters, digits, spaces, underscores and dashes, with a letter or digit at both ends,
      comes out with its first twenty characters, one for one. */
  lemma SanitizeLowers(name: string)
    requires forall i :: 0 <= i < |name| ==> IsUpper(name[i]) || IsLower(name[i]) || IsDigit(name[i]) || name[i] in " _-"
    requires name != "" && name[0] !in " _-" && name[|name| - 1] !in " _-"
    ensures var r := Sanitize(name);
      && |r| == (if |name| > 20 then 20 else |name|)
      && forall i :: 0 <= i < |r| ==>
           r[i] == if IsUpper(name[i]) then (name[i] as int - 'A' as int + 'a' as int) as char
                   else if name[i] in " _-" then '-' else name[i]
  {
    FilterMaps(name);
    var f := Filter(name);
    assert f[0] != '-' && f[|f| - 1] != '-';
    hide Filter;
  }

  lemma {:induction false} FilterMaps(name: string)
    requires forall i :: 0 <= i < |name| ==> IsUpper(name[i]) || IsLower(name[i]) || IsDigit(name[i]) || name[i] in " _-"
    ensures |Filter(name)| == |name|
    ensures forall i :: 0 <= i < |name| ==>
      Filter(name)[i] == if IsUpper(name[i]) then (name[i] as int - 'A' as int + 'a' as int) as char
                         else if name[i] in " _-" then '-' else name[i]
  {
    if name != "" {
      FilterMaps(name[..|name| - 1]);
      assert |Keep(name[|name| - 1])| == 1;
    }
  }

  /** A fragment that is already well-formed is kept. */
  lemma SanitizeKeeps(s: string)
    requires Fragment(s) && Alnum(s[0]) && Alnum(s[|s| - 1])
    ensures Sanitize(s) == s
  {
    FilterClean(s);
  }

  /** What is left of the filtered name's two edges. */
  predicate DoubledHead(s: string) { |s| >= 3 && s[0] == '-' && s[1] == '-' }
  predicate DoubledTail(s: string) { |s| >= 3 && s[|s| - 1] == '-' && s[|s| - 2] == '-' }

  function Trimmed(name: string): string { TrimTail(TrimHead(Filter(name))) }

  /** Only one dash is trimmed at either edge, and the cut comes after the trimming: exactly when the
      filtered name has no doubled dash at the front, and - if nothing is cut - none at the back, or - if
      something is - no dash where the cut falls, both ends are alphanumeric. */
  lemma SanitizeEnds(name: string)
    ensures var r, f := Sanitize(name), Filter(name);
      && (Alnum(r[0]) <==> !DoubledHead(f))
      && (Alnum(r[|r| - 1]) <==> if |Trimmed(name)| > MAX_FRAGMENT then Trimmed(name)[MAX_FRAGMENT - 1] != '-' else !DoubledTail(f))
  {
    var f := Filter(name);
    SanitizeShape(name);
    TrimmedAt(f);
    assert forall c :: c in f ==> Allowed(c);
    hide Filter;
    CutEnds(f, TrimTail(TrimHead(f)), Sanitize(name));
  }

  lemma TrimmedAt(f: string)
    ensures var t := TrimTail(TrimHead(f)); var lead := if |f| > 0 && f[0] == '-' then 1 else 0;
      && t <= f[lead..]
      && |f[lead..]| - |t| == (if |f| > lead && f[|f| - 1] == '-' then 1 else 0)
  {
  }

  lemma CutEnds(f: string, t: string, r: string)
    requires forall c :: c in f ==> Allowed(c)
    requires var lead := if |f| > 0 && f[0] == '-' then 1 else 0;
      t <= f[lead..] && |f[lead..]| - |t| == (if |f| > lead && f[|f| - 1] == '-' then 1 else 0)
    requires r == if Truncate(t) == [] then "component" else Truncate(t)
    ensures (Alnum(r[0]) <==> !DoubledHead(f))
    ensures (Alnum(r[|r| - 1]) <==> if |t| > MAX_FRAGMENT then t[MAX_FRAGMENT - 1] != '-' else !DoubledTail(f))
  {
    var lead := if |f| > 0 && f[0] == '-' then 1 else 0;
    assert forall i :: 0 <= i < |t| ==> t[i] == f[i + lead];
    if t != [] { assert f[lead] in f && f[|Truncate(t)| - 1 + lead] in f; }
  }

  function Dashes(s: string): nat {
    if s == [] then 0 else (if s[0] == '-' then 1 else 0) + Dashes(s[1..])
  }

  lemma {:induction false} DashesLast(s: string)
    requires s != []
    ensures Dashes(s) == Dashes(s[..|s| - 1]) + (if s[|s| - 1] == '-' then 1 else 0)
  {
    if |s| > 1 {
      DashesLast(s[1..]);
      assert s[1..][..|s| - 2] == s[..|s| - 1][1..];
    }
  }

  function Iterate(n: nat, s: string): string {
    if n == 0 then s else Iterate(n - 1, Sanitize(s))
  }

  /** Sanitizing a sanitized name again either changes nothing or removes a dash. */
  lemma SanitizeAgain(s: string)
    requires Fragment(s)
    ensures Sanitize(s) == s || Dashes(Sanitize(s)) < Dashes(s)
  {
    SanitizeClean(s);
    assert s != [];
    TrimDashes(s);
    assert Dashes("component") == 0 by { DashFree("component"); }
    hide *;
  }

  lemma {:induction false} DashFree(s: string)
    requires '-' !in s
    ensures Dashes(s) == 0
  {
    if s != [] { DashFree(s[1..]); }
  }

  lemma SanitizeClean(s: string)
    requires Fragment(s)
    ensures var t := TrimTail(TrimHead(s)); Sanitize(s) == if t == [] then "component" else t
  {
    FilterClean(s);
    hide Filter;
  }

  lemma TrimDashes(s: string)
    requires s != []
    ensures var t := TrimTail(TrimHead(s)); t == s || Dashes(t) < Dashes(s)
  {
    var h := TrimHead(s);
    if h != [] { DashesLast(h); }
  }

  /** After n more rounds another one changes nothing. */
  predicate RestsAfter(n: nat, s: string) { Sanitize(Iterate(n, s)) == Iterate(n, s) }

  lemma RestsLater(n: nat, s: string)
    requires RestsAfter(n, Sanitize(s))
    ensures RestsAfter(n + 1, s)
  {
    hide Sanitize;
  }

  lemma RestsNow(s: string)
    requires Sanitize(s) == s
    ensures RestsAfter(0, s)
  {
    hide Sanitize;
  }

  lemma {:induction false} SanitizeSettlesFrom(s: string)
    requires Fragment(s)
    ensures exists n: nat :: n <= Dashes(s) && RestsAfter(n, s)
    decreases Dashes(s)
  {
    hide Sanitize, Dashes, Fragment, RestsAfter;
    SanitizeAgain(s);
    if Sanitize(s) == s {
      RestsNow(s);
    } else {
      SanitizeShape(s);
      SanitizeSettlesFrom(Sanitize(s));
      var n: nat :| n <= Dashes(Sanitize(s)) && RestsAfter(n, Sanitize(s));
      RestsLater(n, s);
    }
  }

  /** Whatever the name, repeated sanitizing comes to rest, after no more rounds than dashes are left. */
  lemma SanitizeSettles(name: string)
    ensures exists n: nat :: n <= Dashes(Sanitize(name)) && RestsAfter(n, Sanitize(name))
  {
    hide Sanitize, Dashes, Fragment, RestsAfter;
    SanitizeShape(name);
    SanitizeSettlesFrom(Sanitize(name));
  }
}
