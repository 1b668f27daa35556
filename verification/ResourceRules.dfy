// Resource lists in a policy's rules: `pods`, `pods/log`, and the wildcards `*`, `*/*`, `pods/*` and
// `*/log`. The validator reads the list once, in order, and refuses what an earlier wildcard already
// covers.
module ResourceRules {

  datatype Split = Whole | Parts(res: string, sub: string)

  /** Splits at the first slash, if there is one. */
  function SplitOnce(s: string): Split {
    if s == [] then Whole
    else if s[0] == '/' then Parts([], s[1..])
    else match SplitOnce(s[1..])
      case Whole => Whole
      case Parts(res, sub) => Parts([s[0]] + res, sub)
  }

  lemma {:induction false} SplitJoins(s: string)
    ensures SplitOnce(s).Whole? <==> '/' !in s
    ensures SplitOnce(s).Parts? ==> s == SplitOnce(s).res + "/" + SplitOnce(s).sub && '/' !in SplitOnce(s).res
  {
    if s != [] && s[0] != '/' {
      SplitJoins(s[1..]);
      assert s == [s[0]] + s[1..];
    }
  }

  // ---------------------------------------------------------------- what is refused

  // An earlier `r/*` with the same resource, or `*/s` with the same subresource.
  predicate Shadows(earlier: Split, later: Split) {
    && earlier.Parts? && later.Parts?
    && ((earlier.sub == "*" && earlier.res == later.res) || (earlier.res == "*" && earlier.sub == later.sub))
  }

  predicate Shadowed(data: seq<string>, i: nat)
    requires i < |data|
  {
    exists j :: 0 <= j < i && Shadows(SplitOnce(data[j]), SplitOnce(data[i]))
  }

  predicate Bad(data: seq<string>, i: nat)
    requires i < |data|
  {
    data[i] == "" || Shadowed(data, i)
  }

  predicate NoneBad(data: seq<string>) {
    forall i :: 0 <= i < |data| ==> !Bad(data, i)
  }

  /** Whether the last entry without a slash is something other than `*`. */
  predicate EndsPlain(data: seq<string>) {
    if data == [] then false
    else if '/' in data[|data| - 1] then EndsPlain(data[..|data| - 1])
    else data[|data| - 1] != "*"
  }

  predicate LastPlain(data: seq<string>, i: nat) {
    i < |data| && '/' !in data[i] && data[i] != "*" && forall j :: i < j < |data| ==> '/' in data[j]
  }

  /** In other words: some slash-less entry other than `*` has only entries with a slash after it. */
  lemma {:induction false} EndsPlainIff(data: seq<string>)
    ensures EndsPlain(data) <==> exists i: nat :: LastPlain(data, i)
  {
    if data != [] {
      var last := |data| - 1;
      EndsPlainIff(data[..last]);
      assert forall j :: 0 <= j < last ==> data[..last][j] == data[j];
      assert LastPlain(data, last) <==> '/' !in data[last] && data[last] != "*";
      assert '/' in data[last] ==> forall i: nat :: i < last ==> LastPlain(data, i) == LastPlain(data[..last], i);
    }
  }

  predicate DoubleClash(data: seq<string>) {
    |data| > 1 && "*/*" in data
  }

  predicate SingleClash(data: seq<string>) {
    "*" in data && EndsPlain(data)
  }

  datatype Verdict =
    | Valid
    | EmptyResource(at: nat)
    | ResourceCovered(at: nat)
    | SubresourceCovered(at: nat)
    | DoubleWildcardWithOthers
    | SingleWildcardWithOthers

  /** The two sets and three flags kept while reading the list. */
  datatype Scan = Scan(
    resources: set<string>,
    subresources: set<string>,
    hasDouble: bool,
    hasSingle: bool,
    endsPlain: bool
  )

  /** What has been kept of the entries read so far, none of them bad. */
  ghost predicate Scanned(data: seq<string>, scan: Scan) {
    && scan.resources == WildResources(data) && scan.subresources == WildSubresources(data)
    && (scan.hasDouble <==> "*/*" in data) && (scan.hasSingle <==> "*" in data)
    && (scan.endsPlain <==> EndsPlain(data)) && NoneBad(data)
  }

  /** Entry `i` is bad, for the reason given: an empty one before a covered one, and a covered resource before
      a covered subresource. */
  ghost predicate Reports(data: seq<string>, i: nat, r: Verdict)
    requires i < |data|
  {
    var p := SplitOnce(data[i]);
    match r
    case EmptyResource(at) => at == i && data[i] == ""
    case ResourceCovered(at) => at == i && data[i] != "" && p.Parts? && p.res in WildResources(data[..i])
    case SubresourceCovered(at) =>
      && at == i && data[i] != "" && p.Parts?
      && p.res !in WildResources(data[..i]) && p.sub in WildSubresources(data[..i])
    case _ => false
  }

  lemma ReportedIsBad(data: seq<string>, i: nat, r: Verdict)
    requires i < |data| && Reports(data, i, r)
    ensures Bad(data, i)
  {
    if !r.EmptyResource? {
      ShadowedIff(data, i);
    }
  }

  /** What one more entry that is not bad adds to what is kept. */
  lemma ScannedGrows(data: seq<string>, i: nat, scan: Scan, next: Scan)
    requires i < |data| && Scanned(data[..i], scan) && !Bad(data, i)
    requires next.hasDouble == (scan.hasDouble || data[i] == "*/*")
    requires next.hasSingle == (scan.hasSingle || data[i] == "*")
    requires var p := SplitOnce(data[i]);
             && next.endsPlain == (if p.Whole? then data[i] != "*" else scan.endsPlain)
             && next.resources == scan.resources + (if p.Parts? && p.sub == "*" then {p.res} else {})
             && next.subresources == scan.subresources + (if p.Parts? && p.res == "*" then {p.sub} else {})
    ensures Scanned(data[..i + 1], next)
  {
    Grow(data, i);
    SplitJoins(data[i]);
  }

  /** Reads one entry. */
  method ScanEntry(data: seq<string>, i: nat, scan: Scan) returns (r: Verdict, next: Scan)
    requires i < |data| && Scanned(data[..i], scan)
    ensures r == Valid ==> !Bad(data, i) && Scanned(data[..i + 1], next)
    ensures r != Valid ==> Reports(data, i, r)
  {
    var resource := data[i];
    next := scan;
    if resource == "" {
      return EmptyResource(i), next;
    }
    if resource == "*/*" {
      next := next.(hasDouble := true);
    } else if resource == "*" {
      next := next.(hasSingle := true);
    }
    match SplitOnce(resource) {
      case Whole =>
        next := next.(endsPlain := resource != "*");
      case Parts(res, sub) =>
        ShadowedIff(data, i);
        if res in next.resources {
          return ResourceCovered(i), next;
        }
        if sub in next.subresources {
          return SubresourceCovered(i), next;
        }
        if sub == "*" {
          next := next.(resources := next.resources + {res});
        }
        if res == "*" {
          next := next.(subresources := next.subresources + {sub});
        }
    }
    assert !Bad(data, i);
    ScannedGrows(data, i, scan, next);
    r := Valid;
  }

  /** Accepted exactly when no entry is bad and no wildcard clashes; otherwise the first bad entry is
      reported, or else the clash. */
  method ValidateResources(data: seq<string>) returns (r: Verdict)
    ensures r == Valid <==> NoneBad(data) && !DoubleClash(data) && !SingleClash(data)
    ensures r.EmptyResource? || r.ResourceCovered? || r.SubresourceCovered? ==>
              r.at < |data| && Bad(data, r.at) && NoneBad(data[..r.at]) && Reports(data, r.at, r)
    ensures r.DoubleWildcardWithOthers? ==> NoneBad(data) && DoubleClash(data)
    ensures r.SingleWildcardWithOthers? ==> NoneBad(data) && !DoubleClash(data) && SingleClash(data)
  {
    var scan := Scan({}, {}, false, false, false);
    for i := 0 to |data|
      invariant Scanned(data[..i], scan)
    {
      r, scan := ScanEntry(data, i, scan);
      if r != Valid {
        ReportedIsBad(data, i, r);
        return;
      }
    }
    assert data[..|data|] == data;
    if |data| > 1 && scan.hasDouble {
      return DoubleWildcardWithOthers;
    }
    if scan.hasSingle && scan.endsPlain {
      return SingleWildcardWithOthers;
    }
    r := Valid;
  }

  // The `r` of every `r/*`, and the `s` of every `*/s`.
  function WildResources(data: seq<string>): set<string> {
    if data == [] then {}
    else
      var p := SplitOnce(data[|data| - 1]);
      WildResources(data[..|data| - 1]) + if p.Parts? && p.sub == "*" then {p.res} else {}
  }

  function WildSubresources(data: seq<string>): set<string> {
    if data == [] then {}
    else
      var p := SplitOnce(data[|data| - 1]);
      WildSubresources(data[..|data| - 1]) + if p.Parts? && p.res == "*" then {p.sub} else {}
  }

  lemma {:induction false} WildMembers(data: seq<string>, x: string)
    ensures x in WildResources(data) <==> exists j :: 0 <= j < |data| && SplitOnce(data[j]) == Parts(x, "*")
    ensures x in WildSubresources(data) <==> exists j :: 0 <= j < |data| && SplitOnce(data[j]) == Parts("*", x)
  {
    if data != [] {
      var last := |data| - 1;
      WildMembers(data[..last], x);
      assert forall j :: 0 <= j < last ==> data[..last][j] == data[j];
      assert x in WildResources(data) <==> x in WildResources(data[..last]) || SplitOnce(data[last]) == Parts(x, "*");
      assert x in WildSubresources(data) <==>
             x in WildSubresources(data[..last]) || SplitOnce(data[last]) == Parts("*", x);
    }
  }

  lemma Grow(data: seq<string>, i: nat)
    requires i < |data|
    ensures data[..i + 1] == data[..i] + [data[i]] && data[..i + 1][..i] == data[..i]
    ensures NoneBad(data[..i]) && !Bad(data, i) ==> NoneBad(data[..i + 1])
    ensures NoneBad(data) ==> !Bad(data, i)
  {
    var longer, shorter := data[..i + 1], data[..i];
    forall k | 0 <= k < i ensures Bad(longer, k) == Bad(shorter, k) {
      assert forall j :: 0 <= j <= k ==> longer[j] == shorter[j];
    }
    assert Bad(longer, i) == Bad(data, i) by {
      assert forall j :: 0 <= j <= i ==> longer[j] == data[j];
    }
  }

  lemma ShadowedIff(data: seq<string>, i: nat)
    requires i < |data| && SplitOnce(data[i]).Parts?
    ensures var p := SplitOnce(data[i]);
            Shadowed(data, i) <==> p.res in WildResources(data[..i]) || p.sub in WildSubresources(data[..i])
  {
    var p := SplitOnce(data[i]);
    WildMembers(data[..i], p.res);
    WildMembers(data[..i], p.sub);
    assert forall j :: 0 <= j < i ==> data[..i][j] == data[j];
  }

  // ---------------------------------------------------------------- what it means

  /** The concrete resource and subresource pairs an entry with a slash stands for. */
  predicate Matches(p: Split, res: string, sub: string)
    requires p.Parts?
  {
    (p.res == "*" || p.res == res) && (p.sub == "*" || p.sub == sub)
  }

  ghost predicate Covers(a: Split, b: Split)
    requires a.Parts? && b.Parts?
  {
    forall res, sub :: Matches(b, res, sub) ==> Matches(a, res, sub)
  }

  predicate IsWildcard(p: Split)
    requires p.Parts?
  {
    p.res == "*" || p.sub == "*"
  }

  /** An earlier wildcard refuses a later entry exactly when it stands for everything that one does. The
      wildcard for everything refuses only other wildcards this way, and is otherwise left to the rule that
      it must stand alone. */
  lemma ShadowsIffCovers(a: Split, b: Split)
    requires a.Parts? && b.Parts?
    ensures Shadows(a, b) <==> IsWildcard(a) && Covers(a, b) && (a == Parts("*", "*") ==> IsWildcard(b))
  {
    if IsWildcard(a) && Covers(a, b) {
      var res := if b.res == "*" then a.res + "x" else b.res;
      var sub := if b.sub == "*" then a.sub + "x" else b.sub;
      assert Matches(b, res, sub);
    }
  }

  /** In an accepted list nothing with a slash is covered by a wildcard before it. */
  lemma AcceptedHasNoCovered(data: seq<string>, j: nat, i: nat)
    requires NoneBad(data) && !DoubleClash(data) && j < i < |data|
    requires SplitOnce(data[j]).Parts? && SplitOnce(data[i]).Parts? && IsWildcard(SplitOnce(data[j]))
    ensures !Covers(SplitOnce(data[j]), SplitOnce(data[i]))
  {
    var a, b := SplitOnce(data[j]), SplitOnce(data[i]);
    SplitJoins(data[j]);
    assert data[j] in data && data[j] != "*/*";
    assert !Bad(data, i);
    ShadowsIffCovers(a, b);
  }

  lemma SplitSmall()
    ensures SplitOnce("a/b") == Parts("a", "b") && SplitOnce("a/*") == Parts("a", "*")
  {
    assert "a/b"[1..] == "/b" && "/b"[1..] == "b";
    assert "a/*"[1..] == "/*" && "/*"[1..] == "*";
  }

  /** The order of the list decides: the same two entries are refused one way round and accepted the other,
      for a wildcard with a slash and for the one without. */
  lemma OrderDecides()
    ensures NoneBad(["a/b", "a/*"]) && !NoneBad(["a/*", "a/b"])
    ensures SingleClash(["*", "a"]) && !SingleClash(["a", "*"])
  {
    SplitSmall();
    var bad := ["a/*", "a/b"];
    assert Shadows(SplitOnce(bad[0]), SplitOnce(bad[1]));
    assert Bad(bad, 1);
    assert ["*", "a"][0] == "*";
  }
}
