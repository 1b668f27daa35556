/**
  The unique name of a policy keys its configuration entry and its webhook. It is put together from the
  kind of policy, its namespace and its name, with dashes in between, and dashes are allowed in both.
 */
module PolicyNames {

  datatype PolicyRef =
    | Namespaced(namespace: string, name: string)
    | NamespacedGroup(namespace: string, name: string)
    | Clusterwide(name: string)
    | ClusterwideGroup(name: string)

  function UniqueName(p: PolicyRef): string {
    match p
    case Namespaced(ns, n) => "namespaced-" + ns + "-" + n
    case NamespacedGroup(ns, n) => "namespaced-group-" + ns + "-" + n
    case Clusterwide(n) => "clusterwide-" + n
    case ClusterwideGroup(n) => "clusterwide-group-" + n
  }

  // ---------------------------------------------------------------- names that collide

  /** A dash in the namespace may as well begin the name. */
  lemma NamespaceDashCollides(ns: string, n: string, i: nat)
    requires i < |ns| && ns[i] == '-'
    ensures var q := Namespaced(ns[..i], ns[i + 1..] + "-" + n);
            q != Namespaced(ns, n) && UniqueName(q) == UniqueName(Namespaced(ns, n))
  {
    assert ns == ns[..i] + "-" + ns[i + 1..];
    assert ns + "-" + n == ns[..i] + "-" + (ns[i + 1..] + "-" + n);
    Spelled(Namespaced(ns, n));
    Spelled(Namespaced(ns[..i], ns[i + 1..] + "-" + n));
  }

  /** A dash in the name may as well end the namespace. */
  lemma NameDashCollides(ns: string, n: string, i: nat)
    requires i < |n| && n[i] == '-'
    ensures var q := Namespaced(ns + "-" + n[..i], n[i + 1..]);
            q != Namespaced(ns, n) && UniqueName(q) == UniqueName(Namespaced(ns, n))
  {
    assert n == n[..i] + "-" + n[i + 1..];
    assert ns + "-" + n == ns + "-" + n[..i] + "-" + n[i + 1..];
    Spelled(Namespaced(ns, n));
    Spelled(Namespaced(ns + "-" + n[..i], n[i + 1..]));
  }

  /** Every namespaced group has the name of a policy in the namespace `group`. */
  lemma GroupCollides(ns: string, n: string)
    ensures UniqueName(NamespacedGroup(ns, n)) == UniqueName(Namespaced("group", ns + "-" + n))
  {
    Spelled(NamespacedGroup(ns, n));
    Spelled(Namespaced("group", ns + "-" + n));
    assert "group-" + (ns + "-" + n) == "group" + "-" + (ns + "-" + n);
  }

  /** Every cluster-wide group has the name of a cluster-wide policy. */
  lemma ClusterwideGroupCollides(n: string)
    ensures UniqueName(ClusterwideGroup(n)) == UniqueName(Clusterwide("group-" + n))
  {
    Spelled(ClusterwideGroup(n));
    Spelled(Clusterwide("group-" + n));
  }

  predicate Ambiguous(p: PolicyRef) {
    match p
    case Namespaced(ns, n) => '-' in ns || '-' in n
    case NamespacedGroup(_, _) => true
    case Clusterwide(n) => "group-" <= n
    case ClusterwideGroup(_) => true
  }

  lemma AmbiguousCollides(p: PolicyRef) returns (q: PolicyRef)
    requires Ambiguous(p)
    ensures q != p && UniqueName(q) == UniqueName(p)
  {
    match p
    case Namespaced(ns, n) =>
      if '-' in ns {
        var i: nat :| i < |ns| && ns[i] == '-';
        NamespaceDashCollides(ns, n, i);
        q := Namespaced(ns[..i], ns[i + 1..] + "-" + n);
      } else {
        var i: nat :| i < |n| && n[i] == '-';
        NameDashCollides(ns, n, i);
        q := Namespaced(ns + "-" + n[..i], n[i + 1..]);
      }
    case NamespacedGroup(ns, n) =>
      GroupCollides(ns, n);
      q := Namespaced("group", ns + "-" + n);
    case Clusterwide(n) =>
      ClusterwideGroupCollides(n[6..]);
      assert "group-" + n[6..] == n;
      q := ClusterwideGroup(n[6..]);
    case ClusterwideGroup(n) =>
      ClusterwideGroupCollides(n);
      q := Clusterwide("group-" + n);
  }

  // ---------------------------------------------------------------- names that do not

  lemma OneDash(ns: string, n: string)
    requires '-' !in ns && '-' !in n
    ensures var s := ns + "-" + n; forall i :: 0 <= i < |s| ==> (s[i] == '-' <==> i == |ns|)
  {
  }

  lemma DashAt(ns: string, n: string)
    ensures var s := ns + "-" + n; |ns| < |s| && s[|ns|] == '-' && s[..|ns|] == ns && s[|ns| + 1..] == n
  {
  }

  lemma TwoDashes(ns: string, n: string)
    ensures var s := "group-" + (ns + "-" + n); |s| > 6 + |ns| && s[5] == '-' && s[6 + |ns|] == '-'
  {
  }

  /** Equal names are equal within their half: namespaced or cluster-wide. */
  lemma SameHalf(p: PolicyRef, q: PolicyRef)
    requires UniqueName(p) == UniqueName(q)
    ensures IsNamespaced(p) == IsNamespaced(q) && Rest(p) == Rest(q)
  {
    var a, b := Rest(p), Rest(q);
    Spelled(p);
    Spelled(q);
    if IsNamespaced(p) != IsNamespaced(q) {
      NamespacedNeverClusterwide(if IsNamespaced(p) then a else b, if IsNamespaced(p) then b else a);
    }
    Tail(if IsNamespaced(p) then "namespaced-" else "clusterwide-", a, b);
  }

  lemma UnambiguousIsAlone(p: PolicyRef, q: PolicyRef)
    requires !Ambiguous(p) && UniqueName(p) == UniqueName(q)
    ensures p == q
  {
    SameHalf(p, q);
    match p
    case Namespaced(ns, n) =>
      OneDash(ns, n);
      DashAt(ns, n);
      match q {
        case Namespaced(ns', n') => DashAt(ns', n');
        case NamespacedGroup(ns', n') => TwoDashes(ns', n');
      }
    case Clusterwide(n) =>
      match q {
        case Clusterwide(_) =>
        case ClusterwideGroup(n') => GroupPrefixes(n');
      }
  }

  /** Another policy can have the same unique name exactly if this one is ambiguous. */
  lemma CollidesIffAmbiguous(p: PolicyRef)
    ensures (exists q :: q != p && UniqueName(q) == UniqueName(p)) <==> Ambiguous(p)
  {
    if Ambiguous(p) {
      var q := AmbiguousCollides(p);
    } else {
      forall q | UniqueName(q) == UniqueName(p) ensures q == p { UnambiguousIsAlone(p, q); }
    }
  }

  // ---------------------------------------------------------------- names that Kubernetes accepts

  predicate Alphanumeric(c: char) {
    'a' <= c <= 'z' || '0' <= c <= '9'
  }

  predicate Delimited(s: string) {
    s != "" && Alphanumeric(s[0]) && Alphanumeric(s[|s| - 1])
  }

  /** The label of RFC 1123 that a namespace has to be, but for its length. */
  predicate IsLabel(s: string) {
    Delimited(s) && forall i :: 0 <= i < |s| ==> Alphanumeric(s[i]) || s[i] == '-'
  }

  /** The subdomain of RFC 1123 that other names have to be: labels with dots in between. */
  predicate IsSubdomain(s: string) {
    && Delimited(s)
    && (forall i :: 0 <= i < |s| ==> Alphanumeric(s[i]) || s[i] == '-' || s[i] == '.')
    && (forall i :: 0 < i < |s| - 1 && s[i] == '.' ==> Alphanumeric(s[i - 1]) && Alphanumeric(s[i + 1]))
  }

  predicate Accepted(p: PolicyRef) {
    match p
    case Namespaced(ns, n) => IsLabel(ns) && IsSubdomain(n)
    case NamespacedGroup(ns, n) => IsLabel(ns) && IsSubdomain(n)
    case Clusterwide(n) => IsSubdomain(n)
    case ClusterwideGroup(n) => IsSubdomain(n)
  }

  /** A dash with no dash next to it: a name can be cut there. */
  predicate LoneDash(s: string, i: nat) {
    0 < i < |s| - 1 && s[i] == '-' && s[i - 1] != '-' && s[i + 1] != '-'
  }

  predicate NamespaceCuts(ns: string) {
    exists i: nat :: i < |ns| && LoneDash(ns, i)
  }

  /** A cut before the first dot. */
  predicate CutsAt(n: string, i: nat) {
    LoneDash(n, i) && forall k :: 0 <= k < i ==> n[k] != '.'
  }

  predicate NameCuts(n: string) {
    exists i: nat :: i < |n| && CutsAt(n, i)
  }

  predicate AcceptedAmbiguous(p: PolicyRef) {
    match p
    case Namespaced(ns, n) => NamespaceCuts(ns) || NameCuts(n)
    case NamespacedGroup(_, _) => true
    case Clusterwide(n) => "group-" <= n && |n| > 6 && n[6] != '-'
    case ClusterwideGroup(_) => true
  }

  /** A namespace and a name make a name. */
  lemma JoinedIsSubdomain(ns: string, n: string)
    requires IsLabel(ns) && IsSubdomain(n)
    ensures IsSubdomain(ns + "-" + n)
  {
    var s := ns + "-" + n;
    forall i | 0 < i < |s| - 1 && s[i] == '.' ensures Alphanumeric(s[i - 1]) && Alphanumeric(s[i + 1]) {
      var k := i - |ns| - 1;
      assert 0 <= k < |n| && n[k] == '.';
      assert k > 0 && k < |n| - 1;
    }
  }

  lemma PieceOfLabel(s: string, from: nat, to: nat)
    requires IsLabel(s) && from < to <= |s| && s[from] != '-' && s[to - 1] != '-'
    ensures IsLabel(s[from..to])
  {
  }

  lemma TailOfSubdomain(s: string, from: nat)
    requires IsSubdomain(s) && from < |s| && s[from] != '-' && s[from] != '.'
    ensures IsSubdomain(s[from..])
  {
    var t := s[from..];
    forall i | 0 < i < |t| - 1 && t[i] == '.' ensures Alphanumeric(t[i - 1]) && Alphanumeric(t[i + 1]) {
      assert s[from + i] == '.';
    }
  }

  /** The part of a name before a cut is a label. */
  lemma HeadOfCut(n: string, i: nat)
    requires IsSubdomain(n) && i < |n| && CutsAt(n, i)
    ensures IsLabel(n[..i])
  {
    var head := n[..i];
    assert head[|head| - 1] == n[i - 1] && n[i - 1] != '.';
  }

  lemma JoinedIsLabel(a: string, b: string)
    requires IsLabel(a) && IsLabel(b)
    ensures IsLabel(a + "-" + b)
  {
  }

  lemma AfterDash(n: string, i: nat)
    requires IsSubdomain(n) && LoneDash(n, i)
    ensures IsSubdomain(n[i + 1..])
  {
    assert n[i + 1] != '.';
    TailOfSubdomain(n, i + 1);
  }

  lemma CutNamespaceCollides(ns: string, n: string, i: nat) returns (q: PolicyRef)
    requires IsLabel(ns) && IsSubdomain(n) && LoneDash(ns, i)
    ensures Accepted(q) && q != Namespaced(ns, n) && UniqueName(q) == UniqueName(Namespaced(ns, n))
  {
    NamespaceDashCollides(ns, n, i);
    PieceOfLabel(ns, 0, i);
    PieceOfLabel(ns, i + 1, |ns|);
    assert ns[0..i] == ns[..i] && ns[i + 1..|ns|] == ns[i + 1..];
    JoinedIsSubdomain(ns[i + 1..], n);
    q := Namespaced(ns[..i], ns[i + 1..] + "-" + n);
  }

  lemma CutNameCollides(ns: string, n: string, i: nat) returns (q: PolicyRef)
    requires IsLabel(ns) && IsSubdomain(n) && CutsAt(n, i)
    ensures Accepted(q) && q != Namespaced(ns, n) && UniqueName(q) == UniqueName(Namespaced(ns, n))
  {
    NameDashCollides(ns, n, i);
    HeadOfCut(n, i);
    JoinedIsLabel(ns, n[..i]);
    AfterDash(n, i);
    q := Namespaced(ns + "-" + n[..i], n[i + 1..]);
  }

  lemma GroupPrefixIsSubdomain(n: string)
    requires IsSubdomain(n)
    ensures IsSubdomain("group-" + n)
  {
    var s := "group-" + n;
    forall i | 0 < i < |s| - 1 && s[i] == '.' ensures Alphanumeric(s[i - 1]) && Alphanumeric(s[i + 1]) {
      assert i >= 6 && n[i - 6] == '.';
      assert i > 6 && i - 6 < |n| - 1;
    }
  }

  lemma AcceptedAmbiguousCollides(p: PolicyRef) returns (q: PolicyRef)
    requires Accepted(p) && AcceptedAmbiguous(p)
    ensures Accepted(q) && q != p && UniqueName(q) == UniqueName(p)
  {
    match p
    case Namespaced(ns, n) =>
      if NamespaceCuts(ns) {
        var i: nat :| i < |ns| && LoneDash(ns, i);
        q := CutNamespaceCollides(ns, n, i);
      } else {
        var i: nat :| i < |n| && CutsAt(n, i);
        q := CutNameCollides(ns, n, i);
      }
    case NamespacedGroup(ns, n) =>
      GroupCollides(ns, n);
      JoinedIsSubdomain(ns, n);
      q := Namespaced("group", ns + "-" + n);
    case Clusterwide(n) =>
      ClusterwideGroupCollides(n[6..]);
      assert "group-" + n[6..] == n;
      AfterGroup(n);
      q := ClusterwideGroup(n[6..]);
    case ClusterwideGroup(n) =>
      ClusterwideGroupCollides(n);
      GroupPrefixIsSubdomain(n);
      q := Clusterwide("group-" + n);
  }

  lemma AfterGroup(n: string)
    requires IsSubdomain(n) && "group-" <= n && |n| > 6 && n[6] != '-'
    ensures IsSubdomain(n[6..])
  {
    assert n[5] == '-';
    assert n[6] != '.';
    TailOfSubdomain(n, 6);
  }

  lemma ShorterReadingCuts(ns: string, n: string, ns': string, n': string)
    requires IsLabel(ns) && IsLabel(ns') && IsSubdomain(n') && |ns'| < |ns| && ns + "-" + n == ns' + "-" + n'
    ensures NamespaceCuts(ns)
  {
    var s, i := ns + "-" + n, |ns'|;
    DashAt(ns, n);
    DashAt(ns', n');
    assert s[i + 1] == n'[0] && s[i - 1] == ns'[i - 1];
    assert i + 1 < |ns| && ns[i] == s[i] && ns[i - 1] == s[i - 1] && ns[i + 1] == s[i + 1];
    assert LoneDash(ns, i);
  }

  lemma LongerReadingCuts(ns: string, n: string, ns': string, n': string)
    requires IsLabel(ns') && IsSubdomain(n) && IsSubdomain(n') && |ns| < |ns'| && ns + "-" + n == ns' + "-" + n'
    ensures NameCuts(n)
  {
    var s, j := ns + "-" + n, |ns'| - |ns| - 1;
    DashAt(ns, n);
    DashAt(ns', n');
    assert s[|ns'| + 1] == n'[0] && s[|ns'| - 1] == ns'[|ns'| - 1];
    assert forall k :: 0 <= k < |n| ==> n[k] == s[|ns| + 1 + k];
    assert j > 0 && j + 1 < |n| && LoneDash(n, j);
    forall k | 0 <= k < j ensures n[k] != '.' {
      assert n[k] == s[|ns| + 1 + k] == ns'[|ns| + 1 + k];
    }
    assert CutsAt(n, j);
  }

  /** Two readings of the same text as namespace and name: the one can be cut where the other ends. */
  lemma OtherReadingCuts(ns: string, n: string, ns': string, n': string)
    requires IsLabel(ns) && IsSubdomain(n) && IsLabel(ns') && IsSubdomain(n')
    requires ns + "-" + n == ns' + "-" + n' && |ns| != |ns'|
    ensures NamespaceCuts(ns) || NameCuts(n)
  {
    if |ns'| < |ns| {
      ShorterReadingCuts(ns, n, ns', n');
    } else {
      LongerReadingCuts(ns, n, ns', n');
    }
  }

  lemma GroupIsLabel()
    ensures IsLabel("group")
  {
  }

  lemma AcceptedUnambiguousIsAlone(p: PolicyRef, q: PolicyRef)
    requires Accepted(p) && Accepted(q) && !AcceptedAmbiguous(p) && UniqueName(p) == UniqueName(q)
    ensures p == q
  {
    SameHalf(p, q);
    match p
    case Namespaced(ns, n) =>
      DashAt(ns, n);
      match q {
        case Namespaced(ns', n') =>
          DashAt(ns', n');
          if |ns| != |ns'| {
            OtherReadingCuts(ns, n, ns', n');
          }
        case NamespacedGroup(ns', n') => GroupReadingCuts(ns, n, ns', n');
      }
    case Clusterwide(n) =>
      match q {
        case Clusterwide(_) =>
        case ClusterwideGroup(n') => GroupLook(n');
      }
  }

  lemma GroupLook(n: string)
    requires IsSubdomain(n)
    ensures var s := "group-" + n; "group-" <= s && |s| > 6 && s[6] != '-'
  {
  }

  /** A namespace and a name joined can be cut between them. */
  lemma JoinedCuts(ns: string, n: string)
    requires IsLabel(ns) && IsSubdomain(n)
    ensures NameCuts(ns + "-" + n)
  {
    var s, i := ns + "-" + n, |ns|;
    DashAt(ns, n);
    assert s[i - 1] == ns[i - 1] && s[i + 1] == n[0] && forall k :: 0 <= k < i ==> s[k] == ns[k];
    assert i < |s| && CutsAt(s, i);
  }

  /** What can be read as a group can be cut. */
  lemma GroupReadingCuts(ns: string, n: string, ns': string, n': string)
    requires IsLabel(ns) && IsSubdomain(n) && IsLabel(ns') && IsSubdomain(n')
    requires ns + "-" + n == "group-" + (ns' + "-" + n')
    ensures NamespaceCuts(ns) || NameCuts(n)
  {
    var rest := ns' + "-" + n';
    JoinedIsSubdomain(ns', n');
    GroupIsLabel();
    assert "group-" + rest == "group" + "-" + rest;
    DashAt(ns, n);
    DashAt("group", rest);
    if |ns| == 5 {
      assert n == rest;
      JoinedCuts(ns', n');
    } else {
      OtherReadingCuts(ns, n, "group", rest);
    }
  }

  /** Among the names that Kubernetes accepts: another policy can have the same unique name exactly if its text
      can be cut differently, or is that of a group, or of a policy that looks like one. */
  lemma AcceptedCollidesIff(p: PolicyRef)
    requires Accepted(p)
    ensures (exists q :: Accepted(q) && q != p && UniqueName(q) == UniqueName(p)) <==> AcceptedAmbiguous(p)
  {
    if AcceptedAmbiguous(p) {
      var q := AcceptedAmbiguousCollides(p);
    } else {
      forall q | Accepted(q) && UniqueName(q) == UniqueName(p) ensures q == p { AcceptedUnambiguousIsAlone(p, q); }
    }
  }

  /** Policies that do not collide with each other, though some collide with others: no dash in a namespace,
      and nothing but a group looks like one. */
  predicate Disciplined(p: PolicyRef) {
    match p
    case Namespaced(ns, _) => '-' !in ns && ns != "group"
    case NamespacedGroup(ns, _) => '-' !in ns
    case Clusterwide(n) => !("group-" <= n)
    case ClusterwideGroup(_) => true
  }

  lemma DashSplits(ns: string, n: string, ns': string, n': string)
    requires '-' !in ns && '-' !in ns' && ns + "-" + n == ns' + "-" + n'
    ensures ns == ns' && n == n'
  {
    var s := ns + "-" + n;
    assert s[|ns|] == '-' && s[|ns'|] == '-';
    assert forall i :: 0 <= i < |ns| ==> s[i] != '-';
    assert forall i :: 0 <= i < |ns'| ==> s[i] != '-';
    assert ns == s[..|ns|] && ns' == s[..|ns'|] && n == s[|ns| + 1..] && n' == s[|ns'| + 1..];
  }

  lemma Tail(prefix: string, a: string, b: string)
    requires prefix + a == prefix + b
    ensures a == b
  {
    assert a == (prefix + a)[|prefix|..] && b == (prefix + b)[|prefix|..];
  }

  lemma GroupPrefixes(n: string)
    ensures "group-" <= "group-" + n
  {
  }

  lemma NamespacedNeverClusterwide(a: string, b: string)
    ensures "namespaced-" + a != "clusterwide-" + b
  {
    assert ("namespaced-" + a)[0] == 'n' && ("clusterwide-" + b)[0] == 'c';
  }

  /** A cluster that keeps to this has unique unique names. */
  lemma DisciplinedNamesAreUnique(p: PolicyRef, q: PolicyRef)
    requires Disciplined(p) && Disciplined(q) && UniqueName(p) == UniqueName(q)
    ensures p == q
  {
    SameHalf(p, q);
    match (p, q) {
      case (Namespaced(ns, n), Namespaced(ns', n')) => DashSplits(ns, n, ns', n');
      case (NamespacedGroup(ns, n), NamespacedGroup(ns', n')) =>
        Tail("group-", ns + "-" + n, ns' + "-" + n');
        DashSplits(ns, n, ns', n');
      case (Namespaced(ns, n), NamespacedGroup(ns', n')) =>
        assert "group-" + ns' + "-" + n' == "group" + "-" + (ns' + "-" + n');
        DashSplits(ns, n, "group", ns' + "-" + n');
      case (NamespacedGroup(ns', n'), Namespaced(ns, n)) =>
        assert "group-" + ns' + "-" + n' == "group" + "-" + (ns' + "-" + n');
        DashSplits(ns, n, "group", ns' + "-" + n');
      case (Clusterwide(_), ClusterwideGroup(n)) => GroupPrefixes(n);
      case (ClusterwideGroup(n), Clusterwide(_)) => GroupPrefixes(n);
      case (ClusterwideGroup(n), ClusterwideGroup(n')) => Tail("group-", n, n');
      case _ =>
    }
  }

  predicate IsNamespaced(p: PolicyRef) {
    p.Namespaced? || p.NamespacedGroup?
  }

  function Rest(p: PolicyRef): string {
    match p
    case Namespaced(ns, n) => ns + "-" + n
    case NamespacedGroup(ns, n) => "group-" + (ns + "-" + n)
    case Clusterwide(n) => n
    case ClusterwideGroup(n) => "group-" + n
  }

  lemma Spelled(p: PolicyRef)
    ensures UniqueName(p) == (if IsNamespaced(p) then "namespaced-" else "clusterwide-") + Rest(p)
  {
    match p
    case Namespaced(ns, n) => assert "namespaced-" + ns + "-" + n == "namespaced-" + (ns + "-" + n);
    case NamespacedGroup(ns, n) =>
      assert "namespaced-group-" == "namespaced-" + "group-";
      assert "namespaced-" + "group-" + ns + "-" + n == "namespaced-" + ("group-" + (ns + "-" + n));
    case Clusterwide(_) =>
    case ClusterwideGroup(n) =>
      assert "clusterwide-group-" == "clusterwide-" + "group-";
      assert "clusterwide-" + "group-" + n == "clusterwide-" + ("group-" + n);
  }
}
