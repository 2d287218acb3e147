/** What the naive search through the rules answers, said without searching:
    exact names before tails, longer tails before shorter ones, later rules
    before earlier ones, and no regard for case or port. */
module SiteRules {
  import opened SiteMaps

  // ---------------------------------------------------------------- rules for one key

  /** The last of the rules for `key` gives this site. */
  ghost predicate Given(rules: seq<Rule>, key: string, site: string) {
    exists i :: 0 <= i < |rules| && For(rules[i], key) && rules[i].site == site
                && forall j :: i < j < |rules| ==> !For(rules[j], key)
  }

  ghost predicate NoneFor(rules: seq<Rule>, key: string) {
    forall i :: 0 <= i < |rules| ==> !For(rules[i], key)
  }

  lemma GivenStays(rules: seq<Rule>, key: string, site: string)
    requires rules != [] && !For(rules[|rules| - 1], key) && Given(rules[..|rules| - 1], key, site)
    ensures Given(rules, key, site)
  {
    hide For;
    var front := rules[..|rules| - 1];
    var i :| 0 <= i < |front| && For(front[i], key) && front[i].site == site
             && forall j :: i < j < |front| ==> !For(front[j], key);
    forall j | i < j < |rules|
      ensures !For(rules[j], key)
    {
      assert j < |front| ==> rules[j] == front[j];
    }
    assert For(rules[i], key) && rules[i].site == site;
  }

  lemma NoneStays(rules: seq<Rule>, key: string)
    requires rules != [] && !For(rules[|rules| - 1], key) && NoneFor(rules[..|rules| - 1], key)
    ensures NoneFor(rules, key)
  {
    hide For;
    forall i | 0 <= i < |rules|
      ensures !For(rules[i], key)
    {
      assert i < |rules| - 1 ==> rules[i] == rules[..|rules| - 1][i];
    }
  }

  lemma NothingFor(key: string)
    ensures NoneFor([], key)
  {
  }

  lemma LastGiven(rules: seq<Rule>, key: string)
    requires rules != [] && For(rules[|rules| - 1], key)
    ensures Given(rules, key, rules[|rules| - 1].site)
  {
    hide For;
    var i := |rules| - 1;
    assert For(rules[i], key) && rules[i].site == rules[|rules| - 1].site;
  }

  lemma {:induction false} LastForIs(rules: seq<Rule>, key: string)
    ensures LastFor(rules, key).None? ==> NoneFor(rules, key)
    ensures LastFor(rules, key).Some? ==>
              Given(rules, key, LastFor(rules, key).value) && LastFor(rules, key).value != ""
    decreases |rules|
  {
    hide Given, NoneFor, Normalize;
    if rules == [] {
      assert NoneFor(rules, key) by {
        NothingFor(key);
      }
    } else {
      var front, r := rules[..|rules| - 1], rules[|rules| - 1];
      if For(r, key) {
        LastGiven(rules, key);
      } else {
        LastForIs(front, key);
        if LastFor(front, key).Some? {
          GivenStays(rules, key, LastFor(front, key).value);
        } else {
          NoneStays(rules, key);
        }
      }
    }
  }

  lemma GivenOnce(rules: seq<Rule>, key: string, a: string, b: string)
    requires Given(rules, key, a)
    ensures Given(rules, key, b) ==> a == b
    ensures !NoneFor(rules, key) && a != ""
  {
  }

  // ---------------------------------------------------------------- the search

  /** A rule names the host as it stands. */
  ghost predicate ByName(rules: seq<Rule>, name: string, site: string) {
    !Wild(name) && Given(rules, name, site)
  }

  /** A rule "*.domain" fits the last n characters ".domain" of a longer host. */
  ghost predicate ByTail(rules: seq<Rule>, host: string, n: nat, site: string) {
    0 < n < |host| && host[|host| - n] == '.' && Given(rules, "*" + host[|host| - n..], site)
  }

  ghost predicate Named(rules: seq<Rule>, name: string) {
    exists site :: ByName(rules, name, site)
  }

  ghost predicate Tailed(rules: seq<Rule>, host: string, n: nat) {
    exists site :: ByTail(rules, host, n, site)
  }

  /** The longest tail some rule fits gives this site. */
  ghost predicate ByLongestTail(rules: seq<Rule>, host: string, site: string) {
    exists n: nat :: ByTail(rules, host, n, site) && forall m: nat :: n < m ==> !Tailed(rules, host, m)
  }

  /** The site of a server: its own name with port, else its host name, else
      the longest tail of the host name. */
  ghost predicate SiteIs(rules: seq<Rule>, server: string, site: string) {
    var full, host := Normalize(server), Normalize(HostnameOnly(server));
    server != "" &&
    (ByName(rules, full, site)
     || (!Named(rules, full) && host != ""
         && (ByName(rules, host, site) || (!Named(rules, host) && ByLongestTail(rules, host, site)))))
  }

  lemma ExactIs(rules: seq<Rule>, name: string)
    ensures Exact(rules, name).None? ==> !Named(rules, name)
    ensures Exact(rules, name).Some? ==> ByName(rules, name, Exact(rules, name).value) && Exact(rules, name).value != ""
  {
    hide LastFor, Given;
    LastForIs(rules, name);
    if site :| ByName(rules, name, site) {
      GivenOnce(rules, name, site, site);
    }
  }

  lemma TailIs(rules: seq<Rule>, host: string, n: nat)
    requires 0 < n < |host|
    ensures var found := ForSuffix(rules, host[|host| - n..]);
            && (found.None? ==> !Tailed(rules, host, n))
            && (found.Some? ==> ByTail(rules, host, n, found.value) && found.value != "")
  {
    hide LastFor, Given;
    var tail := host[|host| - n..];
    LastForIs(rules, "*" + tail);
    if site :| ByTail(rules, host, n, site) {
      GivenOnce(rules, "*" + tail, site, site);
    }
  }

  /** The search over the tails of at most n characters. */
  lemma {:induction false} BySuffixIs(rules: seq<Rule>, host: string, n: nat)
    requires n < |host|
    ensures var site := BySuffix(rules, host, n);
            && (site == "" ==> forall m: nat :: m <= n ==> !Tailed(rules, host, m))
            && (site != "" ==> exists m: nat :: m <= n && ByTail(rules, host, m, site)
                                             && forall k: nat :: m < k <= n ==> !Tailed(rules, host, k))
    decreases n
  {
    hide ForSuffix, ByTail;
    if n == 0 {
      NoEmptyTail(rules, host);
    } else {
      TailIs(rules, host, n);
      BySuffixIs(rules, host, n - 1);
    }
  }

  lemma NoEmptyTail(rules: seq<Rule>, host: string)
    ensures !Tailed(rules, host, 0)
  {
  }

  lemma LongTails(rules: seq<Rule>, host: string, m: nat)
    requires m >= |host|
    ensures !Tailed(rules, host, m)
  {
  }

  lemma NamedOnce(rules: seq<Rule>, name: string, a: string, b: string)
    requires ByName(rules, name, a)
    ensures ByName(rules, name, b) ==> a == b
    ensures Named(rules, name) && a != ""
  {
    hide Given;
    GivenOnce(rules, name, a, b);
  }

  lemma TailedOnce(rules: seq<Rule>, host: string, n: nat, a: string, b: string)
    requires ByTail(rules, host, n, a)
    ensures ByTail(rules, host, n, b) ==> a == b
    ensures Tailed(rules, host, n) && a != ""
  {
    hide Given;
    GivenOnce(rules, "*" + host[|host| - n..], a, b);
  }

  lemma LongestOnce(rules: seq<Rule>, host: string, a: string, b: string)
    requires ByLongestTail(rules, host, a) && ByLongestTail(rules, host, b)
    ensures a == b && a != ""
  {
    hide ByTail;
    var n: nat :| ByTail(rules, host, n, a) && forall m: nat :: n < m ==> !Tailed(rules, host, m);
    var k: nat :| ByTail(rules, host, k, b) && forall m: nat :: k < m ==> !Tailed(rules, host, m);
    TailedOnce(rules, host, n, a, b);
    TailedOnce(rules, host, k, b, a);
  }

  lemma LongestIs(rules: seq<Rule>, host: string, site: string)
    requires host != "" && site != ""
    ensures BySuffix(rules, host, |host| - 1) == site <==> ByLongestTail(rules, host, site)
  {
    hide BySuffix, ByTail;
    var found := BySuffix(rules, host, |host| - 1);
    BySuffixIs(rules, host, |host| - 1);
    forall m: nat | m >= |host|
      ensures !Tailed(rules, host, m)
    {
      LongTails(rules, host, m);
    }
    if found == "" {
      if ByLongestTail(rules, host, site) {
        var n: nat :| ByTail(rules, host, n, site) && forall m: nat :: n < m ==> !Tailed(rules, host, m);
        TailedOnce(rules, host, n, site, site);
      }
    } else {
      var m: nat :| m <= |host| - 1 && ByTail(rules, host, m, found)
                    && forall k: nat :: m < k <= |host| - 1 ==> !Tailed(rules, host, k);
      assert ByLongestTail(rules, host, found);
      if ByLongestTail(rules, host, site) {
        LongestOnce(rules, host, found, site);
      }
    }
  }

  /** The search answers a site exactly when the rules give that site. */
  lemma SearchIs(rules: seq<Rule>, server: string, site: string)
    requires site != ""
    ensures Search(rules, server) == site <==> SiteIs(rules, server, site)
  {
    hide Exact, BySuffix, ByName, Named, ByLongestTail, HostnameOnly;
    var full, host := Normalize(server), Normalize(HostnameOnly(server));
    ExactIs(rules, full);
    ExactIs(rules, host);
    if Exact(rules, full).Some? {
      NamedOnce(rules, full, Exact(rules, full).value, site);
    }
    if Exact(rules, host).Some? {
      NamedOnce(rules, host, Exact(rules, host).value, site);
    }
    if host != "" {
      LongestIs(rules, host, site);
    }
    if ByName(rules, full, site) {
      NamedOnce(rules, full, site, site);
    }
    if ByName(rules, host, site) {
      NamedOnce(rules, host, site, site);
    }
  }

  // ---------------------------------------------------------------- case and port

  /** The same letter, in upper and in lower case. */
  predicate CaseOf(upper: char, lower: char) {
    'A' <= upper <= 'Z' && lower as int == upper as int + 32
  }

  ghost predicate SameButCase(a: string, b: string) {
    |a| == |b| && forall i :: 0 <= i < |a| ==> a[i] == b[i] || CaseOf(a[i], b[i]) || CaseOf(b[i], a[i])
  }

  lemma LowerIs(c: char, d: char)
    ensures Lower(c) == Lower(d) <==> c == d || CaseOf(c, d) || CaseOf(d, c)
  {
  }

  /** Two names have one normal form exactly if they differ in case only. */
  lemma NormalizeIs(a: string, b: string)
    ensures Normalize(a) == Normalize(b) <==> SameButCase(a, b)
  {
    hide Lower, CaseOf;
    forall i | 0 <= i < |a| && |a| == |b|
      ensures Normalize(a)[i] == Normalize(b)[i] <==> a[i] == b[i] || CaseOf(a[i], b[i]) || CaseOf(b[i], a[i])
    {
      NormalizeAt(a, i);
      NormalizeAt(b, i);
      LowerIs(a[i], b[i]);
    }
  }

  /** Case does not change where a colon or bracket is. */
  lemma {:induction false} FirstSame(a: string, b: string, c: char, i: nat)
    requires SameButCase(a, b) && i <= |a| && (c == ':' || c == '[' || c == ']')
    ensures FirstOf(a, c, i) == FirstOf(b, c, i)
    decreases |a| - i
  {
    if i < |a| && a[i] != c {
      FirstSame(a, b, c, i + 1);
    }
  }

  lemma HostSame(a: string, b: string)
    requires SameButCase(a, b)
    ensures SameButCase(HostnameOnly(a), HostnameOnly(b))
  {
    if a != "" {
      FirstSame(a, b, ']', 0);
      FirstSame(a, b, ':', 0);
      if FirstOf(a, ':', 0) < |a| {
        FirstSame(a, b, ':', FirstOf(a, ':', 0) + 1);
      }
    }
  }

  /** Servers that differ in case only have the same site. */
  lemma CaseDoesNotMatter(rules: seq<Rule>, a: string, b: string)
    requires SameButCase(a, b)
    ensures Search(rules, a) == Search(rules, b)
  {
    hide Exact, BySuffix, HostnameOnly, SameButCase, Normalize;
    NormalizeIs(a, b);
    HostSame(a, b);
    NormalizeIs(HostnameOnly(a), HostnameOnly(b));
    SameLength(a, b);
  }

  lemma SameLength(a: string, b: string)
    requires SameButCase(a, b)
    ensures |a| == |b|
  {
  }

  /** A bracketed address ends at its bracket, whatever follows; a name with
      more than one colon and no bracket is left alone. */
  lemma AddressIsKept(address: string, rest: string, name: string)
    ensures ']' !in address ==> HostnameOnly("[" + address + "]" + rest) == "[" + address + "]"
    ensures (exists i, j :: 0 < i < j < |name| && name[i] == name[j] == ':' && name[0] != '[') ==>
              HostnameOnly(name) == name
  {
    var server, end := "[" + address + "]" + rest, |address| + 1;
    if ']' !in address {
      FirstIn(server, ']', 0, end);
      assert server[..end + 1] == "[" + address + "]";
    }
  }

  /** A port matters only to rules that name it. */
  lemma PortDoesNotMatter(rules: seq<Rule>, host: string, port: string)
    requires host != "" && host[0] != '[' && ':' !in host && ':' !in port
    requires !Named(rules, Normalize(host + ":" + port))
    ensures Search(rules, host + ":" + port) == Search(rules, host)
  {
    hide Exact, BySuffix, HostnameOnly, Named, Normalize;
    var server := host + ":" + port;
    PortIsStripped(host, port);
    ExactIs(rules, Normalize(server));
    if Exact(rules, Normalize(server)).Some? {
      NamedNow(rules, Normalize(server), Exact(rules, Normalize(server)).value);
    }
  }

  lemma NamedNow(rules: seq<Rule>, name: string, site: string)
    requires ByName(rules, name, site)
    ensures Named(rules, name)
  {
  }

  /** A rule without a pattern or without a site changes no answer. */
  lemma EmptyRulesAreIgnored(rules: seq<Rule>, r: Rule, server: string)
    requires r.pattern == "" || r.site == ""
    ensures Search(rules + [r], server) == Search(rules, server)
  {
    hide Search;
    forall key
      ensures LastFor(rules + [r], key) == LastFor(rules, key)
    {
      LastForAppend(rules, r, key);
    }
    SearchSame(rules + [r], rules, server);
  }
}
