/** The tenant's sync filter: which hosts are left out, and that their assets are never touched. */
module SyncFilter {
  import opened Store
  import opened InvSync
  import opened SyncRun
  import Seqs

  datatype Filter = Filter(skipRetired: bool, skipStale: bool, excludeVMs: bool, excludeContainers: bool,
                           hostnameExclude: seq<string>, hostnameInclude: seq<string>,
                           osExclude: seq<string>, osInclude: seq<string>)

  const NO_FILTER := Filter(false, false, false, false, [], [], [], [])

  /** Glob matching of a pattern against a lower-cased value. */
  type Glob = (string, string) -> bool

  ghost predicate SomeMatch(x: TextOps, g: Glob, patterns: seq<string>, value: string) {
    exists i :: 0 <= i < |patterns| && g(patterns[i], x.lower(value))
  }

  method MatchAny(x: TextOps, g: Glob, patterns: seq<string>, value: string) returns (b: bool)
    ensures b <==> SomeMatch(x, g, patterns, value)
  {
    var v := x.lower(value);
    for i := 0 to |patterns|
      invariant forall k :: 0 <= k < i ==> !g(patterns[k], v)
    {
      if g(patterns[i], v) {
        return true;
      }
    }
    return false;
  }

  /** The rules, in the order in which the reason is reported. */
  ghost function Exclusion(x: TextOps, g: Glob, f: Filter, h: Host, role: string): string {
    if f.skipRetired && h.status == "retired" then "retired"
    else if f.skipStale && h.status == "stale" then "stale"
    else if f.excludeVMs && role == "vm" then "virtual_machine"
    else if f.excludeContainers && role == "container" then "container"
    else if SomeMatch(x, g, f.hostnameExclude, h.hostname) then "hostname_excluded"
    else if f.hostnameInclude != [] && !SomeMatch(x, g, f.hostnameInclude, h.hostname) then "hostname_not_included"
    else if SomeMatch(x, g, f.osExclude, h.osName) then "os_excluded"
    else if f.osInclude != [] && !SomeMatch(x, g, f.osInclude, h.osName) then "os_not_included"
    else ""
  }

  /** A rule that is switched on, or has patterns, and holds of the host; why it would be left out by it. */
  ghost predicate RuledOut(x: TextOps, g: Glob, f: Filter, h: Host, role: string, reason: string) {
    || (reason == "retired" && f.skipRetired && h.status == "retired")
    || (reason == "stale" && f.skipStale && h.status == "stale")
    || (reason == "virtual_machine" && f.excludeVMs && role == "vm")
    || (reason == "container" && f.excludeContainers && role == "container")
    || (reason == "hostname_excluded" && exists p <- f.hostnameExclude :: g(p, x.lower(h.hostname)))
    || (reason == "hostname_not_included" && f.hostnameInclude != []
        && forall p <- f.hostnameInclude :: !g(p, x.lower(h.hostname)))
    || (reason == "os_excluded" && exists p <- f.osExclude :: g(p, x.lower(h.osName)))
    || (reason == "os_not_included" && f.osInclude != [] && forall p <- f.osInclude :: !g(p, x.lower(h.osName)))
  }

  lemma SomeMatchIs(x: TextOps, g: Glob, patterns: seq<string>, value: string)
    ensures SomeMatch(x, g, patterns, value) <==> exists p <- patterns :: g(p, x.lower(value))
  {
    if p :| p in patterns && g(p, x.lower(value)) {
      var i :| 0 <= i < |patterns| && patterns[i] == p;
    }
  }

  /** A host is left out exactly when some rule says so, and the reason is one that does; a host
      of unknown role is not left out as a virtual machine or a container. */
  lemma ExcludedExactly(x: TextOps, g: Glob, f: Filter, h: Host, role: string)
    ensures Exclusion(x, g, f, h, role) == "" <==> forall reason :: !RuledOut(x, g, f, h, role, reason)
    ensures Exclusion(x, g, f, h, role) != "" ==> RuledOut(x, g, f, h, role, Exclusion(x, g, f, h, role))
  {
    SomeMatchIs(x, g, f.hostnameExclude, h.hostname);
    SomeMatchIs(x, g, f.hostnameInclude, h.hostname);
    SomeMatchIs(x, g, f.osExclude, h.osName);
    SomeMatchIs(x, g, f.osInclude, h.osName);
    hide SomeMatch;
    var r := Exclusion(x, g, f, h, role);
    assert r != "" ==> RuledOut(x, g, f, h, role, r);
    if reason :| RuledOut(x, g, f, h, role, reason) { assert r != ""; }
  }

  method Exclude(x: TextOps, g: Glob, f: Filter, h: Host, role: string) returns (reason: string)
    ensures reason == Exclusion(x, g, f, h, role)
  {
    if f.skipRetired && h.status == "retired" { return "retired"; }
    if f.skipStale && h.status == "stale" { return "stale"; }
    if f.excludeVMs && role == "vm" { return "virtual_machine"; }
    if f.excludeContainers && role == "container" { return "container"; }
    var b := MatchAny(x, g, f.hostnameExclude, h.hostname);
    if b { return "hostname_excluded"; }
    b := MatchAny(x, g, f.hostnameInclude, h.hostname);
    if f.hostnameInclude != [] && !b { return "hostname_not_included"; }
    b := MatchAny(x, g, f.osExclude, h.osName);
    if b { return "os_excluded"; }
    b := MatchAny(x, g, f.osInclude, h.osName);
    if f.osInclude != [] && !b { return "os_not_included"; }
    return "";
  }

  ghost function Mark(x: TextOps, g: Glob, f: Filter, hosts: map<string, Host>, roles: map<string, string>,
                      c: Change): Change {
    var h := HostOf(hosts, c.host);
    var reason := Exclusion(x, g, f, h, TagOf(roles, h.id));
    if reason == "" then c else c.(action := Excluded, reason := reason, delta := NO_DELTA)
  }

  ghost function MarkAll(x: TextOps, g: Glob, f: Filter, hosts: map<string, Host>, roles: map<string, string>,
                         changes: seq<Change>): (out: seq<Change>)
    ensures |out| == |changes| && forall i :: 0 <= i < |changes| ==> out[i] == Mark(x, g, f, hosts, roles, changes[i])
  {
    seq(|changes|, i requires 0 <= i < |changes| => Mark(x, g, f, hosts, roles, changes[i]))
  }

  /** Marks the changes of excluded hosts. */
  method ApplyFilter(x: TextOps, g: Glob, f: Filter, hosts: map<string, Host>, roles: map<string, string>,
                     changes: seq<Change>)
    returns (out: seq<Change>)
    ensures out == MarkAll(x, g, f, hosts, roles, changes)
  {
    hide Exclusion;
    out := changes;
    for i := 0 to |changes|
      invariant |out| == |changes| && out[i..] == changes[i..]
      invariant forall k :: 0 <= k < i ==> out[k] == Mark(x, g, f, hosts, roles, changes[k])
    {
      var h := HostOf(hosts, changes[i].host);
      var reason := Exclude(x, g, f, h, TagOf(roles, h.id));
      assert out[i] == out[i..][0] == changes[i..][0] == changes[i];
      if reason != "" {
        out := out[i := out[i].(action := Excluded, reason := reason, delta := NO_DELTA)];
      }
    }
  }

  /** Without a filter nothing is marked, so the plan is the plain comparison. */
  lemma NoFilterKeepsAll(x: TextOps, g: Glob, hosts: map<string, Host>, roles: map<string, string>,
                         changes: seq<Change>)
    ensures MarkAll(x, g, NO_FILTER, hosts, roles, changes) == changes
  {
    forall i | 0 <= i < |changes| ensures Mark(x, g, NO_FILTER, hosts, roles, changes[i]) == changes[i] {
    }
  }

  /** An asset that only excluded hosts would have updated is not touched by the run. */
  lemma ExcludedIsUntouched(x: TextOps, g: Glob, f: Filter, hosts: map<string, Host>, roles: map<string, string>,
                            t: Table<Asset>, changes: seq<Change>, tenant: string, o: Options, w: World, y: string)
    requires y in t
    requires forall c <- changes :: c.action == Action.Update && c.asset == y ==>
      Exclusion(x, g, f, HostOf(hosts, c.host), TagOf(roles, HostOf(hosts, c.host).id)) != ""
    ensures var t' := ApplyAll(x, t, MarkAll(x, g, f, hosts, roles, changes), hosts, tenant, o, w).table;
      y in t' && t'[y] == t[y]
  {
    hide Exclusion, ApplyAll;
    var marked := MarkAll(x, g, f, hosts, roles, changes);
    forall c <- marked | c.action == Action.Update && Applies(o, c) ensures c.asset != y {
      var i :| 0 <= i < |marked| && marked[i] == c;
      assert changes[i] in changes;
    }
    RunSpares(x, t, marked, hosts, tenant, o, w, y);
  }
}
