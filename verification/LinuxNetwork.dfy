/**
 Linux policy routing for one retained tunnel: a default route in an owned
 table and three rules per address family. Acquisition can be cut short after
 any kernel operation; recovery by a later process takes back exactly what the
 cut acquisition had added.
 */
module LinuxNetwork {
  datatype Family = V4 | V6

  datatype Action = ToTable | Unreachable | OtherAction(code: nat)

  /** Address, flow and transport selectors and the mark mask: none at all, or some. */
  datatype Selectors = Plain | Selecting(code: nat)

  datatype Rule = Rule(family: Family, priority: int, table: int, mark: int, protocol: nat, action: Action, selectors: Selectors)

  datatype Route = Route(family: Family, table: int, protocol: nat, unicast: bool, gateway: bool, isDefault: bool, link: int, rest: nat)

  /** A kernel entry: a route or a policy rule. */
  datatype Resource = RouteOf(route: Route) | RuleOf(rule: Rule)

  type Tables = set<Resource>

  const OWNED_PROTOCOL: nat := 233
  const MAX_UINT32 := 0xFFFF_FFFF
  const TABLE_DEFAULT := 253
  const TABLE_MAIN := 254
  const TABLE_LOCAL := 255

  predicate ValidIdentity(tableID: int, priority: int) {
    && 0 < tableID <= MAX_UINT32 && !(TABLE_DEFAULT <= tableID <= TABLE_LOCAL)
    && 0 < priority <= MAX_UINT32 - 2
  }

  // ------------------------------------------------------------ acquisition

  function OwnedRule(family: Family, tableID: int, priority: int, offset: nat): Rule {
    if offset == 0 then Rule(family, priority, TABLE_MAIN, tableID, OWNED_PROTOCOL, ToTable, Plain)
    else if offset == 1 then Rule(family, priority + 1, 0, tableID, OWNED_PROTOCOL, Unreachable, Plain)
    else Rule(family, priority + 2, tableID, 0, OWNED_PROTOCOL, ToTable, Plain)
  }

  function OwnedRoute(family: Family, tableID: int, link: int): Route {
    Route(family, tableID, OWNED_PROTOCOL, true, false, true, link, 0)
  }

  /** What acquisition adds for one family, in its order. */
  function FamilyResources(family: Family, tableID: int, priority: int, link: int): seq<Resource> {
    [RouteOf(OwnedRoute(family, tableID, link)),
     RuleOf(OwnedRule(family, tableID, priority, 0)),
     RuleOf(OwnedRule(family, tableID, priority, 1)),
     RuleOf(OwnedRule(family, tableID, priority, 2))]
  }

  function AllResources(tableID: int, priority: int, link: int): seq<Resource> {
    FamilyResources(V4, tableID, priority, link) + FamilyResources(V6, tableID, priority, link)
  }

  predicate InRange(rule: Rule, priority: int) { priority <= rule.priority <= priority + 2 }

  /** The entry stands in the way of acquiring this family: a route in the table, or a rule at one of the three priorities. */
  predicate Conflicts(e: Resource, family: Family, tableID: int, priority: int) {
    match e
    case RouteOf(r) => r.family == family && r.table == tableID
    case RuleOf(r) => r.family == family && InRange(r, priority)
  }

  predicate Preflight(t: Tables, family: Family, tableID: int, priority: int) {
    forall e :: e in t ==> !Conflicts(e, family, tableID, priority)
  }

  function Elements(resources: seq<Resource>): set<Resource> { set e | e in resources }

  // --------------------------------------------------------------- recovery

  /** linuxOwnsNetworkRule: protocol, priority, action, table, mark and the absence of any selector all match. */
  predicate OwnsRule(rule: Rule, priority: int, tableID: int) {
    && rule.protocol == OWNED_PROTOCOL && InRange(rule, priority) && rule.selectors == Plain
    && (if rule.priority == priority then rule.mark == tableID && rule.table == TABLE_MAIN && rule.action == ToTable
        else if rule.priority == priority + 1 then rule.mark == tableID && rule.table == 0 && rule.action == Unreachable
        else rule.mark == 0 && rule.table == tableID && rule.action == ToTable)
  }

  predicate RouteCandidate(r: Route, tableID: int) {
    r.table == tableID && r.protocol == OWNED_PROTOCOL && r.unicast && !r.gateway && r.isDefault && r.link > 0
  }

  /** What recovery deletes: entries that only this program installs, on the tunnel of this name. */
  predicate Recoverable(e: Resource, tableID: int, priority: int, tun: string, links: map<int, string>) {
    match e
    case RuleOf(r) => OwnsRule(r, priority, tableID)
    case RouteOf(r) => RouteCandidate(r, tableID) && r.link in links && links[r.link] == tun
  }

  function Recovered(t: Tables, tableID: int, priority: int, tun: string, links: map<int, string>): Tables {
    set e | e in t && !Recoverable(e, tableID, priority, tun, links)
  }

  /** A rule in the reserved range shares everything the kernel identifies an action by with a rule of another action. */
  predicate Ambiguous(t: Tables, family: Family, priority: int) {
    exists a, b :: a in t && b in t && a.RuleOf? && b.RuleOf? && a.rule.family == b.rule.family == family &&
      InRange(a.rule, priority) && a.rule.priority == b.rule.priority && a.rule.table == b.rule.table &&
      a.rule.mark == b.rule.mark && a.rule.protocol == b.rule.protocol && a.rule.action != b.rule.action
  }

  // -------------------------------------------------------------- the kernel

  /** Operations fail, or the process dies, once the budget is spent. */
  class Kernel {
    var entries: Tables
    var budget: nat
    const links: map<int, string>

    constructor (entries: Tables, budget: nat, links: map<int, string>)
      ensures this.entries == entries && this.budget == budget && this.links == links
    {
      this.entries, this.budget, this.links := entries, budget, links;
    }

    method Add(e: Resource) returns (ok: bool)
      modifies this
      ensures ok ==> e !in old(entries) && entries == old(entries) + {e}
      ensures !ok ==> entries == old(entries) && (e in entries || budget == 0)
    {
      ok := budget > 0 && e !in entries;
      if ok {
        budget, entries := budget - 1, entries + {e};
      }
    }

    /** Deleting an entry that is already gone succeeds. */
    method Delete(e: Resource) returns (ok: bool)
      modifies this
      ensures entries == if ok then old(entries) - {e} else old(entries)
      ensures !ok ==> budget == 0
    {
      ok := budget > 0;
      if ok {
        budget, entries := budget - 1, entries - {e};
      }
    }
  }

  /** The leases of one plan: what it added, in order of acquisition. */
  class Plan {
    var closed: bool
    var leases: seq<Resource>

    constructor ()
      ensures !closed && leases == []
    {
      closed, leases := false, [];
    }

    /** A successful apply is recorded at once, so cleanup knows everything that was added. */
    method Acquire(k: Kernel, e: Resource) returns (ok: bool)
      modifies this`leases, k
      ensures ok ==> !closed && e !in old(k.entries) && k.entries == old(k.entries) + {e} && leases == old(leases) + [e]
      ensures !ok ==> k.entries == old(k.entries) && leases == old(leases)
      ensures !ok ==> closed || e in k.entries || k.budget == 0
    {
      if closed {
        return false;
      }
      ok := k.Add(e);
      if ok {
        leases := leases + [e];
      }
    }

    /** Last acquired, first released; a lease that fails stays, with everything below it, for another Close. */
    method Close(k: Kernel) returns (ok: bool)
      modifies this, k
      ensures closed && leases <= old(leases)
      ensures k.entries == old(k.entries) - Elements(old(leases)[|leases|..])
      ensures ok ==> leases == []
      ensures !ok ==> leases != [] && k.budget == 0
    {
      closed := true;
      while |leases| > 0
        invariant closed && leases <= old(leases)
        invariant k.entries == old(k.entries) - Elements(old(leases)[|leases|..])
      {
        var i := |leases| - 1;
        ok := k.Delete(leases[i]);
        if !ok {
          return;
        }
        assert old(leases)[i..] == [leases[i]] + old(leases)[i + 1..];
        leases := leases[..i];
      }
      ok := true;
    }

    method AcquireFamily(k: Kernel, family: Family, tableID: int, priority: int, link: int) returns (ok: bool, ghost n: nat)
      modifies this`leases, k
      ensures n <= 4 && (ok ==> n == 4)
      ensures var added := FamilyResources(family, tableID, priority, link)[..n];
        leases == old(leases) + added && k.entries == old(k.entries) + Elements(added)
      ensures n > 0 ==> Preflight(old(k.entries), family, tableID, priority)
      ensures !ok ==> closed || k.budget == 0 || !Preflight(old(k.entries), family, tableID, priority)
    {
      n := 0;
      if !Preflight(k.entries, family, tableID, priority) {
        return false, 0;
      }
      ghost var resources := FamilyResources(family, tableID, priority, link);
      ok := Acquire(k, RouteOf(OwnedRoute(family, tableID, link)));
      if !ok {
        return;
      }
      n := 1;
      assert resources[..1] == [resources[0]];
      var offset := 0;
      while offset < 3
        invariant 0 <= offset <= 3 && n == offset + 1
        invariant leases == old(leases) + resources[..n]
        invariant k.entries == old(k.entries) + Elements(resources[..n])
        invariant Preflight(old(k.entries), family, tableID, priority) && ok
      {
        assert RuleOf(OwnedRule(family, tableID, priority, offset)) == resources[n] && resources[n] !in resources[..n];
        assert Conflicts(resources[n], family, tableID, priority);
        ok := Acquire(k, RuleOf(OwnedRule(family, tableID, priority, offset)));
        if !ok {
          return;
        }
        assert resources[..n + 1] == resources[..n] + [RuleOf(OwnedRule(family, tableID, priority, offset))];
        offset, n := offset + 1, n + 1;
      }
    }

    /**
     However far it gets, what was added is a prefix of the eight entries, over the
     link of this name, and the plan holds all of it.
     */
    method AcquireLinuxNetwork(k: Kernel, tun: string, tableID: int, priority: int) returns (ok: bool, link: int, ghost n: nat)
      modifies this`leases, k
      ensures n <= 8 && (ok ==> n == 8)
      ensures n > 0 ==> link in k.links && k.links[link] == tun
      ensures var added := AllResources(tableID, priority, link)[..n];
        leases == old(leases) + added && k.entries == old(k.entries) + Elements(added)
      ensures n > 0 ==> ValidIdentity(tableID, priority) && link > 0 && Preflight(old(k.entries), V4, tableID, priority)
      ensures n > 4 ==> Preflight(old(k.entries), V6, tableID, priority)
      ensures !ok ==> closed || k.budget == 0 || !ValidIdentity(tableID, priority) || link <= 0
                      || !Preflight(old(k.entries), V4, tableID, priority) || !Preflight(old(k.entries), V6, tableID, priority)
      ensures link <= 0 ==> !ValidIdentity(tableID, priority) || tun == "" || tun !in k.links.Values || (link in k.links && k.links[link] == tun)
    {
      n, link := 0, 0;
      if !ValidIdentity(tableID, priority) || tun == "" || !(exists i :: i in k.links && k.links[i] == tun) {
        return false, 0, 0;
      }
      link :| link in k.links && k.links[link] == tun;
      if link <= 0 {
        return false, link, 0;
      }
      ok, n := AcquireFamily(k, V4, tableID, priority, link);
      ghost var v4, v6 := FamilyResources(V4, tableID, priority, link), FamilyResources(V6, tableID, priority, link);
      assert (v4 + v6)[..n] == v4[..n];
      if !ok {
        return;
      }
      ghost var between := k.entries;
      ghost var m: nat;
      ok, m := AcquireFamily(k, V6, tableID, priority, link);
      assert (v4 + v6)[..4 + m] == v4 + v6[..m];
      assert v4[..4] == v4;
      n := 4 + m;
      if m > 0 {
        assert forall e :: e in old(k.entries) ==> e in between;
      }
    }
  }

  // --------------------------------------------------- recovery by a process

  function OfFamily(e: Resource): Family { if e.RuleOf? then e.rule.family else e.route.family }

  /** Recovery reads the entries once and deletes the ones it owns; an unreadable identity stops it. */
  method RecoverFamily(k: Kernel, family: Family, tableID: int, priority: int, tun: string) returns (ok: bool)
    modifies k
    ensures Recovered(k.entries, tableID, priority, tun, k.links) == Recovered(old(k.entries), tableID, priority, tun, k.links)
    ensures k.entries <= old(k.entries)
    ensures forall e :: e in old(k.entries) && e !in k.entries ==> Recoverable(e, tableID, priority, tun, k.links)
    ensures ok ==> forall e :: e in k.entries && OfFamily(e) == family ==> !Recoverable(e, tableID, priority, tun, k.links)
    ensures !ok ==> k.budget == 0 || Ambiguous(old(k.entries), family, priority) || UnknownLink(old(k.entries), tableID, k.links)
  {
    if Ambiguous(k.entries, family, priority) {
      return false;
    }
    ok := DeleteOwned(k, family, tableID, priority, tun, true);
    if ok {
      ok := DeleteOwned(k, family, tableID, priority, tun, false);
    }
  }

  predicate UnknownLink(t: Tables, tableID: int, links: map<int, string>) {
    exists e :: e in t && e.RouteOf? && RouteCandidate(e.route, tableID) && e.route.link !in links
  }

  method DeleteOwned(k: Kernel, family: Family, tableID: int, priority: int, tun: string, rules: bool) returns (ok: bool)
    modifies k
    ensures Recovered(k.entries, tableID, priority, tun, k.links) == Recovered(old(k.entries), tableID, priority, tun, k.links)
    ensures k.entries <= old(k.entries)
    ensures forall e :: e in old(k.entries) && e !in k.entries ==> Recoverable(e, tableID, priority, tun, k.links)
    ensures ok ==> forall e :: e in k.entries && OfFamily(e) == family && e.RuleOf? == rules ==>
                     !Recoverable(e, tableID, priority, tun, k.links)
    ensures !ok ==> k.budget == 0 || UnknownLink(old(k.entries), tableID, k.links)
  {
    var todo := set e | e in k.entries && OfFamily(e) == family && e.RuleOf? == rules;
    ok := true;
    while todo != {}
      invariant todo <= k.entries <= old(k.entries)
      invariant forall e :: e in old(k.entries) && e !in k.entries ==> Recoverable(e, tableID, priority, tun, k.links)
      invariant forall e :: e in k.entries && OfFamily(e) == family && e.RuleOf? == rules && e !in todo ==>
                  !Recoverable(e, tableID, priority, tun, k.links)
      decreases |todo|
    {
      var e :| e in todo;
      todo := todo - {e};
      if e.RouteOf? && RouteCandidate(e.route, tableID) && e.route.link !in k.links {
        return false;
      }
      if Recoverable(e, tableID, priority, tun, k.links) {
        ok := k.Delete(e);
        if !ok {
          return;
        }
      }
    }
  }

  /** Interrupted anywhere and run again, recovery ends with the same tables; it deletes nothing it does not own. */
  method RecoverLinuxNetworkRules(k: Kernel, tableID: int, priority: int, tun: string) returns (ok: bool)
    modifies k
    ensures Recovered(k.entries, tableID, priority, tun, k.links) == Recovered(old(k.entries), tableID, priority, tun, k.links)
    ensures forall e :: e in old(k.entries) && e !in k.entries ==> Recoverable(e, tableID, priority, tun, k.links)
    ensures ok ==> k.entries == Recovered(old(k.entries), tableID, priority, tun, k.links)
    ensures State(k.entries, k.links)
         == Next(State(old(k.entries), k.links), Attempt(old(k.entries) - k.entries), tableID, priority, tun)
    ensures !ok && ValidIdentity(tableID, priority) ==>
              || k.budget == 0 || Ambiguous(old(k.entries), V4, priority) || Ambiguous(old(k.entries), V6, priority)
              || UnknownLink(old(k.entries), tableID, k.links)
  {
    if !ValidIdentity(tableID, priority) {
      return false;
    }
    ok := RecoverFamily(k, V4, tableID, priority, tun);
    if !ok {
      return;
    }
    ok := RecoverFamily(k, V6, tableID, priority, tun);
    if ok {
      forall e | e in k.entries
        ensures !Recoverable(e, tableID, priority, tun, k.links)
      {
        assert OfFamily(e) == V4 || OfFamily(e) == V6;
      }
      assert k.entries == Recovered(k.entries, tableID, priority, tun, k.links);
    }
  }

  // ------------------------------------------------- between crash and recovery

  /** What a later process finds: the tables, and the links by number. */
  datatype State = State(entries: Tables, links: map<int, string>)

  /**
   A link goes, as the tunnel does with the process that holds it, and the kernel
   drops every route over it; a link appears under an unused number; a recovery
   attempt, however it ends, has deleted some of the entries it owns.
   */
  datatype Event = Vanish(link: int) | Appear(link: int, name: string) | Attempt(deleted: Tables)

  predicate RouteOver(e: Resource, link: int) { e.RouteOf? && e.route.link == link }

  function Next(s: State, e: Event, tableID: int, priority: int, tun: string): State {
    match e
    case Vanish(link) => State((set r | r in s.entries && !RouteOver(r, link)), s.links - {link})
    case Appear(link, name) => if link in s.links then s else s.(links := s.links[link := name])
    case Attempt(deleted) =>
      s.(entries := set r | r in s.entries && !(r in deleted && Recoverable(r, tableID, priority, tun, s.links)))
  }

  function Run(s: State, events: seq<Event>, tableID: int, priority: int, tun: string): State
    decreases |events|
  {
    if events == [] then s else Run(Next(s, events[0], tableID, priority, tun), events[1..], tableID, priority, tun)
  }

  /** Of these entries, those that no vanishing link took along. */
  function Survivors(t: Tables, events: seq<Event>): Tables {
    set e | e in t && !(e.RouteOf? && Vanish(e.route.link) in events)
  }

  // ---------------------------------------------------------------- theorems

  lemma AddedIsRecoverable(tableID: int, priority: int, link: int, e: Resource, tun: string, links: map<int, string>)
    requires link > 0 && link in links && links[link] == tun && e in AllResources(tableID, priority, link)
    ensures Recoverable(e, tableID, priority, tun, links)
  {
  }

  lemma PreflightClears(t: Tables, tableID: int, priority: int)
    requires Preflight(t, V4, tableID, priority) && Preflight(t, V6, tableID, priority)
    ensures forall e :: e in t ==> !Conflicts(e, OfFamily(e), tableID, priority)
  {
    forall e | e in t
      ensures !Conflicts(e, OfFamily(e), tableID, priority)
    {
      assert OfFamily(e) == V4 || OfFamily(e) == V6;
    }
  }

  lemma RecoverableConflicts(e: Resource, tableID: int, priority: int, tun: string, links: map<int, string>)
    requires Recoverable(e, tableID, priority, tun, links)
    ensures Conflicts(e, OfFamily(e), tableID, priority)
  {
  }

  /** `s` differs from `u` at most by entries of the acquisition, and recovery would take all of those. */
  predicate Extends(s: State, u: State, added: set<Resource>, tableID: int, priority: int, tun: string) {
    && s.links == u.links && u.entries <= s.entries
    && (forall e :: e in s.entries && e !in u.entries ==> e in added && Recoverable(e, tableID, priority, tun, s.links))
  }

  lemma ExtendsStep(s: State, u: State, added: set<Resource>, e: Event, tableID: int, priority: int, tun: string)
    requires Extends(s, u, added, tableID, priority, tun)
    ensures Extends(Next(s, e, tableID, priority, tun), Next(u, e, tableID, priority, tun), added, tableID, priority, tun)
  {
    hide OwnsRule;
  }

  lemma {:induction false} ExtendsRun(s: State, u: State, added: set<Resource>, events: seq<Event>, tableID: int, priority: int, tun: string)
    requires Extends(s, u, added, tableID, priority, tun)
    ensures Extends(Run(s, events, tableID, priority, tun), Run(u, events, tableID, priority, tun), added, tableID, priority, tun)
    decreases |events|
  {
    if events != [] {
      ExtendsStep(s, u, added, events[0], tableID, priority, tun);
      hide Extends, Next;
      ExtendsRun(Next(s, events[0], tableID, priority, tun), Next(u, events[0], tableID, priority, tun), added, events[1..],
                 tableID, priority, tun);
    }
  }

  lemma CutExtends(s: State, n: nat, tableID: int, priority: int, link: int, tun: string)
    requires n <= 8 && link > 0 && link in s.links && s.links[link] == tun
    ensures var added := Elements(AllResources(tableID, priority, link)[..n]);
      Extends(s.(entries := s.entries + added), s, added, tableID, priority, tun)
  {
    var all := AllResources(tableID, priority, link);
    forall e | e in all[..n]
      ensures Recoverable(e, tableID, priority, tun, s.links)
    {
      assert e in all;
      AddedIsRecoverable(tableID, priority, link, e, tun, s.links);
    }
    hide Recoverable;
  }

  /**
   Without any preflight: cut an acquisition after any of its operations, let links
   go and come, and recovery be interrupted and repeated. A recovery that completes
   then leaves what it would have left had nothing been acquired.
   */
  lemma RecoveryForgetsAcquisition(s: State, n: nat, events: seq<Event>, tableID: int, priority: int, link: int, tun: string)
    requires n <= 8 && link > 0 && link in s.links && s.links[link] == tun
    ensures var cut := s.(entries := s.entries + Elements(AllResources(tableID, priority, link)[..n]));
      var v, u := Run(cut, events, tableID, priority, tun), Run(s, events, tableID, priority, tun);
      Recovered(v.entries, tableID, priority, tun, v.links) == Recovered(u.entries, tableID, priority, tun, u.links)
  {
    var added := Elements(AllResources(tableID, priority, link)[..n]);
    CutExtends(s, n, tableID, priority, link, tun);
    hide Run, Recoverable;
    ExtendsRun(s.(entries := s.entries + added), s, added, events, tableID, priority, tun);
  }

  /** Tables in which nothing conflicts lose nothing to recovery. */
  lemma {:induction false} NothingToRecover(s: State, events: seq<Event>, tableID: int, priority: int, tun: string)
    requires forall e :: e in s.entries ==> !Conflicts(e, OfFamily(e), tableID, priority)
    ensures Run(s, events, tableID, priority, tun).entries == Survivors(s.entries, events)
    decreases |events|
  {
    if events != [] {
      var v := Next(s, events[0], tableID, priority, tun);
      forall e | e in s.entries
        ensures !Recoverable(e, tableID, priority, tun, s.links)
      {
        if Recoverable(e, tableID, priority, tun, s.links) {
          RecoverableConflicts(e, tableID, priority, tun, s.links);
        }
      }
      hide Recoverable, Conflicts;
      NothingToRecover(v, events[1..], tableID, priority, tun);
      forall e | e in s.entries
        ensures e in Survivors(v.entries, events[1..]) <==> e in Survivors(s.entries, events)
      {
        assert events == [events[0]] + events[1..];
      }
    }
  }

  /**
   The round trip: from tables that pass the preflight of both families, cut the
   acquisition after any number of its operations. Whether the tunnel link stays or
   goes with the process, whatever other links go and come, and however often
   recovery is interrupted: when it completes, the tables are what they were, less
   the routes that the kernel took along with a link.
   */
  lemma CrashPrefixRoundTrip(s: State, n: nat, events: seq<Event>, tableID: int, priority: int, link: int, tun: string)
    requires Preflight(s.entries, V4, tableID, priority) && Preflight(s.entries, V6, tableID, priority)
    requires n <= 8 && link > 0 && link in s.links && s.links[link] == tun
    ensures var cut := s.(entries := s.entries + Elements(AllResources(tableID, priority, link)[..n]));
      var v := Run(cut, events, tableID, priority, tun);
      Recovered(v.entries, tableID, priority, tun, v.links) == Survivors(s.entries, events)
  {
    RecoveryForgetsAcquisition(s, n, events, tableID, priority, link, tun);
    PreflightClears(s.entries, tableID, priority);
    NothingToRecover(s, events, tableID, priority, tun);
    var u := Run(s, events, tableID, priority, tun);
    forall e | e in u.entries
      ensures !Recoverable(e, tableID, priority, tun, u.links)
    {
      if Recoverable(e, tableID, priority, tun, u.links) {
        RecoverableConflicts(e, tableID, priority, tun, u.links);
      }
    }
    hide Run, Recoverable, Conflicts, Preflight;
  }

  /** All along that way no rule identity is ambiguous and no link unknown, so only a failing kernel can stop recovery. */
  lemma RecoveryIsNotRefused(s: State, n: nat, events: seq<Event>, tableID: int, priority: int, link: int, tun: string, family: Family)
    requires Preflight(s.entries, V4, tableID, priority) && Preflight(s.entries, V6, tableID, priority)
    requires n <= 8 && link > 0 && link in s.links && s.links[link] == tun
    ensures var cut := s.(entries := s.entries + Elements(AllResources(tableID, priority, link)[..n]));
      var v := Run(cut, events, tableID, priority, tun);
      !Ambiguous(v.entries, family, priority) && !UnknownLink(v.entries, tableID, v.links)
  {
    var all := AllResources(tableID, priority, link);
    var added := Elements(all[..n]);
    CutExtends(s, n, tableID, priority, link, tun);
    PreflightClears(s.entries, tableID, priority);
    NothingToRecover(s, events, tableID, priority, tun);
    ExtendsRun(s.(entries := s.entries + added), s, added, events, tableID, priority, tun);
    var v := Run(s.(entries := s.entries + added), events, tableID, priority, tun);
    forall e | e in v.entries && Conflicts(e, OfFamily(e), tableID, priority)
      ensures e in all && Recoverable(e, tableID, priority, tun, v.links)
    {
      assert e !in Survivors(s.entries, events);
    }
    hide Run, Extends, Preflight;
    NotRefused(v, all, tableID, priority, link, tun, family);
  }

  lemma NotRefused(v: State, all: seq<Resource>, tableID: int, priority: int, link: int, tun: string, family: Family)
    requires all == AllResources(tableID, priority, link)
    requires forall e :: e in v.entries && Conflicts(e, OfFamily(e), tableID, priority) ==>
               e in all && Recoverable(e, tableID, priority, tun, v.links)
    ensures !Ambiguous(v.entries, family, priority) && !UnknownLink(v.entries, tableID, v.links)
  {
    forall a, b | a in v.entries && b in v.entries && a.RuleOf? && b.RuleOf? && a.rule.family == b.rule.family == family &&
                  InRange(a.rule, priority) && a.rule.priority == b.rule.priority
      ensures a.rule.action == b.rule.action
    {
      assert Conflicts(a, family, tableID, priority) && Conflicts(b, family, tableID, priority);
    }
    forall e | e in v.entries && e.RouteOf? && RouteCandidate(e.route, tableID)
      ensures e.route.link in v.links
    {
      assert Conflicts(e, OfFamily(e), tableID, priority);
    }
  }

  /**
   The orderly way back undoes acquisition step by step: a plan that has closed
   down to its first `j` leases, in however many attempts, leaves the tables an
   acquisition cut after `j` operations would have left.
   */
  lemma CloseUndoesAcquisition(t: Tables, n: nat, j: nat, tableID: int, priority: int, link: int)
    requires Preflight(t, V4, tableID, priority) && Preflight(t, V6, tableID, priority) && j <= n <= 8
    ensures var added := AllResources(tableID, priority, link)[..n];
      (t + Elements(added)) - Elements(added[j..]) == t + Elements(added[..j])
  {
    var all := AllResources(tableID, priority, link);
    var added := all[..n];
    PreflightClears(t, tableID, priority);
    forall e | e in added
      ensures Conflicts(e, OfFamily(e), tableID, priority)
    {
    }
    assert forall i, k :: 0 <= i < k < 8 ==> all[i] != all[k];
    forall e | e in added[j..]
      ensures e !in added[..j]
    {
    }
    assert added == added[..j] + added[j..];
  }

  // ------------------------------------------------------ where packets go

  /** What becomes of a packet: a physical route, the tunnel, a refusal, or the rules behind the owned ones. */
  datatype Verdict = Physical | Over(link: int) | Refused | Further

  /** A rule without selectors applies to packets of its family; a mark narrows it to packets that carry it. */
  predicate Matches(rule: Rule, family: Family, mark: int) {
    rule.family == family && rule.selectors == Plain && (rule.mark == 0 || rule.mark == mark)
  }

  /** A table's default route; the main table holds the physical one, if there is any. */
  ghost predicate Finds(t: Tables, family: Family, table: int, physical: bool, v: Verdict) {
    if table == TABLE_MAIN then physical && v == Physical
    else exists r: Route :: RouteOf(r) in t && r.family == family && r.table == table && r.isDefault && r.unicast && v == Over(r.link)
  }

  ghost predicate Found(t: Tables, family: Family, table: int, physical: bool) {
    if table == TABLE_MAIN then physical
    else exists r: Route :: RouteOf(r) in t && r.family == family && r.table == table && r.isDefault && r.unicast
  }

  /** The rule decides so about a packet it matches, or leaves it to the next. */
  ghost predicate Decides(t: Tables, rule: Rule, family: Family, physical: bool, v: Verdict) {
    if rule.action == Unreachable then v == Refused
    else rule.action == ToTable && Finds(t, family, rule.table, physical, v)
  }

  /** No rule of this priority decides about the packet. */
  ghost predicate Passes(t: Tables, family: Family, mark: int, physical: bool, at: int) {
    forall rule: Rule :: RuleOf(rule) in t && rule.priority == at && Matches(rule, family, mark) ==>
      rule.action == ToTable && !Found(t, family, rule.table, physical)
  }

  /** Rules apply in ascending priority, from `at` up to and excluding `end`. */
  ghost predicate Goes(t: Tables, family: Family, mark: int, physical: bool, at: int, end: int, v: Verdict)
    decreases end - at
  {
    if at >= end then v == Further
    else
      || (exists rule: Rule :: RuleOf(rule) in t && rule.priority == at && Matches(rule, family, mark) && Decides(t, rule, family, physical, v))
      || (Passes(t, family, mark, physical, at) && Goes(t, family, mark, physical, at + 1, end, v))
  }

  /** Within the acquired range there is no rule but the three of this family, and in the table no route but its own. */
  lemma OnlyOwned(t: Tables, tableID: int, priority: int, link: int, family: Family)
    requires Preflight(t, V4, tableID, priority) && Preflight(t, V6, tableID, priority) && ValidIdentity(tableID, priority)
    ensures var a := t + Elements(AllResources(tableID, priority, link));
      && (forall rule: Rule :: RuleOf(rule) in a && rule.family == family && InRange(rule, priority) ==>
            rule == OwnedRule(family, tableID, priority, rule.priority - priority))
      && (forall r: Route :: RouteOf(r) in a && r.family == family && r.table == tableID ==> r == OwnedRoute(family, tableID, link))
      && RouteOf(OwnedRoute(family, tableID, link)) in a
      && (forall i: nat :: i < 3 ==> RuleOf(OwnedRule(family, tableID, priority, i)) in a)
  {
    var all := AllResources(tableID, priority, link);
    PreflightClears(t, tableID, priority);
    assert all[0] in all && all[1] in all && all[2] in all && all[3] in all;
    assert all[4] in all && all[5] in all && all[6] in all && all[7] in all;
  }

  /**
   Once everything is acquired, a packet that carries the mark goes out by the
   physical route or is refused, never into the tunnel; any other packet of either
   family goes into the tunnel.
   */
  lemma PacketsGo(t: Tables, tableID: int, priority: int, link: int, family: Family, mark: int, physical: bool, v: Verdict)
    requires Preflight(t, V4, tableID, priority) && Preflight(t, V6, tableID, priority) && ValidIdentity(tableID, priority)
    ensures var a := t + Elements(AllResources(tableID, priority, link));
      Goes(a, family, mark, physical, priority, priority + 3, v) <==>
        v == if mark != tableID then Over(link) else if physical then Physical else Refused
  {
    var a := t + Elements(AllResources(tableID, priority, link));
    var r0, r1, r2 := OwnedRule(family, tableID, priority, 0), OwnedRule(family, tableID, priority, 1), OwnedRule(family, tableID, priority, 2);
    OnlyOwned(t, tableID, priority, link, family);
    assert RuleOf(r0) in a && RuleOf(r1) in a && RuleOf(r2) in a && RouteOf(OwnedRoute(family, tableID, link)) in a;
    assert forall x :: Finds(a, family, tableID, physical, x) <==> x == Over(link);
    assert Found(a, family, tableID, physical);
    hide Preflight;
    LastRule(a, tableID, priority, link, family, mark, physical, v);
    if mark == tableID {
      MiddleRule(a, tableID, priority, family, mark, physical, v);
      FirstRule(a, tableID, priority, family, mark, physical, v);
    } else {
      assert Passes(a, family, mark, physical, priority) && Passes(a, family, mark, physical, priority + 1);
      NoRule(a, family, mark, physical, priority + 1, priority + 3, v);
      NoRule(a, family, mark, physical, priority, priority + 3, v);
    }
  }

  /** The rules of this family in the range are the three owned ones. */
  ghost predicate Owned(a: Tables, tableID: int, priority: int, family: Family) {
    && (forall rule: Rule :: RuleOf(rule) in a && rule.family == family && InRange(rule, priority) ==>
          rule == OwnedRule(family, tableID, priority, rule.priority - priority))
    && (forall i: nat :: i < 3 ==> RuleOf(OwnedRule(family, tableID, priority, i)) in a)
  }

  lemma NoRule(a: Tables, family: Family, mark: int, physical: bool, at: int, end: int, v: Verdict)
    requires at < end && Passes(a, family, mark, physical, at)
    requires forall rule: Rule :: RuleOf(rule) in a && rule.priority == at ==> !Matches(rule, family, mark)
    ensures Goes(a, family, mark, physical, at, end, v) == Goes(a, family, mark, physical, at + 1, end, v)
  {
  }

  lemma LastRule(a: Tables, tableID: int, priority: int, link: int, family: Family, mark: int, physical: bool, v: Verdict)
    requires Owned(a, tableID, priority, family) && Found(a, family, tableID, physical) && tableID != TABLE_MAIN
    requires forall x :: Finds(a, family, tableID, physical, x) <==> x == Over(link)
    ensures Goes(a, family, mark, physical, priority + 2, priority + 3, v) <==> v == Over(link)
  {
    var r2 := OwnedRule(family, tableID, priority, 2);
    assert RuleOf(r2) in a && Matches(r2, family, mark);
    assert !Passes(a, family, mark, physical, priority + 2);
    assert Decides(a, r2, family, physical, v) <==> v == Over(link);
  }

  lemma MiddleRule(a: Tables, tableID: int, priority: int, family: Family, mark: int, physical: bool, v: Verdict)
    requires Owned(a, tableID, priority, family) && mark == tableID
    ensures Goes(a, family, mark, physical, priority + 1, priority + 3, v) <==> v == Refused
  {
    var r1 := OwnedRule(family, tableID, priority, 1);
    assert RuleOf(r1) in a && Matches(r1, family, mark);
    assert !Passes(a, family, mark, physical, priority + 1);
    assert Decides(a, r1, family, physical, v) <==> v == Refused;
  }

  lemma FirstRule(a: Tables, tableID: int, priority: int, family: Family, mark: int, physical: bool, v: Verdict)
    requires Owned(a, tableID, priority, family) && mark == tableID
    requires Goes(a, family, mark, physical, priority + 1, priority + 3, v) <==> v == Refused
    ensures Goes(a, family, mark, physical, priority, priority + 3, v) <==> v == if physical then Physical else Refused
  {
    var r0 := OwnedRule(family, tableID, priority, 0);
    assert RuleOf(r0) in a && Matches(r0, family, mark);
    assert Passes(a, family, mark, physical, priority) <==> !physical;
    assert Decides(a, r0, family, physical, v) <==> physical && v == Physical;
  }
}
