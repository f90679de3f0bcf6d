// What an address denotes: an optional "&", an optional "*", and a name looked up layer by layer.
module Addresses {
  import opened Common
  import opened World
  import opened Transition
  import opened Routing
  import opened Soundness

  predicate Named(members: seq<(string, AgentId)>, name: string) {
    exists m <- members :: m.0 == name
  }

  // A name used in domain d denotes a member of d; failing that a global member; failing that a child domain of d;
  // failing that a snapshot.
  predicate Denotes(w: World, d: DomainId, name: string, target: Target)
    requires w.IsDomain(d) && w.IsDomain(GLOBAL)
  {
    var near, far := w.domains[d].members, w.domains[GLOBAL].members;
    match target
    case ToAgent(a) => (name, a) in near || (!Named(near, name) && (name, a) in far)
    case ToDomain(c) =>
      !Named(near, name) && !Named(far, name) && name in w.domains[d].children && w.domains[d].children[name] == c
    case ToSnapshot(s) =>
      !Named(near, name) && !Named(far, name) && name !in w.domains[d].children && s == name && s in w.snapshots
    case Nowhere =>
      !Named(near, name) && !Named(far, name) && name !in w.domains[d].children && name !in w.snapshots
  }

  lemma {:induction false} MemberExactly(w: World, d: DomainId, name: string, a: AgentId)
    requires Sound(w) && w.IsDomain(d)
    ensures FindMember(w.domains[d].members, name) == Some(a) <==> (name, a) in w.domains[d].members
    ensures FindMember(w.domains[d].members, name).Some? <==> Named(w.domains[d].members, name)
  {
    var members := w.domains[d].members;
    assert MembersOk(w, d);
    hide Sound, Tree;
    if (name, a) in members {
      var found := FindMember(members, name);
      assert found.Some? && (name, found.value) in members;
      var i :| 0 <= i < |members| && members[i] == (name, a);
      var j :| 0 <= j < |members| && members[j] == (name, found.value);
      assert i == j;
    }
  }

  // The layers decide: a name denotes one thing, and look-up finds that one.
  lemma {:induction false} LookupExactly(w: World, d: DomainId, name: string, target: Target)
    requires Sound(w) && w.IsDomain(d)
    ensures Lookup(w, name, d) == target <==> Denotes(w, d, name, target)
  {
    var near := FindMember(w.domains[d].members, name);
    var far := FindMember(w.domains[GLOBAL].members, name);
    match target {
      case ToAgent(a) =>
        MemberExactly(w, d, name, a);
        MemberExactly(w, GLOBAL, name, a);
      case _ =>
        MemberExactly(w, d, name, ZERO);
        MemberExactly(w, GLOBAL, name, ZERO);
    }
    hide Sound, FindMember, Named;
  }

  // ----- prefixes

  function Address(detach: bool, clone: bool, name: string): string {
    (if detach then "&" else "") + (if clone then "*" else "") + name
  }

  // The prefixes are read off as far as they go.
  predicate Reads(detach: bool, clone: bool, name: string) {
    (!clone ==> !("*" <= name)) && (!detach && !clone ==> !("&" <= name))
  }

  lemma AddressReads(address: string) returns (detach: bool, clone: bool, name: string)
    ensures Reads(detach, clone, name) && address == Address(detach, clone, name)
  {
    detach := "&" <= address;
    var rest := if detach then address[1..] else address;
    clone := "*" <= rest;
    name := if clone then rest[1..] else rest;
  }

  lemma PrefixesAreRead(detach: bool, star: bool, name: string)
    requires Reads(detach, star, name)
    ensures var address, rest := Address(detach, star, name), Address(false, star, name);
            && ("&" <= address <==> detach) && (if detach then address[1..] == rest else address == rest)
            && ("*" <= rest <==> star) && (if star then rest[1..] == name else rest == name)
  {
    var address, rest := Address(detach, star, name), Address(false, star, name);
    if detach { assert address == "&" + rest; }
    if star { assert rest == "*" + name && rest[0] == '*'; }
  }

  // A clone is made when "*" or the agent asks for one. "&" reaches domains and snapshots, a clone agents and domains.
  lemma {:induction false} ResolveExactly(w: World, d: DomainId, detach: bool, star: bool, name: string, found: Target)
    requires Sound(w) && w.IsDomain(d) && Reads(detach, star, name) && Denotes(w, d, name, found)
    ensures var r := Resolve(w, Address(detach, star, name), d);
            && r.detach == detach
            && (r.clone <==> star || (found.ToAgent? && w.HasFlag(found.agent, Clone)))
            && (r.target == found || r.target == Nowhere)
            && (r.target == Nowhere <==>
                  found == Nowhere || (detach && found.ToAgent?) || (r.clone && found.ToSnapshot?))
  {
    LookupExactly(w, d, name, found);
    PrefixesAreRead(detach, star, name);
    hide Sound, Lookup, Denotes, Address, Reads;
  }
}
