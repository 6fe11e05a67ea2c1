/**
 A session's allow list turned into network policy objects (src/network_policy):
 what the list and the objects admit, and that the objects never admit more.
 Parsing of IP addresses is a parameter.
 */
module NetworkPolicy {
  import opened Basics

  datatype NetDestination = Hostname(hostname: string) | Ipv4(range: string) | Ipv6(range: string) | Unlisted

  /** Address bits, most significant first. */
  datatype Ip = V4(bits: seq<bool>) | V6(bits: seq<bool>)

  /** Where a pod may try to connect; names are canonical: lower case, no final dot. */
  datatype Target = Name(name: string) | Address(ip: Ip) | ClusterDns

  datatype Parsers = Parsers(v4: string -> Option<seq<bool>>, v6: string -> Option<seq<bool>>)

  /** No text is an address of both families. */
  ghost predicate Disjoint(p: Parsers) { forall text :: p.v4(text).None? || p.v6(text).None? }

  // ------------------------------------------------------------------- globs

  /** Whether a glob matches a name; `*` matches a run of characters, which may contain dots if `dots` says so. */
  predicate Match(glob: string, name: string, dots: bool)
    decreases |glob| + |name|
  {
    if glob == "" then name == ""
    else if glob[0] == '*' then
      Match(glob[1..], name, dots) || (name != "" && (dots || name[0] != '.') && Match(glob, name[1..], dots))
    else name != "" && glob[0] == name[0] && Match(glob[1..], name[1..], dots)
  }

  lemma {:induction false} DotsOnlyAdd(glob: string, name: string)
    requires Match(glob, name, false)
    ensures Match(glob, name, true)
    decreases |glob| + |name|
  {
    if glob != "" {
      if glob[0] != '*' || Match(glob[1..], name, false) {
        DotsOnlyAdd(glob[1..], if glob[0] == '*' then name else name[1..]);
      } else {
        DotsOnlyAdd(glob, name[1..]);
      }
    }
  }

  lemma {:induction false} PlainMatchesItself(glob: string, name: string, dots: bool)
    requires '*' !in glob
    ensures Match(glob, name, dots) <==> glob == name
  {
    if glob != "" && name != "" {
      PlainMatchesItself(glob[1..], name[1..], dots);
      assert glob == [glob[0]] + glob[1..] && name == [name[0]] + name[1..];
    }
  }

  lemma {:induction false} StarTakesRun(glob: string, run: string, name: string)
    requires Match(glob, name, true)
    ensures Match("*" + glob, run + name, true)
    decreases |run|
  {
    var starred := "*" + glob;
    assert starred[1..] == glob;
    if run == "" {
      assert run + name == name;
    } else {
      StarTakesRun(glob, run[1..], name);
      assert (run + name)[1..] == run[1..] + name;
    }
  }

  lemma {:induction false} StarLeavesRest(glob: string, name: string) returns (k: nat)
    requires Match("*" + glob, name, true)
    ensures k <= |name| && Match(glob, name[k..], true)
    decreases |name|
  {
    var starred := "*" + glob;
    assert starred[1..] == glob;
    if Match(glob, name, true) {
      k := 0;
      assert name[0..] == name;
    } else {
      var i := StarLeavesRest(glob, name[1..]);
      k := i + 1;
      assert name[1..][i..] == name[k..];
    }
  }

  // ------------------------------------------------------------------- names

  /** Split at the dots. */
  function Labels(s: string): (r: seq<string>)
    ensures r != []
  {
    if s == "" then [""]
    else
      var rest := Labels(s[1..]);
      if s[0] == '.' then [""] + rest else [[s[0]] + rest[0]] + rest[1..]
  }

  lemma FirstOfJoined<T>(a: seq<T>, b: seq<T>)
    requires a != []
    ensures (a + b)[0] == a[0] && (a + b)[1..] == a[1..] + b
  {
  }

  lemma JoinedThrice<T>(a: seq<T>, b: seq<T>, c: seq<T>)
    ensures a + (b + c) == a + b + c
  {
  }

  lemma {:induction false} LabelsJoin(a: string, b: string)
    ensures Labels(a + "." + b) == Labels(a) + Labels(b)
  {
    if a == "" {
      assert a + "." + b == "." + b && ("." + b)[1..] == b;
    } else {
      var front, back := Labels(a[1..]), Labels(b);
      LabelsJoin(a[1..], b);
      assert (a + "." + b)[1..] == a[1..] + "." + b;
      FirstOfJoined(front, back);
      JoinedThrice(if a[0] == '.' then [""] else [[a[0]] + front[0]], if a[0] == '.' then front else front[1..], back);
    }
  }

  predicate NameChar(c: char) { 'a' <= c <= 'z' || 'A' <= c <= 'Z' || '0' <= c <= '9' || c == '-' || c == '_' }

  predicate IsName(s: string) { forall part <- Labels(s) :: part != "" && forall c <- part :: NameChar(c) }

  lemma FrontIsName(q: string, parent: string)
    requires IsName(q + "." + parent)
    ensures IsName(q)
  {
    LabelsJoin(q, parent);
    assert forall part <- Labels(q) :: part in Labels(q) + Labels(parent);
  }

  function LowerChar(c: char): char { if 'A' <= c <= 'Z' then c - 'A' + 'a' else c }

  function Lower(s: string): (r: string)
    ensures |r| == |s| && forall i :: 0 <= i < |s| ==> r[i] == LowerChar(s[i])
  {
    seq(|s|, i requires 0 <= i < |s| => LowerChar(s[i]))
  }

  function WithoutFinalDot(s: string): string {
    if s != "" && s[|s| - 1] == '.' then s[..|s| - 1] else s
  }

  /** The glob to enforce for a hostname, if the providers would take it. */
  function HostnameGlob(hostname: string): Option<string> {
    var h := WithoutFinalDot(hostname);
    if forall part <- Labels(h) :: part != "" && forall c <- part :: NameChar(c) || c == '*'
    then Some(Lower(h)) else None
  }

  /** Every dot is followed by something else than a dot. */
  predicate DotsFollowed(s: string) { forall i :: 0 <= i < |s| && s[i] == '.' ==> i + 1 < |s| && s[i + 1] != '.' }

  predicate NoneEmpty(labels: seq<string>) { forall part <- labels :: part != "" }

  lemma NoneEmptyCons(first: string, others: seq<string>)
    ensures NoneEmpty([first] + others) <==> first != "" && NoneEmpty(others)
  {
    var all := [first] + others;
    assert first in all && forall part <- others :: part in all;
  }

  lemma DotsFollowedCons(c: char, rest: string)
    ensures DotsFollowed([c] + rest) <==> (c == '.' ==> rest != "" && rest[0] != '.') && DotsFollowed(rest)
  {
    var s := [c] + rest;
    if DotsFollowed(s) {
      assert c == '.' ==> s[0] == '.' && s[1] == rest[0];
      forall i | 0 <= i < |rest| && rest[i] == '.' ensures i + 1 < |rest| && rest[i + 1] != '.' {
        assert s[i + 1] == '.' && s[i + 2] == rest[i + 1];
      }
    } else {
      var i :| 0 <= i < |s| && s[i] == '.' && !(i + 1 < |s| && s[i + 1] != '.');
      assert i > 0 ==> rest[i - 1] == '.';
    }
  }

  lemma {:induction false} LaterLabels(s: string)
    ensures Labels(s)[0] == "" <==> s == "" || s[0] == '.'
    ensures NoneEmpty(Labels(s)[1..]) <==> DotsFollowed(s)
  {
    if s != "" {
      hide NoneEmpty, DotsFollowed;
      var rest := s[1..];
      var labels := Labels(rest);
      LaterLabels(rest);
      assert s == [s[0]] + rest;
      DotsFollowedCons(s[0], rest);
      assert labels == [labels[0]] + labels[1..];
      NoneEmptyCons(labels[0], labels[1..]);
      assert Labels(s)[1..] == if s[0] == '.' then labels else labels[1..];
    }
  }

  predicate GlobChar(c: char) { 'a' <= c <= 'z' || 'A' <= c <= 'Z' || '0' <= c <= '9' || c == '-' || c == '_' || c == '*' }

  predicate GlobText(s: string) { forall c <- s :: GlobChar(c) }

  lemma {:induction false} LabelsHold(s: string)
    ensures (forall part <- Labels(s) :: GlobText(part)) <==> forall c <- s :: c == '.' || GlobChar(c)
  {
    hide GlobChar;
    if s != "" {
      var rest, labels := s[1..], Labels(s[1..]);
      LabelsHold(rest);
      assert s == [s[0]] + rest;
      assert labels == [labels[0]] + labels[1..];
      if s[0] == '.' {
        assert Labels(s) == [""] + labels;
      } else {
        var first := [s[0]] + labels[0];
        assert GlobText(first) <==> GlobChar(s[0]) && GlobText(labels[0]);
        assert Labels(s) == [first] + labels[1..];
      }
    }
  }

  /**
   Which hostnames are enforced, and as what: less one final dot, those of
   letters, digits, `-`, `_` and `*` with single dots between them, in lower case.
   */
  lemma KeptExactlyWhen(hostname: string)
    ensures var h := if hostname != "" && hostname[|hostname| - 1] == '.' then hostname[..|hostname| - 1] else hostname;
            && (HostnameGlob(hostname).Some? <==>
                  && h != "" && h[0] != '.' && h[|h| - 1] != '.'
                  && (forall i :: 0 <= i < |h| - 1 && h[i] == '.' ==> h[i + 1] != '.')
                  && forall c <- h :: c == '.' || GlobChar(c))
            && (HostnameGlob(hostname).Some? ==>
                  var glob := HostnameGlob(hostname).value;
                  && |glob| == |h|
                  && forall i :: 0 <= i < |h| ==> glob[i] == if 'A' <= h[i] <= 'Z' then h[i] - 'A' + 'a' else h[i])
  {
    var h := WithoutFinalDot(hostname);
    LaterLabels(h);
    LabelsHold(h);
    NoneEmptyCons(Labels(h)[0], Labels(h)[1..]);
    assert Labels(h) == [Labels(h)[0]] + Labels(h)[1..];
    assert NoneEmpty(Labels(h)) <==> forall part <- Labels(h) :: part != "";
    assert DotsFollowed(h) <==> (h != "" ==> h[|h| - 1] != '.') && forall i :: 0 <= i < |h| - 1 && h[i] == '.' ==> h[i + 1] != '.';
    assert forall part: string :: GlobText(part) <==> forall c <- part :: NameChar(c) || c == '*';
  }

  // --------------------------------------------------------------- IP ranges

  function DigitsValue(s: string): Option<nat> {
    if s == "" then Some(0)
    else
      var front := DigitsValue(s[..|s| - 1]);
      if front.Some? && '0' <= s[|s| - 1] <= '9' then Some(10 * front.value + (s[|s| - 1] - '0') as nat) else None
  }

  /** An unsigned byte in decimal; a plus sign and leading zeros are accepted. */
  function ParseByte(s: string): Option<nat> {
    var digits := if s != "" && s[0] == '+' then s[1..] else s;
    var n := DigitsValue(digits);
    if digits != "" && n.Some? && n.value <= 255 then n else None
  }

  function PrintByte(n: nat): string {
    if n < 10 then [('0' as int + n) as char] else PrintByte(n / 10) + [('0' as int + n % 10) as char]
  }

  lemma {:induction false} PrintedDigits(n: nat)
    ensures PrintByte(n) != "" && DigitsValue(PrintByte(n)) == Some(n)
    ensures '0' <= PrintByte(n)[0] <= '9'
  {
    var s := PrintByte(n);
    if n >= 10 {
      PrintedDigits(n / 10);
      assert s[..|s| - 1] == PrintByte(n / 10);
    } else {
      assert s[..|s| - 1] == "";
    }
  }

  lemma PrintedByteParses(n: nat)
    requires n <= 255
    ensures ParseByte(PrintByte(n)) == Some(n)
  {
    PrintedDigits(n);
  }

  /** Where the first slash is; |s| when there is none. */
  function Slash(s: string): (k: nat)
    ensures k <= |s| && (k < |s| ==> s[k] == '/') && '/' !in s[..k]
  {
    if s == "" || s[0] == '/' then 0
    else
      var k := Slash(s[1..]);
      assert s[..k + 1] == [s[0]] + s[1..][..k];
      k + 1
  }

  /** The address and prefix length of a range; without a prefix, a single address. */
  function RangeParts(entry: string, longest: nat): Option<(string, nat)> {
    var k := Slash(entry);
    if k == |entry| then Some((entry, longest))
    else
      var prefix := ParseByte(entry[k + 1..]);
      if prefix.Some? && prefix.value <= longest then Some((entry[..k], prefix.value)) else None
  }

  function Cidr(parse: string -> Option<seq<bool>>, entry: string, longest: nat): Option<string> {
    var parts := RangeParts(entry, longest);
    if parts.Some? && parse(parts.value.0).Some? then Some(parts.value.0 + "/" + PrintByte(parts.value.1)) else None
  }

  /** The range's address and the given one agree on the prefix. */
  predicate InRange(base: Option<seq<bool>>, prefix: nat, bits: seq<bool>) {
    base.Some? && prefix <= |base.value| && prefix <= |bits| && base.value[..prefix] == bits[..prefix]
  }

  /** What a range admits, read as `longest`-bit addresses by `parse`. */
  predicate RangeAdmits(parse: string -> Option<seq<bool>>, entry: string, longest: nat, bits: seq<bool>) {
    var parts := RangeParts(entry, longest);
    parts.Some? && InRange(parse(parts.value.0), parts.value.1, bits)
  }

  predicate AddressIn(p: Parsers, entry: string, ip: Ip) {
    match ip
    case V4(bits) => RangeAdmits(p.v4, entry, 32, bits)
    case V6(bits) => RangeAdmits(p.v6, entry, 128, bits)
  }

  // ----------------------------------------------- what an allow list admits

  predicate Allows(p: Parsers, e: NetDestination, t: Target) {
    match (e, t)
    case (Hostname(h), Name(n)) => Match(Lower(WithoutFinalDot(h)), n, true)
    case (Ipv4(range), Address(V4(bits))) => RangeAdmits(p.v4, range, 32, bits)
    case (Ipv6(range), Address(V6(bits))) => RangeAdmits(p.v6, range, 128, bits)
    case _ => false
  }

  predicate Admitted(p: Parsers, allow: seq<NetDestination>, t: Target) { exists e <- allow :: Allows(p, e, t) }

  // -------------------------------------------------------------- the egress

  datatype Egress = Egress(hostnames: set<string>, cidrs: set<string>)

  function CidrOf(p: Parsers, e: NetDestination): Option<string> {
    match e
    case Ipv4(range) => Cidr(p.v4, range, 32)
    case Ipv6(range) => Cidr(p.v6, range, 128)
    case _ => None
  }

  function GlobOf(e: NetDestination): Option<string> {
    match e
    case Hostname(h) => HostnameGlob(h)
    case _ => None
  }

  function EgressOf(p: Parsers, allow: seq<NetDestination>): Egress {
    Egress(set e | e in allow && GlobOf(e).Some? :: GlobOf(e).value,
           set e | e in allow && CidrOf(p, e).Some? :: CidrOf(p, e).value)
  }

  lemma EgressOneMore(p: Parsers, allow: seq<NetDestination>, e: NetDestination)
    ensures var before, after := EgressOf(p, allow), EgressOf(p, allow + [e]);
            && after.hostnames == before.hostnames + (if GlobOf(e).Some? then {GlobOf(e).value} else {})
            && after.cidrs == before.cidrs + (if CidrOf(p, e).Some? then {CidrOf(p, e).value} else {})
  {
    hide GlobOf, CidrOf;
    assert forall x :: x in allow + [e] <==> x in allow || x == e;
  }

  /** `Egress::new`: what can be enforced is kept, the rest stays blocked. */
  method NewEgress(p: Parsers, allow: seq<NetDestination>) returns (egress: Egress)
    ensures egress == EgressOf(p, allow)
  {
    egress := Egress({}, {});
    for i := 0 to |allow|
      invariant egress == EgressOf(p, allow[..i])
    {
      assert allow[..i + 1] == allow[..i] + [allow[i]];
      EgressOneMore(p, allow[..i], allow[i]);
      match allow[i]
      case Hostname(h) =>
        var glob := HostnameGlob(h);
        if glob.Some? { egress := egress.(hostnames := egress.hostnames + {glob.value}); }
      case Ipv4(range) =>
        var cidr := Cidr(p.v4, range, 32);
        if cidr.Some? { egress := egress.(cidrs := egress.cidrs + {cidr.value}); }
      case Ipv6(range) =>
        var cidr := Cidr(p.v6, range, 128);
        if cidr.Some? { egress := egress.(cidrs := egress.cidrs + {cidr.value}); }
      case Unlisted =>
    }
    assert allow[..|allow|] == allow;
  }

  // ------------------------------------------------------------- the objects

  datatype NameRule = MatchName(name: string) | MatchPattern(pattern: string)

  datatype CiliumRule = DnsProxy | ToFqdns(names: set<NameRule>) | ToCidr(cidrs: set<string>)

  /** Cilium's `**.` spans subdomain levels, and only in front. */
  function Fqdn(hostname: string): NameRule {
    if '*' !in hostname then MatchName(hostname)
    else if "*." <= hostname && '*' !in hostname[2..] then MatchPattern("**." + hostname[2..])
    else MatchPattern(hostname)
  }

  function Fqdns(hostnames: set<string>): set<NameRule> { set h | h in hostnames :: Fqdn(h) }

  function GkeMatches(hostnames: set<string>): set<NameRule> { set h | h in hostnames :: GkeName(h) }

  function CiliumOf(egress: Egress): seq<CiliumRule> {
    [DnsProxy]
    + (if egress.hostnames == {} then [] else [ToFqdns(Fqdns(egress.hostnames))])
    + (if egress.cidrs == {} then [] else [ToCidr(egress.cidrs)])
  }

  method CiliumManifests(egress: Egress) returns (rules: seq<CiliumRule>)
    ensures rules == CiliumOf(egress)
    ensures forall rule <- rules :: (rule.ToFqdns? ==> rule.names != {}) && (rule.ToCidr? ==> rule.cidrs != {})
    ensures DnsProxy in rules
    ensures (exists rule <- rules :: rule.ToFqdns?) <==> egress.hostnames != {}
    ensures (exists rule <- rules :: rule.ToCidr?) <==> egress.cidrs != {}
  {
    NoOpenRule(egress);
    rules := [DnsProxy];
    if egress.hostnames != {} { rules := rules + [ToFqdns(Fqdns(egress.hostnames))]; }
    if egress.cidrs != {} { rules := rules + [ToCidr(egress.cidrs)]; }
    assert egress.hostnames != {} ==> rules[1].ToFqdns? && rules[1] in rules;
    assert egress.cidrs != {} ==> rules[|rules| - 1].ToCidr? && rules[|rules| - 1] in rules;
  }

  /** A NetworkPolicy's egress rules by their IP blocks, and the names an FQDNNetworkPolicy matches. */
  datatype GkeObject = IpPolicy(rules: seq<set<string>>) | FqdnPolicy(names: set<NameRule>)

  function GkeName(hostname: string): NameRule { if '*' in hostname then MatchPattern(hostname) else MatchName(hostname) }

  function GkeOf(egress: Egress): seq<GkeObject> {
    [IpPolicy(if egress.cidrs == {} then [] else [egress.cidrs])]
    + (if egress.hostnames == {} then [] else [FqdnPolicy(GkeMatches(egress.hostnames))])
  }

  method GkeManifests(egress: Egress) returns (objects: seq<GkeObject>)
    ensures objects == GkeOf(egress)
    ensures forall o <- objects :: (o.FqdnPolicy? ==> o.names != {}) && (o.IpPolicy? ==> {} !in o.rules)
    ensures (exists o <- objects :: o.FqdnPolicy?) <==> egress.hostnames != {}
    ensures exists o <- objects :: o.IpPolicy? && (o.rules == [] <==> egress.cidrs == {})
  {
    NoOpenRule(egress);
    var ipRules := if egress.cidrs == {} then [] else [egress.cidrs];
    objects := [IpPolicy(ipRules)];
    if egress.hostnames != {} { objects := objects + [FqdnPolicy(GkeMatches(egress.hostnames))]; }
    assert egress.hostnames != {} ==> objects[1].FqdnPolicy? && objects[1] in objects;
    assert objects[0] in objects;
  }

  // -------------------------------------------------- what the objects admit

  /** Cilium: `*` stops at a dot; a leading `**.` stands for one or more labels. */
  ghost predicate CiliumNames(rule: NameRule, n: string) {
    match rule
    case MatchName(name) => name == n
    case MatchPattern(pattern) =>
      if "**." <= pattern then
        exists q, m :: n == q + "." + m && IsName(q) && Match(pattern[3..], m, false)
      else Match(pattern, n, false)
  }

  predicate GkeNames(rule: NameRule, n: string) {
    match rule
    case MatchName(name) => name == n
    case MatchPattern(pattern) => Match(pattern, n, false)
  }

  /** A block as the dataplane reads it: an address of either family, a slash and a prefix length. */
  predicate BlockAdmits(p: Parsers, cidr: string, ip: Ip) { Slash(cidr) < |cidr| && AddressIn(p, cidr, ip) }

  /** A rule that lists nothing would admit everything. */
  ghost predicate RuleAdmits(p: Parsers, rule: CiliumRule, t: Target) {
    match rule
    case DnsProxy => t.ClusterDns?
    case ToFqdns(names) => names == {} || (t.Name? && exists r <- names :: CiliumNames(r, t.name))
    case ToCidr(cidrs) => cidrs == {} || (t.Address? && exists c <- cidrs :: BlockAdmits(p, c, t.ip))
  }

  ghost predicate CiliumAdmits(p: Parsers, rules: seq<CiliumRule>, t: Target) {
    exists rule <- rules :: RuleAdmits(p, rule, t)
  }

  predicate BlocksAdmit(p: Parsers, blocks: set<string>, t: Target) {
    blocks == {} || (t.Address? && exists c <- blocks :: BlockAdmits(p, c, t.ip))
  }

  /** DNS stays open to the pods a GKE name policy selects. */
  predicate ObjectAdmits(p: Parsers, o: GkeObject, t: Target) {
    match o
    case IpPolicy(rules) => exists blocks <- rules :: BlocksAdmit(p, blocks, t)
    case FqdnPolicy(names) => names == {} || t.ClusterDns? || (t.Name? && exists r <- names :: GkeNames(r, t.name))
  }

  predicate GkeAdmits(p: Parsers, objects: seq<GkeObject>, t: Target) { exists o <- objects :: ObjectAdmits(p, o, t) }

  /** An empty set of names or ranges never becomes a rule that lists nothing. */
  lemma NoOpenRule(egress: Egress)
    ensures forall rule <- CiliumOf(egress) :: (rule.ToFqdns? ==> rule.names != {}) && (rule.ToCidr? ==> rule.cidrs != {})
    ensures forall o <- GkeOf(egress) :: (o.FqdnPolicy? ==> o.names != {}) && (o.IpPolicy? ==> {} !in o.rules)
  {
    if egress.hostnames != {} {
      var h :| h in egress.hostnames;
      assert Fqdn(h) in Fqdns(egress.hostnames) && GkeName(h) in GkeMatches(egress.hostnames);
    }
  }

  // ------------------------------------------------------------ never wider

  /** The emitted text of a range admits exactly what the range did. */
  lemma EmittedRange(parse: string -> Option<seq<bool>>, entry: string, longest: nat, bits: seq<bool>)
    requires longest <= 255 && Cidr(parse, entry, longest).Some?
    ensures var text := Cidr(parse, entry, longest).value;
            Slash(text) < |text| && (RangeAdmits(parse, text, longest, bits) <==> RangeAdmits(parse, entry, longest, bits))
  {
    var (address, prefix) := RangeParts(entry, longest).value;
    PartsOfEmitted(entry, longest, address, prefix);
  }

  lemma PartsOfEmitted(entry: string, longest: nat, address: string, prefix: nat)
    requires longest <= 255 && RangeParts(entry, longest) == Some((address, prefix))
    ensures var text := address + "/" + PrintByte(prefix);
            Slash(text) == |address| < |text| && RangeParts(text, longest) == Some((address, prefix))
  {
    var text, k := address + "/" + PrintByte(prefix), Slash(entry);
    assert '/' !in address by { if k == |entry| { assert entry[..k] == entry; } }
    PrintedByteParses(prefix);
    FirstSlash(address, PrintByte(prefix));
    assert text[|address| + 1..] == PrintByte(prefix) && text[..|address|] == address;
  }

  lemma {:induction false} FirstSlash(a: string, b: string)
    requires '/' !in a
    ensures Slash(a + "/" + b) == |a|
  {
    var s := a + "/" + b;
    if a != "" {
      assert s[1..] == a[1..] + "/" + b;
      FirstSlash(a[1..], b);
    }
  }

  /** Which text an emitted block's address is decides its family. */
  lemma BlockMeansEntry(p: Parsers, e: NetDestination, ip: Ip)
    requires Disjoint(p) && CidrOf(p, e).Some?
    ensures BlockAdmits(p, CidrOf(p, e).value, ip) <==> Allows(p, e, Address(ip))
  {
    match e
    case Ipv4(range) =>
      var (address, prefix) := RangeParts(range, 32).value;
      assert p.v4(address).Some? && (p.v4(address).None? || p.v6(address).None?);
      PartsOfEmitted(range, 32, address, prefix);
      if ip.V4? { EmittedRange(p.v4, range, 32, ip.bits); } else { OtherFamilyReadsNothing(p, address, prefix, ip); }
    case Ipv6(range) =>
      var (address, prefix) := RangeParts(range, 128).value;
      assert p.v6(address).Some? && (p.v4(address).None? || p.v6(address).None?);
      PartsOfEmitted(range, 128, address, prefix);
      if ip.V6? { EmittedRange(p.v6, range, 128, ip.bits); } else { OtherFamilyReadsNothing(p, address, prefix, ip); }
  }

  /** A range admits what agrees with its address up to its prefix length; without one, that address alone. */
  lemma RangeMeans(parse: string -> Option<seq<bool>>, address: string, prefix: nat, longest: nat, bits: seq<bool>)
    requires '/' !in address && longest <= 255
    ensures RangeAdmits(parse, address, longest, bits) <==>
              && parse(address).Some? && longest <= |parse(address).value| && longest <= |bits|
              && parse(address).value[..longest] == bits[..longest]
    ensures RangeAdmits(parse, address + "/" + PrintByte(prefix), longest, bits) <==>
              && prefix <= longest && parse(address).Some? && prefix <= |parse(address).value| && prefix <= |bits|
              && parse(address).value[..prefix] == bits[..prefix]
  {
    var text := address + "/" + PrintByte(prefix);
    FirstSlash(address, PrintByte(prefix));
    PrintedDigits(prefix);
    assert text[|address| + 1..] == PrintByte(prefix) && text[..|address|] == address;
  }

  lemma OtherFamilyReadsNothing(p: Parsers, address: string, prefix: nat, ip: Ip)
    requires '/' !in address && (if ip.V4? then p.v4(address).None? else p.v6(address).None?)
    ensures !AddressIn(p, address + "/" + PrintByte(prefix), ip)
  {
    FirstSlash(address, PrintByte(prefix));
    var text := address + "/" + PrintByte(prefix);
    assert text[..|address|] == address;
    assert forall l: nat :: RangeParts(text, l).Some? ==> RangeParts(text, l).value.0 == address;
  }

  lemma CidrsExact(p: Parsers, allow: seq<NetDestination>, ip: Ip)
    requires Disjoint(p)
    ensures (exists c <- EgressOf(p, allow).cidrs :: BlockAdmits(p, c, ip)) <==> Admitted(p, allow, Address(ip))
  {
    if c :| c in EgressOf(p, allow).cidrs && BlockAdmits(p, c, ip) {
      var e :| e in allow && CidrOf(p, e) == Some(c);
      BlockMeansEntry(p, e, ip);
    }
    if e :| e in allow && Allows(p, e, Address(ip)) {
      assert CidrOf(p, e).Some?;
      BlockMeansEntry(p, e, ip);
      assert CidrOf(p, e).value in EgressOf(p, allow).cidrs;
    }
  }

  /** A Cilium rule for a glob matches no name the glob does not. */
  lemma CiliumNameNarrows(h: string, n: string)
    requires CiliumNames(Fqdn(h), n)
    ensures Match(h, n, true)
  {
    if '*' !in h {
      PlainMatchesItself(h, n, true);
    } else if "*." <= h && '*' !in h[2..] {
      var pattern := "**." + h[2..];
      assert pattern[3..] == h[2..] && "**." <= pattern;
      var q, m :| n == q + "." + m && IsName(q) && Match(h[2..], m, false);
      StarBeforeDot(h[2..], q, m);
      assert h == "*" + ("." + h[2..]);
    } else if "**." <= h {
      var q, m :| n == q + "." + m && IsName(q) && Match(h[3..], m, false);
      StarBeforeDot(h[3..], q, m);
      var one := "*" + ("." + h[3..]);
      assert h[1..] == one;
    } else {
      DotsOnlyAdd(h, n);
    }
  }

  lemma StarBeforeDot(glob: string, q: string, m: string)
    requires Match(glob, m, false)
    ensures Match("*" + ("." + glob), q + "." + m, true)
  {
    DotsOnlyAdd(glob, m);
    var g, d := "." + glob, "." + m;
    assert g[1..] == glob && d[1..] == m;
    StarTakesRun(g, q, d);
    assert q + d == q + "." + m;
  }

  lemma GkeNameNarrows(h: string, n: string)
    requires GkeNames(GkeName(h), n)
    ensures Match(h, n, true)
  {
    if '*' in h { DotsOnlyAdd(h, n); } else { PlainMatchesItself(h, n, true); }
  }

  lemma GlobIsListed(p: Parsers, allow: seq<NetDestination>, h: string, n: string)
    requires h in EgressOf(p, allow).hostnames && Match(h, n, true)
    ensures Admitted(p, allow, Name(n))
  {
    var e :| e in allow && GlobOf(e) == Some(h);
    assert Allows(p, e, Name(n));
  }

  /**
   Whatever the allow list holds, malformed and unknown entries included, the
   Cilium policy admits only what some entry admits, and cluster DNS. IP
   addresses are admitted exactly.
   */
  lemma CiliumNeverWider(p: Parsers, allow: seq<NetDestination>, t: Target)
    requires Disjoint(p)
    ensures CiliumAdmits(p, CiliumOf(EgressOf(p, allow)), t) ==> Admitted(p, allow, t) || t.ClusterDns?
    ensures t.Address? ==> (CiliumAdmits(p, CiliumOf(EgressOf(p, allow)), t) <==> Admitted(p, allow, t))
  {
    hide BlockAdmits, Fqdn, CiliumNames, Admitted, EgressOf;
    var egress := EgressOf(p, allow);
    NoOpenRule(egress);
    if t.Address? {
      CidrsExact(p, allow, t.ip);
      if Admitted(p, allow, t) { assert RuleAdmits(p, ToCidr(egress.cidrs), t); }
    }
    if CiliumAdmits(p, CiliumOf(egress), t) && t.Name? {
      var rule :| rule in CiliumOf(egress) && RuleAdmits(p, rule, t);
      var r :| r in rule.names && CiliumNames(r, t.name);
      var h :| h in egress.hostnames && r == Fqdn(h);
      CiliumNameNarrows(h, t.name);
      GlobIsListed(p, allow, h, t.name);
    }
  }

  /** The same for the GKE policies. */
  lemma GkeNeverWider(p: Parsers, allow: seq<NetDestination>, t: Target)
    requires Disjoint(p)
    ensures GkeAdmits(p, GkeOf(EgressOf(p, allow)), t) ==> Admitted(p, allow, t) || t.ClusterDns?
    ensures t.Address? ==> (GkeAdmits(p, GkeOf(EgressOf(p, allow)), t) <==> Admitted(p, allow, t))
  {
    hide BlockAdmits, GkeName, GkeNames, Admitted, EgressOf;
    var egress := EgressOf(p, allow);
    NoOpenRule(egress);
    if t.Address? {
      CidrsExact(p, allow, t.ip);
      if Admitted(p, allow, t) {
        assert egress.cidrs in [egress.cidrs] && BlocksAdmit(p, egress.cidrs, t);
        assert ObjectAdmits(p, IpPolicy([egress.cidrs]), t);
      }
    }
    if GkeAdmits(p, GkeOf(egress), t) && t.Name? {
      var o :| o in GkeOf(egress) && ObjectAdmits(p, o, t);
      var r :| r in o.names && GkeNames(r, t.name);
      var h :| h in egress.hostnames && r == GkeName(h);
      GkeNameNarrows(h, t.name);
      GlobIsListed(p, allow, h, t.name);
    }
  }

  // ------------------------------------------------------------------- exact

  /** The globs Cilium enforces as written: plain names, and `*.parent` with no further star. */
  predicate FullReach(glob: string) { '*' !in glob || ("*." <= glob && '*' !in glob[2..]) }

  lemma CiliumNameKeeps(h: string, n: string)
    requires FullReach(h) && Match(h, n, true) && IsName(n)
    ensures CiliumNames(Fqdn(h), n)
  {
    hide IsName, Match;
    if '*' !in h {
      PlainMatchesItself(h, n, true);
    } else {
      var parent := h[2..];
      assert h == "*" + ("." + parent);
      var k := StarLeavesRest("." + parent, n);
      PlainMatchesItself("." + parent, n[k..], true);
      var q := n[..k];
      assert n == q + "." + parent;
      FrontIsName(q, parent);
      PlainMatchesItself(parent, parent, false);
      assert ("**." + parent)[3..] == parent;
    }
  }

  /** Entries Cilium enforces exactly: every name they admit gets through. */
  lemma CiliumExact(p: Parsers, allow: seq<NetDestination>, e: NetDestination, n: string)
    requires e in allow && GlobOf(e).Some? && FullReach(GlobOf(e).value) && IsName(n) && Allows(p, e, Name(n))
    ensures CiliumAdmits(p, CiliumOf(EgressOf(p, allow)), Name(n))
  {
    var egress, h := EgressOf(p, allow), GlobOf(e).value;
    CiliumNameKeeps(h, n);
    assert h in egress.hostnames;
    assert Fqdn(h) in Fqdns(egress.hostnames);
    assert RuleAdmits(p, ToFqdns(Fqdns(egress.hostnames)), Name(n));
  }

  /** GKE enforces plain names exactly. */
  lemma GkeExact(p: Parsers, allow: seq<NetDestination>, e: NetDestination, n: string)
    requires e in allow && GlobOf(e).Some? && '*' !in GlobOf(e).value && Allows(p, e, Name(n))
    ensures GkeAdmits(p, GkeOf(EgressOf(p, allow)), Name(n))
  {
    var egress, h := EgressOf(p, allow), GlobOf(e).value;
    PlainMatchesItself(h, n, true);
    assert h in egress.hostnames;
    assert GkeName(h) in GkeMatches(egress.hostnames);
    assert ObjectAdmits(p, FqdnPolicy(GkeMatches(egress.hostnames)), Name(n));
  }

  /**
   GKE's star stops at a dot: of the names `*.parent` allows, the GKE rule admits
   exactly those one level below the parent.
   */
  lemma GkeStarIsOneLevel(parent: string, q: string)
    requires '*' !in parent && q != ""
    ensures Match("*." + parent, q + "." + parent, true)
    ensures GkeNames(GkeName("*." + parent), q + "." + parent) <==> '.' !in q
  {
    PlainMatchesItself(parent, parent, false);
    StarBeforeDot(parent, q, parent);
    assert "*." + parent == "*" + ("." + parent);
    assert "*." + parent == GkeName("*." + parent).pattern;
    OneLevelOnly(parent, q);
  }

  lemma {:induction false} OneLevelOnly(parent: string, q: string)
    requires '*' !in parent
    ensures Match("*" + ("." + parent), q + "." + parent, false) <==> '.' !in q
    decreases |q|
  {
    var glob, n := "*" + ("." + parent), q + "." + parent;
    assert glob[1..] == "." + parent;
    PlainMatchesItself("." + parent, n, false);
    if q == "" {
      assert n == "." + parent;
    } else {
      assert |n| > |"." + parent|;
      assert n[0] == q[0] && n[1..] == q[1..] + "." + parent;
      OneLevelOnly(parent, q[1..]);
      assert '.' in q <==> q[0] == '.' || '.' in q[1..];
    }
  }
}
