/** Which labels may enter a MachineDeployment and which may be written to or taken off a Node. */
module NodeLabels {
  import opened Objects
  import opened MachineDeployments
  import opened Text

  /** ---------- Patterns and policies ---------- */

  /** The built-in patterns are of the first three forms; a deny pattern is any predicate on keys. */
  datatype Pattern =
    | StartsWith(prefix: string)
    | Exactly(text: string)
    | HostUnder(suffix: string)
    | Custom(accepts: string -> bool)

  predicate Matches(p: Pattern, key: string) {
    match p
    case StartsWith(prefix) => prefix <= key
    case Exactly(text) => key == text
    case HostUnder(suffix) => exists i | 0 <= i <= |key| :: Free(key[..i], '/') && suffix <= key[i..]
    case Custom(accepts) => accepts(key)
  }

  const CLAIM_RESERVED: seq<Pattern> := [
    StartsWith("cluster.x-k8s.io/"),
    StartsWith("workergroup.in-cloud.io/"),
    StartsWith("node-group.beget.com/"),
    StartsWith("node.cluster.x-k8s.io/"),
    StartsWith("node-restriction.kubernetes.io/"),
    Exactly("machine-template-hash")]

  const NODE_SAFETY: seq<Pattern> := [
    StartsWith("kubernetes.io/"),
    StartsWith("beta.kubernetes.io/"),
    StartsWith("node.kubernetes.io/"),
    StartsWith("topology.kubernetes.io/"),
    StartsWith("failure-domain.beta.kubernetes.io/"),
    StartsWith("node-restriction.kubernetes.io/"),
    StartsWith("k8s.io/"),
    StartsWith("cluster.x-k8s.io/"),
    StartsWith("node.cluster.x-k8s.io/"),
    StartsWith("workergroup.in-cloud.io/"),
    HostUnder(".beget.com/"),
    Exactly("machine-template-hash")]

  datatype Policy = Policy(safety: seq<Pattern>, deny: seq<Pattern>, skipped: seq<string>)

  predicate MatchesAny(patterns: seq<Pattern>, key: string) {
    exists i | 0 <= i < |patterns| :: Matches(patterns[i], key)
  }

  predicate OnNodeFloor(key: string) {
    MatchesAny(NODE_SAFETY, key)
  }

  predicate OnClaimFloor(key: string) {
    MatchesAny(CLAIM_RESERVED, key)
  }

  /** The policy refuses the key. */
  predicate Refused(policy: Policy, key: string) {
    MatchesAny(policy.safety, key) || MatchesAny(policy.deny, key)
  }

  /** The policy wants the key taken off a Node: never one on the safety floor. */
  predicate TakenOff(policy: Policy, key: string) {
    !MatchesAny(policy.safety, key) && MatchesAny(policy.deny, key)
  }

  /** Compiles a pattern, if it can be compiled. */
  type Compiler = string -> Option<Pattern>

  /** A deny pattern among those given that compiles and matches. */
  predicate DeniedBy(patterns: seq<string>, compile: Compiler, key: string) {
    exists i | 0 <= i < |patterns| ::
      compile(patterns[i]).Some? && Matches(compile(patterns[i]).value, key)
  }

  /** What a policy with this floor and these deny patterns stands for. */
  ghost predicate Stands(policy: Policy, floor: seq<Pattern>, patterns: seq<string>, compile: Compiler) {
    && policy.safety == floor
    && (forall key :: MatchesAny(policy.deny, key) <==> DeniedBy(patterns, compile, key))
    && |policy.deny| + |policy.skipped| == |patterns|
    && (forall text :: text in policy.skipped <==> text in patterns && compile(text).None?)
  }

  /** The floor is always in force; of the deny patterns, those that do not compile are skipped, and the
      others still count. */
  method NewPolicy(floor: seq<Pattern>, patterns: seq<string>, compile: Compiler) returns (policy: Policy)
    ensures Stands(policy, floor, patterns, compile)
  {
    var deny: seq<Pattern>, skipped: seq<string> := [], [];
    for i := 0 to |patterns|
      invariant |deny| + |skipped| == i
      invariant forall text :: text in skipped <==> text in patterns[..i] && compile(text).None?
      invariant forall key :: MatchesAny(deny, key) <==> DeniedBy(patterns[..i], compile, key)
    {
      var compiled := compile(patterns[i]);
      assert patterns[..i + 1] == patterns[..i] + [patterns[i]];
      DeniedByOneMore(patterns[..i], patterns[i], compile);
      match compiled
      case None => skipped := skipped + [patterns[i]];
      case Some(p) =>
        MatchesOneMore(deny, p);
        deny := deny + [p];
    }
    assert patterns[..|patterns|] == patterns;
    policy := Policy(floor, deny, skipped);
  }

  lemma MatchesOneMore(patterns: seq<Pattern>, p: Pattern)
    ensures forall key :: MatchesAny(patterns + [p], key) <==> MatchesAny(patterns, key) || Matches(p, key)
  {
    forall key
      ensures MatchesAny(patterns + [p], key) <==> MatchesAny(patterns, key) || Matches(p, key)
    {
      var all := patterns + [p];
      if Matches(p, key) { assert Matches(all[|patterns|], key); }
      if MatchesAny(patterns, key) {
        var i :| 0 <= i < |patterns| && Matches(patterns[i], key);
        assert Matches(all[i], key);
      }
    }
  }

  lemma DeniedByOneMore(patterns: seq<string>, text: string, compile: Compiler)
    ensures forall key :: DeniedBy(patterns + [text], compile, key) <==>
              DeniedBy(patterns, compile, key) || (compile(text).Some? && Matches(compile(text).value, key))
  {
    var all := patterns + [text];
    assert all[|patterns|] == text;
    assert forall i | 0 <= i < |patterns| :: all[i] == patterns[i];
    hide Matches;
  }

  /** What a node policy refuses and what it takes off, in terms of the deny patterns it was made from. */
  lemma NodePolicyMeans(policy: Policy, patterns: seq<string>, compile: Compiler, key: string)
    requires Stands(policy, NODE_SAFETY, patterns, compile)
    ensures Refused(policy, key) <==> OnNodeFloor(key) || DeniedBy(patterns, compile, key)
    ensures TakenOff(policy, key) <==> !OnNodeFloor(key) && DeniedBy(patterns, compile, key)
  {
    hide MatchesAny, DeniedBy;
  }

  method MatchAny(patterns: seq<Pattern>, key: string) returns (found: bool)
    ensures found <==> MatchesAny(patterns, key)
  {
    for i := 0 to |patterns|
      invariant forall j | 0 <= j < i :: !Matches(patterns[j], key)
    {
      if Matches(patterns[i], key) {
        return true;
      }
    }
    found := false;
  }

  method Denies(policy: Policy, key: string) returns (denied: bool)
    ensures denied <==> Refused(policy, key)
  {
    denied := MatchAny(policy.safety, key);
    if denied {
      return;
    }
    denied := MatchAny(policy.deny, key);
  }

  method Removable(policy: Policy, key: string) returns (removable: bool)
    ensures removable <==> TakenOff(policy, key)
    ensures removable ==> !MatchesAny(policy.safety, key)
  {
    var safe := MatchAny(policy.safety, key);
    if safe {
      return false;
    }
    removable := MatchAny(policy.deny, key);
  }

  function Allowed(policy: Policy, labels: Labels): Labels {
    map k | k in labels && !Refused(policy, k) :: labels[k]
  }

  function RefusedKeys(policy: Policy, labels: Labels): set<string> {
    set k | k in labels && Refused(policy, k)
  }

  /** Splits labels into those allowed and the refused keys, in order. */
  method Filter(policy: Policy, labels: Labels) returns (allowed: Labels, refused: seq<string>)
    ensures allowed == Allowed(policy, labels)
    ensures refused == Sorted(RefusedKeys(policy, labels))
  {
    hide Refused;
    allowed := map[];
    var refusedKeys: set<string> := {};
    var rest := labels.Keys;
    while rest != {}
      invariant rest <= labels.Keys
      invariant allowed == map k | k in labels && k !in rest && !Refused(policy, k) :: labels[k]
      invariant refusedKeys == set k | k in labels && k !in rest && Refused(policy, k)
      decreases |rest|
    {
      var key :| key in rest;
      rest := rest - {key};
      var denied := Denies(policy, key);
      if denied {
        refusedKeys := refusedKeys + {key};
      } else {
        allowed := allowed[key := labels[key]];
      }
    }
    assert refusedKeys == RefusedKeys(policy, labels);
    refused := Sort(refusedKeys);
  }

  /** ---------- The floors ---------- */

  predicate IsPrefix(prefix: string, key: string) {
    |prefix| <= |key| && key[..|prefix|] == prefix
  }

  lemma NodeFloorUnrolled(key: string)
    ensures var ps := NODE_SAFETY;
            OnNodeFloor(key) <==>
              Matches(ps[0], key) || Matches(ps[1], key) || Matches(ps[2], key) || Matches(ps[3], key) ||
              Matches(ps[4], key) || Matches(ps[5], key) || Matches(ps[6], key) || Matches(ps[7], key) ||
              Matches(ps[8], key) || Matches(ps[9], key) || Matches(ps[10], key) || Matches(ps[11], key)
  {
    hide Matches;
  }

  lemma PrefixMatches(prefix: string, key: string)
    ensures Matches(StartsWith(prefix), key) <==> IsPrefix(prefix, key)
  {
  }

  /** The keys that are never written to or taken off a Node, told outright. */
  lemma NodeFloorIs(key: string)
    ensures OnNodeFloor(key) <==>
              || IsPrefix("kubernetes.io/", key) || IsPrefix("beta.kubernetes.io/", key)
              || IsPrefix("node.kubernetes.io/", key) || IsPrefix("topology.kubernetes.io/", key)
              || IsPrefix("failure-domain.beta.kubernetes.io/", key) || IsPrefix("node-restriction.kubernetes.io/", key)
              || IsPrefix("k8s.io/", key) || IsPrefix("cluster.x-k8s.io/", key)
              || IsPrefix("node.cluster.x-k8s.io/", key) || IsPrefix("workergroup.in-cloud.io/", key)
              || UnderBeget(key) || key == "machine-template-hash"
  {
    NodeFloorUnrolled(key);
    BegetMatches(key);
    assert Matches(Exactly("machine-template-hash"), key) <==> key == "machine-template-hash";
    hide Matches, IsPrefix, OnNodeFloor, UnderBeget;
    PrefixMatches("kubernetes.io/", key);
    PrefixMatches("beta.kubernetes.io/", key);
    PrefixMatches("node.kubernetes.io/", key);
    PrefixMatches("topology.kubernetes.io/", key);
    PrefixMatches("failure-domain.beta.kubernetes.io/", key);
    PrefixMatches("node-restriction.kubernetes.io/", key);
    PrefixMatches("k8s.io/", key);
    PrefixMatches("cluster.x-k8s.io/", key);
    PrefixMatches("node.cluster.x-k8s.io/", key);
    PrefixMatches("workergroup.in-cloud.io/", key);
  }

  /** The part before the first slash ends in `.beget.com`. */
  predicate UnderBeget(key: string) {
    exists i | 0 <= i <= |key| :: Free(key[..i], '/') && IsPrefix(".beget.com/", key[i..])
  }

  lemma BegetMatches(key: string)
    ensures Matches(HostUnder(".beget.com/"), key) <==> UnderBeget(key)
  {
    forall i | 0 <= i <= |key|
      ensures ".beget.com/" <= key[i..] <==> IsPrefix(".beget.com/", key[i..])
    {
    }
  }

  /** The keys that never come from a claim, told outright. */
  lemma ClaimFloorIs(key: string)
    ensures OnClaimFloor(key) <==>
              || IsPrefix("cluster.x-k8s.io/", key) || IsPrefix("workergroup.in-cloud.io/", key)
              || IsPrefix("node-group.beget.com/", key) || IsPrefix("node.cluster.x-k8s.io/", key)
              || IsPrefix("node-restriction.kubernetes.io/", key) || key == "machine-template-hash"
  {
    var ps := CLAIM_RESERVED;
    assert OnClaimFloor(key) <==>
             Matches(ps[0], key) || Matches(ps[1], key) || Matches(ps[2], key) || Matches(ps[3], key) ||
             Matches(ps[4], key) || Matches(ps[5], key) by {
      hide Matches;
    }
  }

  lemma Differs(prefix: string, key: string, k: nat)
    requires k < |prefix| && k < |key| && key[k] != prefix[k]
    ensures !IsPrefix(prefix, key)
  {
    assert |prefix| <= |key| ==> key[..|prefix|][k] == key[k];
  }

  lemma OffFloorByChars(key: string)
    requires |key| > 6 && key[0] == 'n' && key[4] == '-' && key[6] == 'o' && !UnderBeget(key)
    ensures !OnNodeFloor(key)
  {
    NodeFloorIs(key);
    hide OnNodeFloor, UnderBeget, IsPrefix;
    Differs("kubernetes.io/", key, 0);
    Differs("beta.kubernetes.io/", key, 0);
    Differs("node.kubernetes.io/", key, 4);
    Differs("topology.kubernetes.io/", key, 0);
    Differs("failure-domain.beta.kubernetes.io/", key, 0);
    Differs("node-restriction.kubernetes.io/", key, 6);
    Differs("k8s.io/", key, 0);
    Differs("cluster.x-k8s.io/", key, 0);
    Differs("node.cluster.x-k8s.io/", key, 4);
    Differs("workergroup.in-cloud.io/", key, 0);
  }

  /** Roles are deliberately off the floor: users may set them. */
  lemma RolesAreFree(role: string)
    requires Free(role, '/')
    ensures !OnNodeFloor("node-role.kubernetes.io/" + role)
  {
    var key := "node-role.kubernetes.io/" + role;
    NotUnderBeget(key, role);
    hide OnNodeFloor, UnderBeget, Free;
    OffFloorByChars(key);
  }

  lemma BegetChars(key: string, i: nat)
    requires i <= |key|
    ensures IsPrefix(".beget.com/", key[i..]) ==> i + 10 < |key| && key[i] == '.' && key[i + 10] == '/'
  {
    if IsPrefix(".beget.com/", key[i..]) {
      var head := key[i..][..11];
      assert head[0] == key[i] && head[10] == key[i + 10];
    }
  }

  lemma NotUnderBeget(key: string, role: string)
    requires key == "node-role.kubernetes.io/" + role && Free(role, '/')
    ensures !UnderBeget(key)
  {
    assert key[13] == 'e' && forall j | 24 <= j < |key| :: key[j] == role[j - 24];
    forall i | 0 <= i <= |key|
      ensures !IsPrefix(".beget.com/", key[i..])
    {
      BegetChars(key, i);
      hide IsPrefix;
    }
  }

  lemma SharedPatterns()
    ensures CLAIM_RESERVED[0] == NODE_SAFETY[7] && CLAIM_RESERVED[1] == NODE_SAFETY[9]
    ensures CLAIM_RESERVED[3] == NODE_SAFETY[8] && CLAIM_RESERVED[4] == NODE_SAFETY[5]
    ensures CLAIM_RESERVED[5] == NODE_SAFETY[11]
  {
  }

  lemma NodeGroupIsUnderBeget(key: string)
    requires Matches(CLAIM_RESERVED[2], key)
    ensures Matches(NODE_SAFETY[10], key)
  {
    assert key[..10] == "node-group" && ".beget.com/" <= key[10..];
  }

  /** Whatever the claim floor keeps out of a MachineDeployment, the node floor keeps off a Node. */
  lemma ClaimFloorInNodeFloor(key: string)
    requires OnClaimFloor(key)
    ensures OnNodeFloor(key)
  {
    var i :| 0 <= i < |CLAIM_RESERVED| && Matches(CLAIM_RESERVED[i], key);
    SharedPatterns();
    hide Matches;
    if i == 2 { NodeGroupIsUnderBeget(key); }
    var j := [7, 9, 10, 8, 5, 11][i];
    assert Matches(NODE_SAFETY[j], key);
  }

  /** ---------- Sanitizing the labels of a claim ---------- */

  predicate Alphanumeric(c: char) {
    'a' <= c <= 'z' || 'A' <= c <= 'Z' || '0' <= c <= '9'
  }

  /** Letters, digits, `-`, `_` and `.`, with a letter or digit at both ends, at most 63 in all. */
  predicate LabelText(s: string) {
    && 0 < |s| <= 63 && Alphanumeric(s[0]) && Alphanumeric(s[|s| - 1])
    && forall c | c in s :: Alphanumeric(c) || c in "-_."
  }

  /** A part of a DNS name. */
  predicate HostPart(s: string) {
    && s != "" && s[0] != '-' && s[|s| - 1] != '-'
    && forall c | c in s :: 'a' <= c <= 'z' || '0' <= c <= '9' || c == '-'
  }

  predicate HostName(s: string) {
    0 < |s| <= 253 && forall part | part in Split(s, '.') :: HostPart(part)
  }

  /** A label key: a name, or a host name, a slash and a name. */
  predicate ValidKey(key: string) {
    var parts := Split(key, '/');
    if |parts| == 1 then LabelText(parts[0])
    else |parts| == 2 && HostName(parts[0]) && LabelText(parts[1])
  }

  predicate ValidValue(value: string) {
    value == "" || LabelText(value)
  }

  /** Letters and digits alone make a label text up to 63 of them, and at least one. */
  lemma PlainTexts(s: string)
    requires forall c | c in s :: Alphanumeric(c)
    ensures LabelText(s) <==> 1 <= |s| <= 63
    ensures ValidValue(s) <==> |s| <= 63
  {
    if s != "" {
      assert s[0] in s && s[|s| - 1] in s;
    }
  }

  /** A key is a name, or a host and a name with one slash between them. */
  lemma KeyParts(host: string, name: string)
    requires Free(host, '/') && Free(name, '/')
    ensures ValidKey(name) <==> LabelText(name)
    ensures ValidKey(host + "/" + name) <==> HostName(host) && LabelText(name)
  {
    PiecesAreFree(name, '/');
    SplitHead(host, name, '/');
    assert host + ['/'] + name == host + "/" + name;
    hide LabelText, HostName;
  }

  /** The keys of badly formed entries. */
  function BadKeys(labels: Labels): set<string> {
    set k | k in labels && !(ValidKey(k) && ValidValue(labels[k]))
  }

  datatype Sanitized = Accepted(labels: Labels, rejected: seq<string>) | Invalid(keys: set<string>)

  lemma OneMoreLabel(done: Labels, key: string, value: string, policy: Policy)
    requires key !in done
    ensures var more := done[key := value];
            && BadKeys(more) == BadKeys(done) + (if ValidKey(key) && ValidValue(value) then {} else {key})
            && RefusedKeys(policy, more) == RefusedKeys(policy, done) + (if Refused(policy, key) then {key} else {})
            && Allowed(policy, more) == if Refused(policy, key) then Allowed(policy, done) else Allowed(policy, done)[key := value]
  {
    hide Refused, ValidKey, ValidValue;
  }

  /** Splits labels into the accepted ones and the keys the policy rejects. One badly formed key or value
      makes the whole map invalid, reserved or not. */
  method SanitizeNodeLabels(labels: Labels, policy: Policy) returns (result: Sanitized)
    ensures result == if BadKeys(labels) != {} then Invalid(BadKeys(labels))
                      else Accepted(Allowed(policy, labels), Sorted(RefusedKeys(policy, labels)))
  {
    hide Refused, ValidKey, ValidValue, BadKeys, RefusedKeys, Allowed;
    var accepted: Labels := map[];
    var rejected: set<string>, invalid: set<string> := {}, {};
    var rest := labels.Keys;
    ghost var done: Labels := map[];
    NoLabels(policy);
    while rest != {}
      invariant rest <= labels.Keys && done == labels - rest
      invariant invalid == BadKeys(done)
      invariant invalid == {} ==> accepted == Allowed(policy, done) && rejected == RefusedKeys(policy, done)
      decreases |rest|
    {
      var key :| key in rest;
      rest := rest - {key};
      OneMoreLabel(done, key, labels[key], policy);
      done := done[key := labels[key]];
      if !ValidKey(key) || !ValidValue(labels[key]) {
        invalid := invalid + {key};
        continue;
      }
      var denied := Denies(policy, key);
      if denied {
        rejected := rejected + {key};
      } else {
        accepted := accepted[key := labels[key]];
      }
    }
    assert done == labels;
    if invalid != {} {
      return Invalid(invalid);
    }
    var sorted := Sort(rejected);
    result := Accepted(accepted, sorted);
  }

  lemma NoLabels(policy: Policy)
    ensures BadKeys(map[]) == {} && RefusedKeys(policy, map[]) == {} && Allowed(policy, map[]) == map[]
  {
    hide Refused;
  }

  /** Accepted and rejected keys partition the input, and accepted labels keep their values. */
  lemma SanitizedPartition(labels: Labels, policy: Policy)
    ensures Allowed(policy, labels).Keys !! RefusedKeys(policy, labels)
    ensures Allowed(policy, labels).Keys + RefusedKeys(policy, labels) == labels.Keys
    ensures Allowed(policy, labels).Items <= labels.Items
  {
    hide Refused;
  }

  /** The policy in force when the operator could not read the deny patterns. */
  const FALLBACK := Policy(CLAIM_RESERVED, [], [])

  /** When the policy cannot be read, other labels are accepted than with it if and only if one of its deny
      patterns refuses a label of the claim that is not reserved anyway. */
  lemma FallbackAcceptsOthersIff(policy: Policy, labels: Labels)
    requires policy.safety == CLAIM_RESERVED
    ensures Allowed(FALLBACK, labels) != Allowed(policy, labels) <==>
            exists k :: k in labels && !OnClaimFloor(k) && MatchesAny(policy.deny, k)
  {
    assert forall k :: !MatchesAny(FALLBACK.deny, k);
    if Allowed(FALLBACK, labels) == Allowed(policy, labels) {
      forall k | k in labels && !OnClaimFloor(k)
        ensures !MatchesAny(policy.deny, k)
      {
        assert k in Allowed(FALLBACK, labels) && k in Allowed(policy, labels);
      }
    }
    hide MatchesAny;
  }

  /** ---------- From the claim to the deployment and back ---------- */

  /** What the delivery controller takes a deployment's user labels to be. */
  function UserLabels(md: Deployment): Labels {
    md.labels - md.selector.Keys
  }

  method FindUserLabels(md: Deployment) returns (out: Labels)
    ensures out == UserLabels(md)
  {
    out := map[];
    var rest := md.labels.Keys;
    while rest != {}
      invariant rest <= md.labels.Keys
      invariant out == map k | k in md.labels && k !in rest && k !in md.selector :: md.labels[k]
      decreases |rest|
    {
      var key :| key in rest;
      rest := rest - {key};
      if key in md.selector {
        continue;
      }
      out := out[key := md.labels[key]];
    }
  }

  /** The keys the operator keeps for itself and for ClusterAPI. */
  function ReservedKeys(spec: Spec): set<string> {
    CAPI_LABELS + SelectorLabels(spec).Keys
  }

  /** The exact condition: a deployment that carries a claim's labels gives them back if and only if none
      of the keys is reserved. */
  lemma RoundTripIff(spec: Spec, labels: Labels, names: Names, md: Deployment)
    requires SameInPlace(md, Desired(spec, labels, names)) && md.selector == SelectorLabels(spec)
    ensures UserLabels(md) == labels - ReservedKeys(spec)
    ensures UserLabels(md) == labels <==> labels.Keys !! ReservedKeys(spec)
  {
    assert labels.Keys !! ReservedKeys(spec) ==> labels - ReservedKeys(spec) == labels;
    if UserLabels(md) == labels {
      assert forall k | k in labels :: k !in ReservedKeys(spec);
    }
  }

  lemma HasPrefix(prefix: string, rest: string)
    ensures prefix <= prefix + rest
  {
  }

  lemma ReservedKeysAreOnFloor(spec: Spec, key: string)
    requires key in ReservedKeys(spec)
    ensures OnClaimFloor(key)
  {
    HasPrefix("cluster.x-k8s.io/", "cluster-name");
    HasPrefix("cluster.x-k8s.io/", "deployment-name");
    HasPrefix("cluster.x-k8s.io/", "set-name");
    HasPrefix("workergroup.in-cloud.io/", "claim-name");
    assert Matches(CLAIM_RESERVED[0], key) || Matches(CLAIM_RESERVED[1], key) || Matches(CLAIM_RESERVED[5], key);
  }

  /** Round trip: the labels that sanitizing accepts under any policy with the claim floor come back
      unchanged from every deployment the operator keeps for that claim. */
  lemma RoundTrip(spec: Spec, labels: Labels, policy: Policy, names: Names, md: Deployment)
    requires policy.safety == CLAIM_RESERVED
    requires SameInPlace(md, Desired(spec, Allowed(policy, labels), names)) && md.selector == SelectorLabels(spec)
    ensures UserLabels(md) == Allowed(policy, labels)
  {
    forall k | k in ReservedKeys(spec)
      ensures k !in Allowed(policy, labels)
    {
      ReservedKeysAreOnFloor(spec, k);
      hide MatchesAny;
    }
    hide Allowed;
    RoundTripIff(spec, Allowed(policy, labels), names, md);
  }
}
