/** The node labels as one string in the variables of the bootstrap template. */
module Injection {
  import opened Objects
  import opened Text
  import opened NodeLabels

  /** A variable is a string, or some other value that the label printer never looks into. */
  datatype Variable = Text(text: string) | Other(json: string)

  function Pair(key: string, value: string): string {
    key + "=" + value
  }

  function Pairs(keys: seq<string>, labels: Labels): seq<string>
    requires forall k | k in keys :: k in labels
  {
    seq(|keys|, i requires 0 <= i < |keys| => Pair(keys[i], labels[keys[i]]))
  }

  /** The labels as `k1=v1,k2=v2`, in the order of the keys. */
  function Printed(labels: Labels): string {
    Join(Pairs(Sorted(labels.Keys), labels), ',')
  }

  class Variables {
    var entries: map<string, Variable>

    constructor (vars: map<string, Variable>)
      ensures entries == vars
    {
      entries := vars;
    }

    /** Sets the variable unless it is set already. The string depends on the labels only, not on the
        order in which the map yields its keys. */
    method InjectNodeLabels(nodeLabels: Labels)
      modifies this
      ensures entries == if "nodeLabels" in old(entries) then old(entries)
                         else old(entries)["nodeLabels" := Text(Printed(nodeLabels))]
    {
      if "nodeLabels" in entries {
        return;
      }
      var keys := Sort(nodeLabels.Keys);
      var parts: seq<string> := [];
      for i := 0 to |keys|
        invariant parts == Pairs(keys[..i], nodeLabels)
      {
        assert keys[..i + 1] == keys[..i] + [keys[i]];
        parts := parts + [Pair(keys[i], nodeLabels[keys[i]])];
      }
      assert keys[..|keys|] == keys;
      entries := entries["nodeLabels" := Text(Join(parts, ','))];
    }
  }

  /** ---------- What the string tells ---------- */

  /** Keys without separators, values without commas. */
  predicate Printable(labels: Labels) {
    forall k | k in labels :: Free(k, ',') && Free(k, '=') && Free(labels[k], ',')
  }

  lemma {:induction false} PairIsInjective(k: string, v: string, l: string, w: string)
    requires Free(k, '=') && Free(l, '=') && Pair(k, v) == Pair(l, w)
    ensures k == l && v == w
  {
    var s := Pair(k, v);
    assert s[|k|] == '=' && s[|l|] == '=';
    assert s[..|k|] == k && s[..|l|] == l && s[|k| + 1..] == v && s[|l| + 1..] == w;
  }

  lemma SplitPrinted(labels: Labels)
    requires Printable(labels)
    ensures var parts := Pairs(Sorted(labels.Keys), labels);
            if Printed(labels) == "" then parts == [] else Split(Printed(labels), ',') == parts
  {
    var keys := Sorted(labels.Keys);
    var parts := Pairs(keys, labels);
    forall p | p in parts
      ensures Free(p, ',') && p != ""
    {
      var i :| 0 <= i < |parts| && parts[i] == p;
      assert keys[i] in labels;
    }
    JoinIsEmpty(parts, ',');
    if parts != [] {
      SplitJoin(parts, ',');
    }
  }

  /** Injective: two printable label maps that print the same are the same. */
  lemma PrintedIsInjective(a: Labels, b: Labels)
    requires Printable(a) && Printable(b) && Printed(a) == Printed(b)
    ensures a == b
  {
    SplitPrinted(a);
    SplitPrinted(b);
    var ka, kb := Sorted(a.Keys), Sorted(b.Keys);
    assert Pairs(ka, a) == Pairs(kb, b);
    assert |ka| == |Pairs(ka, a)| == |kb|;
    forall i | 0 <= i < |ka|
      ensures ka[i] == kb[i] && a[ka[i]] == b[kb[i]]
    {
      assert ka[i] in a && kb[i] in b;
      assert Pairs(ka, a)[i] == Pair(ka[i], a[ka[i]]) && Pairs(kb, b)[i] == Pair(kb[i], b[kb[i]]);
      PairIsInjective(ka[i], a[ka[i]], kb[i], b[kb[i]]);
    }
    assert ka == kb;
    assert forall k :: k in a <==> k in ka;
    assert forall k :: k in b <==> k in ka;
    forall k | k in a
      ensures k in b && a[k] == b[k]
    {
      assert k in ka;
    }
  }

  lemma SplitCovers(s: string, c: char)
    ensures forall ch | ch in s :: ch == c || exists p | p in Split(s, c) :: ch in p
  {
    JoinSplit(s, c);
    JoinCovers(Split(s, c), c);
  }

  lemma {:induction false} JoinCovers(parts: seq<string>, c: char)
    ensures forall ch | ch in Join(parts, c) :: ch == c || exists p | p in parts :: ch in p
  {
    if |parts| > 1 {
      JoinCovers(parts[1..], c);
      assert parts == [parts[0]] + parts[1..];
    }
  }

  lemma HostNameIsPrintable(host: string)
    requires HostName(host)
    ensures Free(host, ',') && Free(host, '=')
  {
    SplitCovers(host, '.');
  }

  lemma KeyIsPrintable(key: string)
    requires ValidKey(key)
    ensures Free(key, ',') && Free(key, '=')
  {
    SplitCovers(key, '/');
    var parts := Split(key, '/');
    if |parts| == 2 {
      HostNameIsPrintable(parts[0]);
    }
    hide HostName;
  }

  /** Accepted labels are printable, under any policy. */
  lemma AllowedIsPrintable(labels: Labels, policy: Policy)
    requires BadKeys(labels) == {}
    ensures Printable(Allowed(policy, labels))
  {
    forall k | k in labels
      ensures Free(k, ',') && Free(k, '=') && Free(labels[k], ',')
    {
      assert k !in BadKeys(labels);
      KeyIsPrintable(k);
      hide ValidKey;
    }
    hide BadKeys, Refused;
  }

  /** A failed read of the label policy shows in the rendered string, and so can start a rollout, if and only
      if a deny pattern refuses a label of the claim that is not reserved anyway. */
  lemma FallbackShowsIff(labels: Labels, policy: Policy)
    requires BadKeys(labels) == {} && policy.safety == CLAIM_RESERVED
    ensures Printed(Allowed(FALLBACK, labels)) != Printed(Allowed(policy, labels)) <==>
            exists k :: k in labels && !OnClaimFloor(k) && MatchesAny(policy.deny, k)
  {
    FallbackAcceptsOthersIff(policy, labels);
    AllowedIsPrintable(labels, FALLBACK);
    AllowedIsPrintable(labels, policy);
    if Printed(Allowed(FALLBACK, labels)) == Printed(Allowed(policy, labels)) {
      PrintedIsInjective(Allowed(FALLBACK, labels), Allowed(policy, labels));
    }
    hide Printed, Allowed, MatchesAny, Printable;
  }

  /** The labels that pass sanitizing print injectively: different sets of labels give different strings,
      and so different renderings. */
  lemma SanitizedPrintsInjectively(a: Labels, b: Labels, policy: Policy)
    requires BadKeys(a) == {} && BadKeys(b) == {}
    requires Printed(Allowed(policy, a)) == Printed(Allowed(policy, b))
    ensures Allowed(policy, a) == Allowed(policy, b)
  {
    AllowedIsPrintable(a, policy);
    AllowedIsPrintable(b, policy);
    hide Printed, BadKeys, Allowed, Printable;
    PrintedIsInjective(Allowed(policy, a), Allowed(policy, b));
  }

  /** Without the condition it is not injective: a comma in a value imitates a second label. */
  lemma CommaInValueClashes()
    ensures map["a" := "1,b=2"] != map["a" := "1", "b" := "2"]
    ensures Printed(map["a" := "1,b=2"]) == Printed(map["a" := "1", "b" := "2"]) == "a=1,b=2"
  {
    var one, two: Labels := map["a" := "1,b=2"], map["a" := "1", "b" := "2"];
    AscendingIsUnique(Sorted(one.Keys), ["a"]);
    AscendingIsUnique(Sorted(two.Keys), ["a", "b"]);
    assert "b" in two && "b" !in one;
    assert Pair("a", "1,b=2") == "a=1,b=2" && Pair("a", "1") == "a=1" && Pair("b", "2") == "b=2";
    assert one["a"] == "1,b=2" && two["a"] == "1" && two["b"] == "2";
    assert Pairs(["a"], one) == ["a=1,b=2"];
    assert Pairs(["a", "b"], two) == ["a=1", "b=2"];
    assert Join(["a=1", "b=2"], ',') == "a=1,b=2" by {
      assert ["a=1", "b=2"][1..] == ["b=2"];
    }
  }
}
