/** Strings: splitting and joining, indenting, and the lexicographic order of keys. */
module Text {

  /** ---------- Split and join ---------- */

  predicate Free(s: string, c: char) {
    c !in s
  }

  /** The pieces of a string between the separators; always at least one piece. */
  function Split(s: string, c: char): (parts: seq<string>)
    ensures |parts| > 0
  {
    if s == "" then [""]
    else
      var rest := Split(s[1..], c);
      if s[0] == c then [""] + rest else [[s[0]] + rest[0]] + rest[1..]
  }

  lemma {:induction false} PiecesAreFree(s: string, c: char)
    ensures forall p | p in Split(s, c) :: Free(p, c)
    ensures Free(s, c) ==> Split(s, c) == [s]
  {
    if s != "" {
      PiecesAreFree(s[1..], c);
      var rest := Split(s[1..], c);
      assert rest[0] in rest;
      if Free(s, c) {
        assert s == [s[0]] + s[1..];
        assert Free(s[1..], c);
      }
    }
  }

  function Join(parts: seq<string>, c: char): string {
    if parts == [] then ""
    else if |parts| == 1 then parts[0]
    else parts[0] + [c] + Join(parts[1..], c)
  }

  /** Joining the pieces gives the string back. */
  lemma {:induction false} JoinSplit(s: string, c: char)
    ensures Join(Split(s, c), c) == s
  {
    if s != "" {
      JoinSplit(s[1..], c);
      var rest := Split(s[1..], c);
      if s[0] == c {
        assert ([""] + rest)[1..] == rest;
      } else {
        var parts := [[s[0]] + rest[0]] + rest[1..];
        assert parts[1..] == rest[1..];
        assert s == [s[0]] + s[1..];
        if |rest| > 1 {
          assert [s[0]] + rest[0] + [c] + Join(rest[1..], c) == [s[0]] + (rest[0] + [c] + Join(rest[1..], c));
        }
      }
    }
  }

  lemma {:induction false} SplitHead(head: string, tail: string, c: char)
    requires Free(head, c)
    ensures Split(head + [c] + tail, c) == [head] + Split(tail, c)
  {
    var s := head + [c] + tail;
    if head == "" {
      assert s[1..] == tail;
    } else {
      assert s[1..] == head[1..] + [c] + tail;
      SplitHead(head[1..], tail, c);
      assert [s[0]] + head[1..] == head;
    }
  }

  /** Splitting gives back any pieces that were joined, as long as no piece holds the separator. */
  lemma {:induction false} SplitJoin(parts: seq<string>, c: char)
    requires parts != [] && forall p | p in parts :: Free(p, c)
    ensures Split(Join(parts, c), c) == parts
  {
    if |parts| == 1 {
      PiecesAreFree(parts[0], c);
      assert parts == [parts[0]];
    } else {
      SplitJoin(parts[1..], c);
      SplitHead(parts[0], Join(parts[1..], c), c);
    }
  }

  lemma {:induction false} JoinIsEmpty(parts: seq<string>, c: char)
    requires forall p | p in parts :: p != ""
    ensures Join(parts, c) == "" <==> parts == []
  {
    if parts != [] {
      assert parts[0] in parts;
    }
  }

  /** ---------- Indenting ---------- */

  function Spaces(n: nat): string {
    seq(n, _ => ' ')
  }

  function Padded(n: nat, line: string): string {
    if line == "" then "" else Spaces(n) + line
  }

  function PaddedAll(n: nat, lines: seq<string>): seq<string> {
    seq(|lines|, i requires 0 <= i < |lines| => Padded(n, lines[i]))
  }

  /** The text with every line that is not empty moved `n` columns to the right. */
  function Indented(n: nat, s: string): string {
    Join(PaddedAll(n, Split(s, '\n')), '\n')
  }

  /** Takes up to `n` leading characters off. */
  function Stripped(n: nat, line: string): string {
    if |line| < n then "" else line[n..]
  }

  function Outdented(n: nat, s: string): string {
    var lines := Split(s, '\n');
    Join(seq(|lines|, i requires 0 <= i < |lines| => Stripped(n, lines[i])), '\n')
  }

  /** Pads the lines in place, one after the other. */
  method Indent(n: nat, s: string) returns (result: string)
    ensures result == Indented(n, s)
    ensures |Split(result, '\n')| == |Split(s, '\n')|
  {
    var pad := Spaces(n);
    var pieces := Split(s, '\n');
    var lines := new string[|pieces|](i requires 0 <= i < |pieces| => pieces[i]);
    for i := 0 to lines.Length
      invariant forall j | 0 <= j < i :: lines[j] == Padded(n, pieces[j])
      invariant forall j | i <= j < lines.Length :: lines[j] == pieces[j]
    {
      if lines[i] != "" {
        lines[i] := pad + lines[i];
      }
    }
    assert lines[..] == PaddedAll(n, pieces);
    result := Join(lines[..], '\n');
    IndentKeepsLines(n, s);
  }

  /** Indenting pads line by line: no line appears, goes or moves. */
  lemma IndentKeepsLines(n: nat, s: string)
    ensures Split(Indented(n, s), '\n') == PaddedAll(n, Split(s, '\n'))
  {
    PiecesAreFree(s, '\n');
    var lines := Split(s, '\n');
    forall i | 0 <= i < |lines|
      ensures Free(Padded(n, lines[i]), '\n')
    {
      assert Free(lines[i], '\n');
    }
    SplitJoin(PaddedAll(n, Split(s, '\n')), '\n');
  }

  /** Every line that is not empty starts with `n` more spaces; empty lines stay empty. */
  lemma IndentPads(n: nat, s: string, i: nat)
    requires i < |Split(s, '\n')|
    ensures |Split(Indented(n, s), '\n')| == |Split(s, '\n')|
    ensures var was, line := Split(s, '\n')[i], Split(Indented(n, s), '\n')[i];
            if was == "" then line == ""
            else |line| == n + |was| && line[n..] == was && forall k | 0 <= k < n :: line[k] == ' '
  {
    IndentKeepsLines(n, s);
  }

  /** Indenting twice is indenting once by the sum. */
  lemma IndentComposes(m: nat, n: nat, s: string)
    ensures Indented(m, Indented(n, s)) == Indented(m + n, s)
  {
    IndentKeepsLines(n, s);
    var lines := Split(s, '\n');
    forall i | 0 <= i < |lines|
      ensures Padded(m, Padded(n, lines[i])) == Padded(m + n, lines[i])
    {
      assert Spaces(m) + (Spaces(n) + lines[i]) == Spaces(m + n) + lines[i];
    }
    assert PaddedAll(m, PaddedAll(n, lines)) == PaddedAll(m + n, lines);
  }

  /** Indenting loses nothing: taking the padding off gives the text back. */
  lemma IndentIsInvertible(n: nat, s: string)
    ensures Outdented(n, Indented(n, s)) == s
  {
    IndentKeepsLines(n, s);
    var lines, padded := Split(s, '\n'), PaddedAll(n, Split(s, '\n'));
    forall i | 0 <= i < |lines|
      ensures Stripped(n, padded[i]) == lines[i]
    {
      assert (Spaces(n) + lines[i])[n..] == lines[i];
    }
    assert seq(|padded|, i requires 0 <= i < |padded| => Stripped(n, padded[i])) == lines;
    JoinSplit(s, '\n');
  }

  /** ---------- The order of keys ---------- */

  predicate Before(a: string, b: string) {
    if b == "" then false
    else if a == "" then true
    else a[0] < b[0] || (a[0] == b[0] && Before(a[1..], b[1..]))
  }

  lemma {:induction false} BeforeIsTotal(a: string, b: string)
    ensures Before(a, b) || a == b || Before(b, a)
    ensures !(Before(a, b) && Before(b, a)) && !Before(a, a)
  {
    if a != "" && b != "" {
      BeforeIsTotal(a[1..], b[1..]);
      assert a == [a[0]] + a[1..] && b == [b[0]] + b[1..];
    }
    if a != "" {
      BeforeIsTotal(a[1..], a[1..]);
    }
  }

  lemma {:induction false} BeforeIsTransitive(a: string, b: string, c: string)
    requires Before(a, b) && Before(b, c)
    ensures Before(a, c)
  {
    if a != "" && a[0] == b[0] == c[0] {
      BeforeIsTransitive(a[1..], b[1..], c[1..]);
    }
  }

  /** Strictly ascending: sorted and without repetition. */
  predicate Ascending(keys: seq<string>) {
    forall i, j | 0 <= i < j < |keys| :: Before(keys[i], keys[j])
  }

  /** The first key of an ascending sequence comes before all others. */
  lemma AscendingHead(keys: seq<string>)
    requires Ascending(keys) && keys != []
    ensures Ascending(keys[1..])
    ensures forall k :: k in keys[1..] <==> k in keys && k != keys[0]
    ensures forall k | k in keys[1..] :: Before(keys[0], k)
  {
    BeforeIsTotal(keys[0], keys[0]);
    assert keys == [keys[0]] + keys[1..];
  }

  /** Two ascending sequences of the same keys are the same sequence. */
  lemma {:induction false} AscendingIsUnique(a: seq<string>, b: seq<string>)
    requires Ascending(a) && Ascending(b)
    requires forall k :: k in a <==> k in b
    ensures a == b
  {
    assert a != [] ==> a[0] in b;
    assert b != [] ==> b[0] in a;
    if a != [] {
      AscendingHead(a);
      AscendingHead(b);
      BeforeIsTotal(a[0], b[0]);
      AscendingIsUnique(a[1..], b[1..]);
      assert a == [a[0]] + a[1..] && b == [b[0]] + b[1..];
    }
  }

  predicate IsLeast(k: string, keys: set<string>) {
    k in keys && forall j | j in keys :: j == k || Before(k, j)
  }

  lemma {:induction false} LeastExists(keys: set<string>)
    requires keys != {}
    ensures exists k :: IsLeast(k, keys)
  {
    var k :| k in keys;
    if keys == {k} {
      assert IsLeast(k, keys);
    } else {
      LeastExists(keys - {k});
      var l :| IsLeast(l, keys - {k});
      BeforeIsTotal(k, l);
      if Before(k, l) {
        forall j | j in keys && j != k && j != l
          ensures Before(k, j)
        {
          BeforeIsTransitive(k, l, j);
        }
        assert IsLeast(k, keys);
      } else {
        assert IsLeast(l, keys);
      }
      hide Before;
    }
  }

  lemma LeastIsUnique(keys: set<string>)
    ensures forall k, l | IsLeast(k, keys) && IsLeast(l, keys) :: k == l
  {
    forall k, l | IsLeast(k, keys) && IsLeast(l, keys)
      ensures k == l
    {
      BeforeIsTotal(k, l);
    }
  }

  /** The keys in ascending order. */
  function Sorted(keys: set<string>): (sorted: seq<string>)
    ensures Ascending(sorted)
    ensures forall k :: k in sorted <==> k in keys
  {
    if keys == {} then []
    else
      LeastExists(keys);
      LeastIsUnique(keys);
      var k :| k in keys && IsLeast(k, keys);
      [k] + Sorted(keys - {k})
  }

  /** Puts a key that is not there yet in its place. */
  method Insert(keys: seq<string>, key: string) returns (result: seq<string>)
    requires Ascending(keys) && key !in keys
    ensures Ascending(result)
    ensures forall k :: k in result <==> k == key || k in keys
  {
    var i := 0;
    while i < |keys| && Before(keys[i], key)
      invariant 0 <= i <= |keys|
      invariant forall j | 0 <= j < i :: Before(keys[j], key)
    {
      i := i + 1;
    }
    result := keys[..i] + [key] + keys[i..];
    forall j | i <= j < |keys|
      ensures Before(key, keys[j])
    {
      BeforeIsTotal(key, keys[i]);
      if j > i {
        BeforeIsTransitive(key, keys[i], keys[j]);
      }
    }
  }

  /** Sorts the keys of a map. Whatever order they come in, the result is the same. */
  method Sort(keys: set<string>) returns (sorted: seq<string>)
    ensures sorted == Sorted(keys)
  {
    sorted := [];
    var rest := keys;
    while rest != {}
      invariant rest <= keys && Ascending(sorted)
      invariant forall k :: k in sorted <==> k in keys - rest
      decreases |rest|
    {
      var key :| key in rest;
      sorted := Insert(sorted, key);
      rest := rest - {key};
    }
    AscendingIsUnique(sorted, Sorted(keys));
  }
}
